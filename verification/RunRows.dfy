/** The rows of a whole run: what the stored spans say about the requests that were sent. */
module RunRows {
  import opened Telemetry
  import opened Clocks
  import opened FetchSpec
  import opened FetchCounters
  import opened FetchRows
  import opened Rows
  import opened ChildRows
  import opened CallReadings
  import opened RequestReadings
  import opened LoadGen
  import opened Runs

  /** The columns of a root span that tell the conditions of its request. */
  ghost predicate TellsScenario(columns: map<string, Value>, sc: Scenario) {
    && "user.id" in columns && columns["user.id"] == Str(sc.userID)
    && "user_agent.name" in columns && columns["user_agent.name"] == Str(sc.info.appName)
    && "user_agent.version" in columns && columns["user_agent.version"] == Str(sc.info.appVersion)
    && "user_agent.os.name" in columns && columns["user_agent.os.name"] == Str(sc.info.osName)
    && "user_agent.os.version" in columns && columns["user_agent.os.version"] == Str(sc.info.osVersion)
    && "app.user.country" in columns && columns["app.user.country"] == Str(sc.info.country)
    && "app.user.plan" in columns && columns["app.user.plan"] == Str(sc.info.plan)
    && "app.feature.new_profile" in columns && columns["app.feature.new_profile"] == Flag(sc.info.newProfile)
  }

  /** None of these columns. */
  ghost predicate TellsNothing(columns: map<string, Value>) {
    && "user.id" !in columns && "user_agent.name" !in columns && "user_agent.version" !in columns
    && "user_agent.os.name" !in columns && "user_agent.os.version" !in columns
    && "app.user.country" !in columns && "app.user.plan" !in columns && "app.feature.new_profile" !in columns
  }

  // ----- One request -----

  lemma StartTells(sc: Scenario)
    ensures TellsScenario(StartColumns(sc.userID, Context(NoParent, Some(sc.info))), sc)
  {
  }

  lemma OtherColumn(columns: map<string, Value>, key: string, value: Value, sc: Scenario)
    requires key in {"cache.hit", "retry.count", "app.db.call.count", "app.db.duration_ms", "error.type"}
    requires TellsScenario(columns, sc)
    ensures TellsScenario(columns[key := value], sc)
  {
  }

  lemma EndTells(columns: map<string, Value>, sc: Scenario, hit: bool, retries: nat, calls: nat, ms: nat,
                 err: Option<Err>)
    requires TellsScenario(columns, sc)
    ensures TellsScenario(EndColumns(columns, hit, retries, calls, ms, err), sc)
  {
    var c1 := columns["cache.hit" := Flag(hit)];
    var c2 := c1["retry.count" := Num(retries)];
    var c3 := c2["app.db.call.count" := Num(calls)];
    var c4 := c3["app.db.duration_ms" := Num(ms)];
    OtherColumn(columns, "cache.hit", Flag(hit), sc);
    OtherColumn(c1, "retry.count", Num(retries), sc);
    OtherColumn(c2, "app.db.call.count", Num(calls), sc);
    OtherColumn(c3, "app.db.duration_ms", Num(ms), sc);
    if err.Some? {
      OtherColumn(c4, "error.type", Str(ErrorType(err.value)), sc);
      ErrorsRead();
    }
  }

  /** A column of child spans by its first letters. */
  predicate ChildKey(key: string) {
    |key| > 4 && (key[0] == 'c' || key[0] == 'd' || key[0] == 'e' || (key[0] == 'a' && key[4] == 'd'))
  }

  lemma ChildColumn(columns: map<string, Value>, key: string, value: Value)
    requires ChildKey(key) && TellsNothing(columns)
    ensures TellsNothing(columns[key := value])
  {
  }

  lemma CallColumnsTellNothing(attempt: nat)
    ensures TellsNothing(CallColumns(attempt))
  {
    var c1 := map["db.system.name" := Str("postgresql")];
    var c2 := c1["db.operation.name" := Str("SELECT")];
    var c3 := c2["db.collection.name" := Str("users")];
    var c4 := c3["db.client.connection.pool.name" := Str("users-primary")];
    assert TellsNothing(map[]);
    assert map[]["db.system.name" := Str("postgresql")] == c1;
    ChildColumn(map[], "db.system.name", Str("postgresql"));
    ChildColumn(c1, "db.operation.name", Str("SELECT"));
    ChildColumn(c2, "db.collection.name", Str("users"));
    ChildColumn(c3, "db.client.connection.pool.name", Str("users-primary"));
    ChildColumn(c4, "app.db.attempt", Num(attempt));
  }

  lemma PoolTellsNothing(columns: map<string, Value>, inUse: nat, idle: nat)
    requires TellsNothing(columns)
    ensures TellsNothing(columns["app.db.pool.in_use" := Num(inUse)]["app.db.pool.idle" := Num(idle)])
  {
    ChildColumn(columns, "app.db.pool.in_use", Num(inUse));
    ChildColumn(columns["app.db.pool.in_use" := Num(inUse)], "app.db.pool.idle", Num(idle));
  }

  lemma CallTellsNothing(parent: Parent, attempt: nat, err: Option<Err>, start: nat, end: nat)
    ensures TellsNothing(CallRow(parent, attempt, err, start, end).columns)
  {
    var columns := CallColumns(attempt);
    CallColumnsTellNothing(attempt);
    match err
    case None =>
      PoolTellsNothing(columns, 3, 7);
      ChildColumn(columns["app.db.pool.in_use" := Num(3)]["app.db.pool.idle" := Num(7)],
                  "db.response.returned_rows", Num(1));
    case Some(DBTimeout) =>
      ChildColumn(columns, "error.type", Str("*main.DBTimeoutError"));
      PoolTellsNothing(columns["error.type" := Str("*main.DBTimeoutError")], 10, 0);
    case Some(Canceled) => ChildColumn(columns, "error.type", Str("*errors.errorString"));
    case Some(DeadlineExceeded) => ChildColumn(columns, "error.type", Str("context.deadlineExceededError"));
  }

  lemma LookupTellsNothing(parent: Parent, user: string, hit: bool, err: Option<ContextErr>, start: nat, end: nat)
    ensures TellsNothing(LookupRow(parent, user, hit, err, start, end).columns)
  {
    assert TellsNothing(map[]);
    match err
    case None =>
      ChildColumn(map[], "cache.key", Str("user:" + user));
      ChildColumn(map[]["cache.key" := Str("user:" + user)], "cache.hit", Flag(hit));
    case Some(Canceled) => ChildColumn(map[], "error.type", Str("*errors.errorString"));
    case Some(DeadlineExceeded) => ChildColumn(map[], "error.type", Str("context.deadlineExceededError"));
  }

  /** The history of one request, which starts at `now` and ends at `end`. */
  ghost predicate RequestTells(h: seq<Entry>, sc: Scenario, root: nat, next: nat, now: nat, end: nat, failed: bool) {
    var row := RowOf(EMPTY, root, h);
    && root < next && Within(h, root, next)
    && Filter(IsRoot, h) == [Started(root, NoParent, "fetch user", Internal, [Attr("user.id", Str(sc.userID))], now)]
    && TellsScenario(row.columns, sc) && row.start == now && row.end == end && (row.error.Some? <==> failed)
    && (forall span: nat :: span != root ==> TellsNothing(RowOf(EMPTY, span, h).columns))
  }

  lemma OneRoot(head: seq<Entry>, work: seq<Entry>, tail: seq<Entry>)
    requires head != [] && IsRoot(head[0]) && |Filter(IsRoot, head + work + tail)| == 1
    ensures Filter(IsRoot, head + work + tail) == [head[0]]
  {
    var h := head + work + tail;
    assert h == [head[0]] + h[1..];
    FilterConcat(IsRoot, [head[0]], h[1..]);
    FilterOnly(IsRoot, [head[0]], 0);
  }

  /** The other rows: those of the lookup and of the calls, and those of spans that the request does not have. */
  lemma OthersTellNothing(h: seq<Entry>, rec: Recorder, user: string, root: nat, hit: bool, calls: nat, retries: nat,
                          err: Option<Err>, now: nat, span: nat)
    requires ChildrenRead(h, rec, user, root, hit, calls, retries, err, now, false)
    requires Within(h, root, root + 2 + calls) && span != root
    ensures TellsNothing(RowOf(EMPTY, span, h).columns)
  {
    if span == root + 1 {
      LookupTells(LookupRowOf(h, root), user, root, hit, now);
    } else if root + 2 <= span < root + 2 + calls {
      var k := span - root - 1;
      assert CallReads(CallRowOf(h, root, k), root, k, LookupRowOf(h, root).end);
      CallTells(CallRowOf(h, root, k), root, k, LookupRowOf(h, root).end);
    } else {
      RowOutside(EMPTY, span, h, root, root + 2 + calls);
    }
  }

  lemma LookupTells(row: Row, user: string, root: nat, hit: bool, now: nat)
    requires exists failure :: row == LookupRow(Local(root), user, hit, failure, now, row.end)
    ensures TellsNothing(row.columns)
  {
    var failure :| row == LookupRow(Local(root), user, hit, failure, now, row.end);
    LookupTellsNothing(Local(root), user, hit, failure, now, row.end);
  }

  lemma CallTells(row: Row, root: nat, attempt: nat, after: nat)
    requires CallReads(row, root, attempt, after)
    ensures TellsNothing(row.columns)
  {
    var failure :| row == CallRow(Local(root), attempt, failure, row.start, row.end);
    CallTellsNothing(Local(root), attempt, failure, row.start, row.end);
  }

  /** A request for a scenario, under a context that carries the info of the scenario and no span. */
  lemma ScenarioTells(e: Env, sc: Scenario, root: nat, c: Instant)
    requires e.limit >= 1
    ensures var ctx := Context(NoParent, Some(sc.info));
            var w := WorkOf(e, sc.userID, ctx, root, 0, c);
            RequestTells(FetchEntries(e, sc.userID, ctx, root, 0, c), sc, root, NextSpan(root, w), c.now, w.at.now,
                         w.err.Some?)
  {
    var ctx := Context(NoParent, Some(sc.info));
    var h, w := FetchEntries(e, sc.userID, ctx, root, 0, c), WorkOf(e, sc.userID, ctx, root, 0, c);
    HistoryReads(e, sc.userID, ctx, root, 0, c, false);
    RootIsFirst(e, sc.userID, ctx, root, c);
    RootTells(h, e, sc, ctx, root, w, c.now);
    forall span: nat | span != root ensures TellsNothing(RowOf(EMPTY, span, h).columns) {
      OthersTellNothing(h, e.recorder, sc.userID, root, e.cacheHit, |w.took|, w.retries, w.err, c.now, span);
    }
  }

  lemma RootIsFirst(e: Env, user: string, ctx: Context, root: nat, c: Instant)
    requires e.limit >= 1
    ensures Filter(IsRoot, FetchEntries(e, user, ctx, root, 0, c))
         == [Started(root, ctx.parent, "fetch user", Internal, [Attr("user.id", Str(user))], c.now)]
  {
    var head, w, tail := RequestParts(e, user, ctx, root, 0, c);
    RequestCounts(e, user, ctx, root, 0, c);
    OneRoot(head, w.entries, tail);
  }

  lemma RootTells(h: seq<Entry>, e: Env, sc: Scenario, ctx: Context, root: nat, w: Work, now: nat)
    requires ctx == Context(NoParent, Some(sc.info))
    requires RequestReads(h, e.recorder, sc.userID, ctx, root, e.cacheHit, |w.took|, w.retries,
                          Sum(w.took) / 1_000_000, w.err, now, w.at.now, false)
    ensures var row := RowOf(EMPTY, root, h);
            && TellsScenario(row.columns, sc) && row.start == now && row.end == w.at.now
            && (row.error.Some? <==> w.err.Some?)
  {
    StartTells(sc);
    var hit := e.cacheHit && LookupRowOf(h, root).error.None?;
    EndTells(StartColumns(sc.userID, ctx), sc, hit, w.retries, |w.took|, Sum(w.took) / 1_000_000, w.err);
  }

  // ----- The run -----

  /** The k-th root span tells the k-th request that was sent: its scenario, and whether it failed. */
  ghost predicate RootTellsRequest(x: Entry, s: State, sent: Sent) {
    && x.Started? && x.span < s.next
    && var row := RowOf(EMPTY, x.span, s.entries);
    TellsScenario(row.columns, sent.scenario) && row.start == x.at && (row.error.Some? <==> sent.err.Some?)
  }

  ghost predicate RootsTell(s: State) {
    && |Filter(IsRoot, s.entries)| == |s.log|
    && forall k :: 0 <= k < |s.log| ==> RootTellsRequest(Filter(IsRoot, s.entries)[k], s, s.log[k])
  }

  /** No other span tells anything of the kind. */
  ghost predicate OnlyRootsTell(s: State) {
    forall span: nat :: (forall x :: x in Filter(IsRoot, s.entries) ==> x.Started? && x.span != span) ==>
      TellsNothing(RowOf(EMPTY, span, s.entries).columns)
  }

  /** The interval lies between the end of this root span and the given time. */
  ghost predicate Gap(s: State, x: Entry, interval: int, next: nat) {
    RowOfRoot(s, x).end + interval <= next
  }

  /** The interval lies between the end of a request and the start of the next, and after the last one. */
  ghost predicate RootsSpaced(s: State, interval: int) {
    var roots := Filter(IsRoot, s.entries);
    && (forall k :: 0 <= k < |roots| - 1 ==> Gap(s, roots[k], interval, EntryAt(roots[k + 1])))
    && (roots != [] && !s.over ==> Gap(s, roots[|roots| - 1], interval, s.at.now))
  }

  function RowOfRoot(s: State, x: Entry): Row { if x.Started? then RowOf(EMPTY, x.span, s.entries) else EMPTY }

  function EntryAt(x: Entry): nat { if x.Started? then x.at else 0 }

  ghost predicate RowsTell(s: State, interval: int, timed: bool) {
    RootsTell(s) && OnlyRootsTell(s) && Within(s.entries, 0, s.next) && (timed ==> RootsSpaced(s, interval))
  }

  /** A request after a history: the rows of both are what they were. */
  lemma AppendRows(g: seq<Entry>, h: seq<Entry>, lo: nat, hi: nat)
    requires Within(g, 0, lo) && Within(h, lo, hi) && lo <= hi
    ensures forall span: nat :: span < lo ==> RowOf(EMPTY, span, g + h) == RowOf(EMPTY, span, g)
    ensures forall span: nat :: span >= lo ==> RowOf(EMPTY, span, g + h) == RowOf(EMPTY, span, h)
    ensures Within(g + h, 0, hi)
  {
    forall span: nat
      ensures RowOf(EMPTY, span, g + h) == if span < lo then RowOf(EMPTY, span, g) else RowOf(EMPTY, span, h)
    {
      RowConcat(EMPTY, span, g, h);
      if span < lo {
        RowOutside(RowOf(EMPTY, span, g), span, h, lo, hi);
      } else {
        RowOutside(EMPTY, span, g, 0, lo);
      }
    }
  }

  /** One more request at the end of a run. */
  ghost predicate Extends(s: State, t: State, h: seq<Entry>, x: Entry, sent: Sent) {
    && t.entries == s.entries + h && t.log == s.log + [sent] && s.next <= t.next
    && Filter(IsRoot, h) == [x] && x.Started? && s.next == x.span < t.next && Within(h, s.next, t.next)
    && var row := RowOf(EMPTY, x.span, h);
    && TellsScenario(row.columns, sent.scenario) && row.start == x.at && (row.error.Some? <==> sent.err.Some?)
    && (forall span: nat :: span != x.span ==> TellsNothing(RowOf(EMPTY, span, h).columns))
  }

  lemma RootsExtend(s: State, t: State, h: seq<Entry>, x: Entry, sent: Sent)
    requires RootsTell(s) && Within(s.entries, 0, s.next) && Extends(s, t, h, x, sent)
    ensures RootsTell(t) && Within(t.entries, 0, t.next) && Filter(IsRoot, t.entries) == Filter(IsRoot, s.entries) + [x]
  {
    FilterConcat(IsRoot, s.entries, h);
    AppendRows(s.entries, h, s.next, t.next);
    var roots := Filter(IsRoot, t.entries);
    forall k | 0 <= k < |t.log| ensures RootTellsRequest(roots[k], t, t.log[k]) {
      if k < |s.log| {
        assert RootTellsRequest(Filter(IsRoot, s.entries)[k], s, s.log[k]);
      }
    }
  }

  lemma OnlyRootsExtend(s: State, t: State, h: seq<Entry>, x: Entry, sent: Sent)
    requires OnlyRootsTell(s) && Within(s.entries, 0, s.next) && Extends(s, t, h, x, sent)
    requires Filter(IsRoot, t.entries) == Filter(IsRoot, s.entries) + [x]
    ensures OnlyRootsTell(t)
  {
    AppendRows(s.entries, h, s.next, t.next);
    forall span: nat | forall y :: y in Filter(IsRoot, t.entries) ==> y.Started? && y.span != span
      ensures TellsNothing(RowOf(EMPTY, span, t.entries).columns)
    {
      assert x in Filter(IsRoot, t.entries);
      if span < s.next {
        assert forall y :: y in Filter(IsRoot, s.entries) ==> y in Filter(IsRoot, t.entries);
      }
    }
  }

  /** The rows of the roots so far stay as they are, and the new one has its own. */
  lemma RootRowsExtend(s: State, t: State, h: seq<Entry>, x: Entry, sent: Sent)
    requires RootsTell(s) && Within(s.entries, 0, s.next) && Extends(s, t, h, x, sent)
    ensures forall y :: y in Filter(IsRoot, s.entries) ==> RowOfRoot(t, y) == RowOfRoot(s, y)
    ensures RowOfRoot(t, x) == RowOf(EMPTY, x.span, h)
  {
    AppendRows(s.entries, h, s.next, t.next);
    var roots := Filter(IsRoot, s.entries);
    forall y | y in roots ensures RowOfRoot(t, y) == RowOfRoot(s, y) {
      var k :| 0 <= k < |roots| && roots[k] == y;
      assert RootTellsRequest(roots[k], s, s.log[k]);
    }
  }

  lemma GapsExtend(s: State, t: State, x: Entry, interval: int)
    requires RootsSpaced(s, interval) && !s.over && x.Started? && x.at == s.at.now
    requires Filter(IsRoot, t.entries) == Filter(IsRoot, s.entries) + [x]
    requires forall y :: y in Filter(IsRoot, s.entries) ==> RowOfRoot(t, y) == RowOfRoot(s, y)
    requires !t.over ==> Gap(t, x, interval, t.at.now)
    ensures RootsSpaced(t, interval)
  {
    var roots, all := Filter(IsRoot, s.entries), Filter(IsRoot, t.entries);
    forall k | 0 <= k < |all| - 1 ensures Gap(t, all[k], interval, EntryAt(all[k + 1])) {
      assert all[k] == roots[k] && roots[k] in roots;
      if k + 1 < |roots| {
        assert Gap(s, roots[k], interval, EntryAt(roots[k + 1])) && all[k + 1] == roots[k + 1];
      } else {
        assert Gap(s, roots[k], interval, s.at.now) && all[k + 1] == x;
      }
    }
    assert all[|all| - 1] == x;
  }

  lemma SpacedExtend(s: State, t: State, h: seq<Entry>, x: Entry, sent: Sent, interval: int)
    requires RootsTell(s) && RootsSpaced(s, interval) && Within(s.entries, 0, s.next) && !s.over
    requires Extends(s, t, h, x, sent)
    requires Filter(IsRoot, t.entries) == Filter(IsRoot, s.entries) + [x]
    requires x.at == s.at.now && (!t.over ==> RowOf(EMPTY, x.span, h).end + interval <= t.at.now)
    ensures RootsSpaced(t, interval)
  {
    RootRowsExtend(s, t, h, x, sent);
    GapsExtend(s, t, x, interval);
  }

  lemma RoundTells(cfg: Config, s: State, timed: bool)
    requires cfg.Valid() && RowsTell(s, cfg.interval, timed) && !s.over && (timed ==> cfg.world.TimersKeepTime())
    ensures RowsTell(Round(cfg, s), cfg.interval, timed)
  {
    var t := Round(cfg, s);
    if cfg.world.done(s.at.step, s.at.now) {
      StoppedTells(s, t, cfg.interval, timed);
    } else {
      var (sc, rng) := Next(cfg, s.rng);
      var e, ctx := ServiceOf(cfg, sc), RequestContext(sc);
      var w := WorkOf(e, sc.userID, ctx, s.next, 0, s.at);
      var h := FetchEntries(e, sc.userID, ctx, s.next, 0, s.at);
      ScenarioTells(e, sc, s.next, s.at);
      var x := Filter(IsRoot, h)[0];
      RootsExtend(s, t, h, x, Sent(sc, w.err));
      OnlyRootsExtend(s, t, h, x, Sent(sc, w.err));
      if timed {
        assert cfg.world.Interrupts(w.at, cfg.interval) || w.at.now + cfg.interval <= t.at.now;
        SpacedExtend(s, t, h, x, Sent(sc, w.err), cfg.interval);
      }
    }
  }

  lemma StoppedTells(s: State, t: State, interval: int, timed: bool)
    requires RowsTell(s, interval, timed) && t == s.(over := true)
    ensures RowsTell(t, interval, timed)
  {
    assert forall k :: 0 <= k < |s.log| ==> RootTellsRequest(Filter(IsRoot, s.entries)[k], s, s.log[k]);
    assert forall x :: RowOfRoot(t, x) == RowOfRoot(s, x);
  }

  /**
   * After any number of iterations in any world there is one root span for each request sent, in order, whose row tells
   * the conditions of that request and whether it failed; no other span does. With timers that keep time the interval
   * lies between two requests.
   */
  lemma RunTells(cfg: Config, body: Body, at: Instant, seed: nat, n: nat, timed: bool)
    requires cfg.Valid() && IsBodyOf(body, cfg) && (timed ==> cfg.world.TimersKeepTime())
    ensures RowsTell(Rounds(body, cfg.requests, Start(at, seed), n), cfg.interval, timed)
  {
    var inv := (s: State) => RowsTell(s, cfg.interval, timed);
    forall s | inv(s) && !s.over ensures inv(body(s)) {
      RoundTells(cfg, s, timed);
      assert body(s) == Round(cfg, s);
    }
    RoundsKeep(inv, body, cfg.requests, Start(at, seed), n);
  }
}
