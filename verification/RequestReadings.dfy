/** A whole request read back from its history: every row and every event, in literal terms. */
module RequestReadings {
  import opened Telemetry
  import opened Clocks
  import opened FetchSpec
  import opened FetchCounters
  import opened FetchRows
  import opened Rows
  import opened ChildRows
  import opened CallReadings

  // ----- The work under the root span -----

  /** The row of the cache lookup, which is the child before the first call. */
  function LookupRowOf(h: seq<Entry>, root: nat): Row { CallRowOf(h, root, 0) }

  /** The rows and events of a lookup that made `calls` calls, counted `retries` retries and ended with `err`. */
  ghost predicate ChildrenRead(h: seq<Entry>, rec: Recorder, user: string, root: nat, hit: bool, calls: nat,
                               retries: nat, err: Option<Err>, now: nat, timed: bool)
  {
    var cache := LookupRowOf(h, root);
    && (exists failure :: cache == LookupRow(Local(root), user, hit, failure, now, cache.end)) && now <= cache.end
    && (calls == 0 <==> cache.error.Some? || hit)
    && AllCallsRead(h, root, 1, calls, cache.end)
    && AllRetriesRead(h, rec, root, 1, retries)
    && (timed && calls > 0 ==> Spaced(h, root, 1, calls - 1))
    && (retries < calls || calls == 0 ==> EndsAs(CallRowOf(h, root, calls), err))
  }

  lemma LookupEnds(parent: Parent, user: string, hit: bool, err: Option<ContextErr>, start: nat, end: nat)
    ensures EndsAs(LookupRow(parent, user, hit, err, start, end), err)
  {
    ErrorsRead();
  }

  lemma CacheWithin(e: Env, user: string, root: nat, served: nat, c: Instant)
    ensures Within(CacheWork(e, user, root, served, c).entries, root + 1, root + 2)
  {
    BodiesOnSpan(Inside(root), root + 1, CacheKey(user), e.cacheHit, 0, e.world.WaitError(c, CACHE_WAIT));
  }

  lemma CacheWorkReads(e: Env, user: string, root: nat, served: nat, c: Instant)
    ensures var get := CacheWork(e, user, root, served, c);
            && Within(get.entries, root + 1, root + 2) && Filter(IsRetry, get.entries) == []
            && LookupRowOf(get.entries, root)
               == LookupRow(Local(root), user, e.cacheHit, e.world.WaitError(c, CACHE_WAIT), c.now, get.at.now)
            && EndsAs(LookupRowOf(get.entries, root), get.err)
  {
    var after := e.world.Pass(c, CACHE_WAIT);
    CacheWithin(e, user, root, served, c);
    CacheCounts(e, user, root, served, c);
    CacheReads(e, user, Inside(root), root + 1, c);
    LookupEnds(Local(root), user, e.cacheHit, e.world.WaitError(c, CACHE_WAIT), c.now, after.now);
  }

  lemma JoinChildren(get: Work, loop: Work, rec: Recorder, user: string, root: nat, hit: bool,
                     failure: Option<ContextErr>, now: nat, timed: bool)
    requires Within(get.entries, root + 1, root + 2) && Filter(IsRetry, get.entries) == [] && now <= get.at.now
    requires LookupRowOf(get.entries, root) == LookupRow(Local(root), user, hit, failure, now, get.at.now)
    requires failure.None? && !hit
    requires LoopReads(loop, rec, root, 1, get.at.now, timed)
    ensures ChildrenRead(get.entries + loop.entries, rec, user, root, hit, |loop.took|, loop.retries, loop.err, now,
                         timed)
    ensures Within(get.entries + loop.entries, root + 1, root + 2 + |loop.took|)
  {
    var g, h, n := get.entries, loop.entries, |loop.took|;
    assert SelectId(root, 0) == root + 1 && SelectId(root, 1) == root + 2;
    JoinRows(g, h, root, 0, n);
    FilterConcat(IsRetry, g, h);
    assert Filter(IsRetry, g + h) == Filter(IsRetry, h);
    JoinLoop(g, h, loop, rec, root, get.at.now, timed);
  }

  lemma JoinLoop(g: seq<Entry>, h: seq<Entry>, loop: Work, rec: Recorder, root: nat, now: nat, timed: bool)
    requires forall k: nat :: k > 0 ==> CallRowOf(g + h, root, k) == CallRowOf(h, root, k)
    requires Filter(IsRetry, g + h) == Filter(IsRetry, h) && loop.entries == h
    requires LoopReads(loop, rec, root, 1, now, timed)
    ensures AllCallsRead(g + h, root, 1, |loop.took|, now) && AllRetriesRead(g + h, rec, root, 1, loop.retries)
    ensures timed ==> Spaced(g + h, root, 1, |loop.took| - 1)
    ensures loop.retries < |loop.took| ==> EndsAs(CallRowOf(g + h, root, |loop.took|), loop.err)
  {
    var n := |loop.took|;
    forall k: nat | 1 <= k < 1 + n ensures CallReads(CallRowOf(g + h, root, k), root, k, now) {
      assert CallReads(CallRowOf(h, root, k), root, k, now);
    }
    forall k: nat | 1 <= k < 1 + loop.retries
      ensures RetryReads(Filter(IsRetry, g + h)[k - 1], rec, root, k, CallRowOf(g + h, root, k))
    {
      assert RetryReads(Filter(IsRetry, h)[k - 1], rec, root, k, CallRowOf(h, root, k));
    }
    assert CallRowOf(g + h, root, n) == CallRowOf(h, root, n) == CallRowOf(h, root, 1 + n - 1);
  }

  /** The work of a request that is left to its children. */
  lemma ContinueReads(get: Work, turns: Turns, rec: Recorder, user: string, root: nat, hit: bool,
                      failure: Option<ContextErr>, limit: nat, now: nat, timed: bool)
    requires limit >= 1 && get.took == [] && get.retries == 0 && now <= get.at.now
    requires Within(get.entries, root + 1, root + 2) && Filter(IsRetry, get.entries) == []
    requires LookupRowOf(get.entries, root) == LookupRow(Local(root), user, hit, failure, now, get.at.now)
    requires EndsAs(LookupRowOf(get.entries, root), get.err) && get.err == failure && get.hit == (failure.None? && hit)
    requires TurnsRead(turns, rec, root, timed)
    ensures var w := Continue(get, turns, limit);
            && ChildrenRead(w.entries, rec, user, root, hit, |w.took|, w.retries, w.err, now, timed)
            && Within(w.entries, root + 1, root + 2 + |w.took|)
            && w.hit == (hit && LookupRowOf(w.entries, root).error.None?)
  {
    if get.err.None? && !get.hit {
      LoopReadsAs(turns, rec, root, limit, 1, get.served, get.at, timed);
      var loop := Loop(turns, limit, 1, get.served, get.at);
      JoinChildren(get, loop, rec, user, root, hit, failure, now, timed);
      assert get.took + loop.took == loop.took;
    }
  }

  lemma LookupReads(e: Env, user: string, ctx: Context, root: nat, served: nat, c: Instant, timed: bool)
    requires e.limit >= 1 && ctx.parent == Local(root) && (timed ==> e.world.TimersKeepTime())
    ensures var w := Lookup(e, user, ctx, root, served, c);
            && ChildrenRead(w.entries, e.recorder, user, root, e.cacheHit, |w.took|, w.retries, w.err, c.now, timed)
            && Within(w.entries, root + 1, root + 2 + |w.took|)
            && w.hit == (e.cacheHit && LookupRowOf(w.entries, root).error.None?)
  {
    var turns := TurnsOf(e, user, ctx, root);
    forall a: nat, n: nat, k: Instant
      ensures TurnReads(turns(a, n, k), e.recorder, root, a, k.now, timed) && !turns(a, n, k).work.hit
    {
      TurnOfReads(e, user, ctx, root, a, n, k, timed);
    }
    CacheWorkReads(e, user, root, served, c);
    ContinueReads(CacheWork(e, user, root, served, c), turns, e.recorder, user, root, e.cacheHit,
                  e.world.WaitError(c, CACHE_WAIT), e.limit, c.now, timed);
  }

  // ----- The root span -----

  /** The columns a root span starts with: its input, and the request info if it is a root of this process. */
  function StartColumns(user: string, ctx: Context): map<string, Value> {
    if ctx.parent.Local? || ctx.info.None? then map["user.id" := Str(user)]
    else
      var i := ctx.info.value;
      map["user.id" := Str(user),
          "user_agent.name" := Str(i.appName),
          "user_agent.version" := Str(i.appVersion),
          "user_agent.os.name" := Str(i.osName),
          "user_agent.os.version" := Str(i.osVersion),
          "app.user.country" := Str(i.country),
          "app.user.plan" := Str(i.plan),
          "app.feature.new_profile" := Flag(i.newProfile)]
  }

  /** The columns it ends with. */
  function EndColumns(columns: map<string, Value>, hit: bool, retries: nat, calls: nat, ms: nat, err: Option<Err>):
    map<string, Value>
  {
    var all := columns["cache.hit" := Flag(hit)]["retry.count" := Num(retries)]["app.db.call.count" := Num(calls)]
                      ["app.db.duration_ms" := Num(ms)];
    match err
    case None => all
    case Some(DBTimeout) => all["error.type" := Str("*main.DBTimeoutError")]
    case Some(Canceled) => all["error.type" := Str("*errors.errorString")]
    case Some(DeadlineExceeded) => all["error.type" := Str("context.deadlineExceededError")]
  }

  function RootRow(user: string, ctx: Context, hit: bool, retries: nat, calls: nat, ms: nat, err: Option<Err>,
                   start: nat, end: nat): Row
  {
    Row("fetch user", Internal, ctx.parent, start, end,
        EndColumns(StartColumns(user, ctx), hit, retries, calls, ms, err),
        if err.None? then None else Some("fetch user failed"), true)
  }

  lemma InfoColumns(columns: map<string, Value>, i: RequestInfo)
    ensures Put(columns, InfoAttrs(i))
         == columns["user_agent.name" := Str(i.appName)]["user_agent.version" := Str(i.appVersion)]
                   ["user_agent.os.name" := Str(i.osName)]["user_agent.os.version" := Str(i.osVersion)]
                   ["app.user.country" := Str(i.country)]["app.user.plan" := Str(i.plan)]
                   ["app.feature.new_profile" := Flag(i.newProfile)]
  {
    var attrs := InfoAttrs(i);
    assert attrs == attrs[..4] + attrs[4..];
    assert attrs[..4] == [attrs[0], attrs[1], attrs[2], attrs[3]] && attrs[4..] == [attrs[4], attrs[5], attrs[6]];
    PutConcat(columns, attrs[..4], attrs[4..]);
    Put4(columns, attrs[0], attrs[1], attrs[2], attrs[3]);
    Put3(Put(columns, attrs[..4]), attrs[4], attrs[5], attrs[6]);
  }

  lemma HeadReads(user: string, ctx: Context, root: nat, now: nat)
    ensures RowOf(EMPTY, root, RootStart(user, ctx, root, now))
         == Row("fetch user", Internal, ctx.parent, now, 0, StartColumns(user, ctx), None, false)
  {
    var attr := Attr("user.id", Str(user));
    var start := Started(root, ctx.parent, "fetch user", Internal, [attr], now);
    Put1(map[], attr);
    RowOne(EMPTY, root, start);
    if Enrichment(ctx, root) == [] {
      assert RootStart(user, ctx, root, now) == [start];
    } else {
      RowAppend(EMPTY, root, [start], SetAttrs(root, InfoAttrs(ctx.info.value)));
      InfoColumns(map["user.id" := Str(user)], ctx.info.value);
    }
  }

  lemma FinalReads(r: Row, root: nat, w: Work)
    ensures RowOf(r, root, [SetAttrs(root, FinalAttrs(w))])
         == r.(columns := EndColumns(r.columns, w.hit, w.retries, |w.took|, Sum(w.took) / 1_000_000, None))
  {
    var attrs := FinalAttrs(w);
    RowOne(r, root, SetAttrs(root, attrs));
    Put4(r.columns, attrs[0], attrs[1], attrs[2], attrs[3]);
  }

  lemma TailReads(r: Row, rec: Recorder, root: nat, w: Work)
    requires r.error.None?
    ensures RowOf(r, root, Epilogue(rec, root, w) + [Ended(root, w.at.now)])
         == r.(columns := EndColumns(r.columns, w.hit, w.retries, |w.took|, Sum(w.took) / 1_000_000, w.err),
               error := if w.err.None? then None else Some("fetch user failed"), end := w.at.now, ended := true)
  {
    var final := [SetAttrs(root, FinalAttrs(w))];
    FinalReads(r, root, w);
    RowAppend(r, root, Epilogue(rec, root, w), Ended(root, w.at.now));
    RowConcat(r, root, final, Failure(rec, root, w.err, w.at.now));
    if w.err.Some? {
      ErrorsRead();
      FailureRow(RowOf(r, root, final), rec, root, w.err.value, w.at.now);
    }
  }

  /** The exception event of a failed request: at its end, with the type that its row has and the error's message. */
  ghost predicate ExceptionReads(x: Entry, rec: Recorder, root: nat, row: Row, err: Err) {
    && "error.type" in row.columns
    && var attrs := [Attr("exception.type", row.columns["error.type"]),
                     Attr("exception.message", Str(Message(err))),
                     Attr("exception.stacktrace", Stack)];
    match rec
    case LogRecords =>
      x == Emitted(Local(root), Record("user.fetch.exception", row.end, Error, "ERROR", Some(Message(err)), attrs))
    case SpanEvents => x == AddedEvent(root, "exception", attrs, row.end)
  }

  lemma ExceptionIs(rec: Recorder, root: nat, user: string, ctx: Context, hit: bool, retries: nat, calls: nat, ms: nat,
                    err: Err, start: nat, end: nat)
    ensures ExceptionReads(ExceptionEntry(rec, root, "user.fetch.exception", err, end), rec, root,
                           RootRow(user, ctx, hit, retries, calls, ms, Some(err), start, end), err)
  {
    ErrorsRead();
  }

  lemma TailException(rec: Recorder, root: nat, w: Work)
    ensures Filter(IsException, Epilogue(rec, root, w) + [Ended(root, w.at.now)])
         == if w.err.None? then [] else [ExceptionEntry(rec, root, "user.fetch.exception", w.err.value, w.at.now)]
  {
    var final, end := [SetAttrs(root, FinalAttrs(w))], [Ended(root, w.at.now)];
    var failure := Failure(rec, root, w.err, w.at.now);
    FailureException(rec, root, w.err, w.at.now);
    FilterNone(IsException, final);
    FilterNone(IsException, end);
    FilterConcat(IsException, final, failure);
    FilterConcat(IsException, final + failure, end);
  }

  lemma FailureException(rec: Recorder, root: nat, err: Option<Err>, at: nat)
    ensures Filter(IsException, Failure(rec, root, err, at))
         == if err.None? then [] else [ExceptionEntry(rec, root, "user.fetch.exception", err.value, at)]
  {
    if err.Some? {
      FilterOnly(IsException, Failure(rec, root, err, at), 2);
    }
  }

  // ----- The request -----

  /** Two histories have the same child rows and the same retry events. */
  ghost predicate SameChildren(g: seq<Entry>, h: seq<Entry>, root: nat) {
    Filter(IsRetry, h) == Filter(IsRetry, g) && forall k: nat :: CallRowOf(h, root, k) == CallRowOf(g, root, k)
  }

  lemma CallsCarry(g: seq<Entry>, h: seq<Entry>, root: nat, n: nat, now: nat)
    requires SameChildren(g, h, root) && AllCallsRead(g, root, 1, n, now)
    ensures AllCallsRead(h, root, 1, n, now)
  {
    forall k: nat | 1 <= k < 1 + n ensures CallReads(CallRowOf(h, root, k), root, k, now) {
      assert CallReads(CallRowOf(g, root, k), root, k, now);
    }
  }

  lemma RetriesCarry(g: seq<Entry>, h: seq<Entry>, rec: Recorder, root: nat, n: nat)
    requires SameChildren(g, h, root) && AllRetriesRead(g, rec, root, 1, n)
    ensures AllRetriesRead(h, rec, root, 1, n)
  {
    forall k: nat | 1 <= k < 1 + n ensures RetryReads(Filter(IsRetry, h)[k - 1], rec, root, k, CallRowOf(h, root, k)) {
      assert RetryReads(Filter(IsRetry, g)[k - 1], rec, root, k, CallRowOf(g, root, k));
    }
  }

  lemma SpacedCarry(g: seq<Entry>, h: seq<Entry>, root: nat, n: nat)
    requires SameChildren(g, h, root) && Spaced(g, root, 1, n)
    ensures Spaced(h, root, 1, n)
  {
    forall k: nat | 1 <= k < 1 + n && k - 1 < |Filter(IsRetry, h)|
      ensures EventAt(Filter(IsRetry, h)[k - 1]) + 10_000_000 * k <= CallRowOf(h, root, k + 1).start
    {
      assert CallRowOf(h, root, k + 1) == CallRowOf(g, root, k + 1);
    }
  }

  lemma ChildrenCarry(g: seq<Entry>, h: seq<Entry>, rec: Recorder, user: string, root: nat, hit: bool, calls: nat,
                      retries: nat, err: Option<Err>, now: nat, timed: bool)
    requires ChildrenRead(g, rec, user, root, hit, calls, retries, err, now, timed) && SameChildren(g, h, root)
    ensures ChildrenRead(h, rec, user, root, hit, calls, retries, err, now, timed)
  {
    assert LookupRowOf(h, root) == LookupRowOf(g, root);
    assert CallRowOf(h, root, calls) == CallRowOf(g, root, calls);
    CallsCarry(g, h, root, calls, LookupRowOf(g, root).end);
    RetriesCarry(g, h, rec, root, retries);
    if timed && calls > 0 {
      SpacedCarry(g, h, root, calls - 1);
    }
  }

  lemma PartsRows(head: seq<Entry>, work: seq<Entry>, tail: seq<Entry>, root: nat, hi: nat)
    requires Within(head, root, root + 1) && Within(work, root + 1, hi) && Within(tail, root, root + 1) && hi > root
    ensures var h := head + work + tail;
            && (forall k: nat :: CallRowOf(h, root, k) == CallRowOf(work, root, k))
            && RowOf(EMPTY, root, h) == RowOf(RowOf(EMPTY, root, head), root, tail)
            && Within(h, root, hi)
  {
    var h := head + work + tail;
    forall k: nat ensures CallRowOf(h, root, k) == CallRowOf(work, root, k) {
      var id := SelectId(root, k);
      RowConcat(EMPTY, id, head + work, tail);
      RowConcat(EMPTY, id, head, work);
      RowOutside(EMPTY, id, head, root, root + 1);
      RowOutside(RowOf(EMPTY, id, work), id, tail, root, root + 1);
    }
    RowConcat(EMPTY, root, head + work, tail);
    RowConcat(EMPTY, root, head, work);
    RowOutside(RowOf(EMPTY, root, head), root, work, root + 1, hi);
  }

  lemma PartsEvents(head: seq<Entry>, work: seq<Entry>, tail: seq<Entry>)
    requires Filter(IsRetry, head) == [] && Filter(IsException, head) == []
    requires Filter(IsRetry, tail) == [] && Filter(IsException, work) == []
    ensures Filter(IsRetry, head + work + tail) == Filter(IsRetry, work)
    ensures Filter(IsException, head + work + tail) == Filter(IsException, tail)
  {
    FilterConcat(IsRetry, head + work, tail);
    FilterConcat(IsRetry, head, work);
    FilterConcat(IsException, head + work, tail);
    FilterConcat(IsException, head, work);
  }

  /** The history of a request reads as one that makes `calls` calls and `retries` retries and ends with `err`. */
  ghost predicate RequestReads(h: seq<Entry>, rec: Recorder, user: string, ctx: Context, root: nat, hit: bool,
                               calls: nat, retries: nat, ms: nat, err: Option<Err>, start: nat, end: nat, timed: bool)
  {
    var row, found := RowOf(EMPTY, root, h), hit && LookupRowOf(h, root).error.None?;
    && row == RootRow(user, ctx, found, retries, calls, ms, err, start, end)
    && ChildrenRead(h, rec, user, root, hit, calls, retries, err, start, timed)
    && Within(h, root, root + 2 + calls)
    && var exceptions := Filter(IsException, h);
    match err
    case None => exceptions == []
    case Some(cause) => |exceptions| == 1 && ExceptionReads(exceptions[0], rec, root, row, cause)
  }

  lemma PartsRead(head: seq<Entry>, w: Work, tail: seq<Entry>, rec: Recorder, user: string, ctx: Context, root: nat,
                  hit: bool, now: nat, timed: bool)
    requires head == RootStart(user, ctx, root, now) && tail == Epilogue(rec, root, w) + [Ended(root, w.at.now)]
    requires ChildrenRead(w.entries, rec, user, root, hit, |w.took|, w.retries, w.err, now, timed)
    requires Within(w.entries, root + 1, root + 2 + |w.took|) && AllInner(w.entries, root)
    requires w.hit == (hit && LookupRowOf(w.entries, root).error.None?)
    ensures RequestReads(head + w.entries + tail, rec, user, ctx, root, hit, |w.took|, w.retries,
                         Sum(w.took) / 1_000_000, w.err, now, w.at.now, timed)
  {
    var h := head + w.entries + tail;
    EndsWithin(rec, user, ctx, root, w, now);
    PartsRows(head, w.entries, tail, root, root + 2 + |w.took|);
    HeadReads(user, ctx, root, now);
    TailReads(RowOf(EMPTY, root, head), rec, root, w);
    HeadCounts(user, ctx, root, now);
    TailCounts(rec, root, w);
    InnerCounts(w.entries, root);
    PartsEvents(head, w.entries, tail);
    TailException(rec, root, w);
    ChildrenCarry(w.entries, h, rec, user, root, hit, |w.took|, w.retries, w.err, now, timed);
    assert LookupRowOf(h, root) == LookupRowOf(w.entries, root);
    if w.err.Some? {
      ExceptionIs(rec, root, user, ctx, w.hit, w.retries, |w.took|, Sum(w.took) / 1_000_000, w.err.value, now,
                  w.at.now);
    }
  }

  lemma EndsWithin(rec: Recorder, user: string, ctx: Context, root: nat, w: Work, now: nat)
    ensures Within(RootStart(user, ctx, root, now), root, root + 1)
    ensures Within(Epilogue(rec, root, w) + [Ended(root, w.at.now)], root, root + 1)
  {
  }

  /** For any request in any world: what its history, read span by span and event by event, says about it. */
  lemma HistoryReads(e: Env, user: string, ctx: Context, root: nat, served: nat, c: Instant, timed: bool)
    requires e.limit >= 1 && (timed ==> e.world.TimersKeepTime())
    ensures var h, w := FetchEntries(e, user, ctx, root, served, c), WorkOf(e, user, ctx, root, served, c);
            && |Filter(IsSelect, h)| == |w.took| && |Filter(IsRetry, h)| == w.retries
            && RequestReads(h, e.recorder, user, ctx, root, e.cacheHit, |w.took|, w.retries, Sum(w.took) / 1_000_000,
                            w.err, c.now, w.at.now, timed)
  {
    var inner := ctx.(parent := Local(root));
    var head, w, tail := RequestParts(e, user, ctx, root, served, c);
    RequestCounts(e, user, ctx, root, served, c);
    LookupReads(e, user, inner, root, served, c, timed);
    LookupInner(e, user, inner, root, served, c);
    LookupCounts(e, user, inner, root, served, c);
    PartsRead(head, w, tail, e.recorder, user, ctx, root, e.cacheHit, c.now, timed);
  }
}
