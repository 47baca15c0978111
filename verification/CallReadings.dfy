/** The retry loop read back from its history: the row of every call and the retry event after it, in literal terms. */
module CallReadings {
  import opened Telemetry
  import opened Clocks
  import opened FetchSpec
  import opened FetchCounters
  import opened Rows
  import opened ChildRows

  /** The row of the k-th call. */
  function CallRowOf(h: seq<Entry>, root: nat, k: nat): Row { RowOf(EMPTY, SelectId(root, k), h) }

  function EventAt(x: Entry): nat {
    match x
    case Emitted(_, r) => r.at
    case AddedEvent(_, _, _, at) => at
    case _ => 0
  }

  /** A row of a call that started at `after` or later. */
  ghost predicate CallReads(row: Row, root: nat, attempt: nat, after: nat) {
    after <= row.start <= row.end
    && exists err :: row == CallRow(Local(root), attempt, err, row.start, row.end)
  }

  /** The row says how a call or a request ended. */
  ghost predicate EndsAs(row: Row, err: Option<Err>) {
    match err
    case None => row.error.None?
    case Some(cause) =>
      && row.error == Some(Message(cause))
      && "error.type" in row.columns && row.columns["error.type"] == Str(ErrorType(cause))
  }

  /**
   * The retry event after the call with this row: it comes after the call, announces the next attempt and its backoff,
   * and tells the error of the call, with its message as the body of the record.
   */
  ghost predicate RetryReads(x: Entry, rec: Recorder, root: nat, attempt: nat, row: Row) {
    && row.end <= EventAt(x) && row.error.Some? && "error.type" in row.columns
    && var attrs := [Attr("retry.attempt", Num(attempt + 1)),
                     Attr("retry.backoff_ms", Num(10 * attempt)),
                     Attr("error.type", row.columns["error.type"])];
    match rec
    case LogRecords => x == Emitted(Local(root), Record("db.query.retry", EventAt(x), Warn, "WARN", row.error, attrs))
    case SpanEvents => x == AddedEvent(root, "db.query.retry", attrs, EventAt(x))
  }

  lemma CallEnds(parent: Parent, attempt: nat, err: Option<Err>, start: nat, end: nat)
    ensures EndsAs(CallRow(parent, attempt, err, start, end), err)
  {
    ErrorsRead();
    if err == Some(DBTimeout) {
      assert "app.db.pool.in_use"[0] != "error.type"[0] && "app.db.pool.idle"[0] != "error.type"[0];
    }
  }

  // ----- One turn -----

  /** One turn, read back: its call, and the retry event before its backoff if there is one. */
  ghost predicate TurnReads(t: Turn, rec: Recorder, root: nat, attempt: nat, now: nat, timed: bool) {
    var h, id := t.work.entries, SelectId(root, attempt);
    var row, events := CallRowOf(h, root, attempt), Filter(IsRetry, h);
    && Within(h, id, id + 1) && |t.work.took| == 1 && t.work.retries <= 1 && |events| == t.work.retries
    && CallReads(row, root, attempt, now) && row.end <= t.work.at.now
    && (t.work.retries == 0 ==> !t.again && EndsAs(row, t.work.err))
    && (t.work.retries == 1 ==> RetryReads(events[0], rec, root, attempt, row))
    && (t.again ==> t.work.retries == 1)
    && (t.again && timed ==> EventAt(events[0]) + 10_000_000 * attempt <= t.work.at.now)
  }

  /** The call by itself. */
  ghost predicate StepReads(q: Step, root: nat, attempt: nat, now: nat) {
    var id := SelectId(root, attempt);
    && Within(q.entries, id, id + 1) && Filter(IsRetry, q.entries) == []
    && CallRowOf(q.entries, root, attempt) == CallRow(Local(root), attempt, q.err, now, q.at.now)
  }

  lemma SelectWithin(ctx: Context, id: nat, attempt: nat, c: Instant, after: Instant, err: Option<Err>)
    ensures Within(SelectEntries(ctx, id, attempt, c, after, err), id, id + 1)
  {
    BodiesOnSpan(ctx, id, "", false, after.now, err);
  }

  lemma SelectReadsAs(e: Env, user: string, ctx: Context, root: nat, attempt: nat, served: nat, c: Instant)
    requires ctx.parent == Local(root)
    ensures StepReads(Select(e, user, ctx, SelectId(root, attempt), attempt, served, c), root, attempt, c.now)
  {
    var id, after, err := SelectId(root, attempt), e.world.Pass(c, QUERY_WAIT), SelectError(e, served, c);
    SelectWithin(ctx, id, attempt, c, after, err);
    SelectCounts(ctx, id, attempt, c, after, err);
    EntriesRow(ctx, id, attempt, c, after, err);
  }

  lemma RetryIs(rec: Recorder, root: nat, attempt: nat, err: Err, at: nat, row: Row)
    requires EndsAs(row, Some(err)) && row.end <= at
    ensures RetryReads(RetryEntry(rec, root, attempt, err, at), rec, root, attempt, row)
  {
    assert Backoff(attempt) / 1_000_000 == 10 * attempt;
  }

  /** The call with its retry event behind it. */
  lemma RetriedReads(q: Step, rec: Recorder, root: nat, attempt: nat, err: Err, now: nat, at: nat)
    requires StepReads(q, root, attempt, now) && q.err == Some(err) && now <= q.at.now <= at
    ensures var h, id := q.entries + [RetryEntry(rec, root, attempt, err, at)], SelectId(root, attempt);
            && Within(h, id, id + 1) && CallRowOf(h, root, attempt) == CallRowOf(q.entries, root, attempt)
            && |Filter(IsRetry, h)| == 1 && EventAt(Filter(IsRetry, h)[0]) == at
            && RetryReads(Filter(IsRetry, h)[0], rec, root, attempt, CallRowOf(h, root, attempt))
  {
    var x := RetryEntry(rec, root, attempt, err, at);
    CallEnds(Local(root), attempt, q.err, now, q.at.now);
    RetryIs(rec, root, attempt, err, at, CallRowOf(q.entries, root, attempt));
    RetryIsNumbered(rec, root, attempt, err, at);
    OneRetryCounts(q.entries, x, attempt);
    RowAppend(EMPTY, SelectId(root, attempt), q.entries, x);
  }

  lemma TurnFromReads(e: Env, root: nat, attempt: nat, start: Instant, q: Step, served: nat, now: nat, timed: bool)
    requires start.now <= q.at.now && now <= start.now && StepReads(q, root, attempt, start.now)
    requires timed ==> e.world.TimersKeepTime()
    ensures TurnReads(TurnFrom(e, root, attempt, start, q, served), e.recorder, root, attempt, now, timed)
  {
    var row := CallRowOf(q.entries, root, attempt);
    CallEnds(Local(root), attempt, q.err, start.now, q.at.now);
    assert row == CallRow(Local(root), attempt, q.err, row.start, row.end);
    assert CallReads(row, root, attempt, now);
    if q.err.Some? && attempt != e.limit {
      var stop := e.world.Pass(q.at, 0);
      RetriedReads(q, e.recorder, root, attempt, q.err.value, start.now, stop.now);
      assert timed ==> e.world.Interrupts(stop, Backoff(attempt))
                       || stop.now + Backoff(attempt) <= e.world.Pass(stop, Backoff(attempt)).now;
    }
  }

  lemma TurnOfReads(e: Env, user: string, ctx: Context, root: nat, attempt: nat, served: nat, c: Instant, timed: bool)
    requires ctx.parent == Local(root) && (timed ==> e.world.TimersKeepTime())
    ensures TurnReads(TurnOf(e, user, ctx, root, attempt, served, c), e.recorder, root, attempt, c.now, timed)
  {
    var start := e.world.Pass(c, 0);
    SelectReadsAs(e, user, ctx, root, attempt, served, start);
    TurnFromReads(e, root, attempt, start, Select(e, user, ctx, SelectId(root, attempt), attempt, served, start),
                  Served(e, served, start), c.now, timed);
  }

  // ----- The loop -----

  /** Calls from `attempt` on: all their rows, in order and none before `now`. */
  ghost predicate AllCallsRead(h: seq<Entry>, root: nat, attempt: nat, n: nat, now: nat) {
    forall k: nat :: attempt <= k < attempt + n ==> CallReads(CallRowOf(h, root, k), root, k, now)
  }

  /** Retry events from `attempt` on: each belongs to the call before it. */
  ghost predicate AllRetriesRead(h: seq<Entry>, rec: Recorder, root: nat, attempt: nat, n: nat) {
    && |Filter(IsRetry, h)| == n
    && forall k: nat :: attempt <= k < attempt + n ==>
         RetryReads(Filter(IsRetry, h)[k - attempt], rec, root, k, CallRowOf(h, root, k))
  }

  /** The backoff that an event announces lies between it and the next call. */
  ghost predicate Spaced(h: seq<Entry>, root: nat, attempt: nat, n: nat) {
    forall k: nat :: attempt <= k < attempt + n && k - attempt < |Filter(IsRetry, h)| ==>
      EventAt(Filter(IsRetry, h)[k - attempt]) + 10_000_000 * k <= CallRowOf(h, root, k + 1).start
  }

  /** Unless the loop was left in a backoff, it ended as its last call did. */
  ghost predicate LoopEnds(w: Work, root: nat, attempt: nat) {
    w.took != [] && w.retries < |w.took| ==> EndsAs(CallRowOf(w.entries, root, attempt + |w.took| - 1), w.err)
  }

  ghost predicate LoopReads(w: Work, rec: Recorder, root: nat, attempt: nat, now: nat, timed: bool) {
    var n := |w.took|;
    && n > 0 && n - 1 <= w.retries <= n && !w.hit
    && Within(w.entries, SelectId(root, attempt), SelectId(root, attempt) + n)
    && AllCallsRead(w.entries, root, attempt, n, now)
    && AllRetriesRead(w.entries, rec, root, attempt, w.retries)
    && (timed ==> Spaced(w.entries, root, attempt, n - 1))
    && LoopEnds(w, root, attempt)
    && CallRowOf(w.entries, root, attempt).end <= w.at.now
  }

  /** A history of one turn in front of the rest: the rows of both are what they were. */
  lemma JoinRows(g: seq<Entry>, h: seq<Entry>, root: nat, attempt: nat, n: nat)
    requires Within(g, SelectId(root, attempt), SelectId(root, attempt) + 1)
    requires Within(h, SelectId(root, attempt + 1), SelectId(root, attempt + 1) + n)
    ensures CallRowOf(g + h, root, attempt) == CallRowOf(g, root, attempt)
    ensures forall k: nat :: k > attempt ==> CallRowOf(g + h, root, k) == CallRowOf(h, root, k)
    ensures Within(g + h, SelectId(root, attempt), SelectId(root, attempt) + 1 + n)
  {
    var id := SelectId(root, attempt);
    RowConcat(EMPTY, id, g, h);
    RowOutside(RowOf(EMPTY, id, g), id, h, id + 1, id + 1 + n);
    forall k: nat | k > attempt ensures CallRowOf(g + h, root, k) == CallRowOf(h, root, k) {
      RowConcat(EMPTY, SelectId(root, k), g, h);
      RowOutside(EMPTY, SelectId(root, k), g, id, id + 1);
    }
  }

  lemma JoinCalls(g: seq<Entry>, h: seq<Entry>, root: nat, attempt: nat, n: nat, now: nat, next: nat)
    requires CallRowOf(g + h, root, attempt) == CallRowOf(g, root, attempt)
    requires forall k: nat :: k > attempt ==> CallRowOf(g + h, root, k) == CallRowOf(h, root, k)
    requires CallReads(CallRowOf(g, root, attempt), root, attempt, now) && now <= next
    requires AllCallsRead(h, root, attempt + 1, n, next)
    ensures AllCallsRead(g + h, root, attempt, n + 1, now)
  {
    forall k: nat | attempt <= k < attempt + n + 1 ensures CallReads(CallRowOf(g + h, root, k), root, k, now) {
      if k > attempt {
        assert CallReads(CallRowOf(h, root, k), root, k, next);
      }
    }
  }

  lemma JoinRetries(g: seq<Entry>, h: seq<Entry>, rec: Recorder, root: nat, attempt: nat, n: nat)
    requires CallRowOf(g + h, root, attempt) == CallRowOf(g, root, attempt)
    requires forall k: nat :: k > attempt ==> CallRowOf(g + h, root, k) == CallRowOf(h, root, k)
    requires |Filter(IsRetry, g)| == 1
    requires RetryReads(Filter(IsRetry, g)[0], rec, root, attempt, CallRowOf(g, root, attempt))
    requires AllRetriesRead(h, rec, root, attempt + 1, n)
    ensures AllRetriesRead(g + h, rec, root, attempt, n + 1)
  {
    FilterConcat(IsRetry, g, h);
    var events := Filter(IsRetry, g + h);
    forall k: nat | attempt <= k < attempt + n + 1
      ensures RetryReads(events[k - attempt], rec, root, k, CallRowOf(g + h, root, k))
    {
      if k > attempt {
        assert events[k - attempt] == Filter(IsRetry, h)[k - (attempt + 1)];
      }
    }
  }

  lemma JoinSpaced(g: seq<Entry>, h: seq<Entry>, root: nat, attempt: nat, n: nat, next: nat)
    requires forall k: nat :: k > attempt ==> CallRowOf(g + h, root, k) == CallRowOf(h, root, k)
    requires |Filter(IsRetry, g)| == 1 && EventAt(Filter(IsRetry, g)[0]) + 10_000_000 * attempt <= next
    requires next <= CallRowOf(h, root, attempt + 1).start && Spaced(h, root, attempt + 1, n)
    ensures Spaced(g + h, root, attempt, n + 1)
  {
    FilterConcat(IsRetry, g, h);
    var events := Filter(IsRetry, g + h);
    forall k: nat | attempt <= k < attempt + n + 1 && k - attempt < |events|
      ensures EventAt(events[k - attempt]) + 10_000_000 * k <= CallRowOf(g + h, root, k + 1).start
    {
      if k > attempt {
        assert events[k - attempt] == Filter(IsRetry, h)[k - (attempt + 1)];
      }
    }
  }

  lemma JoinEnds(a: Work, b: Work, root: nat, attempt: nat)
    requires forall k: nat :: k > attempt ==> CallRowOf(a.entries + b.entries, root, k) == CallRowOf(b.entries, root, k)
    requires |a.took| == 1 && a.retries == 1 && b.took != [] && LoopEnds(b, root, attempt + 1)
    ensures LoopEnds(Join(a, b), root, attempt)
  {
    var w, last := Join(a, b), attempt + |b.took|;
    assert |w.took| == |b.took| + 1;
    assert CallRowOf(w.entries, root, last) == CallRowOf(b.entries, root, last);
    assert last == attempt + |w.took| - 1 == attempt + 1 + |b.took| - 1;
  }

  lemma JoinReads(t: Turn, rest: Work, rec: Recorder, root: nat, attempt: nat, now: nat, timed: bool)
    requires TurnReads(t, rec, root, attempt, now, timed) && t.again
    requires LoopReads(rest, rec, root, attempt + 1, t.work.at.now, timed)
    requires t.work.at.now <= rest.at.now
    ensures LoopReads(Join(t.work, rest), rec, root, attempt, now, timed)
  {
    var g, h, n := t.work.entries, rest.entries, |rest.took|;
    assert now <= CallRowOf(g, root, attempt).start <= CallRowOf(g, root, attempt).end <= t.work.at.now;
    JoinRows(g, h, root, attempt, n);
    JoinCalls(g, h, root, attempt, n, now, t.work.at.now);
    JoinRetries(g, h, rec, root, attempt, rest.retries);
    if timed {
      assert CallReads(CallRowOf(h, root, attempt + 1), root, attempt + 1, t.work.at.now);
      JoinSpaced(g, h, root, attempt, n - 1, t.work.at.now);
    }
    JoinEnds(t.work, rest, root, attempt);
  }

  lemma LastReads(t: Turn, rec: Recorder, root: nat, attempt: nat, now: nat, timed: bool)
    requires TurnReads(t, rec, root, attempt, now, timed) && !t.work.hit
    ensures LoopReads(t.work, rec, root, attempt, now, timed)
  {
  }

  lemma TurnAdvances(t: Turn, rec: Recorder, root: nat, attempt: nat, now: nat, timed: bool)
    requires TurnReads(t, rec, root, attempt, now, timed)
    ensures now <= t.work.at.now
  {
    var row := CallRowOf(t.work.entries, root, attempt);
    assert CallReads(row, root, attempt, now) && row.end <= t.work.at.now;
  }

  /** All turns read back, wherever they start. */
  ghost predicate TurnsRead(turns: Turns, rec: Recorder, root: nat, timed: bool) {
    forall a: nat, n: nat, k: Instant ::
      TurnReads(turns(a, n, k), rec, root, a, k.now, timed) && !turns(a, n, k).work.hit
  }

  lemma TurnIsRead(turns: Turns, rec: Recorder, root: nat, attempt: nat, served: nat, c: Instant, timed: bool)
    requires TurnsRead(turns, rec, root, timed)
    ensures var t := turns(attempt, served, c);
            TurnReads(t, rec, root, attempt, c.now, timed) && !t.work.hit && c.now <= t.work.at.now
  {
    TurnAdvances(turns(attempt, served, c), rec, root, attempt, c.now, timed);
  }

  lemma {:induction false} LoopReadsAs(turns: Turns, rec: Recorder, root: nat, limit: nat, attempt: nat, served: nat,
                                       c: Instant, timed: bool)
    requires attempt <= limit && TurnsRead(turns, rec, root, timed)
    ensures var w := Loop(turns, limit, attempt, served, c);
            LoopReads(w, rec, root, attempt, c.now, timed) && c.now <= w.at.now
    decreases limit - attempt
  {
    var t, w := turns(attempt, served, c), Loop(turns, limit, attempt, served, c);
    TurnIsRead(turns, rec, root, attempt, served, c, timed);
    if !t.again || attempt == limit {
      LastReads(t, rec, root, attempt, c.now, timed);
      assert w == t.work;
    } else {
      LoopReadsAs(turns, rec, root, limit, attempt + 1, t.work.served, t.work.at, timed);
      var rest := Loop(turns, limit, attempt + 1, t.work.served, t.work.at);
      JoinReads(t, rest, rec, root, attempt, c.now, timed);
      assert w == Join(t.work, rest);
    }
  }
}
