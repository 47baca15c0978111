/** The call time in the row of a root span against the SELECT spans of the history. */
module CallTimes {
  import opened Telemetry
  import opened Clocks
  import opened FetchSpec
  import opened FetchCounters
  import opened FetchRows
  import opened FetchTime
  import opened Rows
  import opened ChildRows
  import opened CallReadings
  import opened RequestReadings

  /** A reading of the clock takes no time. */
  ghost predicate InstantReadings(w: World) {
    forall s, t :: w.tick(s, t, 0).elapsed == 0
  }

  lemma IdealReadsAtOnce(w: World, cancel: Option<nat>)
    requires w.Ideal(cancel)
    ensures InstantReadings(w)
  {
    forall s, t ensures w.tick(s, t, 0).elapsed == 0 {
      assert IdealTick(cancel, t, 0, w.tick(s, t, 0));
    }
  }

  /** The time from start to end of a stored span. */
  function Duration(r: Row): int { r.end - r.start }

  /** The time spent in some spans of a history, given by their starts. */
  function TimeIn(h: seq<Entry>, starts: seq<Entry>): int {
    if starts == [] then 0
    else
      var x := starts[|starts| - 1];
      TimeIn(h, starts[..|starts| - 1]) + if x.Started? then Duration(RowOf(EMPTY, x.span, h)) else 0
  }

  // ----- Each call -----

  /**
   * What is measured of each call from `attempt` on: no less than its span, exactly its span if readings take no time,
   * and 20 ms if the clock is ideal and nothing cancels the request.
   */
  ghost predicate Measures(h: seq<Entry>, root: nat, attempt: nat, took: seq<nat>, instant: bool, ideal: bool) {
    forall k: nat :: attempt <= k < attempt + |took| ==>
      MeasuresCall(CallRowOf(h, root, k), took[k - attempt], instant, ideal)
  }

  predicate MeasuresCall(row: Row, took: nat, instant: bool, ideal: bool) {
    && Duration(row) <= took
    && (instant ==> Duration(row) == took)
    && (ideal ==> took == 20_000_000)
  }

  ghost predicate TurnMeasures(t: Turn, root: nat, attempt: nat, instant: bool, ideal: bool) {
    && |t.work.took| == 1 && Within(t.work.entries, SelectId(root, attempt), SelectId(root, attempt) + 1)
    && MeasuresCall(CallRowOf(t.work.entries, root, attempt), t.work.took[0], instant, ideal)
  }

  lemma TurnOfMeasures(e: Env, user: string, ctx: Context, root: nat, attempt: nat, served: nat, c: Instant,
                       instant: bool, ideal: bool)
    requires ctx.parent == Local(root)
    requires (instant ==> InstantReadings(e.world)) && (ideal ==> e.world.Ideal(None))
    ensures TurnMeasures(TurnOf(e, user, ctx, root, attempt, served, c), root, attempt, instant, ideal)
  {
    var id, start := SelectId(root, attempt), e.world.Pass(c, 0);
    var q := Select(e, user, ctx, id, attempt, served, start);
    SelectReadsAs(e, user, ctx, root, attempt, served, start);
    TurnOfReads(e, user, ctx, root, attempt, served, c, false);
    TurnFromMeasures(e, root, attempt, start, q, Served(e, served, start), instant, ideal);
  }

  lemma TurnFromMeasures(e: Env, root: nat, attempt: nat, start: Instant, q: Step, served: nat,
                         instant: bool, ideal: bool)
    requires start.now <= q.at.now && q.at == e.world.Pass(start, QUERY_WAIT) && StepReads(q, root, attempt, start.now)
    requires (instant ==> InstantReadings(e.world)) && (ideal ==> e.world.Ideal(None))
    ensures var t := TurnFrom(e, root, attempt, start, q, served);
            |t.work.took| == 1 && MeasuresCall(CallRowOf(t.work.entries, root, attempt), t.work.took[0], instant, ideal)
  {
    var t := TurnFrom(e, root, attempt, start, q, served);
    var row := CallRowOf(q.entries, root, attempt);
    assert row.start == start.now && row.end == q.at.now by {
      assert row == CallRow(Local(root), attempt, q.err, start.now, q.at.now);
    }
    if q.err.Some? && attempt != e.limit {
      var x := RetryEntry(e.recorder, root, attempt, q.err.value, e.world.Pass(q.at, 0).now);
      RowAppend(EMPTY, SelectId(root, attempt), q.entries, x);
    }
    if ideal {
      IdealPass(e.world, start, QUERY_WAIT);
      IdealPass(e.world, q.at, 0);
    }
  }

  ghost predicate WorkMeasures(w: Work, root: nat, attempt: nat, instant: bool, ideal: bool) {
    && Within(w.entries, SelectId(root, attempt), SelectId(root, attempt) + |w.took|)
    && Measures(w.entries, root, attempt, w.took, instant, ideal)
  }

  lemma RowsMeasure(all: seq<Entry>, g: seq<Entry>, h: seq<Entry>, root: nat, attempt: nat, first: nat, took: seq<nat>,
                    instant: bool, ideal: bool)
    requires CallRowOf(all, root, attempt) == CallRowOf(g, root, attempt)
    requires forall k: nat :: k > attempt ==> CallRowOf(all, root, k) == CallRowOf(h, root, k)
    requires MeasuresCall(CallRowOf(g, root, attempt), first, instant, ideal)
    requires Measures(h, root, attempt + 1, took, instant, ideal)
    ensures Measures(all, root, attempt, [first] + took, instant, ideal)
  {
    var both := [first] + took;
    forall k: nat | attempt <= k < attempt + |both|
      ensures MeasuresCall(CallRowOf(all, root, k), both[k - attempt], instant, ideal)
    {
      if k == attempt {
        assert both[k - attempt] == first;
      } else {
        assert CallRowOf(all, root, k) == CallRowOf(h, root, k);
        assert both[k - attempt] == took[k - (attempt + 1)];
        assert MeasuresCall(CallRowOf(h, root, k), took[k - (attempt + 1)], instant, ideal);
      }
    }
  }

  lemma JoinMeasures(t: Turn, rest: Work, root: nat, attempt: nat, instant: bool, ideal: bool)
    requires TurnMeasures(t, root, attempt, instant, ideal) && WorkMeasures(rest, root, attempt + 1, instant, ideal)
    ensures WorkMeasures(Join(t.work, rest), root, attempt, instant, ideal)
  {
    var g, h := t.work.entries, rest.entries;
    JoinRows(g, h, root, attempt, |rest.took|);
    RowsMeasure(g + h, g, h, root, attempt, t.work.took[0], rest.took, instant, ideal);
    assert t.work.took == [t.work.took[0]];
    assert Join(t.work, rest).took == [t.work.took[0]] + rest.took;
  }

  lemma LastMeasures(t: Turn, root: nat, attempt: nat, instant: bool, ideal: bool)
    requires TurnMeasures(t, root, attempt, instant, ideal)
    ensures WorkMeasures(t.work, root, attempt, instant, ideal)
  {
  }

  lemma {:induction false} LoopMeasures(turns: Turns, root: nat, limit: nat, attempt: nat, served: nat, c: Instant,
                                        instant: bool, ideal: bool)
    requires attempt <= limit
    requires forall a, n, k :: TurnMeasures(turns(a, n, k), root, a, instant, ideal)
    ensures WorkMeasures(Loop(turns, limit, attempt, served, c), root, attempt, instant, ideal)
    decreases limit - attempt
  {
    var t := turns(attempt, served, c);
    assert TurnMeasures(t, root, attempt, instant, ideal);
    if !t.again || attempt == limit {
      LastMeasures(t, root, attempt, instant, ideal);
    } else {
      LoopMeasures(turns, root, limit, attempt + 1, t.work.served, t.work.at, instant, ideal);
      JoinMeasures(t, Loop(turns, limit, attempt + 1, t.work.served, t.work.at), root, attempt, instant, ideal);
    }
  }

  lemma ContinueMeasures(get: Work, turns: Turns, root: nat, limit: nat, instant: bool, ideal: bool)
    requires limit >= 1 && get.took == [] && Within(get.entries, root + 1, root + 2)
    requires forall a, n, k :: TurnMeasures(turns(a, n, k), root, a, instant, ideal)
    ensures var w := Continue(get, turns, limit);
            Measures(w.entries, root, 1, w.took, instant, ideal)
  {
    LoopMeasures(turns, root, limit, 1, get.served, get.at, instant, ideal);
    var loop := Loop(turns, limit, 1, get.served, get.at);
    JoinRows(get.entries, loop.entries, root, 0, |loop.took|);
    assert get.took + loop.took == loop.took;
    forall k: nat | 1 <= k < 1 + |loop.took|
      ensures MeasuresCall(CallRowOf(get.entries + loop.entries, root, k), loop.took[k - 1], instant, ideal)
    {
      assert MeasuresCall(CallRowOf(loop.entries, root, k), loop.took[k - 1], instant, ideal);
    }
  }

  lemma LookupMeasures(e: Env, user: string, ctx: Context, root: nat, served: nat, c: Instant,
                       instant: bool, ideal: bool)
    requires e.limit >= 1 && ctx.parent == Local(root)
    requires (instant ==> InstantReadings(e.world)) && (ideal ==> e.world.Ideal(None))
    ensures var w := Lookup(e, user, ctx, root, served, c);
            Measures(w.entries, root, 1, w.took, instant, ideal)
  {
    var turns := TurnsOf(e, user, ctx, root);
    forall a, n, k ensures TurnMeasures(turns(a, n, k), root, a, instant, ideal) {
      TurnOfMeasures(e, user, ctx, root, a, n, k, instant, ideal);
    }
    CacheWorkReads(e, user, root, served, c);
    ContinueMeasures(CacheWork(e, user, root, served, c), turns, root, e.limit, instant, ideal);
  }

  // ----- All calls together -----

  /** The spans are the calls from the first on. */
  ghost predicate AreCalls(starts: seq<Entry>, root: nat) {
    forall k: nat :: k < |starts| ==> IsCall(starts[k], root, 1 + k)
  }

  predicate IsCall(x: Entry, root: nat, attempt: nat) { x.Started? && x.span == SelectId(root, attempt) }

  /** A total of call times against a total of measured times. */
  predicate TotalsFit(time: int, total: nat, n: nat, instant: bool, ideal: bool) {
    time <= total && (instant ==> time == total) && (ideal ==> total == 20_000_000 * n)
  }

  lemma {:induction false} TimesAdd(h: seq<Entry>, root: nat, starts: seq<Entry>, took: seq<nat>,
                                    instant: bool, ideal: bool)
    requires |starts| == |took| && Measures(h, root, 1, took, instant, ideal) && AreCalls(starts, root)
    ensures TotalsFit(TimeIn(h, starts), Sum(took), |took|, instant, ideal)
    decreases |took|
  {
    if took == [] {
    } else {
      var n := |took| - 1;
      PrefixMeasures(h, root, took, n, instant, ideal);
      assert AreCalls(starts[..n], root) by {
        assert forall k: nat :: k < n ==> starts[..n][k] == starts[k];
      }
      TimesAdd(h, root, starts[..n], took[..n], instant, ideal);
      assert IsCall(starts[n], root, 1 + n);
      TimesStep(TimeIn(h, starts[..n]), Duration(CallRowOf(h, root, 1 + n)), took, n, instant, ideal);
      assert TimeIn(h, starts) == TimeIn(h, starts[..n]) + Duration(CallRowOf(h, root, 1 + n));
    }
  }

  lemma PrefixMeasures(h: seq<Entry>, root: nat, took: seq<nat>, n: nat, instant: bool, ideal: bool)
    requires n < |took| && Measures(h, root, 1, took, instant, ideal)
    ensures Measures(h, root, 1, took[..n], instant, ideal)
    ensures MeasuresCall(CallRowOf(h, root, 1 + n), took[n], instant, ideal)
  {
    assert MeasuresCall(CallRowOf(h, root, 1 + n), took[1 + n - 1], instant, ideal);
    forall k: nat | 1 <= k < 1 + n ensures MeasuresCall(CallRowOf(h, root, k), took[..n][k - 1], instant, ideal) {
      assert MeasuresCall(CallRowOf(h, root, k), took[k - 1], instant, ideal);
    }
  }

  lemma TimesStep(time: int, last: int, took: seq<nat>, n: nat, instant: bool, ideal: bool)
    requires |took| == n + 1 && TotalsFit(time, Sum(took[..n]), n, instant, ideal)
    requires last <= took[n] && (instant ==> last == took[n]) && (ideal ==> took[n] == 20_000_000)
    ensures TotalsFit(time + last, Sum(took), n + 1, instant, ideal)
  {
    assert took == took[..n] + [took[n]];
    SumAppend(took[..n], took[n]);
  }

  /** The call time of a stored root span, in milliseconds. */
  ghost predicate CallTimeIs(row: Row, ms: nat) {
    "app.db.duration_ms" in row.columns && row.columns["app.db.duration_ms"] == Num(ms)
  }

  /** The call time of the root's row against the SELECT spans of the history. */
  ghost predicate TimeReads(h: seq<Entry>, root: nat, ms: nat, instant: bool, ideal: bool) {
    var row, calls := RowOf(EMPTY, root, h), Filter(IsSelect, h);
    && CallTimeIs(row, ms)
    && TimeIn(h, calls) <= 1_000_000 * ms + 999_999
    && (instant ==> 1_000_000 * ms <= TimeIn(h, calls))
    && (ideal ==> ms == 20 * |calls| && TimeIn(h, calls) == 20_000_000 * |calls|)
  }

  lemma RoundsDown(h: seq<Entry>, root: nat, total: nat, instant: bool, ideal: bool)
    requires CallTimeIs(RowOf(EMPTY, root, h), total / 1_000_000)
    requires TotalsFit(TimeIn(h, Filter(IsSelect, h)), total, |Filter(IsSelect, h)|, instant, ideal)
    requires ideal ==> instant
    ensures TimeReads(h, root, total / 1_000_000, instant, ideal)
  {
  }

  /** What the rows of the work say, the rows of the request say. */
  lemma WorkCarries(h: seq<Entry>, g: seq<Entry>, root: nat, took: seq<nat>, instant: bool, ideal: bool)
    requires Measures(g, root, 1, took, instant, ideal)
    requires forall k: nat :: CallRowOf(h, root, k) == CallRowOf(g, root, k)
    requires Filter(IsSelect, h) == Filter(IsSelect, g) && NumberedSelects(Filter(IsSelect, g), Local(root), root, 1)
    ensures Measures(h, root, 1, took, instant, ideal) && AreCalls(Filter(IsSelect, h), root)
  {
    forall k: nat | 1 <= k < 1 + |took| ensures MeasuresCall(CallRowOf(h, root, k), took[k - 1], instant, ideal) {
      assert MeasuresCall(CallRowOf(g, root, k), took[k - 1], instant, ideal);
    }
    forall k: nat | k < |Filter(IsSelect, h)| ensures IsCall(Filter(IsSelect, h)[k], root, 1 + k) {
      assert IsNumberedSelect(Filter(IsSelect, g)[k], Local(root), root, 1 + k);
    }
  }

  /** The SELECT spans of a request are those of its work, and so are their rows. */
  lemma SameCalls(e: Env, user: string, ctx: Context, root: nat, served: nat, c: Instant)
    requires e.limit >= 1
    ensures var h, w := FetchEntries(e, user, ctx, root, served, c), WorkOf(e, user, ctx, root, served, c);
            && Filter(IsSelect, h) == Filter(IsSelect, w.entries)
            && (forall k: nat :: CallRowOf(h, root, k) == CallRowOf(w.entries, root, k))
  {
    var head, w, tail := RequestParts(e, user, ctx, root, served, c);
    LookupReads(e, user, ctx.(parent := Local(root)), root, served, c, false);
    EndsWithin(e.recorder, user, ctx, root, w, c.now);
    PartsRows(head, w.entries, tail, root, root + 2 + |w.took|);
    HeadCounts(user, ctx, root, c.now);
    TailCounts(e.recorder, root, w);
    FilterConcat(IsSelect, head, w.entries);
    FilterConcat(IsSelect, head + w.entries, tail);
  }

  /**
   * In every world `app.db.duration_ms` accounts for the SELECT spans up to the last millisecond; where reading the
   * clock takes no time it is their time in whole milliseconds; on an ideal clock it is 20 for each of them.
   */
  lemma DurationCovers(e: Env, user: string, ctx: Context, root: nat, served: nat, c: Instant,
                       instant: bool, ideal: bool)
    requires e.limit >= 1 && (ideal ==> instant)
    requires (instant ==> InstantReadings(e.world)) && (ideal ==> e.world.Ideal(None))
    ensures exists ms: nat :: TimeReads(FetchEntries(e, user, ctx, root, served, c), root, ms, instant, ideal)
  {
    var inner := ctx.(parent := Local(root));
    var h, w := FetchEntries(e, user, ctx, root, served, c), WorkOf(e, user, ctx, root, served, c);
    RequestRow(e, user, ctx, root, served, c);
    SameCalls(e, user, ctx, root, served, c);
    LookupMeasures(e, user, inner, root, served, c, instant, ideal);
    LookupCounts(e, user, inner, root, served, c);
    WorkCarries(h, w.entries, root, w.took, instant, ideal);
    TimesAdd(h, root, Filter(IsSelect, h), w.took, instant, ideal);
    RoundsDown(h, root, Sum(w.took), instant, ideal);
  }
}
