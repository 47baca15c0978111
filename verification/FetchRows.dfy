/** The row of attributes and status each root span ends with, and the request as a whole. */
module FetchRows {
  import opened Telemetry
  import opened Clocks
  import opened FetchSpec
  import opened FetchCounters
  import opened Rows

  // ----- The work of a request, seen from its root -----

  /** Entries of children and retry events: they leave the root's row and the request-level counts alone. */
  predicate Inner(x: Entry, root: nat) {
    match x
    case Started(id, _, name, _, _, _) => id != root && name != "fetch user"
    case SetAttrs(id, _) => id != root
    case SetError(id, description) => id != root && IsMessage(description)
    case Ended(id, _) => id != root
    case _ => EventName(x) == "" || EventName(x) == "db.query.retry"
  }

  ghost predicate AllInner(entries: seq<Entry>, root: nat) {
    Everywhere(x => Inner(x, root), entries)
  }

  lemma LookupInner(e: Env, user: string, ctx: Context, root: nat, served: nat, c: Instant)
    requires e.limit >= 1 && ctx.parent == Local(root)
    ensures AllInner(Lookup(e, user, ctx, root, served, c).entries, root)
  {
    LookupEverywhere(x => Inner(x, root), e, user, ctx, root, served, c);
  }

  // ----- The root's row -----

  /** What the row of a root span says about its request. */
  ghost predicate RowFits(row: Row, w: Work, h: seq<Entry>) {
    && row.ended
    && "retry.count" in row.columns && row.columns["retry.count"] == Num(|Filter(IsRetry, h)|)
    && "app.db.call.count" in row.columns && row.columns["app.db.call.count"] == Num(|Filter(IsSelect, h)|)
    && "cache.hit" in row.columns && row.columns["cache.hit"] == Flag(w.hit)
    && "app.db.duration_ms" in row.columns && row.columns["app.db.duration_ms"] == Num(Sum(w.took) / 1_000_000)
    && row.error == (if w.err.Some? then Some("fetch user failed") else None)
    && ("error.type" in row.columns <==> w.err.Some?)
    && (w.err.Some? ==> row.columns["error.type"] == Str(ErrorType(w.err.value)))
  }

  lemma FinalColumns(columns: map<string, Value>, w: Work)
    ensures var after := Put(columns, FinalAttrs(w));
            && "cache.hit" in after && after["cache.hit"] == Flag(w.hit)
            && "retry.count" in after && after["retry.count"] == Num(w.retries)
            && "app.db.call.count" in after && after["app.db.call.count"] == Num(|w.took|)
            && "app.db.duration_ms" in after && after["app.db.duration_ms"] == Num(Sum(w.took) / 1_000_000)
            && ("error.type" in after <==> "error.type" in columns)
  {
    var attrs := FinalAttrs(w);
    PutValue(columns, attrs, 0);
    PutValue(columns, attrs, 1);
    PutValue(columns, attrs, 2);
    PutValue(columns, attrs, 3);
    PutKeys(columns, attrs, "error.type");
  }

  lemma HeadRow(user: string, ctx: Context, root: nat, now: nat)
    ensures var r := RowOf(EMPTY, root, RootStart(user, ctx, root, now));
            !r.ended && r.error.None? && "error.type" !in r.columns
  {
    var attrs := [Attr("user.id", Str(user))];
    var start := [Started(root, ctx.parent, "fetch user", Internal, attrs, now)];
    RowConcat(EMPTY, root, start, Enrichment(ctx, root));
    PutKeys(map[], attrs, "error.type");
    assert start[1..] == [];
    var r := RowOf(EMPTY, root, start);
    RowOne(EMPTY, root, start[0]);
    assert r.columns == Put(map[], attrs);
    if Enrichment(ctx, root) != [] {
      assert Enrichment(ctx, root)[1..] == [];
      PutKeys(r.columns, InfoAttrs(ctx.info.value), "error.type");
    }
  }

  lemma EndRow(r: Row, root: nat, at: nat)
    ensures RowOf(r, root, [Ended(root, at)]) == r.(end := at, ended := true)
  {
    assert [Ended(root, at)][1..] == [];
  }

  lemma FailureRow(r: Row, rec: Recorder, root: nat, err: Err, at: nat)
    ensures RowOf(r, root, Failure(rec, root, Some(err), at))
         == r.(error := Some("fetch user failed"), columns := r.columns["error.type" := Str(ErrorType(err))])
  {
    var attrs := [Attr("error.type", Str(ErrorType(err)))];
    var exception := ExceptionEntry(rec, root, "user.fetch.exception", err, at);
    var h := Failure(rec, root, Some(err), at);
    assert h[1..] == [SetAttrs(root, attrs), exception] && h[1..][1..] == [exception] && [exception][1..] == [];
    assert attrs[1..] == [];
    var r1 := r.(error := Some("fetch user failed"));
    var r2 := r1.(columns := r1.columns["error.type" := Str(ErrorType(err))]);
    assert Put(r1.columns, attrs) == r2.columns;
    assert RowOf(r, root, h) == RowOf(r1, root, h[1..]);
    assert RowOf(r1, root, h[1..]) == RowOf(r2, root, h[1..][1..]);
    assert RowOf(r2, root, [exception]) == r2;
  }

  lemma TailRow(r: Row, rec: Recorder, root: nat, w: Work, h: seq<Entry>)
    requires !r.ended && r.error.None? && "error.type" !in r.columns
    requires |Filter(IsSelect, h)| == |w.took| && |Filter(IsRetry, h)| == w.retries
    ensures RowFits(RowOf(r, root, Epilogue(rec, root, w) + [Ended(root, w.at.now)]), w, h)
  {
    var final, end := [SetAttrs(root, FinalAttrs(w))], [Ended(root, w.at.now)];
    var r1 := r.(columns := Put(r.columns, FinalAttrs(w)));
    FinalColumns(r.columns, w);
    assert final[1..] == [] && RowOf(r, root, final) == r1;
    RowConcat(r, root, Epilogue(rec, root, w), end);
    EndRow(RowOf(r, root, Epilogue(rec, root, w)), root, w.at.now);
    if w.err.Some? {
      FailureRow(r1, rec, root, w.err.value, w.at.now);
      RowConcat(r, root, final, Failure(rec, root, w.err, w.at.now));
      FailedColumns(r1.columns, w.err.value);
    } else {
      assert Epilogue(rec, root, w) == final;
    }
  }

  lemma FailedColumns(columns: map<string, Value>, err: Err)
    ensures var after := columns["error.type" := Str(ErrorType(err))];
            forall key :: key in ["retry.count", "app.db.call.count", "cache.hit", "app.db.duration_ms"] ==>
              (key in after <==> key in columns) && (key in columns ==> after[key] == columns[key])
  {
  }

  // ----- Counting over the whole request -----

  predicate IsRootError(x: Entry) { x.SetError? && x.description == "fetch user failed" }

  /** One root span; one error status on it and one exception event exactly when the request fails. */
  ghost predicate RequestFits(h: seq<Entry>, w: Work) {
    && |Filter(IsRoot, h)| == 1
    && |Filter(IsRootError, h)| == (if w.err.Some? then 1 else 0)
    && |Filter(IsException, h)| == (if w.err.Some? then 1 else 0)
    && |Filter(IsSelect, h)| == |w.took| && |Filter(IsRetry, h)| == w.retries
  }

  lemma HeadCounts(user: string, ctx: Context, root: nat, now: nat)
    ensures var h := RootStart(user, ctx, root, now);
            && |Filter(IsRoot, h)| == 1 && Filter(IsRootError, h) == [] && Filter(IsException, h) == []
            && Filter(IsSelect, h) == [] && Filter(IsRetry, h) == []
  {
    var h := RootStart(user, ctx, root, now);
    FilterOnly(IsRoot, h, 0);
    FilterNone(IsRootError, h);
    FilterNone(IsException, h);
    FilterNone(IsSelect, h);
    FilterNone(IsRetry, h);
  }

  lemma FailureCounts(r: Recorder, root: nat, err: Option<Err>, at: nat)
    ensures var h, n := Failure(r, root, err, at), if err.Some? then 1 else 0;
            && |Filter(IsRootError, h)| == n && |Filter(IsException, h)| == n
            && Filter(IsRoot, h) == [] && Filter(IsSelect, h) == [] && Filter(IsRetry, h) == []
  {
    var h := Failure(r, root, err, at);
    if err.Some? {
      FilterOnly(IsRootError, h, 0);
      FilterOnly(IsException, h, 2);
    }
    FilterNone(IsRoot, h);
    FilterNone(IsSelect, h);
    FilterNone(IsRetry, h);
  }

  lemma Uncounted(x: Entry)
    requires x.SetAttrs? || x.Ended?
    ensures Filter(IsRoot, [x]) == [] && Filter(IsRootError, [x]) == [] && Filter(IsException, [x]) == []
    ensures Filter(IsSelect, [x]) == [] && Filter(IsRetry, [x]) == []
  {
    FilterNone(IsRoot, [x]);
    FilterNone(IsRootError, [x]);
    FilterNone(IsException, [x]);
    FilterNone(IsSelect, [x]);
    FilterNone(IsRetry, [x]);
  }

  lemma TailCounts(r: Recorder, root: nat, w: Work)
    ensures var h, n := Epilogue(r, root, w) + [Ended(root, w.at.now)], if w.err.Some? then 1 else 0;
            && |Filter(IsRoot, h)| == 0 && |Filter(IsRootError, h)| == n && |Filter(IsException, h)| == n
            && |Filter(IsSelect, h)| == 0 && |Filter(IsRetry, h)| == 0
  {
    var final, end := SetAttrs(root, FinalAttrs(w)), Ended(root, w.at.now);
    Uncounted(final);
    Uncounted(end);
    FailureCounts(r, root, w.err, w.at.now);
    PartsFit([final], Failure(r, root, w.err, w.at.now), [end]);
  }

  lemma InnerCounts(h: seq<Entry>, root: nat)
    requires AllInner(h, root)
    ensures Filter(IsRoot, h) == [] && Filter(IsRootError, h) == [] && Filter(IsException, h) == []
  {
    FilterNone(IsRoot, h);
    FilterNone(IsRootError, h);
    FilterNone(IsException, h);
  }

  lemma PartsCount(p: Entry -> bool, a: seq<Entry>, b: seq<Entry>, c: seq<Entry>)
    ensures |Filter(p, a + b + c)| == |Filter(p, a)| + |Filter(p, b)| + |Filter(p, c)|
  {
    FilterConcat(p, a, b);
    FilterConcat(p, a + b, c);
  }

  lemma PartsFit(head: seq<Entry>, work: seq<Entry>, tail: seq<Entry>)
    ensures var h := head + work + tail;
            && |Filter(IsRoot, h)| == |Filter(IsRoot, head)| + |Filter(IsRoot, work)| + |Filter(IsRoot, tail)|
            && |Filter(IsRootError, h)| == |Filter(IsRootError, head)| + |Filter(IsRootError, work)|
                + |Filter(IsRootError, tail)|
            && |Filter(IsException, h)| == |Filter(IsException, head)| + |Filter(IsException, work)|
                + |Filter(IsException, tail)|
            && |Filter(IsSelect, h)| == |Filter(IsSelect, head)| + |Filter(IsSelect, work)| + |Filter(IsSelect, tail)|
            && |Filter(IsRetry, h)| == |Filter(IsRetry, head)| + |Filter(IsRetry, work)| + |Filter(IsRetry, tail)|
  {
    PartsCount(IsRoot, head, work, tail);
    PartsCount(IsRootError, head, work, tail);
    PartsCount(IsException, head, work, tail);
    PartsCount(IsSelect, head, work, tail);
    PartsCount(IsRetry, head, work, tail);
  }

  lemma PartsRequest(head: seq<Entry>, w: Work, tail: seq<Entry>, root: nat)
    requires |Filter(IsRoot, head)| == 1 && Filter(IsRootError, head) == [] && Filter(IsException, head) == []
    requires Filter(IsSelect, head) == [] && Filter(IsRetry, head) == []
    requires AllInner(w.entries, root) && |Filter(IsSelect, w.entries)| == |w.took|
        && |Filter(IsRetry, w.entries)| == w.retries
    requires var n := if w.err.Some? then 1 else 0;
             && |Filter(IsRoot, tail)| == 0 && |Filter(IsRootError, tail)| == n && |Filter(IsException, tail)| == n
             && |Filter(IsSelect, tail)| == 0 && |Filter(IsRetry, tail)| == 0
    ensures RequestFits(head + w.entries + tail, w)
  {
    InnerCounts(w.entries, root);
    PartsFit(head, w.entries, tail);
  }

  lemma RequestCounts(e: Env, user: string, ctx: Context, root: nat, served: nat, c: Instant)
    requires e.limit >= 1
    ensures RequestFits(FetchEntries(e, user, ctx, root, served, c), WorkOf(e, user, ctx, root, served, c))
  {
    var head, w, tail := RequestParts(e, user, ctx, root, served, c);
    LookupCounts(e, user, ctx.(parent := Local(root)), root, served, c);
    LookupInner(e, user, ctx.(parent := Local(root)), root, served, c);
    HeadCounts(user, ctx, root, c.now);
    TailCounts(e.recorder, root, w);
    PartsRequest(head, w, tail, root);
  }

  lemma PartsRow(r: Row, head: seq<Entry>, work: seq<Entry>, tail: seq<Entry>, root: nat)
    requires AllInner(work, root)
    ensures RowOf(r, root, head + work + tail) == RowOf(RowOf(r, root, head), root, tail)
  {
    RowConcat(r, root, head, work);
    RowQuiet(RowOf(r, root, head), root, work);
    RowConcat(r, root, head + work, tail);
  }

  /**
   * The row of the root span agrees with the history: its counters are the numbers of SELECT spans and retry
   * events, its status and `error.type` are set exactly when the request fails.
   */
  lemma RequestRow(e: Env, user: string, ctx: Context, root: nat, served: nat, c: Instant)
    requires e.limit >= 1
    ensures var h := FetchEntries(e, user, ctx, root, served, c);
            RowFits(RowOf(EMPTY, root, h), WorkOf(e, user, ctx, root, served, c), h)
  {
    var head, w, tail := RequestParts(e, user, ctx, root, served, c);
    RequestCounts(e, user, ctx, root, served, c);
    LookupInner(e, user, ctx.(parent := Local(root)), root, served, c);
    HeadRow(user, ctx, root, c.now);
    PartsRow(EMPTY, head, w.entries, tail, root);
    TailRow(RowOf(EMPTY, root, head), e.recorder, root, w, head + w.entries + tail);
  }
}
