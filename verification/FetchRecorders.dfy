/** The two event recorders write the same history, up to the API they write it with. */
module FetchRecorders {
  import opened Telemetry
  import opened Clocks
  import opened FetchSpec

  predicate IsNamedLog(x: Entry) { x.Emitted? && x.record.eventName != "" }

  predicate IsSpanEvent(x: Entry) { x.AddedEvent? }

  /** What is neither kind of event: spans, attributes, statuses and diagnostic records. */
  predicate IsPlain(x: Entry) { !IsNamedLog(x) && !IsSpanEvent(x) }

  /** A named record as a span event: severity and body are lost, and every exception is called `exception`. */
  function AsSpanEvent(x: Entry): Entry {
    if IsNamedLog(x) && x.context.Local? then
      AddedEvent(x.context.id, if x.record.eventName == "user.fetch.exception" then "exception" else x.record.eventName,
                 x.record.attrs, x.record.at)
    else x
  }

  function Translate(h: seq<Entry>): (r: seq<Entry>)
    ensures |r| == |h| && forall i :: 0 <= i < |h| ==> r[i] == AsSpanEvent(h[i])
  {
    seq(|h|, i requires 0 <= i < |h| => AsSpanEvent(h[i]))
  }

  lemma TranslateConcat(g: seq<Entry>, h: seq<Entry>)
    ensures Translate(g + h) == Translate(g) + Translate(h)
  {
  }

  lemma TranslatePlain(h: seq<Entry>)
    requires forall x :: x in h ==> !IsNamedLog(x)
    ensures Translate(h) == h
  {
  }

  // ----- The work -----

  function TranslateWork(w: Work): Work { w.(entries := Translate(w.entries)) }

  /** The same service with the other recorder. */
  ghost predicate Counterparts(logs: Env, spans: Env) {
    logs.recorder == LogRecords && spans == logs.(recorder := SpanEvents)
  }

  lemma SelectPlain(ctx: Context, id: nat, attempt: nat, c: Instant, after: Instant, err: Option<Err>)
    ensures forall x :: x in SelectEntries(ctx, id, attempt, c, after, err) ==> !IsNamedLog(x)
  {
    BodiesOnSpan(ctx, id, "", false, after.now, err);
  }

  lemma TurnTranslates(e: Env, e': Env, user: string, ctx: Context, root: nat, attempt: nat, served: nat, c: Instant)
    requires Counterparts(e, e')
    ensures var t := TurnOf(e, user, ctx, root, attempt, served, c);
            TurnOf(e', user, ctx, root, attempt, served, c) == t.(work := TranslateWork(t.work))
  {
    var id, start := SelectId(root, attempt), e.world.Pass(c, 0);
    var q := Select(e, user, ctx, id, attempt, served, start);
    SelectPlain(ctx, id, attempt, start, q.at, q.err);
    TurnFromTranslates(e, e', root, attempt, start, q, Served(e, served, start));
  }

  lemma TurnFromTranslates(e: Env, e': Env, root: nat, attempt: nat, start: Instant, q: Step, served: nat)
    requires Counterparts(e, e') && start.now <= q.at.now && forall x :: x in q.entries ==> !IsNamedLog(x)
    ensures var t := TurnFrom(e, root, attempt, start, q, served);
            TurnFrom(e', root, attempt, start, q, served) == t.(work := TranslateWork(t.work))
  {
    TranslatePlain(q.entries);
    if q.err.Some? && attempt != e.limit {
      var stop := e.world.Pass(q.at, 0).now;
      TranslateConcat(q.entries, [RetryEntry(LogRecords, root, attempt, q.err.value, stop)]);
    }
  }

  lemma {:induction false} LoopTranslates(turns: Turns, turns': Turns, limit: nat, attempt: nat, served: nat,
                                          c: Instant)
    requires attempt <= limit
    requires forall a, n, k :: turns'(a, n, k) == turns(a, n, k).(work := TranslateWork(turns(a, n, k).work))
    ensures Loop(turns', limit, attempt, served, c) == TranslateWork(Loop(turns, limit, attempt, served, c))
    decreases limit - attempt
  {
    var t := turns(attempt, served, c);
    if !t.again || attempt == limit {
    } else {
      LoopTranslates(turns, turns', limit, attempt + 1, t.work.served, t.work.at);
      TranslateConcat(t.work.entries, Loop(turns, limit, attempt + 1, t.work.served, t.work.at).entries);
    }
  }

  lemma ContinueTranslates(get: Work, turns: Turns, turns': Turns, limit: nat)
    requires limit >= 1 && Translate(get.entries) == get.entries
    requires forall a, n, k :: turns'(a, n, k) == turns(a, n, k).(work := TranslateWork(turns(a, n, k).work))
    ensures Continue(get, turns', limit) == TranslateWork(Continue(get, turns, limit))
  {
    LoopTranslates(turns, turns', limit, 1, get.served, get.at);
    TranslateConcat(get.entries, Loop(turns, limit, 1, get.served, get.at).entries);
  }

  lemma LookupTranslates(e: Env, e': Env, user: string, ctx: Context, root: nat, served: nat, c: Instant)
    requires e.limit >= 1 && Counterparts(e, e')
    ensures Lookup(e', user, ctx, root, served, c) == TranslateWork(Lookup(e, user, ctx, root, served, c))
  {
    var turns, turns' := TurnsOf(e, user, ctx, root), TurnsOf(e', user, ctx, root);
    forall a, n, k ensures turns'(a, n, k) == turns(a, n, k).(work := TranslateWork(turns(a, n, k).work)) {
      TurnTranslates(e, e', user, ctx, root, a, n, k);
    }
    var get := CacheWork(e, user, root, served, c);
    BodiesOnSpan(Inside(root), root + 1, CacheKey(user), e.cacheHit, 0, e.world.WaitError(c, CACHE_WAIT));
    TranslatePlain(get.entries);
    ContinueTranslates(get, turns, turns', e.limit);
  }

  lemma PartsTranslate(head: seq<Entry>, work: seq<Entry>, final: Entry, failure: seq<Entry>, end: Entry)
    requires Translate(head) == head && !IsNamedLog(final) && !IsNamedLog(end)
    ensures Translate(head + work + ([final] + failure) + [end])
        == head + Translate(work) + ([final] + Translate(failure)) + [end]
  {
    TranslateConcat(head, work);
    TranslateConcat([final], failure);
    TranslateConcat(head + work, [final] + failure);
    TranslateConcat(head + work + ([final] + failure), [end]);
  }

  /**
   * The history with the span recorder is the history with the log recorder, each named record turned, in its
   * place, into a span event; everything else about the request is the same.
   */
  lemma RequestTranslates(e: Env, e': Env, user: string, ctx: Context, root: nat, served: nat, c: Instant)
    requires e.limit >= 1 && Counterparts(e, e')
    ensures FetchEntries(e', user, ctx, root, served, c) == Translate(FetchEntries(e, user, ctx, root, served, c))
    ensures var w := WorkOf(e, user, ctx, root, served, c);
            WorkOf(e', user, ctx, root, served, c) == w.(entries := Translate(w.entries))
  {
    LookupTranslates(e, e', user, ctx.(parent := Local(root)), root, served, c);
    var w := WorkOf(e, user, ctx, root, served, c);
    var head := RootStart(user, ctx, root, c.now);
    TranslatePlain(head);
    PartsTranslate(head, w.entries, SetAttrs(root, FinalAttrs(w)), Failure(LogRecords, root, w.err, w.at.now),
                   Ended(root, w.at.now));
    FailureTranslates(root, w.err, w.at.now);
  }

  lemma FailureTranslates(root: nat, err: Option<Err>, at: nat)
    ensures Failure(SpanEvents, root, err, at) == Translate(Failure(LogRecords, root, err, at))
  {
  }

  // ----- Either recorder -----

  /** With the log recorder there are no span events, with the span recorder no named records. */
  predicate Recorded(x: Entry, rec: Recorder) {
    match rec
    case LogRecords => !x.AddedEvent?
    case SpanEvents => x.Emitted? ==> x.record.eventName == ""
  }

  lemma WorkRecorded(e: Env, user: string, ctx: Context, root: nat, served: nat, c: Instant)
    requires e.limit >= 1 && ctx.parent == Local(root)
    ensures forall x :: x in Lookup(e, user, ctx, root, served, c).entries ==> Recorded(x, e.recorder)
  {
    var p := x => Recorded(x, e.recorder);
    LookupEverywhere(p, e, user, ctx, root, served, c);
    var entries := Lookup(e, user, ctx, root, served, c).entries;
    forall x | x in entries ensures Recorded(x, e.recorder) {
      assert p(x);
    }
  }

  lemma RequestRecorded(e: Env, user: string, ctx: Context, root: nat, served: nat, c: Instant)
    requires e.limit >= 1
    ensures forall x :: x in FetchEntries(e, user, ctx, root, served, c) ==> Recorded(x, e.recorder)
  {
    var head, w, tail := RequestParts(e, user, ctx, root, served, c);
    WorkRecorded(e, user, ctx.(parent := Local(root)), root, served, c);
    TailRecorded(e.recorder, root, w);
    assert forall x :: x in head ==> Recorded(x, e.recorder);
    assert forall x :: x in head + w.entries + tail ==> x in head || x in w.entries || x in tail;
  }

  lemma TailRecorded(rec: Recorder, root: nat, w: Work)
    ensures forall x :: x in Epilogue(rec, root, w) + [Ended(root, w.at.now)] ==> Recorded(x, rec)
  {
  }

  // ----- Reading the two histories apart -----

  /** In a history of the log recorder all named records belong to `root` and there are no span events. */
  predicate LogShaped(x: Entry, root: nat) {
    !IsSpanEvent(x) && (IsNamedLog(x) ==> x.context == Local(root))
  }

  ghost predicate AllLogShaped(h: seq<Entry>, root: nat) {
    forall x :: x in h ==> LogShaped(x, root)
  }

  lemma TailLogShaped(root: nat, w: Work)
    ensures AllLogShaped(Epilogue(LogRecords, root, w) + [Ended(root, w.at.now)], root)
  {
  }

  lemma WorkLogShaped(e: Env, user: string, ctx: Context, root: nat, served: nat, c: Instant)
    requires e.limit >= 1 && e.recorder == LogRecords && ctx.parent == Local(root)
    ensures AllLogShaped(Lookup(e, user, ctx, root, served, c).entries, root)
  {
    var p := x => LogShaped(x, root);
    LookupEverywhere(p, e, user, ctx, root, served, c);
    var entries := Lookup(e, user, ctx, root, served, c).entries;
    forall x | x in entries ensures LogShaped(x, root) {
      assert p(x);
    }
  }

  lemma RequestLogShaped(e: Env, user: string, ctx: Context, root: nat, served: nat, c: Instant)
    requires e.limit >= 1 && e.recorder == LogRecords
    ensures AllLogShaped(FetchEntries(e, user, ctx, root, served, c), root)
  {
    var head, w, tail := RequestParts(e, user, ctx, root, served, c);
    WorkLogShaped(e, user, ctx.(parent := Local(root)), root, served, c);
    TailLogShaped(root, w);
    assert AllLogShaped(head, root);
  }

  lemma {:induction false} TranslateSplits(h: seq<Entry>, root: nat)
    requires forall x :: x in h ==> LogShaped(x, root)
    ensures Filter(IsSpanEvent, Translate(h)) == Translate(Filter(IsNamedLog, h))
    ensures Filter(IsPlain, Translate(h)) == Filter(IsPlain, h)
    ensures Filter(IsNamedLog, Translate(h)) == []
  {
    if h == [] {
    } else {
      var x, rest := [h[0]], h[1..];
      TranslateSplits(rest, root);
      assert h == x + rest;
      TranslateConcat(x, rest);
      FilterConcat(IsSpanEvent, Translate(x), Translate(rest));
      FilterConcat(IsPlain, Translate(x), Translate(rest));
      FilterConcat(IsNamedLog, Translate(x), Translate(rest));
      TranslateConcat(Filter(IsNamedLog, x), Filter(IsNamedLog, rest));
      SplitOne(h[0], root);
    }
  }

  lemma SplitOne(x: Entry, root: nat)
    requires LogShaped(x, root)
    ensures Filter(IsSpanEvent, Translate([x])) == Translate(Filter(IsNamedLog, [x]))
    ensures Filter(IsPlain, Translate([x])) == Filter(IsPlain, [x])
    ensures Filter(IsNamedLog, Translate([x])) == []
    ensures Filter(IsNamedLog, [x]) == if IsNamedLog(x) then [x] else []
    ensures Filter(IsPlain, [x]) == if IsNamedLog(x) then [] else [x]
  {
    assert Translate([x]) == [AsSpanEvent(x)];
    assert [x][1..] == [] && [AsSpanEvent(x)][1..] == [];
  }

  /** All span events of a translated history are on the root span. */
  lemma TranslateOnRoot(h: seq<Entry>, root: nat)
    requires forall x :: x in h ==> LogShaped(x, root)
    ensures forall x :: x in Translate(h) && IsSpanEvent(x) ==> x.span == root
  {
    forall x | x in Translate(h) && IsSpanEvent(x) ensures x.span == root {
      var i :| 0 <= i < |h| && x == AsSpanEvent(h[i]);
      assert h[i] in h;
    }
  }

  /**
   * The named records of the log run, without severity and body, are the events of the root span of the span run,
   * in order; all the other entries of the two histories are identical.
   */
  ghost predicate Agree(logs: seq<Entry>, spans: seq<Entry>, root: nat) {
    && Filter(IsSpanEvent, spans) == Translate(Filter(IsNamedLog, logs))
    && (forall x :: x in spans && IsSpanEvent(x) ==> x.span == root)
    && Filter(IsPlain, spans) == Filter(IsPlain, logs)
    && Filter(IsNamedLog, spans) == [] && Filter(IsSpanEvent, logs) == []
  }

  /** The two recorders' histories of any request agree: on events, spans, attributes, statuses and diagnostics. */
  lemma RecordersAgree(e: Env, e': Env, user: string, ctx: Context, root: nat, served: nat, c: Instant)
    requires e.limit >= 1 && Counterparts(e, e')
    ensures Agree(FetchEntries(e, user, ctx, root, served, c), FetchEntries(e', user, ctx, root, served, c), root)
  {
    RequestTranslates(e, e', user, ctx, root, served, c);
    RequestLogShaped(e, user, ctx, root, served, c);
    TranslateSplits(FetchEntries(e, user, ctx, root, served, c), root);
    TranslateOnRoot(FetchEntries(e, user, ctx, root, served, c), root);
    FilterNone(IsSpanEvent, FetchEntries(e, user, ctx, root, served, c));
  }
}
