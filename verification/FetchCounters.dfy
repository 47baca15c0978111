/** The counters of a request against the history they summarise. */
module FetchCounters {
  import opened Telemetry
  import opened Clocks
  import opened FetchSpec

  predicate IsRoot(x: Entry) { x.Started? && x.name == "fetch user" }

  predicate IsSelect(x: Entry) { x.Started? && x.name == "SELECT users" }

  /** The name of an event, however it was recorded. */
  function EventName(x: Entry): string {
    match x
    case Emitted(_, r) => r.eventName
    case AddedEvent(_, name, _, _) => name
    case _ => ""
  }

  function EventAttrs(x: Entry): seq<Attr> {
    match x
    case Emitted(_, r) => r.attrs
    case AddedEvent(_, _, attrs, _) => attrs
    case _ => []
  }

  predicate IsRetry(x: Entry) { EventName(x) == "db.query.retry" }

  predicate IsException(x: Entry) { EventName(x) == "user.fetch.exception" || EventName(x) == "exception" }

  predicate IsDiagnostic(x: Entry) { x.Emitted? && x.record.eventName == "" }

  predicate IsTimeoutStatus(x: Entry) { x.SetError? && x.description == Message(DBTimeout) }

  // ----- One turn -----

  /** A child span contributes itself if it is a SELECT, and nothing else that is counted. */
  lemma SpanCounts(start: Entry, body: seq<Entry>, end: Entry, id: nat)
    requires start.Started? && end.Ended? && forall x :: x in body ==> OnSpan(x, id)
    ensures var block := [start] + body + [end];
            && Filter(IsSelect, block) == (if IsSelect(start) then [start] else [])
            && Filter(IsRetry, block) == [] && block != [] && !IsRetry(block[|block| - 1])
  {
    FilterConcat(IsSelect, [start] + body, [end]);
    FilterConcat(IsSelect, [start], body);
    FilterNone(IsSelect, body);
    FilterNone(IsRetry, [start] + body + [end]);
  }

  lemma SelectCounts(ctx: Context, id: nat, attempt: nat, c: Instant, after: Instant, err: Option<Err>)
    ensures var block := SelectEntries(ctx, id, attempt, c, after, err);
            && Filter(IsSelect, block) == [Started(id, ctx.parent, "SELECT users", Client, SelectAttrs(attempt), c.now)]
            && Filter(IsRetry, block) == []
            && block != [] && !IsRetry(block[|block| - 1])
  {
    BodiesOnSpan(ctx, id, "", false, after.now, err);
    SpanCounts(Started(id, ctx.parent, "SELECT users", Client, SelectAttrs(attempt), c.now),
               SelectBody(ctx, id, after.now, err), Ended(id, after.now), id);
  }

  /** What one turn contributes: one call, and a retry event as its last entry if it is retried. */
  ghost predicate TurnFits(w: Work, parent: Parent, root: nat, attempt: nat) {
    && |w.took| == 1 && w.retries <= 1 && w.entries != [] && !w.hit
    && |Filter(IsSelect, w.entries)| == 1 && |Filter(IsRetry, w.entries)| == w.retries
    && NumberedSelects(Filter(IsSelect, w.entries), parent, root, attempt)
    && NumberedRetries(Filter(IsRetry, w.entries), attempt)
    && (w.retries == 1 <==> IsRetry(w.entries[|w.entries| - 1]))
  }

  lemma TurnFromCounts(e: Env, parent: Parent, root: nat, attempt: nat, start: Instant, q: Step, served: nat)
    requires start.now <= q.at.now
    requires |Filter(IsSelect, q.entries)| == 1 && Filter(IsRetry, q.entries) == []
    requires IsNumberedSelect(Filter(IsSelect, q.entries)[0], parent, root, attempt)
    requires q.entries != [] && !IsRetry(q.entries[|q.entries| - 1])
    ensures TurnFitsEnv(e, TurnFrom(e, root, attempt, start, q, served), parent, root, attempt)
  {
    if q.err.Some? && attempt != e.limit {
      RetryCounts(q.entries, e.recorder, root, attempt, q.err.value, e.world.Pass(q.at, 0).now);
    }
  }

  lemma TurnCounts(e: Env, user: string, ctx: Context, root: nat, attempt: nat, served: nat, c: Instant)
    ensures TurnFitsEnv(e, TurnOf(e, user, ctx, root, attempt, served, c), ctx.parent, root, attempt)
  {
    var start := e.world.Pass(c, 0);
    var q := Select(e, user, ctx, SelectId(root, attempt), attempt, served, start);
    SelectCounts(ctx, SelectId(root, attempt), attempt, start, q.at, q.err);
    TurnFromCounts(e, ctx.parent, root, attempt, start, q, Served(e, served, start));
  }

  ghost predicate TurnFitsEnv(e: Env, t: Turn, parent: Parent, root: nat, attempt: nat) {
    && TurnFits(t.work, parent, root, attempt)
    && (t.again ==> t.work.retries == 1 && attempt != e.limit)
    && (t.work.retries == 1 && !t.again ==> t.work.err == Some(e.world.cause))
    && (attempt == e.limit ==> t.work.retries == 0)
  }

  lemma RetryCounts(block: seq<Entry>, r: Recorder, root: nat, attempt: nat, err: Err, at: nat)
    requires Filter(IsRetry, block) == []
    ensures var all := block + [RetryEntry(r, root, attempt, err, at)];
            && Filter(IsSelect, all) == Filter(IsSelect, block)
            && |Filter(IsRetry, all)| == 1 && NumberedRetries(Filter(IsRetry, all), attempt)
            && IsRetry(all[|all| - 1])
  {
    RetryIsNumbered(r, root, attempt, err, at);
    OneRetryCounts(block, RetryEntry(r, root, attempt, err, at), attempt);
  }

  lemma RetryIsNumbered(r: Recorder, root: nat, attempt: nat, err: Err, at: nat)
    ensures var x := RetryEntry(r, root, attempt, err, at);
            IsRetry(x) && !IsSelect(x) && IsNumberedRetry(x, attempt)
  {
  }

  lemma OneRetryCounts(block: seq<Entry>, x: Entry, attempt: nat)
    requires Filter(IsRetry, block) == [] && IsRetry(x) && !IsSelect(x) && IsNumberedRetry(x, attempt)
    ensures Filter(IsSelect, block + [x]) == Filter(IsSelect, block)
    ensures Filter(IsRetry, block + [x]) == [x] && NumberedRetries([x], attempt)
  {
    FilterConcat(IsRetry, block, [x]);
    FilterConcat(IsSelect, block, [x]);
    FilterNone(IsSelect, [x]);
    FilterOnly(IsRetry, [x], 0);
  }

  // ----- The loop -----

  /** The k-th retry event announces attempt `attempt + k + 1` after a backoff of 10 ms times the failed attempt. */
  predicate NumberedRetries(retries: seq<Entry>, attempt: nat) {
    forall k :: 0 <= k < |retries| ==> IsNumberedRetry(retries[k], attempt + k)
  }

  predicate IsNumberedRetry(x: Entry, failed: nat) {
    && |EventAttrs(x)| == 3
    && EventAttrs(x)[0] == Attr("retry.attempt", Num(failed + 1))
    && EventAttrs(x)[1] == Attr("retry.backoff_ms", Num(10 * failed))
  }

  predicate NumberedSelects(selects: seq<Entry>, parent: Parent, root: nat, attempt: nat) {
    forall k :: 0 <= k < |selects| ==> IsNumberedSelect(selects[k], parent, root, attempt + k)
  }

  predicate IsNumberedSelect(x: Entry, parent: Parent, root: nat, attempt: nat) {
    x.Started? && x.span == SelectId(root, attempt) && x.parent == parent && x.attrs == SelectAttrs(attempt)
  }

  /** The counter law from `attempt` on, when at most `left` attempts are left. */
  ghost predicate CountsFit(w: Work, parent: Parent, root: nat, attempt: nat, left: nat) {
    && |Filter(IsSelect, w.entries)| == |w.took| && |Filter(IsRetry, w.entries)| == w.retries
    && NumberedSelects(Filter(IsSelect, w.entries), parent, root, attempt)
    && NumberedRetries(Filter(IsRetry, w.entries), attempt)
    && |w.took| - 1 <= w.retries <= |w.took| <= left && (left > 0 ==> w.retries <= left - 1)
    && w.entries != [] && (w.retries == |w.took| > 0 <==> IsRetry(w.entries[|w.entries| - 1]))
  }

  lemma JoinCounts(a: Work, b: Work, parent: Parent, root: nat, attempt: nat, left: nat)
    requires left > 0 && a.retries == 1 && TurnFits(a, parent, root, attempt)
    requires CountsFit(b, parent, root, attempt + 1, left) && |b.took| > 0
    ensures CountsFit(Join(a, b), parent, root, attempt, left + 1)
  {
    FilterConcat(IsSelect, a.entries, b.entries);
    FilterConcat(IsRetry, a.entries, b.entries);
    var w := Join(a, b);
    assert |w.took| == 1 + |b.took| && w.entries[|w.entries| - 1] == b.entries[|b.entries| - 1];
    NumberedJoin(Filter(IsSelect, a.entries), Filter(IsSelect, b.entries), parent, root, attempt);
    NumberedRetriesJoin(Filter(IsRetry, a.entries), Filter(IsRetry, b.entries), attempt);
  }

  lemma NumberedJoin(a: seq<Entry>, b: seq<Entry>, parent: Parent, root: nat, attempt: nat)
    requires |a| == 1 && NumberedSelects(a, parent, root, attempt) && NumberedSelects(b, parent, root, attempt + 1)
    ensures NumberedSelects(a + b, parent, root, attempt)
  {
    forall k | 0 <= k < |a + b| ensures IsNumberedSelect((a + b)[k], parent, root, attempt + k) {
      if k > 0 {
        assert IsNumberedSelect(b[k - 1], parent, root, attempt + 1 + (k - 1));
      }
    }
  }

  lemma NumberedRetriesJoin(a: seq<Entry>, b: seq<Entry>, attempt: nat)
    requires |a| == 1 && NumberedRetries(a, attempt) && NumberedRetries(b, attempt + 1)
    ensures NumberedRetries(a + b, attempt)
  {
    forall k | 0 <= k < |a + b| ensures IsNumberedRetry((a + b)[k], attempt + k) {
      if k > 0 {
        assert IsNumberedRetry(b[k - 1], attempt + 1 + (k - 1));
      }
    }
  }

  /** A turn that ends the loop. */
  lemma LastCounts(e: Env, t: Turn, parent: Parent, root: nat, attempt: nat)
    requires attempt <= e.limit && TurnFitsEnv(e, t, parent, root, attempt) && !t.again
    ensures CountsFit(t.work, parent, root, attempt, e.limit - attempt + 1) && ExitFits(t.work, e.world.cause)
  {
  }

  lemma {:induction false} LoopCounts(e: Env, turns: Turns, parent: Parent, root: nat, attempt: nat, served: nat,
                                      c: Instant)
    requires attempt <= e.limit
    requires forall a, n, k :: TurnFitsEnv(e, turns(a, n, k), parent, root, a)
    ensures var w := Loop(turns, e.limit, attempt, served, c);
            CountsFit(w, parent, root, attempt, e.limit - attempt + 1) && ExitFits(w, e.world.cause)
    decreases e.limit - attempt
  {
    var t := turns(attempt, served, c);
    assert TurnFitsEnv(e, t, parent, root, attempt);
    if !t.again {
      LastCounts(e, t, parent, root, attempt);
    } else {
      LoopCounts(e, turns, parent, root, attempt + 1, t.work.served, t.work.at);
      var rest := Loop(turns, e.limit, attempt + 1, t.work.served, t.work.at);
      JoinCounts(t.work, rest, parent, root, attempt, e.limit - attempt);
      JoinExit(t.work, rest, e.world.cause);
    }
  }

  /** A loop that counts as many retries as calls was left through an interrupted backoff. */
  ghost predicate ExitFits(w: Work, cause: Err) {
    !w.hit && |w.took| > 0 && (w.retries == |w.took| ==> w.err == Some(cause))
  }

  lemma JoinExit(a: Work, b: Work, cause: Err)
    requires |a.took| == 1 && a.retries == 1 && ExitFits(b, cause)
    ensures ExitFits(Join(a, b), cause)
  {
  }

  // ----- The request -----

  lemma CacheCounts(e: Env, user: string, root: nat, served: nat, c: Instant)
    ensures var w := CacheWork(e, user, root, served, c);
            && Filter(IsSelect, w.entries) == [] && Filter(IsRetry, w.entries) == []
            && w.entries != [] && !IsRetry(w.entries[|w.entries| - 1])
  {
    var id, key, err, after := root + 1, CacheKey(user), e.world.WaitError(c, CACHE_WAIT), e.world.Pass(c, CACHE_WAIT);
    BodiesOnSpan(Inside(root), id, key, e.cacheHit, 0, err);
    SpanCounts(Started(id, Local(root), "cache get", Internal, [], c.now),
               CacheBody(Inside(root), id, key, e.cacheHit, err), Ended(id, after.now), id);
  }

  /**
   * The counter law. Calls and retries are as counted in the history and numbered in order; retries stay below
   * the limit and trail the calls by at most one. They are equal and positive exactly when the request leaves
   * through an interrupted backoff, that is, right after a retry event; there is no call exactly when the cache
   * answers or fails.
   */
  ghost predicate CounterLaw(w: Work, get: Work, parent: Parent, root: nat, limit: nat, cause: Err) {
    && CountsFit(w, parent, root, 1, limit)
    && (|w.took| == 0 <==> get.err.Some? || get.hit) && w.hit == get.hit
    && (w.retries == |w.took| > 0 ==> w.err == Some(cause))
  }

  lemma LookupCounts(e: Env, user: string, ctx: Context, root: nat, served: nat, c: Instant)
    requires e.limit >= 1
    ensures CounterLaw(Lookup(e, user, ctx, root, served, c), CacheWork(e, user, root, served, c),
                       ctx.parent, root, e.limit, e.world.cause)
  {
    var get, turns := CacheWork(e, user, root, served, c), TurnsOf(e, user, ctx, root);
    CacheCounts(e, user, root, served, c);
    forall a, n, k ensures TurnFitsEnv(e, turns(a, n, k), ctx.parent, root, a) {
      TurnCounts(e, user, ctx, root, a, n, k);
    }
    LoopCounts(e, turns, ctx.parent, root, 1, get.served, get.at);
    LookupJoin(get, Loop(turns, e.limit, 1, get.served, get.at), ctx.parent, root, e.limit, e.world.cause);
  }

  lemma LookupJoin(get: Work, loop: Work, parent: Parent, root: nat, limit: nat, cause: Err)
    requires Filter(IsSelect, get.entries) == [] && Filter(IsRetry, get.entries) == [] && limit > 0
    requires get.entries != [] && !IsRetry(get.entries[|get.entries| - 1])
    requires get.took == [] && get.retries == 0
    requires CountsFit(loop, parent, root, 1, limit) && ExitFits(loop, cause)
    ensures CounterLaw(if get.err.Some? || get.hit then get else Join(get, loop), get, parent, root, limit, cause)
  {
    FilterConcat(IsSelect, get.entries, loop.entries);
    FilterConcat(IsRetry, get.entries, loop.entries);
    var w := Join(get, loop);
    assert w.took == loop.took && w.entries[|w.entries| - 1] == loop.entries[|loop.entries| - 1];
  }
}
