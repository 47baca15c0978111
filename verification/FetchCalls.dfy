/** When `app.db.call.count` is `retry.count` plus one: in terms of what a caller and the environment decide. */
module FetchCalls {
  import opened Telemetry
  import opened Clocks
  import opened FetchSpec
  import opened FetchTime
  import opened FetchDeadline

  // ----- The two counters do not determine each other -----

  /**
   * The README calls `app.db.call.count` a value that can be computed from `retry.count`. It cannot: a hit and a miss
   * that succeeds at once both have no retry.
   */
  lemma CallsNotDeterminedByRetries(e: Env, user: string, ctx: Context, root: nat, served: nat, c: Instant)
    requires e.limit >= 1 && e.world.Undisturbed() && e.timeouts <= served
    ensures var hit := WorkOf(e.(cacheHit := true), user, ctx, root, served, c);
            var miss := WorkOf(e.(cacheHit := false), user, ctx, root, served, c);
            hit.retries == miss.retries == 0 && |hit.took| == 0 && |miss.took| == 1
  {
    RequestCloses(e.(cacheHit := true), user, ctx, root, served, c);
    RequestCloses(e.(cacheHit := false), user, ctx, root, served, c);
  }

  /**
   * Nor among misses: with one timeout to come, a request left alone makes two calls and one retry, and one that is
   * cancelled during its first call makes that call only and counts one retry too.
   */
  lemma MissesDisagree(e: Env, e0: Env, T: nat, user: string, ctx: Context, root: nat, served: nat, c: Instant)
    requires e.limit >= 2 && e.timeouts == served + 1 && !e.cacheHit
    requires e0 == e.(world := e0.world) && e.world.Ideal(Some(T)) && e0.world.Ideal(None)
    requires c.now + CACHE_WAIT < T < c.now + CACHE_WAIT + QUERY_WAIT
    ensures var w, v := WorkOf(e, user, ctx, root, served, c), WorkOf(e0, user, ctx, root, served, c);
            && CacheWork(e, user, root, served, c).err == CacheWork(e0, user, root, served, c).err == None
            && w.retries == v.retries == 1 && |w.took| == 1 && |v.took| == 2
  {
    IdealIsUndisturbed(e0.world);
    RequestCloses(e0, user, ctx, root, served, c);
    IdealWait(e.world, T, c, CACHE_WAIT);
    IdealPass(e0.world, c, CACHE_WAIT);
    var inner, get := ctx.(parent := Local(root)), CacheWork(e, user, root, served, c);
    TurnOfStops(e, user, inner, root, T, 1, served, get.at);
  }

  // ----- Any world -----

  /** By the answers of the world, no backoff of the loop from `attempt` on is interrupted. */
  predicate BackoffsEnd(e: Env, attempt: nat, served: nat, c: Instant)
    requires attempt <= e.limit
    decreases e.limit - attempt
  {
    var start := e.world.Pass(c, 0);
    var stop := e.world.Pass(e.world.Pass(start, QUERY_WAIT), 0);
    if SelectError(e, served, start).None? || attempt == e.limit then true
    else
      && !e.world.Interrupts(stop, Backoff(attempt))
      && BackoffsEnd(e, attempt + 1, Served(e, served, start), e.world.Pass(stop, Backoff(attempt)))
  }

  /** What the world's answers make of one turn. */
  ghost predicate TurnAnswers(e: Env, t: Turn, attempt: nat, served: nat, c: Instant) {
    var start := e.world.Pass(c, 0);
    var stop := e.world.Pass(e.world.Pass(start, QUERY_WAIT), 0);
    var last := SelectError(e, served, start).None? || attempt == e.limit;
    && |t.work.took| == 1 && t.work.retries == (if last then 0 else 1)
    && t.again == (!last && !e.world.Interrupts(stop, Backoff(attempt)))
    && (t.again ==> t.work.served == Served(e, served, start) && t.work.at == e.world.Pass(stop, Backoff(attempt)))
  }

  lemma TurnOfAnswers(e: Env, user: string, ctx: Context, root: nat, attempt: nat, served: nat, c: Instant)
    ensures TurnAnswers(e, TurnOf(e, user, ctx, root, attempt, served, c), attempt, served, c)
  {
  }

  lemma {:induction false} LoopCalls(e: Env, turns: Turns, attempt: nat, served: nat, c: Instant)
    requires attempt <= e.limit
    requires forall a, n, k :: TurnAnswers(e, turns(a, n, k), a, n, k)
    ensures var w := Loop(turns, e.limit, attempt, served, c);
            w.took != [] && |w.took| == w.retries + if BackoffsEnd(e, attempt, served, c) then 1 else 0
    decreases e.limit - attempt
  {
    var t := turns(attempt, served, c);
    assert TurnAnswers(e, t, attempt, served, c);
    if t.again {
      LoopCalls(e, turns, attempt + 1, t.work.served, t.work.at);
    } else {
      assert Loop(turns, e.limit, attempt, served, c) == t.work;
    }
  }

  lemma ContinueCalls(e: Env, get: Work, turns: Turns)
    requires e.limit >= 1 && get.took == [] && get.retries == 0
    requires forall a, n, k :: TurnAnswers(e, turns(a, n, k), a, n, k)
    ensures var w := Continue(get, turns, e.limit);
            |w.took| == w.retries
            + if get.err.None? && !get.hit && BackoffsEnd(e, 1, get.served, get.at) then 1 else 0
  {
    LoopCalls(e, turns, 1, get.served, get.at);
  }

  /**
   * In any world: calls are retries plus one exactly when the cache misses without being interrupted and no backoff
   * is interrupted; otherwise they are as many as the retries.
   */
  lemma CallsAreRetriesPlusOne(e: Env, user: string, ctx: Context, root: nat, served: nat, c: Instant)
    requires e.limit >= 1
    ensures var w, after := WorkOf(e, user, ctx, root, served, c), e.world.Pass(c, CACHE_WAIT);
            |w.took| == w.retries
            + if !e.cacheHit && !e.world.Interrupts(c, CACHE_WAIT) && BackoffsEnd(e, 1, served, after) then 1 else 0
  {
    var inner := ctx.(parent := Local(root));
    var turns := TurnsOf(e, user, inner, root);
    forall a, n, k ensures TurnAnswers(e, turns(a, n, k), a, n, k) {
      TurnOfAnswers(e, user, inner, root, a, n, k);
    }
    ContinueCalls(e, CacheWork(e, user, root, served, c), turns);
  }

  // ----- An ideal clock with a deadline -----

  /** The calls that the loop from `attempt` on makes when it is left alone. */
  function CallsLeft(e: Env, attempt: nat, served: nat): nat
    requires attempt <= e.limit
  {
    var k, left := 1 + Remaining(e.timeouts, served), e.limit - attempt + 1;
    if k < left then k else left
  }

  /**
   * The instant that decides for a loop starting at `now`: the end of its last call if that can still be retried, and
   * the start of its last call if it is the last attempt, which is not retried however it ends.
   */
  function Decisive(e: Env, attempt: nat, served: nat, now: nat): nat
    requires attempt <= e.limit
  {
    var m := CallsLeft(e, attempt, served) - 1;
    now + QUERY_WAIT * m + Backoffs(attempt, m) + if attempt + m < e.limit then QUERY_WAIT else 0
  }

  /** One turn with a deadline: whether it counts a retry, and whether the loop goes on. */
  ghost predicate TurnStops(e: Env, t: Turn, T: nat, attempt: nat, served: nat, now: nat) {
    && |t.work.took| == 1 && t.work.retries <= 1
    && if attempt == e.limit then
         !t.again && t.work.retries == 0
       else if Remaining(e.timeouts, served) == 0 then
         && !t.again
         && (T > now + QUERY_WAIT ==> t.work.retries == 0)
         && (T < now + QUERY_WAIT ==> t.work.retries == 1)
       else
         var next := now + QUERY_WAIT + Backoff(attempt);
         && t.work.retries == 1 && (T > next ==> t.again) && (T < next ==> !t.again)
         && (t.again ==> t.work.at.now == next && t.work.served == served + 1)
  }

  lemma TurnOfStops(e: Env, user: string, ctx: Context, root: nat, T: nat, attempt: nat, served: nat, c: Instant)
    requires e.world.Ideal(Some(T)) && attempt >= 1 && c.now <= T
    ensures TurnStops(e, TurnOf(e, user, ctx, root, attempt, served, c), T, attempt, served, c.now)
  {
    var start := e.world.Pass(c, 0);
    var done := e.world.Pass(start, QUERY_WAIT);
    IdealWait(e.world, T, c, 0);
    IdealWait(e.world, T, start, QUERY_WAIT);
    IdealWait(e.world, T, done, 0);
    IdealWait(e.world, T, e.world.Pass(done, 0), Backoff(attempt));
  }

  lemma DecisiveStep(e: Env, attempt: nat, served: nat, now: nat)
    requires 1 <= attempt < e.limit && Remaining(e.timeouts, served) > 0
    ensures Decisive(e, attempt, served, now)
         == Decisive(e, attempt + 1, served + 1, now + QUERY_WAIT + Backoff(attempt))
  {
    var m := CallsLeft(e, attempt, served) - 1;
    assert CallsLeft(e, attempt + 1, served + 1) == m;
    assert QUERY_WAIT * m == QUERY_WAIT + QUERY_WAIT * (m - 1);
  }

  /** The counters of a request that stopped before or after the decisive instant. */
  predicate Decided(w: Work, T: nat, decisive: nat) {
    (T > decisive ==> |w.took| == w.retries + 1) && (T < decisive ==> |w.took| == w.retries)
  }

  lemma {:induction false} LoopStops(e: Env, turns: Turns, T: nat, attempt: nat, served: nat, c: Instant)
    requires 1 <= attempt <= e.limit && c.now <= T
    requires forall a: nat, n, k: Instant | a >= 1 && k.now <= T :: TurnStops(e, turns(a, n, k), T, a, n, k.now)
    ensures Decided(Loop(turns, e.limit, attempt, served, c), T, Decisive(e, attempt, served, c.now))
    decreases e.limit - attempt
  {
    var t := turns(attempt, served, c);
    assert TurnStops(e, t, T, attempt, served, c.now);
    if attempt < e.limit && Remaining(e.timeouts, served) > 0 {
      DecisiveStep(e, attempt, served, c.now);
    }
    if t.again {
      LoopStops(e, turns, T, attempt + 1, t.work.served, t.work.at);
    } else {
      assert Loop(turns, e.limit, attempt, served, c) == t.work;
    }
  }

  lemma ContinueStops(e: Env, get: Work, turns: Turns, T: nat, after: nat)
    requires e.limit >= 1 && get.took == [] && get.retries == 0 && !get.hit
    requires if get.err.None? then get.at.now == after <= T else T <= after
    requires forall a: nat, n, k: Instant | a >= 1 && k.now <= T :: TurnStops(e, turns(a, n, k), T, a, n, k.now)
    ensures Decided(Continue(get, turns, e.limit), T, Decisive(e, 1, get.served, after))
  {
    if get.err.None? {
      LoopStops(e, turns, T, 1, get.served, get.at);
    }
  }

  /**
   * On an ideal clock with cancellation instant T a hit makes no call and counts no retry. For a miss the inputs fix
   * one instant, from the timeouts left and the limit: if T is later, calls are retries plus one; if T is earlier,
   * they are as many as the retries.
   */
  lemma CallsByDeadline(e: Env, T: nat, user: string, ctx: Context, root: nat, served: nat, c: Instant)
    requires e.limit >= 1 && e.world.Ideal(Some(T))
    ensures var w := WorkOf(e, user, ctx, root, served, c);
            if e.cacheHit then |w.took| == w.retries == 0 else Decided(w, T, Decisive(e, 1, served, c.now + CACHE_WAIT))
  {
    var inner := ctx.(parent := Local(root));
    var turns := TurnsOf(e, user, inner, root);
    forall a: nat, n, k: Instant | a >= 1 && k.now <= T ensures TurnStops(e, turns(a, n, k), T, a, n, k.now) {
      TurnOfStops(e, user, inner, root, T, a, n, k);
    }
    assert IdealTick(Some(T), c.now, CACHE_WAIT, e.world.tick(c.step, c.now, CACHE_WAIT));
    var get := CacheWork(e, user, root, served, c);
    if !e.cacheHit {
      ContinueStops(e, get, turns, T, c.now + CACHE_WAIT);
    }
  }
}
