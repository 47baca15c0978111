/** Cancellation on an ideal clock: the cancelled run against the run that is left alone. */
module FetchDeadline {
  import opened Telemetry
  import opened Clocks
  import opened FetchSpec
  import opened FetchCounters
  import opened FetchTime

  /** A wait that starts before the cancellation instant T ends at T at the latest. */
  lemma IdealWait(w: World, T: nat, c: Instant, d: nat)
    requires w.Ideal(Some(T)) && c.now <= T
    ensures w.Pass(c, d).step == c.step + 1
    ensures w.Pass(c, d).now == if c.now + d < T then c.now + d else T
    ensures d == 0 ==> w.Pass(c, d).now == c.now
    ensures c.now + d < T ==> !w.Interrupts(c, d)
    ensures c.now + d > T ==> w.Interrupts(c, d)
  {
    assert IdealTick(Some(T), c.now, d, w.tick(c.step, c.now, d));
  }

  /** No SELECT span starts after T. */
  ghost predicate Early(entries: seq<Entry>, T: nat) {
    forall x :: x in entries && IsSelect(x) ==> x.at <= T
  }

  /** Cut off at T with the context's error, while the run that is left alone goes on to T at least. */
  ghost predicate Cut(w: Work, v: Work, T: nat, cause: Err) {
    w.err == Some(cause) && w.at.now == T <= v.at.now
  }

  /** `w` is `v`, over by T, or `v` cut off at T. */
  ghost predicate Meets(w: Work, v: Work, T: nat, cause: Err) {
    (w == v && v.at.now <= T) || Cut(w, v, T, cause)
  }

  ghost predicate StepMeets(q: Step, q0: Step, T: nat, cause: Err) {
    && Early(q.entries, T)
    && ((q == q0 && q0.at.now <= T) || (q.err == Some(cause) && q.at.now == T <= q0.at.now))
  }

  ghost predicate SameOrCut(t: Turn, u: Turn, T: nat, cause: Err) {
    (t == u && u.work.at.now <= T) || (!t.again && Cut(t.work, u.work, T, cause))
  }

  ghost predicate TurnMeets(t: Turn, u: Turn, T: nat, cause: Err) {
    Early(t.work.entries, T) && SameOrCut(t, u, T, cause)
  }

  lemma SelectEarly(ctx: Context, id: nat, attempt: nat, c: Instant, after: Instant, err: Option<Err>, T: nat)
    requires c.now <= T
    ensures Early(SelectEntries(ctx, id, attempt, c, after, err), T)
  {
    BodiesOnSpan(ctx, id, "", false, after.now, err);
  }

  lemma SelectMeets(e: Env, e0: Env, T: nat, user: string, ctx: Context, id: nat, attempt: nat, served: nat, c: Instant)
    requires e0 == e.(world := e0.world) && e.world.Ideal(Some(T)) && e0.world.Ideal(None) && c.now <= T
    ensures var q, q0 := Select(e, user, ctx, id, attempt, served, c), Select(e0, user, ctx, id, attempt, served, c);
            StepMeets(q, q0, T, e.world.cause) && (q == q0 ==> Served(e, served, c) == Served(e0, served, c))
  {
    IdealWait(e.world, T, c, QUERY_WAIT);
    IdealPass(e0.world, c, QUERY_WAIT);
    SelectEarly(ctx, id, attempt, c, e.world.Pass(c, QUERY_WAIT), SelectError(e, served, c), T);
    if !e.world.Interrupts(c, QUERY_WAIT) {
      assert e.world.Pass(c, QUERY_WAIT) == e0.world.Pass(c, QUERY_WAIT);
      assert SelectError(e, served, c) == SelectError(e0, served, c);
    }
  }

  lemma RetryEarly(entries: seq<Entry>, r: Recorder, root: nat, attempt: nat, err: Err, at: nat, T: nat)
    requires Early(entries, T)
    ensures Early(entries + [RetryEntry(r, root, attempt, err, at)], T)
  {
  }

  lemma TurnFromMeets(e: Env, e0: Env, T: nat, root: nat, attempt: nat, start: Instant, q: Step, q0: Step,
                      served: nat, served0: nat)
    requires e0 == e.(world := e0.world) && e.world.Ideal(Some(T)) && e0.world.Ideal(None)
    requires attempt >= 1 && start.now <= q.at.now && start.now <= q0.at.now
    requires StepMeets(q, q0, T, e.world.cause) && (q == q0 ==> served == served0)
    ensures TurnMeets(TurnFrom(e, root, attempt, start, q, served), TurnFrom(e0, root, attempt, start, q0, served0),
                      T, e.world.cause)
  {
    if q.err.Some? && attempt != e.limit {
      RetryEarly(q.entries, e.recorder, root, attempt, q.err.value, e.world.Pass(q.at, 0).now, T);
    }
    if q == q0 && q0.at.now <= T {
      CallInTime(e, e0, T, root, attempt, start, q, served);
    } else {
      CallCut(e, e0, T, root, attempt, start, q, q0, served, served0);
    }
  }

  /** The call is over by T. Then so is the turn, or its backoff is cut off. */
  lemma CallInTime(e: Env, e0: Env, T: nat, root: nat, attempt: nat, start: Instant, q: Step, served: nat)
    requires e0 == e.(world := e0.world) && e.world.Ideal(Some(T)) && e0.world.Ideal(None)
    requires attempt >= 1 && start.now <= q.at.now <= T
    ensures SameOrCut(TurnFrom(e, root, attempt, start, q, served), TurnFrom(e0, root, attempt, start, q, served),
                          T, e.world.cause)
  {
    IdealWait(e.world, T, q.at, 0);
    IdealPass(e0.world, q.at, 0);
    assert e.world.Pass(q.at, 0) == e0.world.Pass(q.at, 0);
    IdealWait(e.world, T, e.world.Pass(q.at, 0), Backoff(attempt));
    IdealPass(e0.world, e.world.Pass(q.at, 0), Backoff(attempt));
  }

  /** The call is cut off. Then the turn ends there, or in the backoff, which notices the context at once. */
  lemma CallCut(e: Env, e0: Env, T: nat, root: nat, attempt: nat, start: Instant, q: Step, q0: Step,
                served: nat, served0: nat)
    requires e0 == e.(world := e0.world) && e.world.Ideal(Some(T)) && e0.world.Ideal(None)
    requires attempt >= 1 && start.now <= q.at.now && start.now <= q0.at.now
    requires q.err == Some(e.world.cause) && q.at.now == T <= q0.at.now
    ensures SameOrCut(TurnFrom(e, root, attempt, start, q, served), TurnFrom(e0, root, attempt, start, q0, served0),
                          T, e.world.cause)
  {
    IdealWait(e.world, T, q.at, 0);
    IdealWait(e.world, T, e.world.Pass(q.at, 0), Backoff(attempt));
  }

  lemma TurnOfMeets(e: Env, e0: Env, T: nat, user: string, ctx: Context, root: nat, attempt: nat, served: nat,
                    c: Instant)
    requires e0 == e.(world := e0.world) && e.world.Ideal(Some(T)) && e0.world.Ideal(None)
    requires attempt >= 1 && c.now <= T
    ensures TurnMeets(TurnOf(e, user, ctx, root, attempt, served, c), TurnOf(e0, user, ctx, root, attempt, served, c),
                      T, e.world.cause)
  {
    var id, start := SelectId(root, attempt), e.world.Pass(c, 0);
    IdealWait(e.world, T, c, 0);
    IdealPass(e0.world, c, 0);
    assert e0.world.Pass(c, 0) == start;
    SelectMeets(e, e0, T, user, ctx, id, attempt, served, start);
    var q, q0 := Select(e, user, ctx, id, attempt, served, start), Select(e0, user, ctx, id, attempt, served, start);
    TurnFromMeets(e, e0, T, root, attempt, start, q, q0, Served(e, served, start), Served(e0, served, start));
  }

  lemma {:induction false} LoopLater(turns: Turns, limit: nat, attempt: nat, served: nat, c: Instant)
    requires attempt <= limit
    requires forall a: nat, n: nat, k: Instant :: k.now <= turns(a, n, k).work.at.now
    ensures turns(attempt, served, c).work.at.now <= Loop(turns, limit, attempt, served, c).at.now
    decreases limit - attempt
  {
    var t := turns(attempt, served, c);
    if !t.again || attempt == limit {
    } else {
      LoopLater(turns, limit, attempt + 1, t.work.served, t.work.at);
    }
  }

  lemma {:induction false} LoopMeets(turns: Turns, turns0: Turns, T: nat, cause: Err, limit: nat, attempt: nat,
                                     served: nat, c: Instant)
    requires 1 <= attempt <= limit && c.now <= T
    requires forall a: nat, n: nat, k: Instant | a >= 1 && k.now <= T ::
               TurnMeets(turns(a, n, k), turns0(a, n, k), T, cause)
    requires forall a: nat, n: nat, k: Instant :: k.now <= turns0(a, n, k).work.at.now
    ensures var w := Loop(turns, limit, attempt, served, c);
            Early(w.entries, T) && Meets(w, Loop(turns0, limit, attempt, served, c), T, cause)
    decreases limit - attempt
  {
    var t, u := turns(attempt, served, c), turns0(attempt, served, c);
    assert TurnMeets(t, u, T, cause);
    LoopLater(turns0, limit, attempt, served, c);
    if !t.again || attempt == limit {
    } else {
      LoopMeets(turns, turns0, T, cause, limit, attempt + 1, t.work.served, t.work.at);
    }
  }

  lemma ContinueMeets(get: Work, get0: Work, turns: Turns, turns0: Turns, T: nat, late: nat, cause: Err, limit: nat)
    requires limit >= 1 && T <= late && Early(get.entries, T)
    requires (get == get0 && get0.at.now <= T) || Cut(get, get0, late, cause)
    requires forall a: nat, n: nat, k: Instant | a >= 1 && k.now <= T ::
               TurnMeets(turns(a, n, k), turns0(a, n, k), T, cause)
    requires forall a: nat, n: nat, k: Instant :: k.now <= turns0(a, n, k).work.at.now
    ensures var w, v := Continue(get, turns, limit), Continue(get0, turns0, limit);
            && Early(w.entries, T)
            && ((w == v && v.at.now <= T) || Cut(w, v, T, cause) || Cut(w, v, late, cause))
  {
    LoopLater(turns0, limit, 1, get0.served, get0.at);
    if get == get0 && get0.at.now <= T {
      LoopMeets(turns, turns0, T, cause, limit, 1, get.served, get.at);
    }
  }

  lemma CacheMeets(e: Env, e0: Env, T: nat, user: string, root: nat, served: nat, c: Instant)
    requires e0 == e.(world := e0.world) && e.world.Ideal(Some(T)) && e0.world.Ideal(None)
    ensures var get, get0 := CacheWork(e, user, root, served, c), CacheWork(e0, user, root, served, c);
            && Early(get.entries, T)
            && ((get == get0 && get0.at.now <= T) || Cut(get, get0, if T > c.now then T else c.now, e.world.cause))
  {
    assert IdealTick(Some(T), c.now, CACHE_WAIT, e.world.tick(c.step, c.now, CACHE_WAIT));
    IdealPass(e0.world, c, CACHE_WAIT);
    var id, key, err := root + 1, CacheKey(user), e.world.WaitError(c, CACHE_WAIT);
    BodiesOnSpan(Inside(root), id, key, e.cacheHit, 0, err);
  }

  /**
   * The work `w` of a request cancelled at T against `v`, that of the same request left alone: over by `late`, no
   * SELECT started after T; the same if that is over before T, cut off at `late` if that is not over by T.
   */
  ghost predicate InTime(w: Work, v: Work, T: nat, late: nat, cause: Err) {
    && w.at.now <= late && Early(w.entries, T)
    && (v.at.now < T ==> w == v)
    && (T < v.at.now ==> w.err == Some(cause) && w.at.now == late)
    && (v.at.now == T ==> w == v || (w.err == Some(cause) && w.at.now == T))
  }

  /**
   * On an ideal clock with cancellation instant T, against the same request left alone: the request is over by
   * max(T, start); no SELECT span starts after T; if the request left alone ends before T, the two are the same,
   * history included; if it would end after T, the request is cut off with the context's error at max(T, start).
   */
  lemma RequestMeets(e: Env, e0: Env, T: nat, user: string, ctx: Context, root: nat, served: nat, c: Instant)
    requires e.limit >= 1 && e0 == e.(world := e0.world) && e.world.Ideal(Some(T)) && e0.world.Ideal(None)
    ensures var w, v := WorkOf(e, user, ctx, root, served, c), WorkOf(e0, user, ctx, root, served, c);
            && InTime(w, v, T, if T > c.now then T else c.now, e.world.cause)
            && (w == v ==> FetchEntries(e, user, ctx, root, served, c) == FetchEntries(e0, user, ctx, root, served, c))
  {
    var inner := ctx.(parent := Local(root));
    var turns, turns0 := TurnsOf(e, user, inner, root), TurnsOf(e0, user, inner, root);
    forall a: nat, n: nat, k: Instant | a >= 1 && k.now <= T
      ensures TurnMeets(turns(a, n, k), turns0(a, n, k), T, e.world.cause)
    {
      TurnOfMeets(e, e0, T, user, inner, root, a, n, k);
    }
    CacheMeets(e, e0, T, user, root, served, c);
    ContinueMeets(CacheWork(e, user, root, served, c), CacheWork(e0, user, root, served, c), turns, turns0,
                  T, if T > c.now then T else c.now, e.world.cause, e.limit);
  }

  lemma IdealIsUndisturbed(w: World)
    requires w.Ideal(None)
    ensures w.Undisturbed()
  {
    forall s, t, d ensures !w.tick(s, t, d).interrupted {
      assert IdealTick(None, t, d, w.tick(s, t, d));
    }
  }

  lemma LeftAloneTakes95(e: Env, user: string, ctx: Context, root: nat, served: nat, c: Instant)
    requires e.limit == 3 && e.timeouts == served + 3 && !e.cacheHit && e.world.Ideal(None)
    ensures WorkOf(e, user, ctx, root, served, c).at.now == c.now + 95_000_000
  {
    IdealIsUndisturbed(e.world);
    RequestCloses(e, user, ctx, root, served, c);
    RequestTakes(e, user, ctx, root, served, c);
    var w := WorkOf(e, user, ctx, root, served, c);
    assert w.retries == 2 && |w.took| == 3;
  }

  /** The repository's own test: three timeouts, three attempts, and a deadline after 30 ms ends the request. */
  lemma StopsOnCancel(e: Env, e0: Env, T: nat, user: string, ctx: Context, root: nat, served: nat, c: Instant)
    requires e.limit == 3 && e.timeouts == served + 3 && !e.cacheHit && T == c.now + 30_000_000
    requires e0 == e.(world := e0.world) && e.world.Ideal(Some(T)) && e0.world.Ideal(None)
    ensures var w := WorkOf(e, user, ctx, root, served, c);
            w.err == Some(e.world.cause) && w.at.now == T
  {
    LeftAloneTakes95(e0, user, ctx, root, served, c);
    RequestMeets(e, e0, T, user, ctx, root, served, c);
  }
}
