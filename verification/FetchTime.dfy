/** Requests in time: measured durations, the closed form without cancellation, and cancellation on an ideal clock. */
module FetchTime {
  import opened Telemetry
  import opened Clocks
  import opened FetchSpec

  // ----- Measured durations -----

  /** The backoffs after n failed attempts from `attempt` on. */
  function Backoffs(attempt: nat, n: nat): nat
    decreases n
  {
    if n == 0 then 0 else Backoff(attempt) + Backoffs(attempt + 1, n - 1)
  }

  lemma {:induction false} BackoffsClosed(attempt: nat, n: nat)
    ensures Backoffs(attempt, n) + 5_000_000 * n == 5_000_000 * (n * (2 * attempt + n))
    decreases n
  {
    if n == 0 {
    } else {
      BackoffsClosed(attempt + 1, n - 1);
      assert (n - 1) * (2 * (attempt + 1) + (n - 1)) + 2 * attempt + 1 == n * (2 * attempt + n);
    }
  }

  function Floors(s: seq<nat>): nat {
    if s == [] then 0 else s[0] / 1_000_000 + Floors(s[1..])
  }

  lemma {:induction false} FloorsBound(s: seq<nat>)
    ensures 1_000_000 * Floors(s) <= Sum(s) <= 1_000_000 * Floors(s) + 999_999 * |s|
  {
    if s == [] {
    } else {
      FloorsBound(s[1..]);
    }
  }

  /** Rounding the total once loses less than rounding each call: the row's `app.db.duration_ms` against the calls. */
  lemma DurationRounds(w: Work)
    ensures Floors(w.took) <= Sum(w.took) / 1_000_000
    ensures |w.took| > 0 ==> Sum(w.took) / 1_000_000 <= Floors(w.took) + |w.took| - 1
  {
    FloorsBound(w.took);
  }

  /** A turn lasts at least its measured call and its backoff, which a timer that keeps time does not cut short. */
  ghost predicate TurnLasts(t: Turn, attempt: nat, c: Instant, timed: bool) {
    && |t.work.took| == 1 && |t.work.waited| == t.work.retries == (if t.work.waited == [] then 0 else 1)
    && c.now + t.work.took[0] + Sum(t.work.waited) <= t.work.at.now
    && (timed && t.again ==> t.work.waited != [] && Backoff(attempt) <= t.work.waited[0])
  }

  lemma TurnOfLasts(e: Env, user: string, ctx: Context, root: nat, attempt: nat, served: nat, c: Instant, timed: bool)
    requires timed ==> e.world.TimersKeepTime()
    ensures TurnLasts(TurnOf(e, user, ctx, root, attempt, served, c), attempt, c, timed)
  {
    var start := e.world.Pass(c, 0);
    var q := Select(e, user, ctx, SelectId(root, attempt), attempt, served, start);
    var stop := e.world.Pass(q.at, 0);
    var next := e.world.Pass(stop, Backoff(attempt));
    assert [next.now - stop.now][1..] == [];
    assert timed ==> e.world.Interrupts(stop, Backoff(attempt)) || stop.now + Backoff(attempt) <= next.now;
  }

  /** `elapsed` covers what the work measured of its calls and what it waited in backoffs from `attempt` on. */
  ghost predicate Lasts(w: Work, attempt: nat, elapsed: int, timed: bool) {
    && |w.waited| == w.retries && Sum(w.took) + Sum(w.waited) <= elapsed
    && (timed ==> Backoffs(attempt, if w.took == [] then 0 else |w.took| - 1) <= Sum(w.waited))
  }

  lemma JoinLasts(t: Turn, rest: Work, attempt: nat, c: Instant, timed: bool)
    requires TurnLasts(t, attempt, c, timed) && t.again
    requires rest.took != [] && Lasts(rest, attempt + 1, rest.at.now - t.work.at.now, timed)
    ensures Lasts(Join(t.work, rest), attempt, rest.at.now - c.now, timed)
  {
    var w := Join(t.work, rest);
    assert w.took == [t.work.took[0]] + rest.took && w.took[1..] == rest.took;
    if t.work.waited == [] {
      assert w.waited == rest.waited;
    } else {
      assert t.work.waited == [t.work.waited[0]] && t.work.waited[1..] == [];
      assert w.waited == [t.work.waited[0]] + rest.waited && w.waited[1..] == rest.waited;
    }
  }

  lemma {:induction false} LoopLasts(turns: Turns, limit: nat, attempt: nat, served: nat, c: Instant, timed: bool)
    requires attempt <= limit
    requires forall a, n, k :: TurnLasts(turns(a, n, k), a, k, timed)
    ensures var w := Loop(turns, limit, attempt, served, c);
            w.took != [] && Lasts(w, attempt, w.at.now - c.now, timed)
    decreases limit - attempt
  {
    var t := turns(attempt, served, c);
    assert TurnLasts(t, attempt, c, timed);
    if t.again && attempt < limit {
      LoopLasts(turns, limit, attempt + 1, t.work.served, t.work.at, timed);
      JoinLasts(t, Loop(turns, limit, attempt + 1, t.work.served, t.work.at), attempt, c, timed);
    } else {
      assert t.work.took[1..] == [];
    }
  }

  lemma ContinueLasts(get: Work, turns: Turns, limit: nat, timed: bool)
    requires limit >= 1 && get.took == [] && get.waited == [] && get.retries == 0
    requires forall a, n, k :: TurnLasts(turns(a, n, k), a, k, timed)
    ensures var w := Continue(get, turns, limit);
            Lasts(w, 1, w.at.now - get.at.now, timed)
  {
    LoopLasts(turns, limit, 1, get.served, get.at, timed);
    var loop := Loop(turns, limit, 1, get.served, get.at);
    assert get.took + loop.took == loop.took && get.waited + loop.waited == loop.waited;
  }

  /**
   * In every world the wait for the cache, the measured calls and the backoffs as they really went, the interrupted
   * one included, together fit into the root span, which starts first and ends last in the history. With timers that
   * keep time each backoff but the last took at least as long as announced.
   */
  lemma RequestLasts(e: Env, user: string, ctx: Context, root: nat, served: nat, c: Instant, timed: bool)
    requires e.limit >= 1 && (timed ==> e.world.TimersKeepTime())
    ensures var h, w := FetchEntries(e, user, ctx, root, served, c), WorkOf(e, user, ctx, root, served, c);
            && |h| > 1 && h[0].Started? && h[0].span == root && h[|h| - 1].Ended? && h[|h| - 1].span == root
            && Lasts(w, 1, h[|h| - 1].at - h[0].at - e.world.tick(c.step, c.now, CACHE_WAIT).elapsed, timed)
  {
    var inner := ctx.(parent := Local(root));
    var turns := TurnsOf(e, user, inner, root);
    forall a, n, k ensures TurnLasts(turns(a, n, k), a, k, timed) {
      TurnOfLasts(e, user, inner, root, a, n, k, timed);
    }
    ContinueLasts(CacheWork(e, user, root, served, c), turns, e.limit, timed);
  }

  // ----- The closed form -----

  /** The outcome of a lookup that ends with `calls` completed calls, all but possibly the last one timed out. */
  ghost predicate Closed(w: Work, user: string, calls: nat, success: bool, served: nat) {
    && |w.took| == calls && w.retries == calls - 1 && w.served == served + calls && !w.hit
    && w.err == (if success then None else Some(DBTimeout))
    && w.name == (if success then "name-of-" + user else "")
  }

  ghost predicate TurnCloses(e: Env, t: Turn, user: string, attempt: nat, served: nat) {
    var timesOut := TimesOut(e.timeouts, served);
    && t.again == (timesOut && attempt != e.limit)
    && |t.work.took| == 1 && t.work.retries == (if t.again then 1 else 0) && t.work.served == served + 1
    && (!t.again ==> Closed(t.work, user, 1, !timesOut, served))
  }

  lemma TurnOfCloses(e: Env, user: string, ctx: Context, root: nat, attempt: nat, served: nat, c: Instant)
    requires e.world.Undisturbed()
    ensures TurnCloses(e, TurnOf(e, user, ctx, root, attempt, served, c), user, attempt, served)
  {
  }

  /** The timeouts still to come. */
  function Remaining(timeouts: int, served: nat): nat {
    if timeouts <= served then 0 else timeouts - served
  }

  lemma {:induction false} LoopCloses(e: Env, turns: Turns, user: string, attempt: nat, served: nat, c: Instant)
    requires attempt <= e.limit
    requires forall a, n, k :: TurnCloses(e, turns(a, n, k), user, a, n)
    ensures var w := Loop(turns, e.limit, attempt, served, c);
            var k, left := Remaining(e.timeouts, served), e.limit - attempt + 1;
            Closed(w, user, if k < left then k + 1 else left, k < left, served)
    decreases e.limit - attempt
  {
    var t := turns(attempt, served, c);
    assert TurnCloses(e, t, user, attempt, served);
    if !t.again {
    } else {
      LoopCloses(e, turns, user, attempt + 1, t.work.served, t.work.at);
    }
  }

  lemma ContinueCloses(e: Env, get: Work, turns: Turns, user: string)
    requires e.limit >= 1 && get.took == [] && get.retries == 0 && get.err.None? && get.hit == e.cacheHit
    requires e.cacheHit ==> get.name == "cached-name"
    requires forall a, n, k :: TurnCloses(e, turns(a, n, k), user, a, n)
    ensures CloseForm(e, Continue(get, turns, e.limit), user, get.served)
  {
    LoopCloses(e, turns, user, 1, get.served, get.at);
    var loop := Loop(turns, e.limit, 1, get.served, get.at);
    assert get.took + loop.took == loop.took;
  }

  /** What a request without cancellation returns, in terms of its inputs alone. */
  ghost predicate CloseForm(e: Env, w: Work, user: string, served: nat) {
    var k := Remaining(e.timeouts, served);
    if e.cacheHit then
      w.hit && w.err.None? && w.name == "cached-name" && w.took == [] && w.retries == 0
    else
      Closed(w, user, if k < e.limit then k + 1 else e.limit, k < e.limit, served)
  }

  /**
   * Without cancellation a hit answers from the cache without a call; a miss with k timeouts still to come
   * succeeds after k + 1 calls if k is below the limit and fails with the timeout after `limit` calls otherwise.
   */
  lemma RequestCloses(e: Env, user: string, ctx: Context, root: nat, served: nat, c: Instant)
    requires e.limit >= 1 && e.world.Undisturbed()
    ensures CloseForm(e, WorkOf(e, user, ctx, root, served, c), user, served)
  {
    var inner := ctx.(parent := Local(root));
    var turns := TurnsOf(e, user, inner, root);
    forall a, n, k ensures TurnCloses(e, turns(a, n, k), user, a, n) {
      TurnOfCloses(e, user, inner, root, a, n, k);
    }
    ContinueCloses(e, CacheWork(e, user, root, served, c), turns, user);
  }

  /** A result of the database in any world: the name, or nothing with an error. */
  predicate Names(w: Work, user: string) {
    !w.hit && w.name == if w.err.None? then "name-of-" + user else ""
  }

  ghost predicate TurnNames(t: Turn, user: string, last: bool) {
    (t.again ==> !last) && (!t.again ==> Names(t.work, user))
  }

  lemma {:induction false} LoopNames(turns: Turns, user: string, limit: nat, attempt: nat, served: nat, c: Instant)
    requires attempt <= limit
    requires forall a, n, k :: TurnNames(turns(a, n, k), user, a == limit)
    ensures Names(Loop(turns, limit, attempt, served, c), user)
    decreases limit - attempt
  {
    var t := turns(attempt, served, c);
    assert TurnNames(t, user, attempt == limit);
    if !t.again {
    } else {
      LoopNames(turns, user, limit, attempt + 1, t.work.served, t.work.at);
    }
  }

  lemma TurnOfNames(e: Env, user: string, ctx: Context, root: nat, attempt: nat, served: nat, c: Instant)
    ensures TurnNames(TurnOf(e, user, ctx, root, attempt, served, c), user, attempt == e.limit)
  {
  }

  lemma ContinueNames(get: Work, turns: Turns, user: string, limit: nat)
    requires limit >= 1 && get.name == (if get.hit then "cached-name" else "") && (get.hit ==> get.err.None?)
    requires forall a, n, k :: TurnNames(turns(a, n, k), user, a == limit)
    ensures var w := Continue(get, turns, limit);
            w.name == if w.err.Some? then "" else if w.hit then "cached-name" else "name-of-" + user
  {
    LoopNames(turns, user, limit, 1, get.served, get.at);
  }

  /** In any world a request returns the cached name, the name of its user, or nothing with an error. */
  lemma RequestNames(e: Env, user: string, ctx: Context, root: nat, served: nat, c: Instant)
    requires e.limit >= 1
    ensures var w := WorkOf(e, user, ctx, root, served, c);
            w.name == if w.err.Some? then "" else if w.hit then "cached-name" else "name-of-" + user
  {
    var inner := ctx.(parent := Local(root));
    var turns := TurnsOf(e, user, inner, root);
    forall a, n, k ensures TurnNames(turns(a, n, k), user, a == e.limit) {
      TurnOfNames(e, user, inner, root, a, n, k);
    }
    ContinueNames(CacheWork(e, user, root, served, c), turns, user, e.limit);
  }

  // ----- Elapsed time on an ideal clock -----

  lemma IdealPass(w: World, c: Instant, d: nat)
    requires w.Ideal(None)
    ensures w.Pass(c, d) == Instant(c.now + d, c.step + 1) && !w.Interrupts(c, d)
  {
    assert IdealTick(None, c.now, d, w.tick(c.step, c.now, d));
  }

  ghost predicate TurnTakes(t: Turn, attempt: nat, c: Instant) {
    && |t.work.took| == 1 && t.work.retries == (if t.again then 1 else 0)
    && t.work.at.now == c.now + QUERY_WAIT + (if t.again then Backoff(attempt) else 0)
  }

  lemma TurnOfTakes(e: Env, user: string, ctx: Context, root: nat, attempt: nat, served: nat, c: Instant)
    requires e.world.Ideal(None)
    ensures TurnTakes(TurnOf(e, user, ctx, root, attempt, served, c), attempt, c)
  {
    var start := e.world.Pass(c, 0);
    IdealPass(e.world, c, 0);
    IdealPass(e.world, start, QUERY_WAIT);
    var done := e.world.Pass(start, QUERY_WAIT);
    IdealPass(e.world, done, 0);
    IdealPass(e.world, e.world.Pass(done, 0), Backoff(attempt));
  }

  lemma {:induction false} LoopTakes(turns: Turns, limit: nat, attempt: nat, served: nat, c: Instant)
    requires attempt <= limit
    requires forall a, n, k :: TurnTakes(turns(a, n, k), a, k) && (turns(a, n, k).again ==> a != limit)
    ensures var w := Loop(turns, limit, attempt, served, c);
            && |w.took| == w.retries + 1
            && w.at.now == c.now + QUERY_WAIT * |w.took| + Backoffs(attempt, w.retries)
    decreases limit - attempt
  {
    var t := turns(attempt, served, c);
    assert TurnTakes(t, attempt, c);
    if !t.again {
    } else {
      LoopTakes(turns, limit, attempt + 1, t.work.served, t.work.at);
    }
  }

  lemma ContinueTakes(get: Work, turns: Turns, limit: nat, now: nat)
    requires limit >= 1 && get.took == [] && get.retries == 0 && get.err.None? && get.at.now == now + 5_000_000
    requires forall a, n, k :: TurnTakes(turns(a, n, k), a, k) && (turns(a, n, k).again ==> a != limit)
    ensures var w := Continue(get, turns, limit);
            && (get.hit ==> |w.took| == w.retries == 0)
            && w.at.now == now + 5_000_000 + 20_000_000 * |w.took| + 5_000_000 * (w.retries * (w.retries + 1))
  {
    LoopTakes(turns, limit, 1, get.served, get.at);
    var loop := Loop(turns, limit, 1, get.served, get.at);
    assert get.took + loop.took == loop.took;
    BackoffsClosed(1, loop.retries);
    assert loop.retries * (2 * 1 + loop.retries) == loop.retries * (loop.retries + 1) + loop.retries;
  }

  /** 5 ms for a hit; 5 + 20 c + 5 r (r + 1) ms for a miss with c calls and r retries. */
  lemma RequestTakes(e: Env, user: string, ctx: Context, root: nat, served: nat, c: Instant)
    requires e.limit >= 1 && e.world.Ideal(None)
    ensures var w := WorkOf(e, user, ctx, root, served, c);
            && (e.cacheHit ==> |w.took| == w.retries == 0)
            && w.at.now == c.now + 5_000_000 + 20_000_000 * |w.took| + 5_000_000 * (w.retries * (w.retries + 1))
  {
    var inner := ctx.(parent := Local(root));
    var turns := TurnsOf(e, user, inner, root);
    IdealPass(e.world, c, CACHE_WAIT);
    forall a, n, k ensures TurnTakes(turns(a, n, k), a, k) && (turns(a, n, k).again ==> a != e.limit) {
      TurnOfTakes(e, user, inner, root, a, n, k);
    }
    ContinueTakes(CacheWork(e, user, root, served, c), turns, e.limit, c.now);
  }
}
