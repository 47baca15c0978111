/** Whole runs on an ideal clock with a cancellation instant. */
module RunDeadline {
  import opened Telemetry
  import opened Clocks
  import opened FetchSpec
  import opened FetchCounters
  import opened FetchRows
  import opened FetchDeadline
  import opened Runs

  function Max(a: nat, b: nat): nat { if a > b then a else b }

  function Min(a: nat, b: nat): nat { if a < b then a else b }

  /** An ideal clock whose context is done from instant T on, for waits and for the check between requests. */
  ghost predicate CancelsAt(w: World, T: nat) {
    w.Ideal(Some(T)) && forall s, t :: w.done(s, t) <==> T <= t
  }

  // ----- One request -----

  lemma TurnsGoOn(e: Env, user: string, ctx: Context, root: nat)
    ensures forall a: nat, n: nat, k: Instant :: k.now <= TurnsOf(e, user, ctx, root)(a, n, k).work.at.now
  {
    forall a: nat, n: nat, k: Instant ensures k.now <= TurnsOf(e, user, ctx, root)(a, n, k).work.at.now {
      assert TurnsOf(e, user, ctx, root)(a, n, k) == TurnOf(e, user, ctx, root, a, n, k);
    }
  }

  lemma ContinueGoesOn(get: Work, turns: Turns, limit: nat)
    requires limit >= 1 && forall a: nat, n: nat, k: Instant :: k.now <= turns(a, n, k).work.at.now
    ensures get.at.now <= Continue(get, turns, limit).at.now
  {
    LoopLater(turns, limit, 1, get.served, get.at);
  }

  /** A request started before T takes at least the time of the cache lookup, unless T comes first; it is over by T. */
  lemma RequestOnTime(e: Env, T: nat, user: string, ctx: Context, root: nat, served: nat, c: Instant)
    requires e.limit >= 1 && e.world.Ideal(Some(T)) && c.now <= T
    ensures Min(T, c.now + CACHE_WAIT) <= WorkOf(e, user, ctx, root, served, c).at.now <= T
  {
    var alone := IdealWorld(None, e.world.cause, (s: nat, t: nat) => true);
    IdealWorlds(None, e.world.cause, (s: nat, t: nat) => true);
    RequestMeets(e, e.(world := alone), T, user, ctx, root, served, c);
    IdealWait(e.world, T, c, CACHE_WAIT);
    var inner := ctx.(parent := Local(root));
    TurnsGoOn(e, user, inner, root);
    ContinueGoesOn(CacheWork(e, user, root, served, c), TurnsOf(e, user, inner, root), e.limit);
  }

  predicate RootFrom(x: Entry, now: nat) { IsRoot(x) ==> x.at == now }

  lemma RootStartsNow(e: Env, user: string, ctx: Context, root: nat, served: nat, c: Instant)
    requires e.limit >= 1
    ensures forall x :: x in FetchEntries(e, user, ctx, root, served, c) ==> RootFrom(x, c.now)
  {
    var head, w, tail := RequestParts(e, user, ctx, root, served, c);
    LookupInner(e, user, ctx.(parent := Local(root)), root, served, c);
    InnerRoots(w.entries, root, c.now);
    assert forall x :: x in head ==> RootFrom(x, c.now);
    assert forall x :: x in tail ==> RootFrom(x, c.now);
    assert forall x :: x in head + w.entries + tail ==> x in head || x in w.entries || x in tail;
  }

  lemma InnerRoots(entries: seq<Entry>, root: nat, now: nat)
    requires AllInner(entries, root)
    ensures forall x :: x in entries ==> RootFrom(x, now)
  {
    var p := (x: Entry) => Inner(x, root);
    forall x | x in entries ensures RootFrom(x, now) {
      assert p(x);
    }
  }

  // ----- The run -----

  /** No root span has started at or after T, and the clock has not passed the later of T and the start. */
  ghost predicate OnTime(s: State, T: nat, start: nat) {
    s.at.now <= Max(T, start) && forall x :: x in s.entries && IsRoot(x) ==> x.at < T
  }

  lemma RoundOnTime(cfg: Config, s: State, T: nat, start: nat)
    requires cfg.Valid() && CancelsAt(cfg.world, T) && OnTime(s, T, start)
    ensures OnTime(Round(cfg, s), T, start)
    ensures T <= s.at.now ==> Round(cfg, s).over
    ensures s.at.now < T ==> Min(T, s.at.now + CACHE_WAIT) <= Round(cfg, s).at.now
  {
    if s.at.now < T {
      var (sc, rng) := Next(cfg, s.rng);
      var e, ctx := ServiceOf(cfg, sc), RequestContext(sc);
      var w := WorkOf(e, sc.userID, ctx, s.next, 0, s.at);
      RequestOnTime(e, T, sc.userID, ctx, s.next, 0, s.at);
      RootStartsNow(e, sc.userID, ctx, s.next, 0, s.at);
      assert IdealTick(Some(T), w.at.now, cfg.interval, cfg.world.tick(w.at.step, w.at.now, cfg.interval));
      assert Round(cfg, s).entries == s.entries + FetchEntries(e, sc.userID, ctx, s.next, 0, s.at);
    }
  }

  /** In a run cancelled at T all root spans start before T, and the loop is over by T or, if later, where it starts. */
  lemma RunOnTime(cfg: Config, body: Body, T: nat, at: Instant, seed: nat, n: nat)
    requires cfg.Valid() && IsBodyOf(body, cfg) && CancelsAt(cfg.world, T)
    ensures OnTime(Rounds(body, cfg.requests, Start(at, seed), n), T, at.now)
  {
    var inv := (s: State) => OnTime(s, T, at.now);
    forall s | inv(s) ensures inv(body(s)) {
      RoundOnTime(cfg, s, T, at.now);
      assert body(s) == Round(cfg, s);
    }
    RoundsKeep(inv, body, cfg.requests, Start(at, seed), n);
  }

  lemma {:induction false} RunAdvances(cfg: Config, body: Body, T: nat, at: Instant, seed: nat, n: nat)
    requires cfg.Valid() && IsBodyOf(body, cfg) && CancelsAt(cfg.world, T)
    ensures var s := Rounds(body, cfg.requests, Start(at, seed), n);
            Stopped(cfg.requests, s) || Min(T, at.now + CACHE_WAIT * n) <= s.at.now
    decreases n
  {
    if n == 0 {
      assert Rounds(body, cfg.requests, Start(at, seed), 0) == Start(at, seed);
    } else {
      RunAdvances(cfg, body, T, at, seed, n - 1);
      RunOnTime(cfg, body, T, at, seed, n - 1);
      var s := Rounds(body, cfg.requests, Start(at, seed), n - 1);
      RoundOnTime(cfg, s, T, at.now);
      assert body(s) == Round(cfg, s);
      assert CACHE_WAIT * n == CACHE_WAIT * (n - 1) + CACHE_WAIT;
    }
  }

  /** A cancelled run ends even without a number of requests: each iteration takes 5 ms or ends at T. */
  lemma RunEnds(cfg: Config, body: Body, T: nat, at: Instant, seed: nat, n: nat)
    requires cfg.Valid() && IsBodyOf(body, cfg) && CancelsAt(cfg.world, T)
    requires T <= at.now + CACHE_WAIT * n
    ensures Stopped(cfg.requests, Rounds(body, cfg.requests, Start(at, seed), n + 1))
  {
    RunAdvances(cfg, body, T, at, seed, n);
    RunOnTime(cfg, body, T, at, seed, n);
    var s := Rounds(body, cfg.requests, Start(at, seed), n);
    if !Stopped(cfg.requests, s) {
      RoundOnTime(cfg, s, T, at.now);
      assert body(s) == Round(cfg, s);
    }
  }
}
