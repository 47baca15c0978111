/** What the generated scenarios come to: how their requests end when nothing cancels them. */
module RunOutcomes {
  import opened Telemetry
  import opened Clocks
  import opened FetchSpec
  import opened FetchTime
  import opened LoadGen
  import opened Runs

  /** The work of a request for a scenario, with a database of its own. */
  function ScenarioWork(cfg: Config, sc: Scenario, root: nat, c: Instant): Work
    requires cfg.Valid()
  {
    WorkOf(ServiceOf(cfg, sc), sc.userID, RequestContext(sc), root, 0, c)
  }

  /** Every attempt has timed out. */
  predicate GaveUp(w: Work, limit: nat) {
    limit >= 1 && w.err == Some(DBTimeout) && |w.took| == limit && w.retries == limit - 1
  }

  /** The database has answered, after the given number of timeouts. */
  predicate Answered(w: Work, user: string, timeouts: nat) {
    w.err.None? && w.name == "name-of-" + user && !w.hit && |w.took| == timeouts + 1 && w.retries == timeouts
  }

  /**
   * The fixed request misses the cache, times out once and succeeds at the second call; with the flag, or if there is
   * only one attempt, it fails.
   */
  lemma FixedRequestOutcome(cfg: Config, root: nat, c: Instant)
    requires cfg.Valid() && cfg.world.Undisturbed()
    ensures var sc := FixedScenario(cfg.fail, cfg.limit);
            var w := ScenarioWork(cfg, sc, root, c);
            if cfg.fail || cfg.limit == 1 then GaveUp(w, cfg.limit) else Answered(w, "alice", 1)
  {
    var sc := FixedScenario(cfg.fail, cfg.limit);
    RequestCloses(ServiceOf(cfg, sc), sc.userID, RequestContext(sc), root, 0, c);
  }

  /** The misses that time out throughout: all with the flag, 70 of 100 with the planted defect, 3 of 100 otherwise. */
  predicate Doomed(d: Draws, fail: bool) {
    fail || d.p < if Fragile(d.info) then 70 else 3
  }

  /** The misses that time out once: the others with the planted defect, and 12 of 100 of the rest. */
  predicate Slow(d: Draws, fail: bool) {
    !Doomed(d, fail) && (Fragile(d.info) || d.p < 15)
  }

  /**
   * For any draws, a random request is answered by the cache on a hit. On a miss it fails exactly when it is doomed, or
   * slow with only one attempt; a slow one succeeds at its second call and any other at its first.
   */
  lemma RandomRequestOutcome(cfg: Config, d: Draws, root: nat, c: Instant)
    requires cfg.Valid() && cfg.world.Undisturbed()
    ensures var w := ScenarioWork(cfg, RandomScenario(d, cfg.fail, cfg.limit), root, c);
            if d.cacheHit then w.hit && w.err.None? && w.name == "cached-name" && w.took == []
            else if Doomed(d, cfg.fail) || (Slow(d, cfg.fail) && cfg.limit == 1) then GaveUp(w, cfg.limit)
            else Answered(w, d.userID, if Slow(d, cfg.fail) then 1 else 0)
  {
    var sc := RandomScenario(d, cfg.fail, cfg.limit);
    RequestCloses(ServiceOf(cfg, sc), sc.userID, RequestContext(sc), root, 0, c);
  }

  /** The generator state before the k-th request. */
  function SeedAt(gen: Generator, seed: nat, k: nat): nat
    requires InRange(gen)
  {
    if k == 0 then seed else DrawAll(gen, SeedAt(gen, seed, k - 1)).state
  }

  /** Where the scenario of the k-th request comes from. */
  ghost predicate ComesFrom(cfg: Config, seed: nat, k: nat, sc: Scenario)
    requires cfg.Valid()
  {
    if cfg.requests == 1 then
      && sc.userID == "alice" && !sc.cacheHit && sc.dbTimeouts == (if cfg.fail then cfg.limit else 1)
      && sc.info == RequestInfo("JP", "premium", "Android", "14", "ExampleApp", "2.3.1", true)
    else
      sc == RandomScenario(DrawAll(cfg.gen, SeedAt(cfg.gen, seed, k)), cfg.fail, cfg.limit)
  }

  ghost predicate AllDrawn(cfg: Config, seed: nat, s: State)
    requires cfg.Valid()
  {
    && SeedFits(cfg, seed, |s.log|, s.rng)
    && forall k :: 0 <= k < |s.log| ==> ComesFrom(cfg, seed, k, s.log[k].scenario)
  }

  /** The state the generator is in after k requests. */
  ghost predicate SeedFits(cfg: Config, seed: nat, k: nat, rng: nat)
    requires cfg.Valid()
  {
    rng == if cfg.requests == 1 then seed else SeedAt(cfg.gen, seed, k)
  }

  lemma NextDraws(cfg: Config, seed: nat, k: nat, rng: nat)
    requires cfg.Valid() && SeedFits(cfg, seed, k, rng)
    ensures var (sc, next) := Next(cfg, rng);
            ComesFrom(cfg, seed, k, sc) && SeedFits(cfg, seed, k + 1, next)
  {
  }

  lemma RoundDraws(cfg: Config, seed: nat, s: State)
    requires cfg.Valid() && AllDrawn(cfg, seed, s)
    ensures AllDrawn(cfg, seed, Round(cfg, s))
  {
    var t := Round(cfg, s);
    RoundNext(cfg, s);
    if t.log == s.log {
      assert forall k :: 0 <= k < |s.log| ==> ComesFrom(cfg, seed, k, s.log[k].scenario);
    } else {
      NextDraws(cfg, seed, |s.log|, s.rng);
      DrawsAppend(cfg, seed, s, t, t.log[|s.log|]);
    }
  }

  /** An iteration sends nothing, or one request with the next scenario. */
  lemma RoundNext(cfg: Config, s: State)
    requires cfg.Valid()
    ensures var t := Round(cfg, s);
            || (t.log == s.log && t.rng == s.rng)
            || (|t.log| == |s.log| + 1 && t.log == s.log + [t.log[|s.log|]]
                && Next(cfg, s.rng) == (t.log[|s.log|].scenario, t.rng))
  {
  }

  lemma DrawsAppend(cfg: Config, seed: nat, s: State, t: State, sent: Sent)
    requires cfg.Valid() && AllDrawn(cfg, seed, s) && t.log == s.log + [sent]
    requires ComesFrom(cfg, seed, |s.log|, sent.scenario) && SeedFits(cfg, seed, |t.log|, t.rng)
    ensures AllDrawn(cfg, seed, t)
  {
    forall k | 0 <= k < |t.log| ensures ComesFrom(cfg, seed, k, t.log[k].scenario) {
      if k < |s.log| {
        assert t.log[k] == s.log[k] && ComesFrom(cfg, seed, k, s.log[k].scenario);
      } else {
        assert k == |s.log| && t.log[k] == sent;
      }
    }
  }

  /** A run of one request sends the fixed scenario; any other draws one scenario after the other from its seed. */
  lemma RunDraws(cfg: Config, body: Body, at: Instant, seed: nat, n: nat)
    requires cfg.Valid() && IsBodyOf(body, cfg)
    ensures AllDrawn(cfg, seed, Rounds(body, cfg.requests, Start(at, seed), n))
  {
    var inv := (s: State) => AllDrawn(cfg, seed, s);
    forall s | inv(s) && !s.over ensures inv(body(s)) {
      RoundDraws(cfg, seed, s);
      assert body(s) == Round(cfg, s);
    }
    RoundsKeep(inv, body, cfg.requests, Start(at, seed), n);
  }

  /** An interrupted wait between two requests ends the run: if all are, no second request is sent. */
  lemma RunLeaves(cfg: Config, body: Body, at: Instant, seed: nat, n: nat)
    requires cfg.Valid() && IsBodyOf(body, cfg) && forall k, t :: cfg.world.tick(k, t, cfg.interval).interrupted
    ensures |Rounds(body, cfg.requests, Start(at, seed), n).log| <= 1
  {
    var inv := (s: State) => |s.log| <= 1 && (s.log != [] ==> s.over);
    forall s | inv(s) && !s.over ensures inv(body(s)) {
      RoundLog(cfg, s);
      assert body(s) == Round(cfg, s);
    }
    RoundsKeep(inv, body, cfg.requests, Start(at, seed), n);
  }

  lemma FixedRoundEnds(cfg: Config, at: Instant, seed: nat)
    requires cfg.Valid() && cfg.world.Uncancelled() && cfg.requests == 1
    ensures var t := Round(cfg, Start(at, seed));
            |t.log| == 1 && (LastError(t.log).Some? <==> cfg.fail || cfg.limit == 1)
  {
    FixedRequestOutcome(cfg, 0, at);
  }

  /** A run of one request that nothing cancels ends with exit code 1 exactly with the flag or with only one attempt. */
  lemma FixedRunExits(cfg: Config, body: Body, at: Instant, seed: nat, n: nat)
    requires cfg.Valid() && IsBodyOf(body, cfg) && cfg.world.Uncancelled() && cfg.requests == 1 && n >= 1
    ensures ExitCode(1, Rounds(body, 1, Start(at, seed), n)) == if cfg.fail || cfg.limit == 1 then 1 else 0
  {
    var start := Start(at, seed);
    FixedRoundEnds(cfg, at, seed);
    assert body(start) == Round(cfg, start);
    assert Rounds(body, 1, start, 0) == start;
    assert Rounds(body, 1, start, 1) == body(start);
    StoppedStays(body, 1, start, 1, n);
  }
}
