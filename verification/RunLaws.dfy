/** Laws of whole runs: conservation, the stack, the exit code, and runs with and without the `fail` flag. */
module RunLaws {
  import opened Telemetry
  import opened Clocks
  import opened FetchSpec
  import opened FetchCounters
  import opened FetchRows
  import opened FetchSpans
  import opened FetchTime
  import opened Runs

  // ----- Conservation -----

  /** The history accounts for every request sent and for every one that failed, and all its spans are over. */
  ghost predicate Conserved(s: State) {
    && |Filter(IsRoot, s.entries)| == |s.log|
    && |Filter(IsRootError, s.entries)| == |Filter(Failed, s.log)|
    && |Filter(IsException, s.entries)| == |Filter(Failed, s.log)|
    && Replay(Board([], {}), s.entries) == Some(Board([], Numbers(0, s.next)))
  }

  lemma ConservedAppends(s: State, t: State, h: seq<Entry>, w: Work, sent: Sent)
    requires Conserved(s) && RequestFits(h, w) && sent.err == w.err
    requires t.entries == s.entries + h && t.log == s.log + [sent] && t.next == s.next + 2 + |w.took|
    requires var board := Board([], Numbers(0, s.next)); Replay(board, h) == Some(After(board, s.next, 2 + |w.took|))
    ensures Conserved(t)
  {
    FilterConcat(IsRoot, s.entries, h);
    FilterConcat(IsRootError, s.entries, h);
    FilterConcat(IsException, s.entries, h);
    FilterConcat(Failed, s.log, [sent]);
    ReplayConcat(Board([], {}), s.entries, h);
    assert Numbers(0, s.next) + Numbers(s.next, 2 + |w.took|) == Numbers(0, t.next);
  }

  lemma RoundConserves(cfg: Config, s: State)
    requires cfg.Valid() && Conserved(s)
    ensures Conserved(Round(cfg, s))
  {
    if !cfg.world.done(s.at.step, s.at.now) {
      var (sc, rng) := Next(cfg, s.rng);
      var e, ctx := ServiceOf(cfg, sc), RequestContext(sc);
      RequestCounts(e, sc.userID, ctx, s.next, 0, s.at);
      RequestReplays(Board([], Numbers(0, s.next)), e, sc.userID, ctx, s.next, 0, s.at);
      var w := WorkOf(e, sc.userID, ctx, s.next, 0, s.at);
      ConservedAppends(s, Round(cfg, s), FetchEntries(e, sc.userID, ctx, s.next, 0, s.at), w, Sent(sc, w.err));
    }
  }

  /** After any number of iterations the history is conserved, whatever the world does. */
  lemma RunConserves(cfg: Config, body: Body, at: Instant, seed: nat, n: nat)
    requires cfg.Valid() && IsBodyOf(body, cfg)
    ensures Conserved(Rounds(body, cfg.requests, Start(at, seed), n))
  {
    var inv := (s: State) => Conserved(s);
    forall s | inv(s) ensures inv(body(s)) {
      RoundConserves(cfg, s);
      assert body(s) == Round(cfg, s);
    }
    assert Numbers(0, 0) == {};
    RoundsKeep(inv, body, cfg.requests, Start(at, seed), n);
  }

  // ----- How many requests are sent, and the exit code -----

  /** Each iteration adds at most one request, and exactly one unless it leaves the loop. */
  ghost predicate Adds(body: Body, s: State) {
    var t := body(s);
    if t.over && t.log == s.log then true else |t.log| == |s.log| + 1 && t.log[..|s.log|] == s.log
  }

  lemma BodyAdds(cfg: Config, body: Body, s: State)
    requires cfg.Valid() && IsBodyOf(body, cfg)
    ensures Adds(body, s)
    ensures cfg.world.Uncancelled() && !s.over ==> !body(s).over
  {
    RoundLog(cfg, s);
    assert body(s) == Round(cfg, s);
  }

  lemma {:induction false} SendsAtMost(body: Body, requests: int, start: State, n: nat)
    requires start.log == [] && forall s :: Adds(body, s)
    ensures var s := Rounds(body, requests, start, n);
            && |s.log| <= n && (requests != 0 ==> |s.log| <= if requests > 0 then requests else 0)
    decreases n
  {
    if n == 0 {
    } else {
      SendsAtMost(body, requests, start, n - 1);
      assert Adds(body, Rounds(body, requests, start, n - 1));
    }
  }

  lemma {:induction false} SendsAll(body: Body, requests: int, start: State, n: nat)
    requires start.log == [] && !start.over && forall s :: Adds(body, s) && (!s.over ==> !body(s).over)
    ensures var s := Rounds(body, requests, start, n);
            && !s.over
            && |s.log| == (if requests == 0 || n <= requests then n else if requests > 0 then requests else 0)
    decreases n
  {
    if n == 0 {
    } else {
      SendsAll(body, requests, start, n - 1);
      assert Adds(body, Rounds(body, requests, start, n - 1));
    }
  }

  /** Without cancellation the loop sends max(requests, 0) requests, or one per iteration if `requests` is zero. */
  lemma RunSends(cfg: Config, body: Body, at: Instant, seed: nat, n: nat)
    requires cfg.Valid() && IsBodyOf(body, cfg) && cfg.world.Uncancelled()
    ensures var sent := |Rounds(body, cfg.requests, Start(at, seed), n).log|;
            && (cfg.requests == 0 ==> sent == n)
            && (cfg.requests != 0 && n >= cfg.requests ==> sent == if cfg.requests > 0 then cfg.requests else 0)
  {
    forall s ensures Adds(body, s) && (!s.over ==> !body(s).over) {
      BodyAdds(cfg, body, s);
    }
    SendsAll(body, cfg.requests, Start(at, seed), n);
  }

  /** In any world the exit code is 1 exactly when one request was asked for and the one that was sent failed. */
  lemma ExitCodeLaw(cfg: Config, body: Body, at: Instant, seed: nat, n: nat)
    requires cfg.Valid() && IsBodyOf(body, cfg)
    ensures var s := Rounds(body, cfg.requests, Start(at, seed), n);
            && ExitCode(cfg.requests, s) in {0, 1}
            && (ExitCode(cfg.requests, s) == 1 <==> cfg.requests == 1 && |s.log| == 1 && |Filter(Failed, s.log)| == 1)
  {
    forall s ensures Adds(body, s) {
      BodyAdds(cfg, body, s);
    }
    SendsAtMost(body, cfg.requests, Start(at, seed), n);
    var log := Rounds(body, cfg.requests, Start(at, seed), n).log;
    if |log| == 1 {
      assert log[1..] == [];
    }
  }

  // ----- Runs with and without the fail flag -----

  /** The same configuration with the flag set, in a world of its own. */
  ghost predicate Twins(a: Config, b: Config) {
    && a.Valid() && b == a.(fail := true, world := b.world) && !a.fail
    && a.world.Uncancelled() && b.world.Uncancelled()
  }

  /** Same request; it fails with the flag exactly when it misses the cache, and then also if it fails without. */
  predicate Paired(x: Sent, y: Sent) {
    && x.scenario.(dbTimeouts := y.scenario.dbTimeouts) == y.scenario
    && (Failed(y) <==> Missed(y))
    && (Failed(x) ==> Failed(y))
  }

  ghost predicate AllPaired(s: State, t: State) {
    && |s.log| == |t.log| && s.rng == t.rng && !s.over && !t.over
    && forall i :: 0 <= i < |s.log| ==> Paired(s.log[i], t.log[i])
  }

  lemma RequestPairs(a: Config, b: Config, rng: nat, ra: nat, rb: nat, ca: Instant, cb: Instant)
    requires Twins(a, b)
    ensures var (x, r) := Next(a, rng);
            var (y, r') := Next(b, rng);
            && r == r'
            && Paired(Sent(x, WorkOf(ServiceOf(a, x), x.userID, RequestContext(x), ra, 0, ca).err),
                      Sent(y, WorkOf(ServiceOf(b, y), y.userID, RequestContext(y), rb, 0, cb).err))
  {
    var (x, r) := Next(a, rng);
    var (y, r') := Next(b, rng);
    RequestCloses(ServiceOf(a, x), x.userID, RequestContext(x), ra, 0, ca);
    RequestCloses(ServiceOf(b, y), y.userID, RequestContext(y), rb, 0, cb);
  }

  lemma PairsAppend(s: State, t: State, s': State, t': State, x: Sent, y: Sent)
    requires AllPaired(s, t) && Paired(x, y)
    requires s'.log == s.log + [x] && t'.log == t.log + [y] && s'.rng == t'.rng && !s'.over && !t'.over
    ensures AllPaired(s', t')
  {
  }

  lemma RoundPairs(a: Config, b: Config, s: State, t: State)
    requires Twins(a, b) && AllPaired(s, t)
    ensures AllPaired(Round(a, s), Round(b, t))
  {
    RequestPairs(a, b, s.rng, s.next, t.next, s.at, t.at);
    var s', t' := Round(a, s), Round(b, t);
    PairsAppend(s, t, s', t', s'.log[|s.log|], t'.log[|t.log|]);
  }

  lemma {:induction false} FailuresAreMisses(log: seq<Sent>)
    requires forall r :: r in log ==> (Failed(r) <==> Missed(r))
    ensures Filter(Failed, log) == Filter(Missed, log)
  {
    if log == [] {
    } else {
      FailuresAreMisses(log[1..]);
    }
  }

  lemma {:induction false} RoundsPair(a: Body, b: Body, requests: int, s0: State, t0: State, n: nat)
    requires AllPaired(s0, t0) && forall s, t :: AllPaired(s, t) ==> AllPaired(a(s), b(t))
    ensures AllPaired(Rounds(a, requests, s0, n), Rounds(b, requests, t0, n))
    decreases n
  {
    if n == 0 {
    } else {
      RoundsPair(a, b, requests, s0, t0, n - 1);
    }
  }

  lemma PairedMisses(s: State, t: State)
    requires AllPaired(s, t)
    ensures |Filter(Failed, t.log)| == |Filter(Missed, t.log)|
  {
    forall r | r in t.log ensures Failed(r) <==> Missed(r) {
      var i :| 0 <= i < |t.log| && t.log[i] == r;
      assert Paired(s.log[i], t.log[i]);
    }
    FailuresAreMisses(t.log);
  }

  /**
   * Two uncancelled runs from one seed, without and with the flag: at every step the same user, request info,
   * cache hit and generator state; failures without the flag also fail with it; with it the failures are the misses.
   */
  lemma TwinRuns(a: Config, b: Config, x: Body, y: Body, ca: Instant, cb: Instant, seed: nat, n: nat)
    requires Twins(a, b) && IsBodyOf(x, a) && IsBodyOf(y, b)
    ensures var s, t := Rounds(x, a.requests, Start(ca, seed), n), Rounds(y, b.requests, Start(cb, seed), n);
            && AllPaired(s, t)
            && |Filter(Failed, t.log)| == |Filter(Missed, t.log)|
  {
    forall s, t | AllPaired(s, t) ensures AllPaired(x(s), y(t)) {
      RoundPairs(a, b, s, t);
      assert x(s) == Round(a, s) && y(t) == Round(b, t);
    }
    RoundsPair(x, y, a.requests, Start(ca, seed), Start(cb, seed), n);
    PairedMisses(Rounds(x, a.requests, Start(ca, seed), n), Rounds(y, a.requests, Start(cb, seed), n));
  }
}
