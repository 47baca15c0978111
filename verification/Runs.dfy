/** The request loop of the program, over runs of any length. */
module Runs {
  import opened Telemetry
  import opened Clocks
  import opened FetchSpec
  import opened FetchRecorders
  import opened Fetch
  import opened LoadGen

  // ----- Specification -----

  datatype Config = Config(world: World, limit: nat, recorder: Recorder, fail: bool, requests: int, interval: int,
                           gen: Generator) {
    ghost predicate Valid() { limit >= 1 && InRange(gen) }
  }

  datatype Sent = Sent(scenario: Scenario, err: Option<Err>)

  /** Where the loop is: the history so far, the next span, the clock, the generator, and the requests sent. */
  datatype State = State(entries: seq<Entry>, next: nat, at: Instant, rng: nat, log: seq<Sent>, over: bool)

  predicate Failed(r: Sent) { r.err.Some? }

  predicate Missed(r: Sent) { !r.scenario.cacheHit }

  /** The loop has been left, or its condition is false. */
  predicate Stopped(requests: int, s: State) {
    s.over || (requests != 0 && |s.log| >= requests)
  }

  function Next(cfg: Config, rng: nat): (Scenario, nat)
    requires cfg.Valid()
  {
    if cfg.requests == 1 then (FixedScenario(cfg.fail, cfg.limit), rng)
    else
      var d := DrawAll(cfg.gen, rng);
      (RandomScenario(d, cfg.fail, cfg.limit), d.state)
  }

  function ServiceOf(cfg: Config, sc: Scenario): FetchSpec.Env {
    FetchSpec.Env(cfg.world, cfg.limit, cfg.recorder, sc.cacheHit, sc.dbTimeouts)
  }

  /** The context of a request: no span, and the request info. */
  function RequestContext(sc: Scenario): Context { Context(NoParent, Some(sc.info)) }

  /** One iteration of the loop. */
  function Round(cfg: Config, s: State): State
    requires cfg.Valid()
  {
    if cfg.world.done(s.at.step, s.at.now) then s.(over := true)
    else
      var (sc, rng) := Next(cfg, s.rng);
      var e, ctx := ServiceOf(cfg, sc), RequestContext(sc);
      var w := WorkOf(e, sc.userID, ctx, s.next, 0, s.at);
      State(s.entries + FetchEntries(e, sc.userID, ctx, s.next, 0, s.at), NextSpan(s.next, w),
            cfg.world.Pass(w.at, cfg.interval), rng, s.log + [Sent(sc, w.err)],
            cfg.world.Interrupts(w.at, cfg.interval))
  }

  /** The loop body and the condition to leave the loop, as functions of the state. */
  type Body = State -> State

  /** The state after at most n iterations of any body; `requests` is the flag. */
  function Rounds(body: Body, requests: int, start: State, n: nat): State {
    if n == 0 then start
    else
      var s := Rounds(body, requests, start, n - 1);
      if Stopped(requests, s) then s else body(s)
  }

  function Start(at: Instant, seed: nat): State { State([], 0, at, seed, [], false) }

  function ExitCode(requests: int, s: State): nat {
    if requests == 1 && LastError(s.log).Some? then 1 else 0
  }

  lemma {:induction false} StoppedStays(body: Body, requests: int, start: State, k: nat, n: nat)
    requires k <= n && Stopped(requests, Rounds(body, requests, start, k))
    ensures Rounds(body, requests, start, n) == Rounds(body, requests, start, k)
    decreases n
  {
    if k == n {
    } else {
      StoppedStays(body, requests, start, k, n - 1);
    }
  }

  /** `body` is the loop body of this program. */
  ghost predicate IsBodyOf(body: Body, cfg: Config)
    requires cfg.Valid()
  {
    forall s {:trigger Round(cfg, s)} :: body(s) == Round(cfg, s)
  }

  /** The loop body of a program as a function. */
  function BodyOf(cfg: Config): (body: Body)
    requires cfg.Valid()
    ensures IsBodyOf(body, cfg)
  {
    (s: State) => Round(cfg, s)
  }

  /** A property that the loop body keeps, unless the loop is left before, holds after any number of iterations. */
  lemma {:induction false} RoundsKeep(inv: State -> bool, body: Body, requests: int, start: State, n: nat)
    requires inv(start) && forall s :: inv(s) && !s.over ==> inv(body(s))
    ensures inv(Rounds(body, requests, start, n))
    decreases n
  {
    if n == 0 {
    } else {
      RoundsKeep(inv, body, requests, start, n - 1);
    }
  }

  /** No event reaches the history through the recorder that was not chosen. */
  ghost predicate AllRecorded(s: State, rec: Recorder) {
    forall x :: x in s.entries ==> Recorded(x, rec)
  }

  lemma RoundRecorded(cfg: Config, s: State)
    requires cfg.Valid() && AllRecorded(s, cfg.recorder)
    ensures AllRecorded(Round(cfg, s), cfg.recorder)
  {
    if !cfg.world.done(s.at.step, s.at.now) {
      var (sc, rng) := Next(cfg, s.rng);
      RequestRecorded(ServiceOf(cfg, sc), sc.userID, RequestContext(sc), s.next, 0, s.at);
    }
  }

  lemma RunRecorded(cfg: Config, body: Body, at: Instant, seed: nat, n: nat)
    requires cfg.Valid() && IsBodyOf(body, cfg)
    ensures AllRecorded(Rounds(body, cfg.requests, Start(at, seed), n), cfg.recorder)
  {
    var inv := (s: State) => AllRecorded(s, cfg.recorder);
    forall s | inv(s) && !s.over ensures inv(body(s)) {
      RoundRecorded(cfg, s);
      assert body(s) == Round(cfg, s);
    }
    RoundsKeep(inv, body, cfg.requests, Start(at, seed), n);
  }

  // ----- The program -----

  /**
   * The loop of `run`, observed for at most `rounds` iterations: with `requests == 0` it has no end of its own.
   * The clock's world is that of the signal context.
   */
  method Run(tracer: Tracer, rnd: Rand, fail: bool, spanEvents: bool, requests: int, interval: int, maxAttempts: nat,
             rounds: nat,
             ghost cfg: Config, ghost body: Body)
    returns (sent: nat, failed: nat, exit: nat)
    requires maxAttempts >= 1 && InRange(rnd.gen) && tracer.history == [] && tracer.next == 0
    requires cfg == Config(tracer.clock.world, maxAttempts, if spanEvents then SpanEvents else LogRecords, fail,
                           requests, interval, rnd.gen)
    requires IsBodyOf(body, cfg)
    modifies tracer, tracer.clock, rnd
    ensures var s := Rounds(body, requests, Start(old(tracer.clock.time), old(rnd.state)), rounds);
            && tracer.history == s.entries && tracer.next == s.next && tracer.clock.time == s.at && rnd.state == s.rng
            && sent == |s.log| && failed == |Filter(Failed, s.log)| && exit == ExitCode(requests, s)
    ensures forall x :: x in tracer.history ==>
              if spanEvents then x.Emitted? ==> x.record.eventName == "" else !x.AddedEvent?
  {
    ghost var start := Start(tracer.clock.time, rnd.state);
    var logs := new LogEventRecorder(tracer);
    var spans := new SpanEventRecorder(tracer);
    var events := if spanEvents then ToSpan(spans) else ToLogs(logs);
    var lastErr: Option<Err> := None;
    sent, failed := 0, 0;
    var over, k := false, 0;
    ghost var s := start;
    while k < rounds && !over && (requests == 0 || sent < requests)
      invariant 0 <= k <= rounds && s == Rounds(body, requests, start, k)
      invariant tracer.history == s.entries && tracer.next == s.next && tracer.clock.time == s.at && rnd.state == s.rng
      invariant sent == |s.log| && failed == |Filter(Failed, s.log)| && over == s.over
      invariant lastErr == LastError(s.log)
      decreases rounds - k
    {
      sent, failed, lastErr, over := Iterate(tracer, rnd, events, fail, requests, interval, maxAttempts, sent, failed,
                                             lastErr, cfg, body, s);
      s, k := body(s), k + 1;
    }
    if k < rounds {
      StoppedStays(body, requests, start, k, rounds);
    }
    RunRecorded(cfg, body, start.at, start.rng, rounds);
    exit := if requests == 1 && lastErr.Some? then 1 else 0;
  }

  lemma RoundLog(cfg: Config, s: State)
    requires cfg.Valid()
    ensures var t := Round(cfg, s);
            if cfg.world.done(s.at.step, s.at.now) then t == s.(over := true)
            else
              && |t.log| == |s.log| + 1
              && |Filter(Failed, t.log)| == |Filter(Failed, s.log)| + if t.log[|s.log|].err.Some? then 1 else 0
  {
    if !cfg.world.done(s.at.step, s.at.now) {
      FilterConcat(Failed, s.log, [Round(cfg, s).log[|s.log|]]);
    }
  }

  /** The error of the last request sent. */
  function LastError(log: seq<Sent>): Option<Err> {
    if log == [] then None else log[|log| - 1].err
  }

  /** The body of the loop: leave it if the context is done, otherwise send one request and wait for the interval. */
  method Iterate(tracer: Tracer, rnd: Rand, events: EventRecorder, fail: bool, requests: int, interval: int,
                 maxAttempts: nat,
                 sent0: nat, failed0: nat, lastErr0: Option<Err>, ghost cfg: Config, ghost body: Body, ghost s: State)
    returns (sent: nat, failed: nat, lastErr: Option<Err>, over: bool)
    requires cfg.Valid() && IsBodyOf(body, cfg) && events.Target() == tracer && !s.over
    requires cfg == Config(tracer.clock.world, maxAttempts, events.Kind(), fail, requests, interval, rnd.gen)
    requires tracer.history == s.entries && tracer.next == s.next && tracer.clock.time == s.at && rnd.state == s.rng
    requires sent0 == |s.log| && failed0 == |Filter(Failed, s.log)| && lastErr0 == LastError(s.log)
    modifies tracer, tracer.clock, rnd
    ensures var t := body(s);
            && tracer.history == t.entries && tracer.next == t.next && tracer.clock.time == t.at && rnd.state == t.rng
            && sent == |t.log| && failed == |Filter(Failed, t.log)| && over == t.over && lastErr == LastError(t.log)
  {
    RoundLog(cfg, s);
    if tracer.clock.world.done(tracer.clock.time.step, tracer.clock.time.now) {
      sent, failed, lastErr, over := sent0, failed0, lastErr0, true;
    } else {
      lastErr := Send(tracer, rnd, events, fail, requests, maxAttempts, cfg, s);
      failed := failed0 + if lastErr.Some? then 1 else 0;
      sent := sent0 + 1;
      var interrupted := tracer.clock.Sleep(interval);
      over := interrupted.Some?;
    }
  }

  /** Chooses the scenario, builds the service and sends one request. */
  method Send(tracer: Tracer, rnd: Rand, events: EventRecorder, fail: bool, requests: int, maxAttempts: nat,
              ghost cfg: Config, ghost s: State)
    returns (err: Option<Err>)
    requires cfg.Valid() && events.Target() == tracer && rnd.gen == cfg.gen && tracer.clock.world == cfg.world
    requires cfg.limit == maxAttempts && cfg.recorder == events.Kind() && cfg.fail == fail && cfg.requests == requests
    requires tracer.history == s.entries && tracer.next == s.next && tracer.clock.time == s.at && rnd.state == s.rng
    modifies tracer, tracer.clock, rnd
    ensures var (sc, rng) := Next(cfg, s.rng);
            var e, ctx := ServiceOf(cfg, sc), RequestContext(sc);
            var w := WorkOf(e, sc.userID, ctx, s.next, 0, s.at);
            && tracer.history == s.entries + FetchEntries(e, sc.userID, ctx, s.next, 0, s.at)
            && tracer.next == NextSpan(s.next, w) && tracer.clock.time == w.at && rnd.state == rng && err == w.err
  {
    var sc := MakeFixedScenario(fail, maxAttempts);
    if requests != 1 {
      sc := MakeRandomScenario(rnd, fail, maxAttempts);
    }
    var cache := new Cache(tracer, sc.cacheHit);
    var db := new UserDB(tracer, sc.dbTimeouts);
    var service := new UserService(tracer, cache, db, events, maxAttempts);
    var name;
    name, err := service.FetchUser(RequestContext(sc), sc.userID);
  }
}
