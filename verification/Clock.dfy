/** Time and cancellation. Everything the program cannot control is answered by a `World`. */
module Clocks {
  import opened Telemetry

  /** How one wait ends: how long it really took, and whether the context ended it. */
  datatype Tick = Tick(elapsed: nat, interrupted: bool)

  /** A point of a run: the clock reading in nanoseconds and the number of readings and waits so far. */
  datatype Instant = Instant(now: nat, step: nat)

  // The simulated latencies, 5 ms and 20 ms.
  const CACHE_WAIT: nat := 5_000_000
  const QUERY_WAIT: nat := 20_000_000

  /**
   * `tick(step, now, d)` answers the wait for d nanoseconds that starts at `now` as number `step`
   * of the run; a clock reading is a wait for 0. Any answers are possible, so statements over all worlds
   * cover every scheduling, every cancellation instant and every choice `select` makes.
   */
  datatype World = World(tick: (nat, nat, int) -> Tick, done: (nat, nat) -> bool, cause: ContextErr) {
    function Pass(c: Instant, d: int): Instant {
      Instant(c.now + tick(c.step, c.now, d).elapsed, c.step + 1)
    }

    predicate Interrupts(c: Instant, d: int) {
      tick(c.step, c.now, d).interrupted
    }

    function WaitError(c: Instant, d: int): Option<Err> {
      if Interrupts(c, d) then Some(cause) else None
    }

    /** No wait is interrupted. */
    ghost predicate Undisturbed() {
      forall s, t, d :: !tick(s, t, d).interrupted
    }

    /** The context is never done. */
    ghost predicate Uncancelled() {
      Undisturbed() && (forall s, t :: !done(s, t))
    }

    /** A timer never fires early. */
    ghost predicate TimersKeepTime() {
      forall s, t, d :: tick(s, t, d).interrupted || d <= tick(s, t, d).elapsed
    }

    /** A wait is interrupted only by a context that is then done. */
    ghost predicate InterruptsWhenDone() {
      forall s: nat, t: nat, d: int :: tick(s, t, d).interrupted ==> done(s + 1, t + tick(s, t, d).elapsed)
    }

    /**
     * An ideal clock: only waits take time, the timer is ready after exactly d, and the context is
     * done from instant `cancel` on. The wait ends as soon as one of the two is ready; when both are,
     * either may win.
     */
    ghost predicate Ideal(cancel: Option<nat>) {
      forall s, t, d :: IdealTick(cancel, t, d, tick(s, t, d))
    }
  }

  ghost predicate IdealTick(cancel: Option<nat>, t: nat, d: int, k: Tick) {
    var timer := t + if d > 0 then d else 0;
    match cancel
    case None => k == Tick(timer - t, false)
    case Some(T) =>
      var done := if T > t then T else t;
      var end := if timer < done then timer else done;
      && k.elapsed == end - t
      && (k.interrupted ==> T <= end)
      && (!k.interrupted ==> timer <= end)
  }

  /** An ideal clock for each cancellation instant and each way to choose between a timer and a context both ready. */
  function IdealWorld(cancel: Option<nat>, cause: ContextErr, timerFirst: (nat, nat) -> bool): World {
    World((s: nat, t: nat, d: int) => IdealAnswer(cancel, timerFirst(s, t), t, d),
          (s: nat, t: nat) => cancel.Some? && cancel.value <= t, cause)
  }

  function IdealAnswer(cancel: Option<nat>, timerFirst: bool, t: nat, d: int): Tick {
    var timer := t + if d > 0 then d else 0;
    match cancel
    case None => Tick(timer - t, false)
    case Some(T) =>
      var done := if T > t then T else t;
      if timer < done || (timer == done && timerFirst) then Tick(timer - t, false) else Tick(done - t, true)
  }

  lemma IdealWorlds(cancel: Option<nat>, cause: ContextErr, timerFirst: (nat, nat) -> bool)
    ensures var w := IdealWorld(cancel, cause, timerFirst);
            && w.Ideal(cancel) && w.TimersKeepTime() && w.InterruptsWhenDone() && (cancel.None? ==> w.Uncancelled())
            && (forall s, t :: w.done(s, t) <==> cancel.Some? && cancel.value <= t)
  {
    var w := IdealWorld(cancel, cause, timerFirst);
    forall s, t, d ensures IdealTick(cancel, t, d, w.tick(s, t, d)) {
      assert w.tick(s, t, d) == IdealAnswer(cancel, timerFirst(s, t), t, d);
    }
    forall s: nat, t: nat, d: int | w.tick(s, t, d).interrupted ensures w.done(s + 1, t + w.tick(s, t, d).elapsed) {
      assert IdealTick(cancel, t, d, w.tick(s, t, d));
    }
  }

  /** The process clock together with the cancellable context. */
  class Clock {
    const world: World
    var time: Instant

    constructor (world: World)
      ensures this.world == world && time == Instant(0, 0)
    {
      this.world := world;
      time := Instant(0, 0);
    }

    method Now() returns (n: nat)
      modifies this
      ensures time == world.Pass(old(time), 0) && n == time.now
    {
      time := world.Pass(time, 0);
      n := time.now;
    }

    /** Waits for d unless the context ends first; a done context gives its error. */
    method Sleep(d: int) returns (err: Option<Err>)
      modifies this
      ensures time == world.Pass(old(time), d)
      ensures err == world.WaitError(old(time), d)
      ensures err.None? && world.TimersKeepTime() ==> old(time).now + d <= time.now
      ensures err.Some? && world.InterruptsWhenDone() ==> err.value == world.cause && world.done(time.step, time.now)
    {
      err := world.WaitError(time, d);
      time := world.Pass(time, d);
    }
  }
}
