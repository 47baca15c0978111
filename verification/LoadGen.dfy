/** The conditions of one request, drawn from a seeded generator. */
module LoadGen {
  import opened Telemetry

  datatype Scenario = Scenario(userID: string, info: RequestInfo, cacheHit: bool, dbTimeouts: int)

  /** One draw below n from a generator state: the value and the next state. */
  type Generator = (nat, nat) -> (nat, nat)

  ghost predicate InRange(gen: Generator) {
    forall s, n :: n > 0 ==> gen(s, n).0 < n
  }

  class Rand {
    const gen: Generator
    var state: nat

    constructor (gen: Generator, seed: nat)
      ensures this.gen == gen && state == seed
    {
      this.gen := gen;
      state := seed;
    }

    method IntN(n: nat) returns (v: nat)
      requires n > 0 && InRange(gen)
      modifies this
      ensures v < n && v == gen(old(state), n).0 && state == gen(old(state), n).1
    {
      var draw := gen(state, n);
      v, state := draw.0, draw.1;
    }

    method Pick<T>(xs: seq<T>) returns (x: T)
      requires |xs| > 0 && InRange(gen)
      modifies this
      ensures x == xs[gen(old(state), |xs|).0] && state == gen(old(state), |xs|).1
    {
      var i := IntN(|xs|);
      x := xs[i];
    }
  }

  const COUNTRIES: seq<string> := ["JP", "US", "DE", "BR", "IN"]
  const PLANS: seq<string> := ["free", "free", "free", "premium", "premium", "enterprise"]
  const VERSIONS: seq<string> := ["2.3.0", "2.3.1", "2.4.0"]

  function Digit(n: nat): char
    requires n < 10
  {
    "0123456789"[n]
  }

  /** `user-%03d` of a number below 1000. */
  function UserName(n: nat): string
    requires n < 1000
  {
    "user-" + [Digit(n / 100), Digit(n / 10 % 10), Digit(n % 10)]
  }

  function OSName(android: bool): string { if android then "Android" else "iOS" }

  function OSVersions(android: bool): seq<string> { if android then ["13", "14"] else ["17", "18"] }

  /** Everything a random scenario draws; the draws do not depend on the `fail` flag. */
  datatype Draws = Draws(userID: string, info: RequestInfo, cacheHit: bool, p: nat, state: nat)

  /** The state after the six draws of the request info. */
  function AfterInfo(gen: Generator, s: nat): nat {
    gen(gen(gen(gen(gen(gen(s, 2).1, 5).1, 6).1, 2).1, 3).1, 2).1
  }

  function DrawAll(gen: Generator, s: nat): Draws
    requires InRange(gen)
  {
    var os := gen(s, 2);
    var android := os.0 == 0;
    var country := gen(os.1, 5);
    var plan := gen(country.1, 6);
    var version := gen(plan.1, 2);
    var app := gen(version.1, 3);
    var profile := gen(app.1, 2);
    var user := gen(profile.1, 200);
    var hit := gen(user.1, 10);
    var info := RequestInfo(COUNTRIES[country.0], PLANS[plan.0], OSName(android), OSVersions(android)[version.0],
                            "ExampleApp", VERSIONS[app.0], profile.0 == 0);
    if hit.0 < 3 then
      Draws(UserName(user.0), info, true, 0, hit.1)
    else
      var p := gen(hit.1, 100);
      Draws(UserName(user.0), info, false, p.0, p.1)
  }

  /** The defect planted in the load: this combination times out far more often than others. */
  predicate Fragile(info: RequestInfo) {
    info.osName == "Android" && info.osVersion == "14" && info.appVersion == "2.3.1"
  }

  function Timeouts(d: Draws, fail: bool, maxAttempts: nat): int {
    if d.cacheHit then 0
    else if fail then maxAttempts
    else if Fragile(d.info) then (if d.p < 70 then maxAttempts else 1)
    else if d.p < 3 then maxAttempts
    else if d.p < 15 then 1
    else 0
  }

  function RandomScenario(d: Draws, fail: bool, maxAttempts: nat): Scenario {
    Scenario(d.userID, d.info, d.cacheHit, Timeouts(d, fail, maxAttempts))
  }

  function FixedScenario(fail: bool, maxAttempts: nat): Scenario {
    Scenario("alice", RequestInfo("JP", "premium", "Android", "14", "ExampleApp", "2.3.1", true), false,
             if fail then maxAttempts else 1)
  }

  method MakeFixedScenario(fail: bool, maxAttempts: nat) returns (sc: Scenario)
    ensures sc == FixedScenario(fail, maxAttempts)
  {
    sc := Scenario("alice", RequestInfo("JP", "premium", "Android", "14", "ExampleApp", "2.3.1", true), false, 1);
    if fail {
      sc := sc.(dbTimeouts := maxAttempts);
    }
  }

  /** The switch over a miss: how many of its first calls time out. */
  method ChooseTimeouts(d: Draws, fail: bool, maxAttempts: nat) returns (n: int)
    requires !d.cacheHit
    ensures n == Timeouts(d, fail, maxAttempts)
  {
    n := 0;
    if fail {
      n := maxAttempts;
    } else if d.info.osName == "Android" && d.info.osVersion == "14" && d.info.appVersion == "2.3.1" {
      if d.p < 70 {
        n := maxAttempts;
      } else {
        n := 1;
      }
    } else if d.p < 3 {
      n := maxAttempts;
    } else if d.p < 15 {
      n := 1;
    }
  }

  method MakeInfo(r: Rand) returns (info: RequestInfo)
    requires InRange(r.gen)
    modifies r
    ensures info == DrawAll(r.gen, old(r.state)).info && r.state == AfterInfo(r.gen, old(r.state))
  {
    var osName, osVersions := "iOS", ["17", "18"];
    var os := r.IntN(2);
    if os == 0 {
      osName, osVersions := "Android", ["13", "14"];
    }
    var country := r.Pick(["JP", "US", "DE", "BR", "IN"]);
    var plan := r.Pick(["free", "free", "free", "premium", "premium", "enterprise"]);
    var osVersion := r.Pick(osVersions);
    var appVersion := r.Pick(["2.3.0", "2.3.1", "2.4.0"]);
    var profile := r.IntN(2);
    info := RequestInfo(country, plan, osName, osVersion, "ExampleApp", appVersion, profile == 0);
  }

  method MakeRandomScenario(r: Rand, fail: bool, maxAttempts: nat) returns (sc: Scenario)
    requires InRange(r.gen)
    modifies r
    ensures var d := DrawAll(r.gen, old(r.state));
            sc == RandomScenario(d, fail, maxAttempts) && r.state == d.state
  {
    ghost var d := DrawAll(r.gen, r.state);
    var info := MakeInfo(r);
    var user := r.IntN(200);
    var hit := r.IntN(10);
    sc := Scenario(UserName(user), info, hit < 3, 0);
    if !sc.cacheHit {
      var p := r.IntN(100);
      var n := ChooseTimeouts(Draws(sc.userID, info, false, p, r.state), fail, maxAttempts);
      sc := sc.(dbTimeouts := n);
    }
  }
}
