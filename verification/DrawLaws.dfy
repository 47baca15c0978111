/** What the random scenarios are, draw by draw. */
module DrawLaws {
  import opened Telemetry
  import opened LoadGen

  /** The generator state after draws below the given bounds. */
  function StateAfter(gen: Generator, s: nat, bounds: seq<nat>): nat
    decreases |bounds|
  {
    if bounds == [] then s else StateAfter(gen, gen(s, bounds[0]).1, bounds[1..])
  }

  /** The i-th of these draws. */
  function Drawn(gen: Generator, s: nat, bounds: seq<nat>, i: nat): nat
    requires i < |bounds|
  {
    gen(StateAfter(gen, s, bounds[..i]), bounds[i]).0
  }

  /** The draws of a request: system, country, plan, version, app version, feature, user, cache hit. */
  const BOUNDS: seq<nat> := [2, 5, 6, 2, 3, 2, 200, 10]

  lemma StateStep(gen: Generator, s: nat, bounds: seq<nat>, n: nat)
    ensures StateAfter(gen, s, bounds + [n]) == gen(StateAfter(gen, s, bounds), n).1
    decreases |bounds|
  {
    if bounds == [] {
      assert ([] + [n])[1..] == [];
    } else {
      assert (bounds + [n])[0] == bounds[0] && (bounds + [n])[1..] == bounds[1..] + [n];
      StateStep(gen, gen(s, bounds[0]).1, bounds[1..], n);
    }
  }

  /** The draws are made one after the other: each is the value of the state that the draws before it left. */
  lemma {:induction false} StatesChain(gen: Generator, s: nat, bounds: seq<nat>, i: nat)
    requires i < |bounds|
    ensures StateAfter(gen, s, bounds[..i + 1]) == gen(StateAfter(gen, s, bounds[..i]), bounds[i]).1
  {
    assert bounds[..i + 1] == bounds[..i] + [bounds[i]];
    StateStep(gen, s, bounds[..i], bounds[i]);
  }

  /** The number that a string of digits stands for. */
  function NumberOf(digits: string): int {
    if digits == "" then 0 else NumberOf(digits[..|digits| - 1]) * 10 + (digits[|digits| - 1] as int - '0' as int)
  }

  /** `user-` and three digits that stand for n. */
  predicate IsUser(name: string, n: nat) {
    && |name| == 8 && name[..5] == "user-" && NumberOf(name[5..]) == n
    && forall i :: 5 <= i < 8 ==> '0' <= name[i] <= '9'
  }

  lemma DigitIs(n: nat)
    requires n < 10
    ensures Digit(n) as int == '0' as int + n && '0' <= Digit(n) <= '9'
  {
  }

  lemma UserReads(n: nat)
    requires n < 1000
    ensures IsUser(UserName(n), n)
  {
    var a, b, c := n / 100, n / 10 % 10, n % 10;
    Places(n);
    DigitIs(a);
    DigitIs(b);
    DigitIs(c);
    ThreeDigits(Digit(a), Digit(b), Digit(c));
    UserIs([Digit(a), Digit(b), Digit(c)], n);
  }

  lemma Places(n: nat)
    requires n < 1000
    ensures n / 100 < 10 && n == (n / 100 * 10 + n / 10 % 10) * 10 + n % 10
  {
  }

  lemma UserIs(digits: string, n: nat)
    requires |digits| == 3 && NumberOf(digits) == n && forall i :: 0 <= i < 3 ==> '0' <= digits[i] <= '9'
    ensures IsUser("user-" + digits, n)
  {
    Prefixed("user-", digits);
  }

  lemma Prefixed(prefix: string, digits: string)
    requires |prefix| == 5
    ensures (prefix + digits)[..5] == prefix && (prefix + digits)[5..] == digits
  {
  }

  lemma ThreeDigits(a: char, b: char, c: char)
    ensures NumberOf([a, b, c])
         == ((a as int - '0' as int) * 10 + (b as int - '0' as int)) * 10 + (c as int - '0' as int)
  {
    assert [a, b, c][..2] == [a, b] && [a, b][..1] == [a] && [a][..0] == "";
    assert NumberOf([a]) == a as int - '0' as int;
    assert NumberOf([a, b]) == NumberOf([a]) * 10 + (b as int - '0' as int);
  }

  predicate SystemReads(info: RequestInfo, v: seq<nat>)
    requires |v| == 8
  {
    && info.osName == (if v[0] == 0 then "Android" else "iOS")
    && info.osVersion == (if v[0] == 0 then (if v[3] == 0 then "13" else "14") else if v[3] == 0 then "17" else "18")
    && info.appName == "ExampleApp"
    && info.appVersion == (if v[4] == 0 then "2.3.0" else if v[4] == 1 then "2.3.1" else "2.4.0")
  }

  predicate ProfileReads(info: RequestInfo, v: seq<nat>)
    requires |v| == 8
  {
    && (v[1] == 0 ==> info.country == "JP") && (v[1] == 1 ==> info.country == "US")
    && (v[1] == 2 ==> info.country == "DE") && (v[1] == 3 ==> info.country == "BR")
    && (v[1] == 4 ==> info.country == "IN")
    && info.plan == (if v[2] < 3 then "free" else if v[2] < 5 then "premium" else "enterprise")
    && (info.newProfile <==> v[5] == 0)
  }

  /** The scenario of a request, read off its draws. */
  predicate ScenarioReads(sc: Scenario, v: seq<nat>)
    requires |v| == 8
  {
    SystemReads(sc.info, v) && ProfileReads(sc.info, v) && IsUser(sc.userID, v[6]) && (sc.cacheHit <==> v[7] < 3)
  }

  /** The draws as values, each below its bound. */
  function DrawnAll(gen: Generator, s: nat): (v: seq<nat>)
    ensures |v| == 8
  {
    seq(8, i requires 0 <= i < 8 => Drawn(gen, s, BOUNDS, i))
  }

  lemma DrawsChain(gen: Generator, s: nat)
    ensures var v := DrawnAll(gen, s);
            var s1 := gen(s, 2).1;
            var s2 := gen(s1, 5).1;
            var s3 := gen(s2, 6).1;
            var s4 := gen(s3, 2).1;
            var s5 := gen(s4, 3).1;
            var s6 := gen(s5, 2).1;
            var s7 := gen(s6, 200).1;
            && v == [gen(s, 2).0, gen(s1, 5).0, gen(s2, 6).0, gen(s3, 2).0, gen(s4, 3).0, gen(s5, 2).0, gen(s6, 200).0,
                     gen(s7, 10).0]
            && StateAfter(gen, s, BOUNDS) == gen(s7, 10).1
  {
    assert BOUNDS[..0] == [] && BOUNDS[..8] == BOUNDS;
    StatesChain(gen, s, BOUNDS, 0);
    StatesChain(gen, s, BOUNDS, 1);
    StatesChain(gen, s, BOUNDS, 2);
    StatesChain(gen, s, BOUNDS, 3);
    StatesChain(gen, s, BOUNDS, 4);
    StatesChain(gen, s, BOUNDS, 5);
    StatesChain(gen, s, BOUNDS, 6);
    StatesChain(gen, s, BOUNDS, 7);
  }

  lemma DrawsInRange(gen: Generator, s: nat)
    requires InRange(gen)
    ensures forall i :: 0 <= i < 8 ==> DrawnAll(gen, s)[i] < BOUNDS[i]
  {
    forall i | 0 <= i < 8 ensures DrawnAll(gen, s)[i] < BOUNDS[i] {
      assert DrawnAll(gen, s)[i] == Drawn(gen, s, BOUNDS, i);
    }
  }

  lemma InfoReads(gen: Generator, s: nat)
    requires InRange(gen)
    ensures var d, v := DrawAll(gen, s), DrawnAll(gen, s);
            && SystemReads(d.info, v) && ProfileReads(d.info, v)
            && d.userID == UserName(v[6]) && (d.cacheHit <==> v[7] < 3)
  {
    var d, v := DrawAll(gen, s), DrawnAll(gen, s);
    DrawsChain(gen, s);
    DrawsInRange(gen, s);
    assert v[0] < 2 && v[1] < 5 && v[2] < 6 && v[3] < 2 && v[4] < 3;
    var i := RequestInfo(COUNTRIES[v[1]], PLANS[v[2]], OSName(v[0] == 0), OSVersions(v[0] == 0)[v[3]], "ExampleApp",
                         VERSIONS[v[4]], v[5] == 0);
    assert d.info == i && d.userID == UserName(v[6]);
    SystemTables(i, v);
    ProfileTables(i, v);
  }

  lemma SystemTables(i: RequestInfo, v: seq<nat>)
    requires |v| == 8 && v[0] < 2 && v[3] < 2 && v[4] < 3
    requires i.osName == OSName(v[0] == 0) && i.osVersion == OSVersions(v[0] == 0)[v[3]]
    requires i.appName == "ExampleApp" && i.appVersion == VERSIONS[v[4]]
    ensures SystemReads(i, v)
  {
  }

  lemma ProfileTables(i: RequestInfo, v: seq<nat>)
    requires |v| == 8 && v[1] < 5 && v[2] < 6
    requires i.country == COUNTRIES[v[1]] && i.plan == PLANS[v[2]] && i.newProfile == (v[5] == 0)
    ensures ProfileReads(i, v)
  {
  }

  /**
   * The random scenario in terms of eight draws below 2, 5, 6, 2, 3, 2, 200 and 10, in this order, and of a ninth below
   * 100 on a miss; the generator is left in the state after the last of them.
   */
  lemma DrawsRead(gen: Generator, s: nat, fail: bool, maxAttempts: nat)
    requires InRange(gen)
    ensures var d, v, after := DrawAll(gen, s), DrawnAll(gen, s), StateAfter(gen, s, BOUNDS);
            && (forall i :: 0 <= i < 8 ==> v[i] < BOUNDS[i])
            && ScenarioReads(RandomScenario(d, fail, maxAttempts), v)
            && d.p == (if v[7] < 3 then 0 else gen(after, 100).0)
            && d.state == (if v[7] < 3 then after else gen(after, 100).1)
  {
    DrawsChain(gen, s);
    DrawsInRange(gen, s);
    InfoReads(gen, s);
    UserReads(DrawnAll(gen, s)[6]);
  }

  /** The planted defect is drawn exactly with Android 14 and the middle app version. */
  lemma DefectIsDrawn(gen: Generator, s: nat)
    requires InRange(gen)
    ensures var v := DrawnAll(gen, s);
            Fragile(DrawAll(gen, s).info) <==> v[0] == 0 && v[3] == 1 && v[4] == 1
  {
    DrawsInRange(gen, s);
    InfoReads(gen, s);
    DefectReads(DrawAll(gen, s).info, DrawnAll(gen, s));
  }

  lemma DefectReads(i: RequestInfo, v: seq<nat>)
    requires |v| == 8 && SystemReads(i, v)
    ensures v[0] < 2 && v[3] < 2 && v[4] < 3 ==> (Fragile(i) <==> v[0] == 0 && v[3] == 1 && v[4] == 1)
  {
    assert "13"[1] != "14"[1] && "2.3.0"[4] != "2.3.1"[4] && "2.4.0"[2] != "2.3.1"[2] && "iOS"[0] != "Android"[0];
  }
}
