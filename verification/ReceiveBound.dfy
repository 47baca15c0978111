/** How far a batch can overshoot, and what the bound rests on. */
module ReceiveBound {
  import opened Telemetry
  import opened ReceiveBatch

  lemma {:induction false} CountPartition<T>(p: T -> bool, q: T -> bool, r: T -> bool, s: seq<T>)
    requires forall x :: x in s ==> (p(x) <==> q(x) || r(x)) && !(q(x) && r(x))
    ensures |Filter(p, s)| == |Filter(q, s)| + |Filter(r, s)|
  {
    if s == [] {
    } else {
      CountPartition(p, q, r, s[1..]);
    }
  }

  // ----- The bound -----

  predicate NotDone(pc: Pc) { !pc.Begun? && !pc.done }

  /** Before cancellation no callback that saw the batch full has returned, so few have returned at all. */
  lemma FewReturned(batch: nat, s: State)
    requires batch >= 1 && Inv(batch, s) && !s.cancelled
    ensures |s.pcs| <= batch - 1 + Outstanding(AtReturn, s)
  {
    var holds := (pc: Pc) => Holds(AtReturn, pc);
    CountPartition((pc: Pc) => true, HasReturned, holds, s.pcs);
    CountPartition(HasAppended, IsDone, NotDone, s.pcs);
    CountLess(HasReturned, NotDone, s.pcs);
    CountAll(s.pcs);
  }

  lemma {:induction false} CountAll<T>(s: seq<T>)
    ensures |Filter((x: T) => true, s)| == |s|
  {
    if s == [] {
    } else {
      CountAll(s[1..]);
    }
  }

  lemma {:induction false} RunBounded(batch: nat, s: State, steps: seq<Step>)
    requires batch >= 1 && Inv(batch, s) && |s.pcs| <= 2 * batch - 1 && Legal(batch, AtReturn, s, steps)
    ensures |After(batch, AtReturn, s, steps).pcs| <= 2 * batch - 1
    decreases |steps|
  {
    if steps == [] {
    } else {
      if steps[0].Begin? {
        FewReturned(batch, s);
      }
      StepKeeps(batch, AtReturn, s, steps[0]);
      RunBounded(batch, Take(batch, AtReturn, s, steps[0]), steps[1..]);
    }
  }

  /**
   * If a message counts as outstanding until its callback returns, and no callback starts after cancellation, then
   * in every reachable state at most 2 * batch - 1 messages are collected.
   */
  lemma BatchBounded(batch: nat, steps: seq<Step>)
    requires batch >= 1 && Legal(batch, AtReturn, INITIAL, steps)
    ensures |After(batch, AtReturn, INITIAL, steps).collected| <= 2 * batch - 1
  {
    RunKeeps(batch, AtReturn, INITIAL, steps);
    RunBounded(batch, INITIAL, steps);
    CountLess(HasAppended, HasAppended, After(batch, AtReturn, INITIAL, steps).pcs);
  }

  // ----- The bound is reached -----

  function Ids(n: nat): seq<nat> { seq(n, i => i) }

  /** n callbacks done one after the other. */
  function OneByOne(batch: nat, n: nat): State {
    State(seq(n, i => Returned(i + 1 >= batch)), Ids(n), Ids(n), n >= batch, false)
  }

  /** Short of a full batch, then `begun` more that have started, `appended` of them past their append. */
  function Crowd(batch: nat, begun: nat, appended: nat): State
    requires batch >= 1 && appended <= begun
  {
    State(seq(batch - 1, _ => Returned(false)) + seq(appended, _ => Appended(true)) + seq(begun - appended, _ => Begun),
          Ids(batch - 1 + appended), Ids(batch - 1), false, false)
  }

  lemma NoneOutstanding(pcs: seq<Pc>, release: Release)
    requires forall pc :: pc in pcs ==> !Holds(release, pc)
    ensures |Filter((pc: Pc) => Holds(release, pc), pcs)| == 0
  {
    FilterNone((pc: Pc) => Holds(release, pc), pcs);
  }

  /** One more callback from start to return, if it may start. */
  lemma OneMore(batch: nat, release: Release, n: nat)
    requires batch >= 1 && (release == AtReturnLate || (release == AtReturn && n < batch))
    ensures var steps := [Begin, Append(n), Ack(n), CancelIfDone(n), Return(n)];
            && Legal(batch, release, OneByOne(batch, n), steps)
            && After(batch, release, OneByOne(batch, n), steps) == OneByOne(batch, n + 1)
  {
    var s := OneByOne(batch, n);
    NoneOutstanding(s.pcs, release);
    var s1 := Take(batch, release, s, Begin);
    var s2 := Take(batch, release, s1, Append(n));
    var s3 := Take(batch, release, s2, Ack(n));
    var s4 := Take(batch, release, s3, CancelIfDone(n));
    var s5 := Take(batch, release, s4, Return(n));
    assert s5.pcs == OneByOne(batch, n + 1).pcs && s5.collected == Ids(n + 1) && s5.acks == Ids(n + 1);
    LegalOne(batch, release, s4, Return(n));
    LegalCons(batch, release, s3, CancelIfDone(n), [Return(n)]);
    LegalCons(batch, release, s2, Ack(n), [CancelIfDone(n)] + [Return(n)]);
    LegalCons(batch, release, s1, Append(n), [Ack(n)] + ([CancelIfDone(n)] + [Return(n)]));
    LegalCons(batch, release, s, Begin, [Append(n)] + ([Ack(n)] + ([CancelIfDone(n)] + [Return(n)])));
    assert [Begin] + ([Append(n)] + ([Ack(n)] + ([CancelIfDone(n)] + [Return(n)])))
        == [Begin, Append(n), Ack(n), CancelIfDone(n), Return(n)];
  }

  lemma LegalCons(batch: nat, release: Release, s: State, step: Step, rest: seq<Step>)
    requires Enabled(batch, release, s, step) && Legal(batch, release, Take(batch, release, s, step), rest)
    ensures Legal(batch, release, s, [step] + rest)
    ensures After(batch, release, s, [step] + rest) == After(batch, release, Take(batch, release, s, step), rest)
  {
    assert ([step] + rest)[1..] == rest;
  }

  lemma {:induction false} ReachOneByOne(batch: nat, release: Release, n: nat) returns (steps: seq<Step>)
    requires batch >= 1 && (release == AtReturnLate || (release == AtReturn && n <= batch))
    ensures Legal(batch, release, INITIAL, steps) && After(batch, release, INITIAL, steps) == OneByOne(batch, n)
    decreases n
  {
    if n == 0 {
      steps := [];
    } else {
      var before := ReachOneByOne(batch, release, n - 1);
      OneMore(batch, release, n - 1);
      var more := [Begin, Append(n - 1), Ack(n - 1), CancelIfDone(n - 1), Return(n - 1)];
      LegalConcat(batch, release, INITIAL, before, more);
      steps := before + more;
    }
  }

  lemma CrowdOutstanding(batch: nat, begun: nat)
    requires batch >= 1
    ensures Outstanding(AtReturn, Crowd(batch, begun, 0)) == begun
  {
    var holds := (pc: Pc) => Holds(AtReturn, pc);
    var returned, waiting := seq(batch - 1, _ => Returned(false)), seq(begun, _ => Begun);
    assert Crowd(batch, begun, 0).pcs == returned + waiting;
    FilterConcat(holds, returned, waiting);
    FilterNone(holds, returned);
    CountPartition((pc: Pc) => true, holds, (pc: Pc) => false, waiting);
    FilterNone((pc: Pc) => false, waiting);
    CountAll(waiting);
  }

  lemma {:induction false} ReachCrowd(batch: nat, begun: nat) returns (steps: seq<Step>)
    requires 1 <= batch && begun <= batch
    ensures Legal(batch, AtReturn, INITIAL, steps) && After(batch, AtReturn, INITIAL, steps) == Crowd(batch, begun, 0)
    decreases begun
  {
    if begun == 0 {
      steps := ReachOneByOne(batch, AtReturn, batch - 1);
      assert Crowd(batch, 0, 0).pcs == OneByOne(batch, batch - 1).pcs;
    } else {
      var before := ReachCrowd(batch, begun - 1);
      CrowdOutstanding(batch, begun - 1);
      LegalOne(batch, AtReturn, Crowd(batch, begun - 1, 0), Begin);
      LegalConcat(batch, AtReturn, INITIAL, before, [Begin]);
      assert Take(batch, AtReturn, Crowd(batch, begun - 1, 0), Begin).pcs == Crowd(batch, begun, 0).pcs;
      steps := before + [Begin];
    }
  }

  lemma {:induction false} ReachFull(batch: nat, appended: nat) returns (steps: seq<Step>)
    requires 1 <= batch && appended <= batch
    ensures Legal(batch, AtReturn, INITIAL, steps) && After(batch, AtReturn, INITIAL, steps)
        == Crowd(batch, batch, appended)
    decreases appended
  {
    if appended == 0 {
      steps := ReachCrowd(batch, batch);
    } else {
      var before := ReachFull(batch, appended - 1);
      var s, i := Crowd(batch, batch, appended - 1), batch - 1 + (appended - 1);
      LegalOne(batch, AtReturn, s, Append(i));
      LegalConcat(batch, AtReturn, INITIAL, before, [Append(i)]);
      var t := Take(batch, AtReturn, s, Append(i));
      assert t.pcs == Crowd(batch, batch, appended).pcs && t.collected == Ids(batch - 1 + appended);
      steps := before + [Append(i)];
    }
  }

  /** The bound is the best possible: for every batch size some run collects exactly 2 * batch - 1 messages. */
  lemma BoundReached(batch: nat)
    requires batch >= 1
    ensures exists steps :: Legal(batch, AtReturn, INITIAL, steps)
                            && |After(batch, AtReturn, INITIAL, steps).collected| == 2 * batch - 1
  {
    var steps := ReachFull(batch, batch);
  }

  // ----- What the bound rests on -----

  /** n callbacks that have acknowledged, none of which has got to cancel yet. */
  function Acknowledged(batch: nat, n: nat): State {
    State(seq(n, i => Acked(i + 1 >= batch)), Ids(n), Ids(n), false, false)
  }

  lemma {:induction false} ReachAcknowledged(batch: nat, n: nat) returns (steps: seq<Step>)
    requires batch >= 1
    ensures Legal(batch, AtAck, INITIAL, steps) && After(batch, AtAck, INITIAL, steps) == Acknowledged(batch, n)
    decreases n
  {
    if n == 0 {
      steps := [];
    } else {
      var before := ReachAcknowledged(batch, n - 1);
      var k, s := n - 1, Acknowledged(batch, n - 1);
      NoneOutstanding(s.pcs, AtAck);
      var s1 := Take(batch, AtAck, s, Begin);
      var s2 := Take(batch, AtAck, s1, Append(k));
      var s3 := Take(batch, AtAck, s2, Ack(k));
      assert s3.pcs == Acknowledged(batch, n).pcs && s3.collected == Ids(n) && s3.acks == Ids(n);
      LegalOne(batch, AtAck, s, Begin);
      LegalOne(batch, AtAck, s1, Append(k));
      LegalOne(batch, AtAck, s2, Ack(k));
      LegalConcat(batch, AtAck, INITIAL, before, [Begin]);
      LegalConcat(batch, AtAck, INITIAL, before + [Begin], [Append(k)]);
      LegalConcat(batch, AtAck, INITIAL, before + [Begin] + [Append(k)], [Ack(k)]);
      steps := before + [Begin] + [Append(k)] + [Ack(k)];
    }
  }

  /** If a message stopped counting when it is acknowledged, there would be no bound at all. */
  lemma NoBoundIfReleasedAtAck(batch: nat, n: nat)
    requires batch >= 1
    ensures exists steps :: Legal(batch, AtAck, INITIAL, steps) && |After(batch, AtAck, INITIAL, steps).collected| == n
  {
    var steps := ReachAcknowledged(batch, n);
  }

  /** If callbacks could start after cancellation there would be no bound either, even with slots held to the return. */
  lemma NoBoundIfStartedLate(batch: nat, n: nat)
    requires batch >= 1
    ensures exists steps :: Legal(batch, AtReturnLate, INITIAL, steps)
                            && |After(batch, AtReturnLate, INITIAL, steps).collected| == n
  {
    var steps := ReachOneByOne(batch, AtReturnLate, n);
  }

  /** A cancellation from outside can make Receive return nil with no message at all. */
  lemma ShortBatch(batch: nat, release: Release)
    requires batch >= 1
    ensures exists steps :: Legal(batch, release, INITIAL, steps) && Finished(After(batch, release, INITIAL, steps))
                            && After(batch, release, INITIAL, steps).collected == []
  {
    LegalOne(batch, release, INITIAL, ParentCancel);
  }
}
