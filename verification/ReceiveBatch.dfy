/**
 * Receiving a batch with concurrent callbacks. Each callback appends its message under the mutex, acknowledges it,
 * cancels if it saw the batch full, and returns; callbacks interleave at these points.
 */
module ReceiveBatch {
  import opened Telemetry

  // ----- States and steps -----

  /** Where a callback is. From the append on it knows whether it saw the batch full. */
  datatype Pc = Begun | Appended(done: bool) | Acked(done: bool) | Leaving(done: bool) | Returned(done: bool)

  /** Callbacks are numbered in start order; each has its own delivery. */
  datatype State = State(pcs: seq<Pc>, collected: seq<nat>, acks: seq<nat>, cancelled: bool, parentCancelled: bool)

  const INITIAL: State := State([], [], [], false, false)

  datatype Step =
    | Begin
    | Append(i: nat)
    | Ack(i: nat)
    | CancelIfDone(i: nat)
    | Return(i: nat)
    | ParentCancel

  /**
   * When a message stops counting against `MaxOutstandingMessages`, which the source leaves to the library. `Never`
   * puts no condition on new callbacks at all. The others start one only while fewer than `batch` messages are
   * outstanding, and all but `AtReturnLate` only before cancellation.
   */
  datatype Release = Never | AtReturn | AtReturnLate | AtAck

  predicate Holds(release: Release, pc: Pc) {
    match release
    case Never => false
    case AtReturn => !pc.Returned?
    case AtReturnLate => !pc.Returned?
    case AtAck => pc.Begun? || pc.Appended?
  }

  function Outstanding(release: Release, s: State): nat {
    |Filter((pc: Pc) => Holds(release, pc), s.pcs)|
  }

  predicate Enabled(batch: nat, release: Release, s: State, step: Step) {
    match step
    case Begin => release.Never? || ((release.AtReturnLate? || !s.cancelled) && Outstanding(release, s) < batch)
    case Append(i) => i < |s.pcs| && s.pcs[i].Begun?
    case Ack(i) => i < |s.pcs| && s.pcs[i].Appended?
    case CancelIfDone(i) => i < |s.pcs| && s.pcs[i].Acked?
    case Return(i) => i < |s.pcs| && s.pcs[i].Leaving?
    case ParentCancel => true
  }

  function Take(batch: nat, release: Release, s: State, step: Step): State
    requires Enabled(batch, release, s, step)
  {
    match step
    case Begin => s.(pcs := s.pcs + [Begun])
    case Append(i) =>
      var collected := s.collected + [i];
      s.(collected := collected, pcs := s.pcs[i := Appended(|collected| >= batch)])
    case Ack(i) => s.(acks := s.acks + [i], pcs := s.pcs[i := Acked(s.pcs[i].done)])
    case CancelIfDone(i) => s.(cancelled := s.cancelled || s.pcs[i].done, pcs := s.pcs[i := Leaving(s.pcs[i].done)])
    case Return(i) => s.(pcs := s.pcs[i := Returned(s.pcs[i].done)])
    case ParentCancel => s.(cancelled := true, parentCancelled := true)
  }

  /** The steps can be taken one after the other from `s`. */
  predicate Legal(batch: nat, release: Release, s: State, steps: seq<Step>)
    decreases |steps|
  {
    steps == []
    || (Enabled(batch, release, s, steps[0]) && Legal(batch, release, Take(batch, release, s, steps[0]), steps[1..]))
  }

  function After(batch: nat, release: Release, s: State, steps: seq<Step>): State
    requires Legal(batch, release, s, steps)
    decreases |steps|
  {
    if steps == [] then s else After(batch, release, Take(batch, release, s, steps[0]), steps[1..])
  }

  lemma {:induction false} LegalConcat(batch: nat, release: Release, s: State, a: seq<Step>, b: seq<Step>)
    ensures Legal(batch, release, s, a + b) <==>
            Legal(batch, release, s, a) && Legal(batch, release, After(batch, release, s, a), b)
    ensures Legal(batch, release, s, a + b) ==>
              After(batch, release, s, a + b) == After(batch, release, After(batch, release, s, a), b)
    decreases |a|
  {
    if a == [] {
      assert a + b == b;
    } else {
      assert (a + b)[0] == a[0] && (a + b)[1..] == a[1..] + b;
      if Enabled(batch, release, s, a[0]) {
        LegalConcat(batch, release, Take(batch, release, s, a[0]), a[1..], b);
      }
    }
  }

  lemma LegalOne(batch: nat, release: Release, s: State, step: Step)
    ensures Legal(batch, release, s, [step]) <==> Enabled(batch, release, s, step)
    ensures Enabled(batch, release, s, step) ==> After(batch, release, s, [step]) == Take(batch, release, s, step)
  {
    assert [step][1..] == [];
  }

  /** The step is one of callback i. */
  predicate Moves(step: Step, i: nat) {
    match step
    case Append(k) => k == i
    case Ack(k) => k == i
    case CancelIfDone(k) => k == i
    case Return(k) => k == i
    case _ => false
  }

  predicate AllOthers(steps: seq<Step>, i: nat) {
    forall step :: step in steps ==> !Moves(step, i)
  }

  /** A callback keeps its place while only the others move. */
  lemma {:induction false} OthersKeep(batch: nat, release: Release, s: State, steps: seq<Step>, i: nat)
    requires Legal(batch, release, s, steps) && AllOthers(steps, i) && i < |s.pcs|
    ensures var t := After(batch, release, s, steps); i < |t.pcs| && t.pcs[i] == s.pcs[i]
    decreases |steps|
  {
    if steps == [] {
    } else {
      assert !Moves(steps[0], i);
      OthersKeep(batch, release, Take(batch, release, s, steps[0]), steps[1..], i);
    }
  }

  /** The steps of one callback in their order, with steps of others between them. */
  function CallbackSteps(i: nat, between: seq<Step>, later: seq<Step>): seq<Step> {
    [Append(i)] + (between + ([Ack(i)] + (later + [CancelIfDone(i)])))
  }

  // ----- The program -----

  /** The state that the callbacks share, with one method for each of their atomic steps. */
  class Receiver {
    const batchSize: nat
    var pcs: seq<Pc>
    var collected: seq<nat>
    var acks: seq<nat>
    var cancelled: bool
    var parentCancelled: bool

    constructor (batchSize: nat)
      ensures this.batchSize == batchSize && Value() == INITIAL
    {
      this.batchSize := batchSize;
      pcs, collected, acks, cancelled, parentCancelled := [], [], [], false, false;
    }

    function Value(): State
      reads this
    {
      State(pcs, collected, acks, cancelled, parentCancelled)
    }

    method BeginCallback(ghost release: Release) returns (i: nat)
      requires Enabled(batchSize, release, Value(), Begin)
      modifies this
      ensures i == |old(pcs)| && Value() == Take(batchSize, release, old(Value()), Begin)
    {
      i := |pcs|;
      pcs := pcs + [Begun];
    }

    /** The critical section. */
    method AppendMessage(i: nat, ghost release: Release) returns (done: bool)
      requires Enabled(batchSize, release, Value(), Append(i))
      modifies this
      ensures Value() == Take(batchSize, release, old(Value()), Append(i)) && pcs[i] == Appended(done)
    {
      collected := collected + [i];
      done := |collected| >= batchSize;
      pcs := pcs[i := Appended(done)];
    }

    method AckMessage(i: nat, ghost release: Release)
      requires Enabled(batchSize, release, Value(), Ack(i))
      modifies this
      ensures Value() == Take(batchSize, release, old(Value()), Ack(i))
    {
      acks := acks + [i];
      pcs := pcs[i := Acked(pcs[i].done)];
    }

    method CancelWhenDone(i: nat, done: bool, ghost release: Release)
      requires Enabled(batchSize, release, Value(), CancelIfDone(i)) && pcs[i].done == done
      modifies this
      ensures Value() == Take(batchSize, release, old(Value()), CancelIfDone(i))
    {
      if done {
        cancelled := true;
      }
      pcs := pcs[i := Leaving(done)];
    }

    method ReturnCallback(i: nat, ghost release: Release)
      requires Enabled(batchSize, release, Value(), Return(i))
      modifies this
      ensures Value() == Take(batchSize, release, old(Value()), Return(i))
    {
      pcs := pcs[i := Returned(pcs[i].done)];
    }

    method CancelParent(ghost release: Release)
      modifies this
      ensures Value() == Take(batchSize, release, old(Value()), ParentCancel)
    {
      cancelled, parentCancelled := true, true;
    }

    /** One step, taken by whichever callback it belongs to. */
    method Perform(step: Step, ghost release: Release)
      requires Enabled(batchSize, release, Value(), step)
      modifies this
      ensures Value() == Take(batchSize, release, old(Value()), step)
    {
      match step {
        case Begin => var i := BeginCallback(release);
        case Append(i) => var done := AppendMessage(i, release);
        case Ack(i) => AckMessage(i, release);
        case CancelIfDone(i) => CancelWhenDone(i, pcs[i].done, release);
        case Return(i) => ReturnCallback(i, release);
        case ParentCancel => CancelParent(release);
      }
    }

    /** Any interleaving of the callbacks. */
    method Interleave(steps: seq<Step>, ghost release: Release)
      requires Legal(batchSize, release, Value(), steps)
      modifies this
      ensures Value() == After(batchSize, release, old(Value()), steps)
    {
      var k := 0;
      while k < |steps|
        invariant 0 <= k <= |steps| && Legal(batchSize, release, Value(), steps[k..])
        invariant After(batchSize, release, Value(), steps[k..]) == After(batchSize, release, old(Value()), steps)
      {
        assert steps[k..][0] == steps[k] && steps[k..][1..] == steps[k + 1..];
        Perform(steps[k], release);
        k := k + 1;
      }
    }

    /**
     * The callback itself: append, acknowledge, and cancel if its own append filled the batch, whatever the others do
     * in between.
     */
    method Callback(i: nat, between: seq<Step>, later: seq<Step>, ghost release: Release)
      requires Legal(batchSize, release, Value(), CallbackSteps(i, between, later))
      requires AllOthers(between, i) && AllOthers(later, i)
      modifies this
      ensures Value() == After(batchSize, release, old(Value()), CallbackSteps(i, between, later))
      ensures i < |pcs| && pcs[i] == Leaving(|old(collected)| + 1 >= batchSize)
    {
      ghost var s := Value();
      LegalOne(batchSize, release, s, Append(i));
      LegalConcat(batchSize, release, s, [Append(i)], between + ([Ack(i)] + (later + [CancelIfDone(i)])));
      var done := AppendMessage(i, release);

      s := Value();
      LegalConcat(batchSize, release, s, between, [Ack(i)] + (later + [CancelIfDone(i)]));
      OthersKeep(batchSize, release, s, between, i);
      Interleave(between, release);

      s := Value();
      LegalOne(batchSize, release, s, Ack(i));
      LegalConcat(batchSize, release, s, [Ack(i)], later + [CancelIfDone(i)]);
      AckMessage(i, release);

      s := Value();
      LegalConcat(batchSize, release, s, later, [CancelIfDone(i)]);
      OthersKeep(batchSize, release, s, later, i);
      Interleave(later, release);

      LegalOne(batchSize, release, Value(), CancelIfDone(i));
      CancelWhenDone(i, done, release);
    }
  }

  // ----- Counting callbacks -----

  predicate HasAppended(pc: Pc) { !pc.Begun? }

  predicate HasAcked(pc: Pc) { !pc.Begun? && !pc.Appended? }

  predicate IsDone(pc: Pc) { !pc.Begun? && pc.done }

  predicate HasReturned(pc: Pc) { pc.Returned? }

  lemma CountUpdate<T>(p: T -> bool, s: seq<T>, i: nat, x: T)
    requires i < |s|
    ensures |Filter(p, s[i := x])| + (if p(s[i]) then 1 else 0) == |Filter(p, s)| + if p(x) then 1 else 0
  {
    var a, b := s[..i], s[i + 1..];
    assert s == a + ([s[i]] + b) && s[i := x] == a + ([x] + b);
    FilterConcat(p, a, [s[i]] + b);
    FilterConcat(p, [s[i]], b);
    FilterConcat(p, a, [x] + b);
    FilterConcat(p, [x], b);
    assert [s[i]][1..] == [] && [x][1..] == [];
  }

  lemma {:induction false} CountLess<T>(p: T -> bool, q: T -> bool, s: seq<T>)
    requires forall x :: x in s && p(x) ==> q(x)
    ensures |Filter(p, s)| <= |Filter(q, s)| <= |s|
  {
    if s == [] {
    } else {
      CountLess(p, q, s[1..]);
    }
  }

  // ----- The invariant -----

  predicate Distinct(s: seq<nat>) {
    forall i, j :: 0 <= i < j < |s| ==> s[i] != s[j]
  }

  /** The callbacks that saw the batch full: all appends from number `batch` on. */
  function DoneCount(batch: nat, appended: nat): nat {
    if appended < batch then 0 else appended - batch + 1
  }

  /** Each delivery is collected once, by the callbacks past their append. */
  ghost predicate CollectedOnce(s: State) {
    && Distinct(s.collected)
    && (forall i :: i in s.collected <==> 0 <= i < |s.pcs| && HasAppended(s.pcs[i]))
    && |s.collected| == |Filter(HasAppended, s.pcs)|
  }

  /** Each delivery is acknowledged once, by the callbacks past their Ack. */
  ghost predicate AckedOnce(s: State) {
    && Distinct(s.acks)
    && (forall i :: i in s.acks <==> 0 <= i < |s.pcs| && HasAcked(s.pcs[i]))
  }

  /** The callbacks that saw the batch full are those that appended from message number `batch` on. */
  ghost predicate DoneFromBatchOn(batch: nat, s: State) {
    && (forall k :: 0 <= k < |s.collected| ==>
          s.collected[k] < |s.pcs| && (IsDone(s.pcs[s.collected[k]]) <==> k + 1 >= batch))
    && |Filter(IsDone, s.pcs)| == DoneCount(batch, |s.collected|)
  }

  /** Only a callback that saw the batch full cancels, and it does so before it leaves. */
  ghost predicate CancelledByDone(batch: nat, s: State) {
    && (s.cancelled ==> s.parentCancelled || |s.collected| >= batch)
    && (s.parentCancelled ==> s.cancelled)
    && (forall i :: 0 <= i < |s.pcs| && (s.pcs[i].Leaving? || s.pcs[i].Returned?) && s.pcs[i].done ==> s.cancelled)
  }

  /** The message at this place filled the batch or came later, and is acknowledged. */
  predicate AckedAt(batch: nat, s: State, k: nat) {
    k < |s.collected| && k + 1 >= batch && s.collected[k] in s.acks
  }

  /** Whoever cancelled from inside had acknowledged its own message before. */
  ghost predicate CancelledAfterAck(batch: nat, s: State) {
    s.cancelled && !s.parentCancelled ==> exists k :: AckedAt(batch, s, k)
  }

  ghost predicate Inv(batch: nat, s: State) {
    && CollectedOnce(s) && AckedOnce(s) && DoneFromBatchOn(batch, s) && CancelledByDone(batch, s)
    && CancelledAfterAck(batch, s)
  }

  lemma AckStays(batch: nat, release: Release, s: State, step: Step)
    requires batch >= 1 && Inv(batch, s) && Enabled(batch, release, s, step)
    ensures CancelledAfterAck(batch, Take(batch, release, s, step))
  {
    var t := Take(batch, release, s, step);
    if k :| AckedAt(batch, s, k) {
      assert AckedAt(batch, t, k);
    }
    if step.CancelIfDone? && s.pcs[step.i].done {
      var i := step.i;
      assert HasAppended(s.pcs[i]) && i in s.collected && HasAcked(s.pcs[i]) && i in s.acks;
      var k: nat :| k < |s.collected| && s.collected[k] == i;
      assert IsDone(s.pcs[s.collected[k]]);
      assert AckedAt(batch, t, k);
    }
  }

  lemma BeginKeeps(batch: nat, release: Release, s: State)
    requires batch >= 1 && Inv(batch, s) && Enabled(batch, release, s, Begin)
    ensures Inv(batch, Take(batch, release, s, Begin))
  {
    AckStays(batch, release, s, Begin);
    FilterConcat(HasAppended, s.pcs, [Begun]);
    FilterConcat(IsDone, s.pcs, [Begun]);
    FilterNone(HasAppended, [Begun]);
    FilterNone(IsDone, [Begun]);
  }

  lemma AppendCollects(batch: nat, release: Release, s: State, i: nat)
    requires batch >= 1 && Inv(batch, s) && Enabled(batch, release, s, Append(i))
    ensures var t := Take(batch, release, s, Append(i)); CollectedOnce(t) && AckedOnce(t)
  {
    var t := Take(batch, release, s, Append(i));
    CountUpdate(HasAppended, s.pcs, i, t.pcs[i]);
    assert i !in s.collected;
    forall j ensures j in t.collected <==> 0 <= j < |t.pcs| && HasAppended(t.pcs[j]) {
      assert j in t.collected <==> j in s.collected || j == i;
    }
  }

  lemma AppendFills(batch: nat, release: Release, s: State, i: nat)
    requires batch >= 1 && Inv(batch, s) && Enabled(batch, release, s, Append(i))
    ensures DoneFromBatchOn(batch, Take(batch, release, s, Append(i)))
  {
    var t := Take(batch, release, s, Append(i));
    CountUpdate(IsDone, s.pcs, i, t.pcs[i]);
    forall k | 0 <= k < |t.collected|
      ensures t.collected[k] < |t.pcs| && (IsDone(t.pcs[t.collected[k]]) <==> k + 1 >= batch)
    {
      if k < |s.collected| {
        assert s.collected[k] in s.collected;
      }
    }
  }

  /** The steps after the append move a callback on without changing what it saw. */
  lemma MoveCounts(batch: nat, release: Release, s: State, step: Step)
    requires batch >= 1 && Inv(batch, s) && Enabled(batch, release, s, step)
    requires step.Ack? || step.CancelIfDone? || step.Return?
    ensures var t := Take(batch, release, s, step); CollectedOnce(t) && DoneFromBatchOn(batch, t)
  {
    var i, t := step.i, Take(batch, release, s, step);
    CountUpdate(HasAppended, s.pcs, i, t.pcs[i]);
    CountUpdate(IsDone, s.pcs, i, t.pcs[i]);
  }

  lemma MoveAcks(batch: nat, release: Release, s: State, step: Step)
    requires batch >= 1 && Inv(batch, s) && Enabled(batch, release, s, step)
    requires step.Ack? || step.CancelIfDone? || step.Return?
    ensures AckedOnce(Take(batch, release, s, step))
  {
    var i, t := step.i, Take(batch, release, s, step);
    if step.Ack? {
      assert i !in s.acks;
      forall j ensures j in t.acks <==> 0 <= j < |t.pcs| && HasAcked(t.pcs[j]) {
        assert j in t.acks <==> j in s.acks || j == i;
      }
    }
  }

  lemma MoveCancels(batch: nat, release: Release, s: State, step: Step)
    requires batch >= 1 && Inv(batch, s) && Enabled(batch, release, s, step)
    requires step.Ack? || step.CancelIfDone? || step.Return?
    ensures CancelledByDone(batch, Take(batch, release, s, step))
  {
    var i := step.i;
    if step.CancelIfDone? && s.pcs[i].done {
      assert i in s.collected;
      var k :| 0 <= k < |s.collected| && s.collected[k] == i;
      assert IsDone(s.pcs[s.collected[k]]);
    }
  }

  lemma StepKeeps(batch: nat, release: Release, s: State, step: Step)
    requires batch >= 1 && Inv(batch, s) && Enabled(batch, release, s, step)
    ensures Inv(batch, Take(batch, release, s, step))
  {
    AckStays(batch, release, s, step);
    match step
    case Begin => BeginKeeps(batch, release, s);
    case Append(i) =>
      AppendCollects(batch, release, s, i);
      AppendFills(batch, release, s, i);
    case ParentCancel =>
    case _ =>
      MoveCounts(batch, release, s, step);
      MoveAcks(batch, release, s, step);
      MoveCancels(batch, release, s, step);
  }

  lemma {:induction false} RunKeeps(batch: nat, release: Release, s: State, steps: seq<Step>)
    requires batch >= 1 && Inv(batch, s) && Legal(batch, release, s, steps)
    ensures Inv(batch, After(batch, release, s, steps))
    decreases |steps|
  {
    if steps == [] {
    } else {
      StepKeeps(batch, release, s, steps[0]);
      RunKeeps(batch, release, Take(batch, release, s, steps[0]), steps[1..]);
    }
  }

  // ----- What a finished Receive has delivered -----

  /** Receive returns nil only after cancellation and after every callback has returned. */
  ghost predicate Finished(s: State) {
    s.cancelled && forall i :: 0 <= i < |s.pcs| ==> s.pcs[i].Returned?
  }

  lemma {:induction false} DistinctIs(s: seq<nat>, n: nat)
    requires Distinct(s) && forall i :: i in s <==> 0 <= i < n
    ensures |s| == n && multiset(s) == multiset(seq(n, i => i))
    decreases n
  {
    var all := seq(n, i => i);
    forall x: nat ensures multiset(s)[x] == multiset(all)[x] {
      DistinctCount(s, x);
      assert x in all <==> x < n by {
        if x < n {
          assert all[x] == x;
        }
      }
      DistinctCount(all, x);
    }
    assert multiset(s) == multiset(all);
    assert |multiset(s)| == |s| && |multiset(all)| == n;
  }

  lemma {:induction false} DistinctCount(s: seq<nat>, x: nat)
    requires Distinct(s)
    ensures multiset(s)[x] == if x in s then 1 else 0
    decreases |s|
  {
    if s == [] {
    } else {
      assert s == [s[0]] + s[1..];
      DistinctCount(s[1..], x);
      assert s[0] !in s[1..];
    }
  }

  /**
   * On every interleaving, in every reachable state: `collected` and the acknowledgements hold no delivery twice,
   * exactly max(0, len - batch + 1) callbacks saw the batch full, a delivery is acknowledged only when it is collected,
   * and a callback cancels only when the batch is full and its own delivery acknowledged.
   * When Receive returns, every delivery has been collected and acknowledged exactly once, and the batch is full
   * exactly when the cancellation did not come from outside alone.
   */
  lemma BatchDelivered(batch: nat, release: Release, steps: seq<Step>)
    requires batch >= 1 && Legal(batch, release, INITIAL, steps)
    ensures var s := After(batch, release, INITIAL, steps);
            && Inv(batch, s) && (forall i :: i in s.acks ==> i in s.collected)
            && (s.cancelled && !s.parentCancelled ==> exists k: nat :: AckedAt(batch, s, k))
            && (Finished(s) ==>
                  && |s.collected| == |s.pcs| && multiset(s.collected) == multiset(s.acks)
                      == multiset(seq(|s.pcs|, i => i))
                  && (!s.parentCancelled ==> |s.collected| >= batch))
            && ((forall i :: 0 <= i < |s.pcs| ==> s.pcs[i].Returned?) && !s.parentCancelled
                ==> (s.cancelled <==> |s.collected| >= batch))
  {
    RunKeeps(batch, release, INITIAL, steps);
    var s := After(batch, release, INITIAL, steps);
    if Finished(s) {
      DistinctIs(s.collected, |s.pcs|);
      DistinctIs(s.acks, |s.pcs|);
    }
    if |s.collected| >= batch {
      var i := s.collected[batch - 1];
      assert IsDone(s.pcs[i]);
    }
  }
}
