/** From publishing to processing: the spans of the whole program on every interleaving of the receiving callbacks. */
module Delivery {
  import opened Telemetry
  import opened ReceiveBatch
  import SpanLink

  /** The messages of a batch, in the order of the appends, when callback i was handed message `handed[i]`. */
  function Received(s: State, handed: seq<nat>): (order: seq<nat>)
    requires forall k :: 0 <= k < |s.collected| ==> s.collected[k] < |handed|
    ensures |order| == |s.collected|
  {
    seq(|s.collected|, k requires 0 <= k < |s.collected| => handed[s.collected[k]])
  }

  /** A finished batch repeats a message exactly when its callbacks were handed one twice. */
  lemma ReceivedOnce(s: State, handed: seq<nat>)
    requires CollectedOnce(s) && Finished(s) && |handed| == |s.pcs|
    ensures forall k :: 0 <= k < |s.collected| ==> s.collected[k] < |handed|
    ensures Distinct(Received(s, handed)) <==> Distinct(handed)
  {
    forall k | 0 <= k < |s.collected| ensures s.collected[k] < |handed| {
      assert s.collected[k] in s.collected;
    }
    var order := Received(s, handed);
    if Distinct(order) {
      forall i, j | 0 <= i < j < |handed| ensures handed[i] != handed[j] {
        assert HasAppended(s.pcs[i]) && HasAppended(s.pcs[j]) && i in s.collected && j in s.collected;
        var k :| 0 <= k < |s.collected| && s.collected[k] == i;
        var l :| 0 <= l < |s.collected| && s.collected[l] == j;
        assert order[k] == handed[i] && order[l] == handed[j] && k != l;
      }
    }
  }

  /**
   * The program as a whole: n messages are published, a batch of n is received under any interleaving of the
   * callbacks, and the batch is processed. Unless Receive was cancelled from outside, linking is a bijection between
   * process spans and send spans exactly when no message was delivered twice.
   */
  lemma BatchLinksOneToOne(ids: SpanLink.Ids, answers: nat -> SpanLink.Outcome, messages: seq<SpanLink.Message>,
                           topic: string, subscription: string, n: nat, release: Release, steps: seq<Step>,
                           handed: seq<nat>)
    requires n >= 1 && SpanLink.Fresh(ids) && SpanLink.Sent(messages, ids, n)
    requires Legal(n, release, INITIAL, steps)
    requires var s := After(n, release, INITIAL, steps); Finished(s) && !s.parentCancelled && |handed| == |s.pcs|
    requires forall i :: 0 <= i < |handed| ==> handed[i] < n
    ensures var s := After(n, release, INITIAL, steps);
            && (forall k :: 0 <= k < |s.collected| ==> s.collected[k] < |handed|)
            && (SpanLink.Bijective(SpanLink.ProcessSpans(ids, messages, subscription, n, Received(s, handed)),
                                   SpanLink.SendSpans(ids, answers, topic, n))
                <==> Distinct(handed))
  {
    var s := After(n, release, INITIAL, steps);
    BatchDelivered(n, release, steps);
    ReceivedOnce(s, handed);
    var order := Received(s, handed);
    SpanLink.LinkingIsBijective(ids, answers, messages, topic, subscription, n, order);
    if Distinct(handed) {
      SpanLink.DifferentFit(handed, n);
    }
  }

  /** An interleaving after which Receive returns, with the messages that the callbacks were handed. */
  ghost predicate Receives(n: nat, release: Release, steps: seq<Step>, handed: seq<nat>) {
    && Legal(n, release, INITIAL, steps) && Finished(After(n, release, INITIAL, steps))
    && |handed| == |After(n, release, INITIAL, steps).pcs| && forall i :: 0 <= i < |handed| ==> handed[i] < n
  }

  /** The callbacks interleave until Receive returns; the batch is what they collected, in order. */
  method ReceiveAll(r: Receiver, n: nat, ghost release: Release, steps: seq<Step>, handed: seq<nat>)
    returns (order: seq<nat>)
    requires n >= 1 && r.batchSize == n && r.Value() == INITIAL && Receives(n, release, steps, handed)
    modifies r
    ensures var s := After(n, release, INITIAL, steps);
            && (forall k :: 0 <= k < |s.collected| ==> s.collected[k] < |handed|)
            && order == Received(s, handed) && forall k :: 0 <= k < |order| ==> order[k] < n
  {
    r.Interleave(steps, release);
    BatchDelivered(n, release, steps);
    ReceivedOnce(r.Value(), handed);
    order := Received(r.Value(), handed);
  }

  /**
   * What the spans of the program show: each process span linked to the send span of its message, in a new trace; and,
   * unless Receive was cancelled from outside, a pairing exactly when no message was delivered twice.
   */
  ghost predicate ProgramShows(spans: seq<SpanLink.Span>, n: nat, order: seq<nat>, cancelled: bool, handed: seq<nat>) {
    && SpanLink.Linked(spans, n, order)
    && (!cancelled ==> (SpanLink.Bijective(spans[n..], spans[..n]) <==> Distinct(handed)))
  }

  lemma ProgramLinks(spans: seq<SpanLink.Span>, ids: SpanLink.Ids, answers: nat -> SpanLink.Outcome,
                     messages: seq<SpanLink.Message>, topic: string, subscription: string, n: nat, release: Release,
                     steps: seq<Step>, handed: seq<nat>, order: seq<nat>)
    requires n >= 1 && SpanLink.Fresh(ids) && SpanLink.Sent(messages, ids, n) && Receives(n, release, steps, handed)
    requires var s := After(n, release, INITIAL, steps);
             (forall k :: 0 <= k < |s.collected| ==> s.collected[k] < |handed|) && order == Received(s, handed)
    requires spans == SpanLink.SendSpans(ids, answers, topic, n)
                    + SpanLink.ProcessSpans(ids, messages, subscription, n, order)
    ensures ProgramShows(spans, n, order, After(n, release, INITIAL, steps).parentCancelled, handed)
  {
    SpanLink.AllLinked(spans, ids, answers, messages, topic, subscription, n, order);
    assert spans[..n] == SpanLink.SendSpans(ids, answers, topic, n);
    assert spans[n..] == SpanLink.ProcessSpans(ids, messages, subscription, n, order);
    if !After(n, release, INITIAL, steps).parentCancelled {
      BatchLinksOneToOne(ids, answers, messages, topic, subscription, n, release, steps, handed);
    }
  }

  /** The program itself: publish n messages, receive a batch under any interleaving of the callbacks, process it. */
  method Program(p: SpanLink.Pubsub, r: Receiver, topic: string, subscription: string, n: nat, ghost release: Release,
                 steps: seq<Step>, handed: seq<nat>) returns (err: Option<string>, ghost order: seq<nat>)
    requires n >= 1 && p.spans == [] && p.topic == [] && r.batchSize == n && r.Value() == INITIAL
    requires Receives(n, release, steps, handed)
    modifies p, r
    ensures err.Some? <==> SpanLink.Successes(p.answers, n) < n
    ensures err.None? ==>
              && (forall k :: 0 <= k < |After(n, release, INITIAL, steps).collected| ==>
                    After(n, release, INITIAL, steps).collected[k] < |handed|)
              && order == Received(After(n, release, INITIAL, steps), handed)
              && (SpanLink.Fresh(p.ids) ==>
                    ProgramShows(p.spans, n, order, After(n, release, INITIAL, steps).parentCancelled, handed))
  {
    err := p.Publish(topic, n);
    order := [];
    if err.Some? {
      return;
    }
    var batch := ReceiveAll(r, n, release, steps, handed);
    order := batch;
    p.Consume(subscription, SpanLink.Delivered(p.topic, batch));
    if SpanLink.Fresh(p.ids) {
      ProgramLinks(p.spans, p.ids, p.answers, p.topic, topic, subscription, n, release, steps, handed, order);
    }
  }
}
