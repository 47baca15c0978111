/** Publishing and processing messages in separate traces, tied together by span links. */
module SpanLink {
  import opened Telemetry
  import opened TraceContext

  datatype SpanKind = Producer | Consumer

  datatype Link = Link(context: SpanContext, messageId: string)

  /** A span with the errors recorded on it. */
  datatype Span = Span(context: SpanContext, parent: Option<SpanContext>, name: string, kind: SpanKind,
                       attrs: seq<Attr>, links: seq<Link>, recorded: seq<string>, status: Option<string>, ended: bool)

  /** What the generator has for the n-th span of the process; the trace identifier is for one that starts a trace. */
  datatype Ids = Ids(trace: nat -> seq<Byte>, span: nat -> seq<Byte>, flags: nat -> Byte)

  /** Valid identifiers; no trace is started twice under one identifier, and no two spans have the same. */
  ghost predicate Fresh(ids: Ids) {
    && (forall n :: |ids.trace(n)| == 16 && !Zeros(ids.trace(n)))
    && (forall n :: |ids.span(n)| == 8 && !Zeros(ids.span(n)))
    && (forall m, n :: m != n ==> ids.trace(m) != ids.trace(n))
    && (forall m, n :: m != n ==> ids.span(m) != ids.span(n))
  }

  /** A span started under a valid span context joins its trace; otherwise it starts a trace. */
  function StartContext(ids: Ids, n: nat, parent: SpanContext): SpanContext {
    SpanContext(if parent.Valid() then parent.traceId else ids.trace(n), ids.span(n), ids.flags(n), false)
  }

  /** The n-th span as it is started under the span context found in a Go context. */
  function StartSpan(ids: Ids, n: nat, parent: SpanContext, name: string, kind: SpanKind, attrs: seq<Attr>,
                     links: seq<Link>): Span
  {
    Span(StartContext(ids, n, parent), if parent.Valid() then Some(parent) else None, name, kind, attrs, links,
         [], None, false)
  }

  /** `index` is the number in the message text; `id` is assigned by the topic. */
  datatype Message = Message(id: string, index: nat, attributes: Carrier)

  /** What the topic answers to a publish. */
  datatype Outcome = Accepted(id: string) | Rejected(error: string)

  function MessagingAttrs(destination: string, operationType: string, operation: string): seq<Attr> {
    [Attr("messaging.system", Str("gcp_pubsub")),
     Attr("messaging.destination.name", Str(destination)),
     Attr("messaging.operation.type", Str(operationType)),
     Attr("messaging.operation.name", Str(operation))]
  }

  function IdAttr(id: string): Attr { Attr("messaging.message.id", Str(id)) }

  /** The span of the i-th publish, which is started under the background context. */
  function SendSpan(ids: Ids, i: nat, destination: string, answer: Outcome): Span {
    var attrs := MessagingAttrs(destination, "send", "send");
    var span := StartSpan(ids, i, NO_SPAN, "send " + destination, Producer, attrs, []);
    match answer
    case Accepted(id) => span.(attrs := attrs + [IdAttr(id)], ended := true)
    case Rejected(e) => span.(recorded := [e], status := Some("publish failed"), ended := true)
  }

  /** The span context in effect when the i-th message is made. */
  function SendContext(ids: Ids, i: nat): SpanContext { StartContext(ids, i, NO_SPAN) }

  function SentMessage(ids: Ids, i: nat, id: string): Message { Message(id, i, Inject(SendContext(ids, i), map[])) }

  /** The span that processes a message, if it is started under `parent` as span number n. */
  function ProcessUnder(ids: Ids, n: nat, parent: SpanContext, destination: string, m: Message): Span {
    StartSpan(ids, n, parent, "process " + destination, Consumer,
              MessagingAttrs(destination, "process", "process") + [IdAttr(m.id)], [Link(Extract(m.attributes), m.id)])
  }

  /** It is started under the background context, not under the one extracted from the message. */
  function ProcessSpan(ids: Ids, n: nat, destination: string, m: Message): Span {
    ProcessUnder(ids, n, NO_SPAN, destination, m).(ended := true)
  }

  /** How many publishes succeed before the first rejection, out of n. */
  function Successes(answers: nat -> Outcome, n: nat): (r: nat)
    ensures r <= n && (forall i :: 0 <= i < r ==> answers(i).Accepted?) && (r < n ==> answers(r).Rejected?)
  {
    if n == 0 then 0
    else
      var r := Successes(answers, n - 1);
      if r < n - 1 || answers(r).Rejected? then r else n
  }

  /** The spans of n publishes. */
  function SendSpans(ids: Ids, answers: nat -> Outcome, topic: string, n: nat): seq<Span> {
    seq(n, i requires 0 <= i => SendSpan(ids, i, topic, answers(i)))
  }

  lemma SendSpansStep(ids: Ids, answers: nat -> Outcome, topic: string, n: nat)
    ensures SendSpans(ids, answers, topic, n + 1) == SendSpans(ids, answers, topic, n)
        + [SendSpan(ids, n, topic, answers(n))]
  {
  }

  /** The spans of processing some messages, the first of them span number n. */
  function Processed(ids: Ids, n: nat, subscription: string, messages: seq<Message>): seq<Span> {
    seq(|messages|, k requires 0 <= k < |messages| => ProcessSpan(ids, n + k, subscription, messages[k]))
  }

  lemma ProcessedStep(ids: Ids, n: nat, subscription: string, messages: seq<Message>, i: nat)
    requires i < |messages|
    ensures Processed(ids, n, subscription, messages[..i + 1])
         == Processed(ids, n, subscription, messages[..i]) + [ProcessSpan(ids, n + i, subscription, messages[i])]
  {
  }

  /** The messages in the order they are delivered. */
  function Delivered(messages: seq<Message>, order: seq<nat>): (r: seq<Message>)
    requires forall k :: 0 <= k < |order| ==> order[k] < |messages|
    ensures |r| == |order|
  {
    seq(|order|, k requires 0 <= k < |order| => messages[order[k]])
  }

  /** The spans of processing the messages delivered in the given order, after n send spans. */
  function ProcessSpans(ids: Ids, messages: seq<Message>, subscription: string, n: nat, order: seq<nat>): seq<Span>
    requires forall k :: 0 <= k < |order| ==> order[k] < |messages|
  {
    Processed(ids, n, subscription, Delivered(messages, order))
  }

  class Pubsub {
    const ids: Ids
    const answers: nat -> Outcome
    var spans: seq<Span>
    var topic: seq<Message>

    constructor (ids: Ids, answers: nat -> Outcome)
      ensures this.ids == ids && this.answers == answers && spans == [] && topic == []
    {
      this.ids, this.answers := ids, answers;
      spans, topic := [], [];
    }

    /** Starts a span under the span context of the given Go context, which is `NO_SPAN` for the background context. */
    method Start(parent: SpanContext, name: string, kind: SpanKind, attrs: seq<Attr>, links: seq<Link>)
      returns (span: nat, sc: SpanContext)
      modifies this`spans
      ensures span == old(|spans|) && sc == StartContext(ids, span, parent)
      ensures spans == old(spans) + [StartSpan(ids, span, parent, name, kind, attrs, links)]
    {
      span := |spans|;
      var traceId, above := ids.trace(span), None;
      if parent.Valid() {
        traceId, above := parent.traceId, Some(parent);
      }
      sc := SpanContext(traceId, ids.span(span), ids.flags(span), false);
      spans := spans + [Span(sc, above, name, kind, attrs, links, [], None, false)];
    }

    method SetAttributes(span: nat, attrs: seq<Attr>)
      requires span < |spans|
      modifies this`spans
      ensures spans == old(spans)[span := old(spans)[span].(attrs := old(spans)[span].attrs + attrs)]
    {
      spans := spans[span := spans[span].(attrs := spans[span].attrs + attrs)];
    }

    method RecordError(span: nat, error: string)
      requires span < |spans|
      modifies this`spans
      ensures spans == old(spans)[span := old(spans)[span].(recorded := old(spans)[span].recorded + [error])]
    {
      spans := spans[span := spans[span].(recorded := spans[span].recorded + [error])];
    }

    method SetStatusError(span: nat, description: string)
      requires span < |spans|
      modifies this`spans
      ensures spans == old(spans)[span := old(spans)[span].(status := Some(description))]
    {
      spans := spans[span := spans[span].(status := Some(description))];
    }

    method End(span: nat)
      requires span < |spans|
      modifies this`spans
      ensures spans == old(spans)[span := old(spans)[span].(ended := true)]
    {
      spans := spans[span := spans[span].(ended := true)];
    }

    /** Publishes n messages, each under a root span of its own, up to the first rejection. */
    method Publish(destination: string, n: nat) returns (err: Option<string>)
      requires spans == [] && topic == []
      modifies this
      ensures var m := Successes(answers, n);
              && spans == SendSpans(ids, answers, destination, if m < n then m + 1 else m)
              && |topic| == m && (forall i :: 0 <= i < m ==> topic[i] == SentMessage(ids, i, answers(i).id))
              && err == (if m < n then Some(answers(m).error) else None) && Sent(topic, ids, m)
    {
      var i := 0;
      while i < n
        invariant 0 <= i <= n && |topic| == i && spans == SendSpans(ids, answers, destination, i)
        invariant forall k :: 0 <= k < i ==> answers(k).Accepted? && topic[k] == SentMessage(ids, k, answers(k).id)
      {
        var sc, answer := PublishOne(destination, i);
        SendSpansStep(ids, answers, destination, i);
        match answer {
          case Rejected(e) =>
            FirstRejection(answers, i, n);
            return Some(e);
          case Accepted(id) =>
            topic := topic + [Message(id, i, Inject(sc, map[]))];
        }
        i := i + 1;
      }
      err := None;
    }

    /** The span of one publish, from its start to its end, and what the topic answered. */
    method PublishOne(destination: string, i: nat) returns (sc: SpanContext, answer: Outcome)
      requires |spans| == i
      modifies this`spans
      ensures spans == old(spans) + [SendSpan(ids, i, destination, answers(i))]
      ensures sc == SendContext(ids, i) && answer == answers(i)
    {
      var span;
      span, sc := Start(NO_SPAN, "send " + destination, Producer, MessagingAttrs(destination, "send", "send"), []);
      answer := answers(i);
      match answer {
        case Rejected(e) =>
          RecordError(span, e);
          assert spans[span].recorded == [e];
          SetStatusError(span, "publish failed");
        case Accepted(id) =>
          SetAttributes(span, [IdAttr(id)]);
      }
      End(span);
      assert spans[span] == SendSpan(ids, i, destination, answer);
    }

    /** Processes the messages one by one, each under a new root span linked to the span that sent it. */
    method Consume(destination: string, messages: seq<Message>)
      modifies this`spans
      ensures spans == old(spans) + Processed(ids, old(|spans|), destination, messages)
    {
      var i := 0;
      while i < |messages|
        invariant 0 <= i <= |messages|
        invariant spans == old(spans) + Processed(ids, old(|spans|), destination, messages[..i])
      {
        ghost var before := spans;
        var m := messages[i];
        var producer := Extract(m.attributes);
        var attrs := MessagingAttrs(destination, "process", "process") + [IdAttr(m.id)];
        var span, sc := Start(NO_SPAN, "process " + destination, Consumer, attrs, [Link(producer, m.id)]);
        End(span);
        assert spans == before + [ProcessSpan(ids, span, destination, m)];
        ProcessedStep(ids, old(|spans|), destination, messages, i);
        i := i + 1;
      }
      assert messages[..|messages|] == messages;
    }
  }

  lemma {:induction false} FirstRejection(answers: nat -> Outcome, i: nat, n: nat)
    requires i < n && answers(i).Rejected? && forall k :: 0 <= k < i ==> answers(k).Accepted?
    ensures Successes(answers, n) == i
    decreases n
  {
    if i == n - 1 {
    } else {
      FirstRejection(answers, i, n - 1);
    }
  }

  // ----- Links -----

  /** The whole program: publish n messages, take them in the order they are delivered, process them. */
  method Demo(p: Pubsub, topic: string, subscription: string, n: nat, order: seq<nat>) returns (err: Option<string>)
    requires p.spans == [] && p.topic == [] && forall k :: 0 <= k < |order| ==> order[k] < n
    modifies p
    ensures var m := Successes(p.answers, n);
            && err == (if m < n then Some(p.answers(m).error) else None)
            && |p.topic| == m && (forall i :: 0 <= i < m ==> p.topic[i] == SentMessage(p.ids, i, p.answers(i).id))
            && (m < n ==> p.spans == SendSpans(p.ids, p.answers, topic, m + 1))
            && (m == n ==> p.spans == SendSpans(p.ids, p.answers, topic, n)
                                    + ProcessSpans(p.ids, p.topic, subscription, n, order))
    ensures err.None? && Fresh(p.ids) ==> Linked(p.spans, n, order)
  {
    err := p.Publish(topic, n);
    if err.Some? {
      return;
    }
    var messages := Delivered(p.topic, order);
    p.Consume(subscription, messages);
    if Fresh(p.ids) {
      AllLinked(p.spans, p.ids, p.answers, p.topic, topic, subscription, n, order);
    }
  }

  /**
   * What the whole program leaves, read off its spans: after the n send spans each process span has one link, to the
   * context of the send span of the message delivered to it, and starts a trace of its own.
   */
  ghost predicate Linked(spans: seq<Span>, n: nat, order: seq<nat>) {
    && |spans| == n + |order|
    && (forall k :: 0 <= k < |order| ==> order[k] < n && LinkedTo(spans[n + k], spans[order[k]]))
    && NewTraces(spans[n..], spans[..n])
  }

  lemma AllLinked(spans: seq<Span>, ids: Ids, answers: nat -> Outcome, messages: seq<Message>, topic: string,
                  subscription: string, n: nat, order: seq<nat>)
    requires Fresh(ids) && Sent(messages, ids, n) && forall k :: 0 <= k < |order| ==> order[k] < n
    requires spans == SendSpans(ids, answers, topic, n) + ProcessSpans(ids, messages, subscription, n, order)
    ensures Linked(spans, n, order)
  {
    var sends, processes := SendSpans(ids, answers, topic, n), ProcessSpans(ids, messages, subscription, n, order);
    EachLinksToItsSender(ids, answers, messages, topic, subscription, n, order);
    assert spans[..n] == sends && spans[n..] == processes;
    forall k | 0 <= k < |order| ensures LinkedTo(spans[n + k], spans[order[k]]) {
      assert LinkedTo(processes[k], sends[order[k]]);
    }
  }

  /** The span of a publish in words. */
  lemma SendReads(ids: Ids, i: nat, destination: string, answer: Outcome)
    ensures var span := SendSpan(ids, i, destination, answer);
            && span.name == "send " + destination && span.kind.Producer? && span.parent.None? && span.links == []
            && span.ended
            && span.attrs[..4] == [Attr("messaging.system", Str("gcp_pubsub")),
                                   Attr("messaging.destination.name", Str(destination)),
                                   Attr("messaging.operation.type", Str("send")),
                                   Attr("messaging.operation.name", Str("send"))]
            && (answer.Accepted? ==> span.attrs[4..] == [Attr("messaging.message.id", Str(answer.id))])
            && (answer.Accepted? ==> span.recorded == [] && span.status.None?)
            && (answer.Rejected? ==> |span.attrs| == 4 && span.recorded == [answer.error])
            && (answer.Rejected? ==> span.status == Some("publish failed"))
  {
  }

  /** The span of a message in words; message and link have the same identifier. */
  lemma ProcessReads(ids: Ids, n: nat, destination: string, m: Message)
    ensures var span := ProcessSpan(ids, n, destination, m);
            && span.name == "process " + destination && span.kind.Consumer? && span.parent.None?
            && span.recorded == [] && span.status.None? && span.ended
            && span.attrs == [Attr("messaging.system", Str("gcp_pubsub")),
                              Attr("messaging.destination.name", Str(destination)),
                              Attr("messaging.operation.type", Str("process")),
                              Attr("messaging.operation.name", Str("process")),
                              Attr("messaging.message.id", Str(m.id))]
            && |span.links| == 1 && span.links[0].messageId == m.id
  {
  }

  /** A process span with exactly one link, which names the send span: same trace, same span identifier, same flags. */
  predicate LinkedTo(process: Span, send: Span) {
    |process.links| == 1 && process.links[0].context == send.context.(remote := true)
  }

  /** Every process span is linked to the send span of its own message and to no other. */
  ghost predicate LinkedInOrder(processes: seq<Span>, sends: seq<Span>, order: seq<nat>) {
    && |processes| == |order|
    && forall k, j :: 0 <= k < |order| && 0 <= j < |sends| ==> (LinkedTo(processes[k], sends[j]) <==> j == order[k])
  }

  /** Roots, each in a trace of its own that is not the trace of any other span. */
  ghost predicate NewTraces(processes: seq<Span>, sends: seq<Span>) {
    && (forall k :: 0 <= k < |processes| ==> processes[k].parent.None?)
    && (forall k, j :: 0 <= k < |processes| && 0 <= j < |sends| ==>
          processes[k].context.traceId != sends[j].context.traceId)
    && (forall k, l :: 0 <= k < l < |processes| ==> processes[k].context.traceId != processes[l].context.traceId)
  }

  /** Messages as `Publish` leaves them in the topic. */
  ghost predicate Sent(messages: seq<Message>, ids: Ids, n: nat) {
    |messages| == n && forall i :: 0 <= i < n ==> messages[i].attributes == Inject(SendContext(ids, i), map[])
  }

  /**
   * Whatever the order of delivery, and even if messages are delivered again: each process span is the root of a
   * new trace, with exactly one link, to the send span of the publish that made its message.
   */
  lemma EachLinksToItsSender(ids: Ids, answers: nat -> Outcome, messages: seq<Message>, topic: string,
                             subscription: string,
                             n: nat, order: seq<nat>)
    requires Fresh(ids) && Sent(messages, ids, n) && forall k :: 0 <= k < |order| ==> order[k] < n
    ensures var sends := SendSpans(ids, answers, topic, n);
            var processes := ProcessSpans(ids, messages, subscription, n, order);
            NewTraces(processes, sends) && LinkedInOrder(processes, sends, order)
  {
    InNewTraces(ids, answers, messages, topic, subscription, n, order);
    InOrder(ids, answers, messages, topic, subscription, n, order);
  }

  lemma InNewTraces(ids: Ids, answers: nat -> Outcome, messages: seq<Message>, topic: string, subscription: string,
                    n: nat, order: seq<nat>)
    requires Fresh(ids) && Sent(messages, ids, n) && forall k :: 0 <= k < |order| ==> order[k] < n
    ensures NewTraces(ProcessSpans(ids, messages, subscription, n, order), SendSpans(ids, answers, topic, n))
  {
    SendsStarted(ids, answers, topic, n);
    ProcessesStarted(ids, n, subscription, Delivered(messages, order));
    NewTracesIffNoParent(ids, ProcessSpans(ids, messages, subscription, n, order), seq(|order|, _ => NO_SPAN),
                         SendSpans(ids, answers, topic, n));
  }

  /** The send spans are the first spans, in the contexts their messages carry. */
  ghost predicate Senders(sends: seq<Span>, ids: Ids) {
    forall j :: 0 <= j < |sends| ==> sends[j].context == SendContext(ids, j)
  }

  lemma SendsStarted(ids: Ids, answers: nat -> Outcome, topic: string, n: nat)
    ensures Senders(SendSpans(ids, answers, topic, n), ids)
  {
    forall j | 0 <= j < n ensures SendSpan(ids, j, topic, answers(j)).context == SendContext(ids, j) { }
  }

  lemma ProcessesStarted(ids: Ids, n: nat, subscription: string, messages: seq<Message>)
    ensures var processes := Processed(ids, n, subscription, messages);
            forall k :: 0 <= k < |messages| ==> StartedUnder(processes[k], ids, n + k, NO_SPAN)
  {
    forall k | 0 <= k < |messages|
      ensures StartedUnder(ProcessSpan(ids, n + k, subscription, messages[k]), ids, n + k, NO_SPAN)
    {
    }
  }

  predicate StartedUnder(span: Span, ids: Ids, n: nat, parent: SpanContext) {
    span.context == StartContext(ids, n, parent) && span.parent == if parent.Valid() then Some(parent) else None
  }

  /** Spans started after the send spans, each under some context, are roots of new traces exactly if none is valid. */
  lemma NewTracesIffNoParent(ids: Ids, processes: seq<Span>, parents: seq<SpanContext>, sends: seq<Span>)
    requires Fresh(ids) && |parents| == |processes|
    requires forall k :: 0 <= k < |processes| ==> StartedUnder(processes[k], ids, |sends| + k, parents[k])
    requires Senders(sends, ids)
    ensures NewTraces(processes, sends) <==> forall k :: 0 <= k < |parents| ==> !parents[k].Valid()
  {
    if k :| 0 <= k < |parents| && parents[k].Valid() {
      assert processes[k].parent == Some(parents[k]);
    } else {
      forall k | 0 <= k < |processes|
        ensures processes[k].parent.None? && processes[k].context.traceId == ids.trace(|sends| + k)
      {
      }
      forall j | 0 <= j < |sends| ensures sends[j].context.traceId == ids.trace(j) { }
    }
  }

  /**
   * What starting under the background context is for: started under the context extracted from its message, a process
   * span would not be a root but a child, in the trace of the span that sent the message.
   */
  lemma ChildJoinsSender(ids: Ids, messages: seq<Message>, topic: string, subscription: string, n: nat, k: nat, i: nat,
                         answer: Outcome)
    requires Fresh(ids) && Sent(messages, ids, n) && i < n
    ensures var child := ProcessUnder(ids, n + k, Extract(messages[i].attributes), subscription, messages[i]);
            var send := SendSpan(ids, i, topic, answer);
            child.context.traceId == send.context.traceId && child.parent == Some(send.context.(remote := true))
  {
    ExtractInject(SendContext(ids, i), map[]);
  }

  lemma LinkOf(ids: Ids, m: Message, k: nat, subscription: string, i: nat)
    requires Fresh(ids) && m.attributes == Inject(SendContext(ids, i), map[])
    ensures ProcessSpan(ids, k, subscription, m).links == [Link(SendContext(ids, i).(remote := true), m.id)]
  {
    ExtractInject(SendContext(ids, i), map[]);
  }

  /** The process span has one link, to the context of the i-th publish. */
  predicate LinksTo(process: Span, ids: Ids, i: nat) {
    |process.links| == 1 && process.links[0].context == SendContext(ids, i).(remote := true)
  }

  lemma ProcessesLink(ids: Ids, messages: seq<Message>, subscription: string, n: nat, order: seq<nat>)
    requires Fresh(ids) && Sent(messages, ids, n) && forall k :: 0 <= k < |order| ==> order[k] < n
    ensures var processes := ProcessSpans(ids, messages, subscription, n, order);
            forall k :: 0 <= k < |order| ==> LinksTo(processes[k], ids, order[k])
  {
    forall k | 0 <= k < |order|
      ensures LinksTo(ProcessSpan(ids, n + k, subscription, messages[order[k]]), ids, order[k])
    {
      LinkOf(ids, messages[order[k]], n + k, subscription, order[k]);
    }
  }

  lemma InOrder(ids: Ids, answers: nat -> Outcome, messages: seq<Message>, topic: string, subscription: string,
                n: nat, order: seq<nat>)
    requires Fresh(ids) && Sent(messages, ids, n) && forall k :: 0 <= k < |order| ==> order[k] < n
    ensures LinkedInOrder(ProcessSpans(ids, messages, subscription, n, order), SendSpans(ids, answers, topic, n), order)
  {
    SendsStarted(ids, answers, topic, n);
    ProcessesLink(ids, messages, subscription, n, order);
    DistinctTargets(ids, ProcessSpans(ids, messages, subscription, n, order), SendSpans(ids, answers, topic, n), order);
  }

  lemma DistinctTargets(ids: Ids, processes: seq<Span>, sends: seq<Span>, order: seq<nat>)
    requires Fresh(ids) && Senders(sends, ids) && |processes| == |order|
    requires forall k :: 0 <= k < |order| ==> LinksTo(processes[k], ids, order[k])
    ensures LinkedInOrder(processes, sends, order)
  {
    forall k, j | 0 <= k < |order| && 0 <= j < |sends| ensures LinkedTo(processes[k], sends[j]) <==> j == order[k] {
      assert SendContext(ids, j).spanId == ids.span(j) && SendContext(ids, order[k]).spanId == ids.span(order[k]);
    }
  }

  predicate Permutation(order: seq<nat>, n: nat) {
    && |order| == n
    && (forall k :: 0 <= k < n ==> order[k] < n)
    && (forall k, l :: 0 <= k < l < n ==> order[k] != order[l])
  }

  /** A sequence of n different numbers below n contains each of them. */
  lemma {:induction false} PermutationHits(order: seq<nat>, n: nat, j: nat) returns (k: nat)
    requires Permutation(order, n) && j < n
    ensures k < n && order[k] == j
    decreases n
  {
    var last := order[n - 1];
    if last == j {
      k := n - 1;
    } else {
      // Rename n - 1 to `last` in the rest, which then is a permutation of the numbers below n - 1.
      var rest := seq(n - 1, i requires 0 <= i < n - 1 => if order[i] == n - 1 then last else order[i]);
      k := PermutationHits(rest, n - 1, if j == n - 1 then last else j);
    }
  }

  predicate LinkedAt(processes: seq<Span>, sends: seq<Span>, k: nat, j: nat) {
    k < |processes| && j < |sends| && LinkedTo(processes[k], sends[j])
  }

  ghost predicate HasSend(processes: seq<Span>, sends: seq<Span>, k: nat) {
    exists j :: LinkedAt(processes, sends, k, j)
  }

  ghost predicate HasProcess(processes: seq<Span>, sends: seq<Span>, j: nat) {
    exists k :: LinkedAt(processes, sends, k, j)
  }

  /** Linking pairs process spans and send spans off one to one. */
  ghost predicate Bijective(processes: seq<Span>, sends: seq<Span>) {
    && (forall k: nat :: k < |processes| ==> HasSend(processes, sends, k))
    && (forall j: nat :: j < |sends| ==> HasProcess(processes, sends, j))
    && (forall k, i, j :: LinkedAt(processes, sends, k, i) && LinkedAt(processes, sends, k, j) ==> i == j)
    && (forall k, l, j :: LinkedAt(processes, sends, k, j) && LinkedAt(processes, sends, l, j) ==> k == l)
  }

  ghost function ProcessOf(processes: seq<Span>, sends: seq<Span>, j: nat): (k: nat)
    requires HasProcess(processes, sends, j)
    ensures LinkedAt(processes, sends, k, j)
  {
    var k: nat :| LinkedAt(processes, sends, k, j); k
  }

  lemma OrderedIsBijective(processes: seq<Span>, sends: seq<Span>, order: seq<nat>)
    requires LinkedInOrder(processes, sends, order) && Permutation(order, |sends|)
    ensures Bijective(processes, sends)
  {
    forall k: nat, j: nat ensures LinkedAt(processes, sends, k, j) <==> k < |order| && j < |sends| && j == order[k] { }
    forall k: nat | k < |processes| ensures HasSend(processes, sends, k) {
      assert LinkedAt(processes, sends, k, order[k]);
    }
    forall j: nat | j < |sends| ensures HasProcess(processes, sends, j) {
      var k := PermutationHits(order, |sends|, j);
      assert LinkedAt(processes, sends, k, j);
    }
  }

  /** Different numbers below n: no more than n of them. */
  lemma {:induction false} DifferentFit(s: seq<nat>, n: nat)
    requires (forall k :: 0 <= k < |s| ==> s[k] < n) && (forall k, l :: 0 <= k < l < |s| ==> s[k] != s[l])
    ensures |s| <= n
    decreases n
  {
    if k: nat :| k < |s| && s[k] == n - 1 {
      DifferentFit(s[..k] + s[k + 1..], n - 1);
    } else if |s| > 0 {
      assert s[0] < n;
      DifferentFit(s, n - 1);
    }
  }

  lemma BijectiveIsOrdered(processes: seq<Span>, sends: seq<Span>, order: seq<nat>)
    requires LinkedInOrder(processes, sends, order) && Bijective(processes, sends)
    requires forall k :: 0 <= k < |order| ==> order[k] < |sends|
    ensures Permutation(order, |sends|)
  {
    var n := |sends|;
    forall k, l | 0 <= k < l < |order| ensures order[k] != order[l] {
      assert LinkedAt(processes, sends, k, order[k]) && LinkedAt(processes, sends, l, order[l]);
    }
    DifferentFit(order, n);
    var places := seq(n, j requires 0 <= j < n => ProcessOf(processes, sends, j));
    forall i, j | 0 <= i < j < n ensures places[i] != places[j] {
      assert LinkedAt(processes, sends, places[i], i) && LinkedAt(processes, sends, places[j], j);
    }
    DifferentFit(places, |order|);
  }

  /** Linking is a bijection between process spans and send spans exactly when every message is delivered once. */
  lemma LinkingIsBijective(ids: Ids, answers: nat -> Outcome, messages: seq<Message>, topic: string,
                           subscription: string,
                           n: nat, order: seq<nat>)
    requires Fresh(ids) && Sent(messages, ids, n) && forall k :: 0 <= k < |order| ==> order[k] < n
    ensures Bijective(ProcessSpans(ids, messages, subscription, n, order), SendSpans(ids, answers, topic, n))
        <==> Permutation(order, n)
  {
    var processes, sends := ProcessSpans(ids, messages, subscription, n, order), SendSpans(ids, answers, topic, n);
    EachLinksToItsSender(ids, answers, messages, topic, subscription, n, order);
    if Permutation(order, n) {
      OrderedIsBijective(processes, sends, order);
    }
    if Bijective(processes, sends) {
      BijectiveIsOrdered(processes, sends, order);
    }
  }
}
