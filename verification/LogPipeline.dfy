/** The log pipeline: processors in registration order, one of which copies the event name into an attribute. */
module LogPipeline {
  import opened Telemetry
  import opened Clocks
  import opened FetchSpec

  const EVENT_NAME: string := "event.name"

  datatype Processor = CopyEventName | Export

  /** The processors in the order the provider registers them. */
  function Registered(copyEventName: bool): seq<Processor> {
    (if copyEventName then [CopyEventName] else []) + [Export]
  }

  function WithEventName(r: Record): Record {
    if r.eventName == "" then r else r.(attrs := r.attrs + [Attr(EVENT_NAME, Str(r.eventName))])
  }

  /** What the exporters among the processors receive for one record. */
  function Delivered(processors: seq<Processor>, r: Record): seq<Record> {
    if processors == [] then []
    else match processors[0]
      case Export => [r] + Delivered(processors[1..], r)
      case CopyEventName => Delivered(processors[1..], WithEventName(r))
  }

  function DeliveredAll(processors: seq<Processor>, stream: seq<Record>): seq<Record> {
    if stream == [] then [] else Delivered(processors, stream[0]) + DeliveredAll(processors, stream[1..])
  }

  /** The record that the processors share while it passes through them. */
  class MutableRecord {
    var value: Record

    constructor (value: Record)
      ensures this.value == value
    {
      this.value := value;
    }

    method AddAttribute(a: Attr)
      modifies this
      ensures value == old(value).(attrs := old(value).attrs + [a])
    {
      value := value.(attrs := value.attrs + [a]);
    }
  }

  class LoggerProvider {
    const processors: seq<Processor>
    var exported: seq<Record>

    constructor (processors: seq<Processor>)
      ensures this.processors == processors && exported == []
    {
      this.processors := processors;
      exported := [];
    }

    /** The copying processor changes the record in place, for the processors after it. */
    method OnEmit(r: MutableRecord)
      modifies r
      ensures r.value == WithEventName(old(r.value))
    {
      var name := r.value.eventName;
      if name != "" {
        r.AddAttribute(Attr(EVENT_NAME, Str(name)));
      }
    }

    method Emit(record: Record)
      modifies this
      ensures exported == old(exported) + Delivered(processors, record)
    {
      var r := new MutableRecord(record);
      var i := 0;
      while i < |processors|
        invariant 0 <= i <= |processors|
        invariant old(exported) + Delivered(processors, record) == exported + Delivered(processors[i..], r.value)
        modifies this, r
        decreases |processors| - i
      {
        assert processors[i..][1..] == processors[i + 1..];
        match processors[i] {
          case CopyEventName => OnEmit(r);
          case Export => exported := exported + [r.value];
        }
        i := i + 1;
      }
    }
  }

  // ----- The order of registration -----

  predicate Named(attrs: seq<Attr>) {
    exists i :: 0 <= i < |attrs| && attrs[i].key == "event.name"
  }

  function WithoutEventName(r: Record): Record {
    r.(attrs := Filter((a: Attr) => a.key != "event.name", r.attrs))
  }

  function Erased(stream: seq<Record>): (r: seq<Record>)
    ensures |r| == |stream| && forall i :: 0 <= i < |stream| ==> r[i] == WithoutEventName(stream[i])
  {
    seq(|stream|, i requires 0 <= i < |stream| => WithoutEventName(stream[i]))
  }

  lemma {:induction false} FilterAll<T>(p: T -> bool, s: seq<T>)
    requires forall x :: x in s ==> p(x)
    ensures Filter(p, s) == s
  {
    if s == [] {
    } else {
      FilterAll(p, s[1..]);
    }
  }

  /** The attribute is there exactly when there is an event name, and says the same. */
  ghost predicate Marked(exported: Record, r: Record) {
    && exported.eventName == r.eventName
    && (Named(exported.attrs) <==> r.eventName != "")
    && (forall a :: a in exported.attrs && a.key == "event.name" ==> a.value == Str(r.eventName))
  }

  lemma CopyMarks(r: Record)
    requires !Named(r.attrs)
    ensures var copy := WithEventName(r);
            Marked(copy, r) && WithoutEventName(copy) == r
  {
    var copy, mark := WithEventName(r), [Attr(EVENT_NAME, Str(r.eventName))];
    var p := (a: Attr) => a.key != "event.name";
    FilterAll(p, r.attrs);
    if r.eventName != "" {
      assert copy.attrs[|r.attrs|] == mark[0];
      FilterConcat(p, r.attrs, mark);
      FilterNone(p, mark);
    }
  }

  /** The record carries the name of the original and is otherwise the original. */
  ghost predicate Copied(copy: Record, r: Record) {
    Marked(copy, r) && WithoutEventName(copy) == r
  }

  lemma CopyAgain(copy: Record, r: Record)
    requires Copied(copy, r)
    ensures Copied(WithEventName(copy), r)
  {
    var again, mark := WithEventName(copy), [Attr(EVENT_NAME, Str(copy.eventName))];
    var p := (a: Attr) => a.key != "event.name";
    if copy.eventName != "" {
      assert again.attrs[|copy.attrs|] == mark[0];
      FilterConcat(p, copy.attrs, mark);
      FilterNone(p, mark);
    }
  }

  predicate IsExport(p: Processor) { p.Export? }

  /** A copying processor is registered before the j-th exporter. */
  predicate CopiesBefore(processors: seq<Processor>, j: nat) {
    processors != [] &&
    match processors[0]
    case CopyEventName => true
    case Export => j > 0 && CopiesBefore(processors[1..], j - 1)
  }

  /** In any pipeline every exporter gets the record once: with its name if it is copied before, untouched otherwise. */
  lemma {:induction false} DeliveredMarks(processors: seq<Processor>, r: Record, original: Record, copied: bool)
    requires !Named(original.attrs) && if copied then Copied(r, original) else r == original
    ensures var out := Delivered(processors, r);
            && |out| == |Filter(IsExport, processors)|
            && forall j: nat :: j < |out| ==>
                 if copied || CopiesBefore(processors, j) then Copied(out[j], original) else out[j] == original
    decreases |processors|
  {
    if processors == [] {
    } else {
      match processors[0]
      case CopyEventName =>
        CopyMarks(original);
        if copied {
          CopyAgain(r, original);
        }
        DeliveredMarks(processors[1..], WithEventName(r), original, true);
      case Export =>
        DeliveredMarks(processors[1..], r, original, copied);
        var rest := Delivered(processors[1..], r);
        forall j: nat | j < |rest| + 1
          ensures if copied || CopiesBefore(processors, j) then Copied(([r] + rest)[j], original)
                  else ([r] + rest)[j] == original
        {
          if j > 0 {
            assert ([r] + rest)[j] == rest[j - 1];
          }
        }
    }
  }

  lemma DeliveredOnce(r: Record)
    ensures Delivered(Registered(true), r) == [WithEventName(r)]
    ensures Delivered(Registered(false), r) == [r]
    ensures Delivered([Export, CopyEventName], r) == [r]
  {
    var only: seq<Processor> := [Export];
    assert Registered(true) == [CopyEventName] + only && Registered(false) == only;
    assert Registered(true)[1..] == only && only[1..] == [];
    assert Delivered(only, r) == [r] && Delivered(only, WithEventName(r)) == [WithEventName(r)];
    var late := [Export, CopyEventName];
    assert late[1..] == [CopyEventName] && late[1..][1..] == [];
    assert Delivered(late[1..], r) == [];
  }

  lemma {:induction false} ExportedCopies(stream: seq<Record>)
    ensures var exported := DeliveredAll(Registered(true), stream);
            |exported| == |stream| && forall i :: 0 <= i < |stream| ==> exported[i] == WithEventName(stream[i])
  {
    if stream == [] {
    } else {
      ExportedCopies(stream[1..]);
      DeliveredOnce(stream[0]);
    }
  }

  /**
   * Copying before exporting: every exported record carries the attribute exactly when it has an event name, with
   * that value; erasing the attribute gives back the stream. Exporting first, or without copying, changes nothing.
   */
  lemma CopyBeforeExport(stream: seq<Record>)
    requires forall r :: r in stream ==> !Named(r.attrs)
    ensures var exported := DeliveredAll(Registered(true), stream);
            && |exported| == |stream|
            && (forall i :: 0 <= i < |stream| ==> Marked(exported[i], stream[i]))
            && Erased(exported) == stream
  {
    ExportedCopies(stream);
    var exported := DeliveredAll(Registered(true), stream);
    forall i | 0 <= i < |stream| ensures Marked(exported[i], stream[i]) && WithoutEventName(exported[i]) == stream[i] {
      CopyMarks(stream[i]);
    }
  }

  lemma {:induction false} ExportOnly(stream: seq<Record>)
    ensures DeliveredAll(Registered(false), stream) == stream
    ensures DeliveredAll([Export, CopyEventName], stream) == stream
  {
    if stream == [] {
    } else {
      ExportOnly(stream[1..]);
      DeliveredOnce(stream[0]);
      assert [stream[0]] + stream[1..] == stream;
    }
  }

  // ----- The stream of a request -----

  /** The log records of a history. */
  function Records(h: seq<Entry>): seq<Record> {
    if h == [] then [] else (if h[0].Emitted? then [h[0].record] else []) + Records(h[1..])
  }

  lemma {:induction false} RecordsFrom(h: seq<Entry>)
    ensures forall r :: r in Records(h) ==> exists x :: x in h && x.Emitted? && x.record == r
  {
    if h == [] {
    } else {
      RecordsFrom(h[1..]);
    }
  }

  predicate Unnamed(x: Entry) { x.Emitted? ==> !Named(x.record.attrs) }

  ghost predicate AllUnnamed(h: seq<Entry>) {
    forall x :: x in h ==> Unnamed(x)
  }

  lemma RetryUnnamed(r: Recorder, root: nat, attempt: nat, err: Err, at: nat)
    ensures Unnamed(RetryEntry(r, root, attempt, err, at))
  {
    assert "error.type"[1] != EVENT_NAME[1];
  }

  lemma TailUnnamed(r: Recorder, root: nat, w: Work)
    ensures AllUnnamed(Epilogue(r, root, w) + [Ended(root, w.at.now)])
  {
  }

  /** Attributes of records on child spans are empty: only diagnostics are emitted there. */
  lemma WorkUnnamed(e: Env, user: string, ctx: Context, root: nat, served: nat, c: Instant)
    requires e.limit >= 1 && ctx.parent == Local(root)
    ensures AllUnnamed(Lookup(e, user, ctx, root, served, c).entries)
  {
    forall attempt, err, at ensures Unnamed(RetryEntry(e.recorder, root, attempt, err, at)) {
      RetryUnnamed(e.recorder, root, attempt, err, at);
    }
    LookupEverywhere(Unnamed, e, user, ctx, root, served, c);
    var entries := Lookup(e, user, ctx, root, served, c).entries;
    forall x | x in entries ensures Unnamed(x) { }
  }

  /** The program itself never sets `event.name`. */
  lemma RequestUnnamed(e: Env, user: string, ctx: Context, root: nat, served: nat, c: Instant)
    requires e.limit >= 1
    ensures forall r :: r in Records(FetchEntries(e, user, ctx, root, served, c)) ==> !Named(r.attrs)
  {
    var head, w, tail := RequestParts(e, user, ctx, root, served, c);
    WorkUnnamed(e, user, ctx.(parent := Local(root)), root, served, c);
    TailUnnamed(e.recorder, root, w);
    assert AllUnnamed(head) && AllUnnamed(head + w.entries + tail);
    RecordsFrom(head + w.entries + tail);
  }

  /** The pipeline of `telemetry.go` on the full log stream of any request. */
  lemma RequestExports(e: Env, user: string, ctx: Context, root: nat, served: nat, c: Instant)
    requires e.limit >= 1
    ensures var stream := Records(FetchEntries(e, user, ctx, root, served, c));
            var exported := DeliveredAll(Registered(true), stream);
            && |exported| == |stream| && Erased(exported) == stream
            && (forall i :: 0 <= i < |stream| ==> Marked(exported[i], stream[i]))
            && DeliveredAll(Registered(false), stream) == stream == DeliveredAll([Export, CopyEventName], stream)
  {
    var stream := Records(FetchEntries(e, user, ctx, root, served, c));
    RequestUnnamed(e, user, ctx, root, served, c);
    CopyBeforeExport(stream);
    ExportOnly(stream);
  }
}
