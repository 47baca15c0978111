/** A log core that hides one field from the core it wraps, under derived loggers of any depth. */
module DropField {
  import opened Telemetry

  datatype Field = Field(key: string, value: Value)

  datatype LogEntry = LogEntry(level: int, message: string)

  /** A line that reached the writer of a core: the fields of the logger, then those of the call. */
  datatype Line = Line(entry: LogEntry, fields: seq<Field>)

  /** A writing core with a minimum level and the fields given to `With` so far; or a core wrapped to drop a key. */
  datatype Core = Io(level: int, context: seq<Field>) | Drop(inner: Core, key: string)

  predicate Enabled(c: Core, level: int) {
    match c
    case Io(min, _) => level >= min
    case Drop(inner, _) => Enabled(inner, level)
  }

  /** The fields without those of the given key, in order. */
  function Without(key: string, fields: seq<Field>): seq<Field> {
    Filter((f: Field) => f.key != key, fields)
  }

  /** The loop of `filter`. */
  method FilterFields(key: string, fields: seq<Field>) returns (out: seq<Field>)
    ensures out == Without(key, fields)
  {
    var p := (f: Field) => f.key != key;
    out := [];
    var i := 0;
    while i < |fields|
      invariant 0 <= i <= |fields| && out == Filter(p, fields[..i])
    {
      assert fields[..i + 1] == fields[..i] + [fields[i]];
      FilterConcat(p, fields[..i], [fields[i]]);
      assert [fields[i]][1..] == [];
      if fields[i].key != key {
        out := out + [fields[i]];
      }
      i := i + 1;
    }
    assert fields[..|fields|] == fields;
  }

  function With(c: Core, fields: seq<Field>): Core {
    match c
    case Io(min, context) => Io(min, context + fields)
    case Drop(inner, key) => Drop(With(inner, Without(key, fields)), key)
  }

  /** The cores that a checked entry will be written to: a wrapper registers itself, never the core inside it. */
  function Check(c: Core, entry: LogEntry, checked: seq<Core>): seq<Core> {
    if Enabled(c, entry.level) then checked + [c] else checked
  }

  /** The line that reaches the writer at the bottom of the core. */
  function WriteTo(c: Core, entry: LogEntry, fields: seq<Field>): Line {
    match c
    case Io(_, context) => Line(entry, context + fields)
    case Drop(inner, key) => WriteTo(inner, entry, Without(key, fields))
  }

  function WriteAll(checked: seq<Core>, entry: LogEntry, fields: seq<Field>): seq<Line> {
    if checked == [] then [] else [WriteTo(checked[0], entry, fields)] + WriteAll(checked[1..], entry, fields)
  }

  /** One call of a logger on a core: check, then write to the cores that registered. */
  function LogTo(c: Core, entry: LogEntry, fields: seq<Field>): seq<Line> {
    WriteAll(Check(c, entry, []), entry, fields)
  }

  /** The core of a logger derived by a chain of `With` calls. */
  function Derived(c: Core, chain: seq<seq<Field>>): Core
    decreases |chain|
  {
    if chain == [] then c else Derived(With(c, chain[0]), chain[1..])
  }

  function Concat(chain: seq<seq<Field>>): seq<Field> {
    if chain == [] then [] else chain[0] + Concat(chain[1..])
  }

  // ----- A wrapped core against the plain one -----

  lemma {:induction false} WithWith(c: Core, a: seq<Field>, b: seq<Field>)
    ensures With(With(c, a), b) == With(c, a + b)
    decreases c
  {
    match c
    case Io(_, context) =>
      assert context + a + b == context + (a + b);
    case Drop(inner, key) =>
      WithWith(inner, Without(key, a), Without(key, b));
      FilterConcat((f: Field) => f.key != key, a, b);
  }

  lemma {:induction false} WithNothing(c: Core)
    ensures With(c, []) == c
    decreases c
  {
    match c
    case Io(_, context) => assert context + [] == context;
    case Drop(inner, key) => WithNothing(inner);
  }

  /** A chain of derivations is one derivation with all the fields. */
  lemma {:induction false} DerivedOnce(c: Core, chain: seq<seq<Field>>)
    ensures Derived(c, chain) == With(c, Concat(chain))
    decreases |chain|
  {
    if chain == [] {
      WithNothing(c);
    } else {
      DerivedOnce(With(c, chain[0]), chain[1..]);
      WithWith(c, chain[0], Concat(chain[1..]));
    }
  }

  lemma {:induction false} WriteWith(c: Core, entry: LogEntry, a: seq<Field>, b: seq<Field>)
    ensures WriteTo(With(c, a), entry, b) == WriteTo(c, entry, a + b)
    decreases c
  {
    match c
    case Io(_, context) =>
      assert context + a + b == context + (a + b);
    case Drop(inner, key) =>
      WriteWith(inner, entry, Without(key, a), Without(key, b));
      FilterConcat((f: Field) => f.key != key, a, b);
  }

  lemma {:induction false} EnabledWith(c: Core, fields: seq<Field>, level: int)
    ensures Enabled(With(c, fields), level) == Enabled(c, level)
    decreases c
  {
    match c
    case Io(_, _) =>
    case Drop(inner, key) => EnabledWith(inner, Without(key, fields), level);
  }

  lemma LogOne(c: Core, entry: LogEntry, fields: seq<Field>)
    ensures LogTo(c, entry, fields) == if Enabled(c, entry.level) then [WriteTo(c, entry, fields)] else []
  {
    var checked := Check(c, entry, []);
    if Enabled(c, entry.level) {
      assert checked == [c] && checked[1..] == [];
      assert WriteAll(checked[1..], entry, fields) == [];
      assert WriteAll(checked, entry, fields) == [WriteTo(c, entry, fields)];
    }
  }

  lemma LogWith(c: Core, fields: seq<Field>, entry: LogEntry, last: seq<Field>)
    ensures LogTo(With(c, fields), entry, last) == LogTo(c, entry, fields + last)
  {
    EnabledWith(c, fields, entry.level);
    WriteWith(c, entry, fields, last);
    LogOne(With(c, fields), entry, last);
    LogOne(c, entry, fields + last);
  }

  /**
   * For any chain of derived loggers ending in a checked write, on a core wrapped any number of times: the output
   * is that of the plain inner core on all the fields, concatenated, with the key removed and the order kept.
   */
  lemma WrappedAgreesWithPlain(inner: Core, key: string, chain: seq<seq<Field>>, entry: LogEntry, last: seq<Field>)
    ensures LogTo(Derived(Drop(inner, key), chain), entry, last)
         == LogTo(inner, entry, Without(key, Concat(chain) + last))
  {
    DerivedOnce(Drop(inner, key), chain);
    LogWith(Drop(inner, key), Concat(chain), entry, last);
    LogOne(Drop(inner, key), entry, Concat(chain) + last);
    LogOne(inner, entry, Without(key, Concat(chain) + last));
  }

  lemma {:induction false} WithoutKey(key: string, fields: seq<Field>)
    ensures forall f :: f in Without(key, fields) <==> f in fields && f.key != key
  {
    if fields == [] {
    } else {
      WithoutKey(key, fields[1..]);
    }
  }

  /** The fields that the writer at the bottom of a core already has. */
  function ContextOf(c: Core): seq<Field> {
    match c
    case Io(_, context) => context
    case Drop(inner, _) => ContextOf(inner)
  }

  lemma {:induction false} WriteFrom(c: Core, entry: LogEntry, fields: seq<Field>)
    ensures forall f :: f in WriteTo(c, entry, fields).fields ==> f in ContextOf(c) || f in fields
    decreases c
  {
    match c
    case Io(_, _) =>
    case Drop(inner, key) =>
      WriteFrom(inner, entry, Without(key, fields));
      WithoutKey(key, fields);
  }

  /**
   * No field of the key gets through a wrapped core, whatever it wraps: any that shows up in a line was in the inner
   * core's own context before it was wrapped.
   */
  lemma NothingLeaks(inner: Core, key: string, chain: seq<seq<Field>>, entry: LogEntry, last: seq<Field>)
    ensures forall line :: line in LogTo(Derived(Drop(inner, key), chain), entry, last) ==>
              forall f :: f in line.fields && f.key == key ==> f in ContextOf(inner)
  {
    var fields := Without(key, Concat(chain) + last);
    WrappedAgreesWithPlain(inner, key, chain, entry, last);
    LogOne(inner, entry, fields);
    WriteFrom(inner, entry, fields);
    WithoutKey(key, Concat(chain) + last);
  }

  // ----- The logger of the program -----

  const CONTEXT_KEY: string := "context"

  /** The span in a context, if it is valid: trace and span identifiers as text. */
  datatype SpanIds = NoSpan | SpanIds(trace: string, span: string)

  /** The fields that `Ctx` adds: the raw context for the bridge, and identifiers for the reader. */
  method CtxFields(ids: SpanIds) returns (fields: seq<Field>)
    ensures fields == ContextFields(ids)
    ensures fields[0] == Field("context", Stack) && Without("context", fields) == VisibleFields(ids)
    ensures |fields| == 1 + |VisibleFields(ids)|
  {
    CtxIsVisibleAsIds(ids);
    fields := [Field(CONTEXT_KEY, Stack)];
    if ids.SpanIds? {
      fields := fields + [Field("trace_id", Str(ids.trace)), Field("span_id", Str(ids.span))];
    }
  }

  function ContextFields(ids: SpanIds): seq<Field> {
    [Field(CONTEXT_KEY, Stack)] + VisibleFields(ids)
  }

  function VisibleFields(ids: SpanIds): seq<Field> {
    match ids
    case NoSpan => []
    case SpanIds(trace, span) => [Field("trace_id", Str(trace)), Field("span_id", Str(span))]
  }

  /** The two branches of the tee: standard output behind the wrapper, and the bridge. */
  datatype Logger = Logger(stdout: Core, otel: Core)

  function Branches(l: Logger, entry: LogEntry, fields: seq<Field>): seq<Core> {
    Check(l.otel, entry, Check(l.stdout, entry, []))
  }

  function WithLogger(l: Logger, fields: seq<Field>): Logger { Logger(With(l.stdout, fields), With(l.otel, fields)) }

  function DerivedLogger(l: Logger, chain: seq<seq<Field>>): Logger
    decreases |chain|
  {
    if chain == [] then l else DerivedLogger(WithLogger(l, chain[0]), chain[1..])
  }

  lemma {:induction false} DerivedBranches(l: Logger, chain: seq<seq<Field>>)
    ensures DerivedLogger(l, chain) == Logger(Derived(l.stdout, chain), Derived(l.otel, chain))
    decreases |chain|
  {
    if chain == [] {
    } else {
      DerivedBranches(WithLogger(l, chain[0]), chain[1..]);
    }
  }

  lemma {:induction false} WriteAllConcat(a: seq<Core>, b: seq<Core>, entry: LogEntry, fields: seq<Field>)
    ensures WriteAll(a + b, entry, fields) == WriteAll(a, entry, fields) + WriteAll(b, entry, fields)
  {
    if a == [] {
      assert a + b == b;
    } else {
      assert (a + b)[1..] == a[1..] + b;
      WriteAllConcat(a[1..], b, entry, fields);
    }
  }

  /**
   * The logger of the program, derived by any chain: standard output gets every field but the raw context, the
   * bridge gets every field, each in order and only at the levels its own core enables.
   */
  lemma TeeBranches(level: int, otelLevel: int, chain: seq<seq<Field>>, entry: LogEntry, last: seq<Field>)
    ensures var l := DerivedLogger(Logger(Drop(Io(level, []), "context"), Io(otelLevel, [])), chain);
            var all := Concat(chain) + last;
            WriteAll(Branches(l, entry, last), entry, last)
            == (if entry.level >= level then [Line(entry, Without("context", all))] else [])
             + (if entry.level >= otelLevel then [Line(entry, all)] else [])
  {
    var stdout, otel := Drop(Io(level, []), CONTEXT_KEY), Io(otelLevel, []);
    DerivedBranches(Logger(stdout, otel), chain);
    var a, b := Derived(stdout, chain), Derived(otel, chain);
    WriteAllConcat(Check(a, entry, []), Check(b, entry, []), entry, last);
    assert Check(b, entry, Check(a, entry, [])) == Check(a, entry, []) + Check(b, entry, []);
    WrappedAgreesWithPlain(Io(level, []), CONTEXT_KEY, chain, entry, last);
    DerivedOnce(otel, chain);
    LogWith(otel, Concat(chain), entry, last);
    PlainLog(level, entry, Without(CONTEXT_KEY, Concat(chain) + last));
    PlainLog(otelLevel, entry, Concat(chain) + last);
  }

  lemma PlainLog(level: int, entry: LogEntry, fields: seq<Field>)
    ensures LogTo(Io(level, []), entry, fields) == if entry.level >= level then [Line(entry, fields)] else []
  {
    LogOne(Io(level, []), entry, fields);
    assert [] + fields == fields;
  }

  /** After `Ctx`, standard output shows the identifiers and not the context; the bridge gets the context too. */
  lemma CtxIsVisibleAsIds(ids: SpanIds)
    ensures Without(CONTEXT_KEY, ContextFields(ids)) == VisibleFields(ids)
    ensures ContextFields(ids)[0] == Field(CONTEXT_KEY, Stack)
  {
    var p := (f: Field) => f.key != CONTEXT_KEY;
    FilterConcat(p, [Field(CONTEXT_KEY, Stack)], VisibleFields(ids));
    FilterNone(p, [Field(CONTEXT_KEY, Stack)]);
    if ids.SpanIds? {
      var rest := [Field("span_id", Str(ids.span))];
      assert VisibleFields(ids)[1..] == rest && rest[1..] == [];
      assert Without(CONTEXT_KEY, rest) == rest;
      assert "span_id"[0] != CONTEXT_KEY[0];
    }
  }

  lemma {:induction false} ConcatAppend(chain: seq<seq<Field>>, fields: seq<Field>)
    ensures Concat(chain + [fields]) == Concat(chain) + fields
  {
    if chain == [] {
      assert chain + [fields] == [fields] && [fields][1..] == [];
    } else {
      assert (chain + [fields])[0] == chain[0] && (chain + [fields])[1..] == chain[1..] + [fields];
      ConcatAppend(chain[1..], fields);
    }
  }

  lemma DerivedAppend(c: Core, chain: seq<seq<Field>>, fields: seq<Field>)
    ensures Derived(c, chain + [fields]) == With(Derived(c, chain), fields)
  {
    DerivedOnce(c, chain);
    DerivedOnce(c, chain + [fields]);
    ConcatAppend(chain, fields);
    WithWith(c, Concat(chain), fields);
  }

  /** The logger for the span in a context, derived from any logger. */
  method Ctx(ids: SpanIds, l: Logger) returns (child: Logger)
    ensures child == WithLogger(l, ContextFields(ids))
  {
    var fields := CtxFields(ids);
    child := WithLogger(l, fields);
  }

  /**
   * What `Ctx` is for, on the logger of the program and any logger derived from it: standard output shows the trace and
   * span identifiers of a valid span in place of the context, and the bridge gets the context itself.
   */
  lemma CtxLogs(level: int, otelLevel: int, ids: SpanIds, chain: seq<seq<Field>>, entry: LogEntry, last: seq<Field>)
    ensures var l := WithLogger(DerivedLogger(Logger(Drop(Io(level, []), "context"), Io(otelLevel, [])), chain),
                                ContextFields(ids));
            var visible := match ids
                           case NoSpan => []
                           case SpanIds(trace, span) => [Field("trace_id", Str(trace)), Field("span_id", Str(span))];
            var shown := Without("context", Concat(chain)) + visible + Without("context", last);
            var all := Concat(chain) + ([Field("context", Stack)] + visible) + last;
            WriteAll(Branches(l, entry, last), entry, last)
            == (if entry.level >= level then [Line(entry, shown)] else [])
             + (if entry.level >= otelLevel then [Line(entry, all)] else [])
  {
    var stdout, otel, fields := Drop(Io(level, []), CONTEXT_KEY), Io(otelLevel, []), ContextFields(ids);
    DerivedBranches(Logger(stdout, otel), chain);
    DerivedBranches(Logger(stdout, otel), chain + [fields]);
    DerivedAppend(stdout, chain, fields);
    DerivedAppend(otel, chain, fields);
    TeeBranches(level, otelLevel, chain + [fields], entry, last);
    ConcatAppend(chain, fields);
    var p := (f: Field) => f.key != CONTEXT_KEY;
    FilterConcat(p, Concat(chain), fields);
    FilterConcat(p, Concat(chain) + fields, last);
    CtxIsVisibleAsIds(ids);
  }
}
