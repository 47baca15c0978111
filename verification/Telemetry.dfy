/** What the program emits: one chronological history of span and log operations. */
module Telemetry {

  datatype Option<+T> = None | Some(value: T)

  datatype Value = Str(s: string) | Num(n: int) | Flag(b: bool) | Stack

  datatype Attr = Attr(key: string, value: Value)

  /** The errors that reach `fetchUser`; the last two are the causes of a done context. */
  datatype Err = DBTimeout | Canceled | DeadlineExceeded

  type ContextErr = e: Err | e != DBTimeout witness Canceled

  function Message(e: Err): string {
    match e
    case DBTimeout => "db query timeout"
    case Canceled => "context canceled"
    case DeadlineExceeded => "context deadline exceeded"
  }

  /** The Go type name of the error, as `%T` prints it. */
  function ErrorType(e: Err): string {
    match e
    case DBTimeout => "*main.DBTimeoutError"
    case Canceled => "*errors.errorString"
    case DeadlineExceeded => "context.deadlineExceededError"
  }

  /** The span a context carries: none, one of this process, or one of another process. */
  datatype Parent = NoParent | Local(id: nat) | Remote(remote: nat)

  datatype RequestInfo = RequestInfo(country: string, plan: string, osName: string, osVersion: string,
                                     appName: string, appVersion: string, newProfile: bool)

  datatype Context = Context(parent: Parent, info: Option<RequestInfo>)

  datatype SpanKind = Internal | Client

  datatype Severity = Debug | Warn | Error

  function SeverityText(s: Severity): string {
    match s
    case Debug => "DEBUG"
    case Warn => "WARN"
    case Error => "ERROR"
  }

  /** A log record; the empty event name makes it a plain diagnostic message. */
  datatype Record = Record(eventName: string, at: nat, severity: Severity, severityText: string,
                           body: Option<string>, attrs: seq<Attr>)

  datatype Entry =
    | Started(span: nat, parent: Parent, name: string, kind: SpanKind, attrs: seq<Attr>, at: nat)
    | SetAttrs(span: nat, attrs: seq<Attr>)
    | SetError(span: nat, description: string)
    | AddedEvent(span: nat, name: string, attrs: seq<Attr>, at: nat)
    | Ended(span: nat, at: nat)
    | Emitted(context: Parent, record: Record)

  // ----- Selecting entries -----

  function Filter<T>(p: T -> bool, s: seq<T>): seq<T> {
    if s == [] then [] else (if p(s[0]) then [s[0]] else []) + Filter(p, s[1..])
  }

  lemma {:induction false} FilterConcat<T>(p: T -> bool, a: seq<T>, b: seq<T>)
    ensures Filter(p, a + b) == Filter(p, a) + Filter(p, b)
  {
    if a == [] {
      assert a + b == b;
    } else {
      assert (a + b)[0] == a[0] && (a + b)[1..] == a[1..] + b;
      FilterConcat(p, a[1..], b);
      var first := if p(a[0]) then [a[0]] else [];
      assert first + (Filter(p, a[1..]) + Filter(p, b)) == first + Filter(p, a[1..]) + Filter(p, b);
    }
  }

  lemma {:induction false} FilterNone<T>(p: T -> bool, s: seq<T>)
    requires forall x :: x in s ==> !p(x)
    ensures Filter(p, s) == []
  {
    if s == [] {
    } else {
      FilterNone(p, s[1..]);
    }
  }

  /** The selected part of `s` when exactly its k-th element is selected. */
  lemma FilterOnly<T>(p: T -> bool, s: seq<T>, k: nat)
    requires k < |s| && p(s[k])
    requires forall i :: 0 <= i < |s| && i != k ==> !p(s[i])
    ensures Filter(p, s) == [s[k]]
  {
    assert s == s[..k] + ([s[k]] + s[k + 1..]);
    FilterConcat(p, s[..k], [s[k]] + s[k + 1..]);
    FilterConcat(p, [s[k]], s[k + 1..]);
    FilterNone(p, s[..k]);
    FilterNone(p, s[k + 1..]);
  }
}
