/** A history read back span by span, as a backend stores it. */
module Rows {
  import opened Telemetry

  /**
   * A stored span: its name, kind, parent and times, the last value of each attribute, the status, and whether it has
   * ended.
   */
  datatype Row = Row(name: string, kind: SpanKind, parent: Parent, start: nat, end: nat, columns: map<string, Value>,
                     error: Option<string>, ended: bool)

  const EMPTY: Row := Row("", Internal, NoParent, 0, 0, map[], None, false)

  function Put(columns: map<string, Value>, attrs: seq<Attr>): map<string, Value>
    decreases |attrs|
  {
    if attrs == [] then columns else Put(columns[attrs[0].key := attrs[0].value], attrs[1..])
  }

  function Write(r: Row, span: nat, x: Entry): Row {
    if TargetOf(x) != Some(span) then r
    else
      match x
      case Started(_, parent, name, kind, attrs, at) =>
        r.(name := name, kind := kind, parent := parent, start := at, columns := Put(r.columns, attrs))
      case SetAttrs(_, attrs) => r.(columns := Put(r.columns, attrs))
      case SetError(_, description) => r.(error := Some(description))
      case Ended(_, at) => r.(end := at, ended := true)
      case _ => r
  }

  /** The span whose row an entry writes to. */
  function TargetOf(x: Entry): Option<nat> {
    match x
    case Started(span, _, _, _, _, _) => Some(span)
    case SetAttrs(span, _) => Some(span)
    case SetError(span, _) => Some(span)
    case Ended(span, _) => Some(span)
    case _ => None
  }

  function RowOf(r: Row, span: nat, h: seq<Entry>): Row
    decreases |h|
  {
    if h == [] then r else RowOf(Write(r, span, h[0]), span, h[1..])
  }

  lemma {:induction false} RowConcat(r: Row, span: nat, g: seq<Entry>, h: seq<Entry>)
    ensures RowOf(r, span, g + h) == RowOf(RowOf(r, span, g), span, h)
    decreases |g|
  {
    if g == [] {
      assert g + h == h;
    } else {
      assert (g + h)[1..] == g[1..] + h;
      RowConcat(Write(r, span, g[0]), span, g[1..], h);
    }
  }

  lemma {:induction false} RowQuiet(r: Row, span: nat, h: seq<Entry>)
    requires forall x :: x in h ==> Write(r, span, x) == r
    ensures RowOf(r, span, h) == r
    decreases |h|
  {
    if h == [] {
    } else {
      RowQuiet(r, span, h[1..]);
    }
  }

  lemma RowOne(r: Row, span: nat, x: Entry)
    ensures RowOf(r, span, [x]) == Write(r, span, x)
  {
    assert [x][1..] == [];
  }

  lemma RowAppend(r: Row, span: nat, h: seq<Entry>, x: Entry)
    ensures RowOf(r, span, h + [x]) == Write(RowOf(r, span, h), span, x)
  {
    RowConcat(r, span, h, [x]);
    RowOne(RowOf(r, span, h), span, x);
  }

  /** The entries write to the rows of spans from `lo` to below `hi` and to no others. */
  ghost predicate Within(h: seq<Entry>, lo: nat, hi: nat) {
    forall x :: x in h && TargetOf(x).Some? ==> lo <= TargetOf(x).value < hi
  }

  lemma RowOutside(r: Row, span: nat, h: seq<Entry>, lo: nat, hi: nat)
    requires Within(h, lo, hi) && !(lo <= span < hi)
    ensures RowOf(r, span, h) == r
  {
    RowQuiet(r, span, h);
  }

  // ----- Columns -----

  predicate HasKey(attrs: seq<Attr>, key: string) {
    exists i :: 0 <= i < |attrs| && attrs[i].key == key
  }

  lemma {:induction false} PutKeys(columns: map<string, Value>, attrs: seq<Attr>, key: string)
    ensures key in Put(columns, attrs) <==> key in columns || HasKey(attrs, key)
    ensures !HasKey(attrs, key) && key in columns ==> Put(columns, attrs)[key] == columns[key]
    decreases |attrs|
  {
    if attrs == [] {
    } else {
      var rest := attrs[1..];
      PutKeys(columns[attrs[0].key := attrs[0].value], rest, key);
      assert HasKey(attrs, key) <==> attrs[0].key == key || HasKey(rest, key) by {
        if HasKey(attrs, key) && attrs[0].key != key {
          var i :| 0 <= i < |attrs| && attrs[i].key == key;
          assert rest[i - 1].key == key;
        }
        if HasKey(rest, key) {
          var i :| 0 <= i < |rest| && rest[i].key == key;
          assert attrs[i + 1].key == key;
        }
      }
    }
  }

  lemma {:induction false} PutValue(columns: map<string, Value>, attrs: seq<Attr>, k: nat)
    requires k < |attrs|
    requires forall j :: k < j < |attrs| ==> attrs[j].key != attrs[k].key
    ensures attrs[k].key in Put(columns, attrs) && Put(columns, attrs)[attrs[k].key] == attrs[k].value
    decreases |attrs|
  {
    var next, rest := columns[attrs[0].key := attrs[0].value], attrs[1..];
    if k > 0 {
      PutValue(next, rest, k - 1);
    } else {
      PutKeys(next, rest, attrs[0].key);
      forall i | 0 <= i < |rest| ensures rest[i].key != attrs[0].key {
        assert rest[i] == attrs[i + 1];
      }
    }
  }

  lemma {:induction false} PutConcat(columns: map<string, Value>, a: seq<Attr>, b: seq<Attr>)
    ensures Put(columns, a + b) == Put(Put(columns, a), b)
    decreases |a|
  {
    if a == [] {
      assert a + b == b;
    } else {
      assert (a + b)[0] == a[0] && (a + b)[1..] == a[1..] + b;
      PutConcat(columns[a[0].key := a[0].value], a[1..], b);
    }
  }

  function Set(columns: map<string, Value>, a: Attr): map<string, Value> { columns[a.key := a.value] }

  lemma Put1(columns: map<string, Value>, a: Attr)
    ensures Put(columns, [a]) == Set(columns, a)
  {
    assert [a][1..] == [];
  }

  lemma Put2(columns: map<string, Value>, a: Attr, b: Attr)
    ensures Put(columns, [a, b]) == Set(Set(columns, a), b)
  {
    assert [a, b] == [a] + [b];
    PutConcat(columns, [a], [b]);
    Put1(columns, a);
    Put1(Set(columns, a), b);
  }

  lemma Put3(columns: map<string, Value>, a: Attr, b: Attr, c: Attr)
    ensures Put(columns, [a, b, c]) == Set(Set(Set(columns, a), b), c)
  {
    assert [a, b, c] == [a, b] + [c];
    PutConcat(columns, [a, b], [c]);
    Put2(columns, a, b);
    Put1(Set(Set(columns, a), b), c);
  }

  lemma Put4(columns: map<string, Value>, a: Attr, b: Attr, c: Attr, d: Attr)
    ensures Put(columns, [a, b, c, d]) == Set(Set(Set(Set(columns, a), b), c), d)
  {
    assert [a, b, c, d] == [a, b] + [c, d];
    PutConcat(columns, [a, b], [c, d]);
    Put2(columns, a, b);
    Put2(Set(Set(columns, a), b), c, d);
  }

  // ----- Errors -----

  /** The errors in words: what they print, and the names of their Go types. */
  lemma ErrorsRead()
    ensures Message(DBTimeout) == "db query timeout" && ErrorType(DBTimeout) == "*main.DBTimeoutError"
    ensures Message(Canceled) == "context canceled" && ErrorType(Canceled) == "*errors.errorString"
    ensures Message(DeadlineExceeded) == "context deadline exceeded"
    ensures ErrorType(DeadlineExceeded) == "context.deadlineExceededError"
  {
  }
}
