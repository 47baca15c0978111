/** The traceparent header of section 3.2 of W3C Trace Context, as text. */
module TraceContext {
  import opened Telemetry

  type Byte = n: nat | n < 256

  datatype SpanContext = SpanContext(traceId: seq<Byte>, spanId: seq<Byte>, flags: Byte, remote: bool) {
    /** Identifiers have 16 and 8 bytes; identifiers of zeros are invalid. */
    predicate Valid() {
      |traceId| == 16 && |spanId| == 8 && !Zeros(traceId) && !Zeros(spanId)
    }
  }

  predicate Zeros(bs: seq<Byte>) {
    forall i :: 0 <= i < |bs| ==> bs[i] == 0
  }

  const NO_SPAN: SpanContext := SpanContext([], [], 0, false)

  // ----- Hexadecimal -----

  function HexDigit(n: nat): char
    requires n < 16
  {
    (if n < 10 then '0' as nat + n else 'a' as nat + n - 10) as char
  }

  /** Only lower-case digits are allowed. */
  function HexValue(c: char): Option<nat> {
    if '0' <= c <= '9' then Some(c as nat - '0' as nat)
    else if 'a' <= c <= 'f' then Some(c as nat - 'a' as nat + 10)
    else None
  }

  lemma ValueOfDigit(n: nat)
    requires n < 16
    ensures HexValue(HexDigit(n)) == Some(n)
  {
  }

  lemma DigitOfValue(c: char)
    requires HexValue(c).Some?
    ensures HexValue(c).value < 16 && HexDigit(HexValue(c).value) == c
  {
  }

  function Encode(bs: seq<Byte>): (s: string)
    ensures |s| == 2 * |bs|
  {
    if bs == [] then "" else [HexDigit(bs[0] / 16), HexDigit(bs[0] % 16)] + Encode(bs[1..])
  }

  function Decode(s: string): (r: Option<seq<Byte>>)
    ensures r.Some? ==> 2 * |r.value| == |s|
  {
    if s == "" then Some([])
    else if |s| == 1 then None
    else
      var high, low, rest := HexValue(s[0]), HexValue(s[1]), Decode(s[2..]);
      if high.None? || low.None? || rest.None? then None
      else
        DigitOfValue(s[0]);
        DigitOfValue(s[1]);
        Some([16 * high.value + low.value] + rest.value)
  }

  lemma {:induction false} DecodeEncode(bs: seq<Byte>)
    ensures Decode(Encode(bs)) == Some(bs)
  {
    if bs == [] {
    } else {
      DecodeEncode(bs[1..]);
      ValueOfDigit(bs[0] / 16);
      ValueOfDigit(bs[0] % 16);
      assert Encode(bs)[2..] == Encode(bs[1..]);
      assert 16 * (bs[0] / 16) + bs[0] % 16 == bs[0];
      assert [bs[0]] + bs[1..] == bs;
    }
  }

  lemma {:induction false} EncodeDecode(s: string)
    requires Decode(s).Some?
    ensures Encode(Decode(s).value) == s
  {
    if s == "" {
    } else {
      EncodeDecode(s[2..]);
      DigitOfValue(s[0]);
      DigitOfValue(s[1]);
      var bs := Decode(s).value;
      assert bs[1..] == Decode(s[2..]).value;
      assert bs[0] / 16 == HexValue(s[0]).value && bs[0] % 16 == HexValue(s[1]).value;
      assert s == [s[0], s[1]] + s[2..];
    }
  }

  // ----- The header -----

  function Traceparent(sc: SpanContext): string {
    "00-" + Encode(sc.traceId) + "-" + Encode(sc.spanId) + "-" + Encode([sc.flags])
  }

  /** The fields at their fixed positions; version 00 allows nothing after the flags. */
  function Parse(h: string): Option<SpanContext> {
    if |h| != 55 || h[..3] != "00-" || h[35] != '-' || h[52] != '-' then None
    else
      var traceId, spanId, flags := Decode(h[3..35]), Decode(h[36..52]), Decode(h[53..]);
      if traceId.None? || spanId.None? || flags.None? then None
      else
        var sc := SpanContext(traceId.value, spanId.value, flags.value[0], true);
        if sc.Valid() then Some(sc) else None
  }

  /** What one process writes the other reads: the same identifiers and flags, now remote. */
  lemma ParseTraceparent(sc: SpanContext)
    requires sc.Valid()
    ensures Parse(Traceparent(sc)) == Some(sc.(remote := true))
  {
    var h, trace, span, flags := Traceparent(sc), Encode(sc.traceId), Encode(sc.spanId), Encode([sc.flags]);
    assert |trace| == 32 && |span| == 16 && |flags| == 2;
    assert h[..3] == "00-" && h[3..35] == trace && h[36..52] == span && h[53..] == flags;
    DecodeEncode(sc.traceId);
    DecodeEncode(sc.spanId);
    DecodeEncode([sc.flags]);
  }

  /** And nothing else is read: an accepted header is the one header of its span context. */
  lemma TraceparentParse(h: string)
    requires Parse(h).Some?
    ensures Traceparent(Parse(h).value) == h && Parse(h).value.Valid()
  {
    EncodeDecode(h[3..35]);
    EncodeDecode(h[36..52]);
    EncodeDecode(h[53..]);
    var sc := Parse(h).value;
    assert [sc.flags] == Decode(h[53..]).value;
    Pieces(h);
  }

  lemma Pieces(h: string)
    requires |h| == 55
    ensures h == h[..3] + h[3..35] + [h[35]] + h[36..52] + [h[52]] + h[53..]
  {
  }

  /** A byte as two lower-case digits. */
  predicate HexPair(a: char, b: char, n: Byte) {
    a == "0123456789abcdef"[n / 16] && b == "0123456789abcdef"[n % 16]
  }

  lemma DigitReads(n: nat)
    requires n < 16
    ensures HexDigit(n) == "0123456789abcdef"[n]
  {
  }

  lemma {:induction false} EncodeReads(bs: seq<Byte>, i: nat)
    requires i < |bs|
    ensures HexPair(Encode(bs)[2 * i], Encode(bs)[2 * i + 1], bs[i])
  {
    DigitReads(bs[0] / 16);
    DigitReads(bs[0] % 16);
    if i == 0 {
    } else {
      EncodeReads(bs[1..], i - 1);
      assert Encode(bs)[2..] == Encode(bs[1..]);
      assert Encode(bs)[2 * i] == Encode(bs)[2..][2 * (i - 1)];
      assert Encode(bs)[2 * i + 1] == Encode(bs)[2..][2 * (i - 1) + 1];
    }
  }

  /** The layout of section 3.2.2: version, trace identifier, span identifier and flags, in this order. */
  predicate Layout(h: string, sc: SpanContext)
    requires sc.Valid()
  {
    && |h| == 55 && h[..3] == "00-" && h[35] == '-' && h[52] == '-'
    && (forall i :: 0 <= i < 16 ==> HexPair(h[3 + 2 * i], h[4 + 2 * i], sc.traceId[i]))
    && (forall i :: 0 <= i < 8 ==> HexPair(h[36 + 2 * i], h[37 + 2 * i], sc.spanId[i]))
    && HexPair(h[53], h[54], sc.flags)
  }

  lemma TraceparentReads(sc: SpanContext)
    requires sc.Valid()
    ensures Layout(Traceparent(sc), sc)
  {
    var h, trace, span, flags := Traceparent(sc), Encode(sc.traceId), Encode(sc.spanId), Encode([sc.flags]);
    assert h[3..35] == trace && h[36..52] == span && h[53..] == flags;
    forall i | 0 <= i < 16 ensures HexPair(h[3 + 2 * i], h[4 + 2 * i], sc.traceId[i]) {
      EncodeReads(sc.traceId, i);
      assert h[3 + 2 * i] == trace[2 * i] && h[4 + 2 * i] == trace[2 * i + 1];
    }
    forall i | 0 <= i < 8 ensures HexPair(h[36 + 2 * i], h[37 + 2 * i], sc.spanId[i]) {
      EncodeReads(sc.spanId, i);
      assert h[36 + 2 * i] == span[2 * i] && h[37 + 2 * i] == span[2 * i + 1];
    }
    EncodeReads([sc.flags], 0);
  }

  /** A header is accepted exactly if it has this layout for some valid span context, which is the one it gives. */
  lemma ParseAccepts(h: string)
    ensures Parse(h).Some? <==> exists sc: SpanContext :: sc.Valid() && Traceparent(sc) == h
    ensures Parse(h).Some? ==> Parse(h).value.Valid() && Parse(h).value.remote && Layout(h, Parse(h).value)
  {
    if Parse(h).Some? {
      TraceparentParse(h);
      TraceparentReads(Parse(h).value);
    }
    if sc: SpanContext :| sc.Valid() && Traceparent(sc) == h {
      ParseTraceparent(sc);
    }
  }

  // ----- Carriers -----

  type Carrier = map<string, string>

  const TRACEPARENT: string := "traceparent"

  /** Nothing is written for an invalid span context. */
  function Inject(sc: SpanContext, carrier: Carrier): Carrier {
    if sc.Valid() then carrier[TRACEPARENT := Traceparent(sc)] else carrier
  }

  /** The span context of the remote parent, or the empty one. */
  function Extract(carrier: Carrier): SpanContext {
    if TRACEPARENT !in carrier then NO_SPAN
    else match Parse(carrier[TRACEPARENT])
      case None => NO_SPAN
      case Some(sc) => sc
  }

  lemma ExtractInject(sc: SpanContext, carrier: Carrier)
    requires sc.Valid()
    ensures Extract(Inject(sc, carrier)) == sc.(remote := true)
  {
    ParseTraceparent(sc);
  }

  /** Only the `traceparent` of a carrier is written, and only for a valid span context; without it nothing is read. */
  lemma CarrierReads(sc: SpanContext, carrier: Carrier)
    ensures Inject(sc, carrier) == if sc.Valid() then carrier["traceparent" := Traceparent(sc)] else carrier
    ensures Extract(carrier).Valid() <==> "traceparent" in carrier && Parse(carrier["traceparent"]).Some?
  {
    if "traceparent" in carrier && Parse(carrier["traceparent"]).Some? {
      TraceparentParse(carrier["traceparent"]);
    }
  }
}
