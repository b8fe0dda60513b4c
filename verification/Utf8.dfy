/**
 UTF-8 decoding with replacement.

 Well-formed sequences are those of section 4 of RFC 3629 (Table 3-7 of section 3.9 of the Unicode
 Standard); every maximal ill-formed subpart becomes one U+FFFD.
 */
module Utf8 {
  import opened Prelude

  type Byte = x: nat | x < 256
  type Bytes = seq<Byte>
  type CodePoint = nat
  type Text = seq<CodePoint>

  const REPLACEMENT: CodePoint := 0xFFFD

  /** Unicode scalar values: code points that are not surrogates. */
  predicate Scalar(c: CodePoint) {
    c < 0xD800 || 0xE000 <= c < 0x110000
  }

  /** Length of the sequence a lead byte announces; 0 when it can start none. */
  function SeqLength(lead: Byte): (n: nat)
    ensures n <= 4
  {
    if lead < 0x80 then 1
    else if 0xC2 <= lead < 0xE0 then 2
    else if 0xE0 <= lead < 0xF0 then 3
    else if 0xF0 <= lead < 0xF5 then 4
    else 0
  }

  predicate Trail(b: Byte) {
    0x80 <= b < 0xC0
  }

  /** May b follow the lead byte?  Rules out overlong forms, surrogates and values past U+10FFFF. */
  predicate Second(lead: Byte, b: Byte) {
    if lead == 0xE0 then 0xA0 <= b < 0xC0
    else if lead == 0xED then 0x80 <= b < 0xA0
    else if lead == 0xF0 then 0x90 <= b < 0xC0
    else if lead == 0xF4 then 0x80 <= b < 0x90
    else Trail(b)
  }

  /** Length of the longest prefix of bs that is a prefix of a well-formed sequence (at least 1). */
  function Span(bs: Bytes): (n: nat)
    requires bs != []
    ensures 1 <= n <= |bs| && n <= Max(1, SeqLength(bs[0]))
  {
    if SeqLength(bs[0]) < 2 || |bs| < 2 || !Second(bs[0], bs[1]) then 1
    else if SeqLength(bs[0]) < 3 || |bs| < 3 || !Trail(bs[2]) then 2
    else if SeqLength(bs[0]) < 4 || |bs| < 4 || !Trail(bs[3]) then 3
    else 4
  }

  /** The code point a whole sequence stands for. */
  function Value(bs: Bytes): CodePoint
    requires bs != [] && SeqLength(bs[0]) == Span(bs)
  {
    match SeqLength(bs[0])
    case 1 => bs[0]
    case 2 => Low(bs[0], 0xC0) * 64 + Low(bs[1], 0x80)
    case 3 => Low(bs[0], 0xE0) * 4096 + Low(bs[1], 0x80) * 64 + Low(bs[2], 0x80)
    case _ => Low(bs[0], 0xF0) * 262144 + Low(bs[1], 0x80) * 4096 + Low(bs[2], 0x80) * 64 + Low(bs[3], 0x80)
  }

  /** The payload bits of a byte whose marker bits are `mark`. */
  function Low(b: Byte, mark: nat): nat
    requires mark <= b
  {
    b - mark
  }

  /** The first character of the text. */
  function First(bs: Bytes): CodePoint
    requires bs != []
  {
    if SeqLength(bs[0]) == Span(bs) then Value(bs) else REPLACEMENT
  }

  function Decode(bs: Bytes): Text {
    if bs == [] then [] else [First(bs)] + Decode(bs[Span(bs)..])
  }

  // ------------------------------------------------------------------ where a decode may be cut

  /** The decoded text does not end in U+FFFD. */
  predicate Clean(bs: Bytes) {
    Decode(bs) == [] || Last(Decode(bs)) != REPLACEMENT
  }

  /** What follows a finished or broken sequence has no say in it. */
  lemma SpanStable(a: Bytes, b: Bytes)
    requires a != [] && (Span(a) < |a| || First(a) != REPLACEMENT)
    ensures Span(a + b) == Span(a) && First(a + b) == First(a)
  {
  }

  lemma DecodeStep(bs: Bytes)
    requires bs != []
    ensures Decode(bs) == [First(bs)] + Decode(bs[Span(bs)..])
  {
  }

  /** A non-empty clean text starts with a final character and goes on clean. */
  lemma CleanStep(a: Bytes)
    requires a != [] && Clean(a)
    ensures Span(a) < |a| || First(a) != REPLACEMENT
    ensures Clean(a[Span(a)..])
  {
    hide Span, First;
    DecodeStep(a);
    var rest := Decode(a[Span(a)..]);
    if rest != [] {
      assert Last(Decode(a)) == Last(rest);
    } else {
      assert Last(Decode(a)) == First(a);
    }
  }

  /** A text that does not end in U+FFFD is final: more bytes only add characters behind it. */
  lemma {:induction false} DecodeSplits(a: Bytes, b: Bytes)
    requires Clean(a)
    ensures Decode(a + b) == Decode(a) + Decode(b)
    decreases |a|
  {
    hide Decode, First, Span, Clean;
    if a == [] {
      assert a + b == b;
      DecodeNone();
    } else {
      var n := Span(a);
      CleanStep(a);
      SpanStable(a, b);
      DecodeSplits(a[n..], b);
      DecodeStep(a);
      DecodeStep(a + b);
      assert (a + b)[n..] == a[n..] + b;
      assert [First(a)] + Decode(a[n..]) + Decode(b) == [First(a)] + (Decode(a[n..]) + Decode(b));
    }
  }

  lemma DecodeNone()
    ensures Decode([]) == []
  {
  }

  // ------------------------------------------------------------------ encoding

  function EncodeOne(c: CodePoint): (bs: Bytes)
    requires Scalar(c)
    ensures 1 <= |bs| <= 4
  {
    if c < 0x80 then [c]
    else if c < 0x800 then [0xC0 + c / 64, 0x80 + c % 64]
    else if c < 0x10000 then [0xE0 + c / 4096, 0x80 + c / 64 % 64, 0x80 + c % 64]
    else [0xF0 + c / 262144, 0x80 + c / 4096 % 64, 0x80 + c / 64 % 64, 0x80 + c % 64]
  }

  function Encode(text: Text): Bytes
    requires forall c :: c in text ==> Scalar(c)
  {
    if text == [] then [] else EncodeOne(text[0]) + Encode(text[1..])
  }

  /** c in groups of six bits. */
  lemma SixBits(c: nat)
    ensures c == c / 64 * 64 + c % 64
    ensures c / 64 == c / 4096 * 64 + c / 64 % 64
    ensures c / 4096 == c / 262144 * 64 + c / 4096 % 64
  {
    assert c / 4096 == c / 64 / 64 && c / 262144 == c / 4096 / 64;
  }

  lemma ThreeBytes(c: CodePoint, more: Bytes)
    requires Scalar(c) && 0x800 <= c < 0x10000
    ensures var bs := EncodeOne(c) + more; Span(bs) == 3 && First(bs) == c
  {
    SixBits(c);
    var bs := EncodeOne(c) + more;
    assert bs[0] == 0xE0 + c / 4096 && bs[1] == 0x80 + c / 64 % 64 && bs[2] == 0x80 + c % 64;
    assert Second(bs[0], bs[1]);
  }

  lemma FourBytes(c: CodePoint, more: Bytes)
    requires Scalar(c) && c >= 0x10000
    ensures var bs := EncodeOne(c) + more; Span(bs) == 4 && First(bs) == c
  {
    SixBits(c);
    var bs := EncodeOne(c) + more;
    assert bs[0] == 0xF0 + c / 262144 && bs[1] == 0x80 + c / 4096 % 64;
    assert bs[2] == 0x80 + c / 64 % 64 && bs[3] == 0x80 + c % 64;
    assert Second(bs[0], bs[1]);
  }

  lemma OneRoundTrip(c: CodePoint, more: Bytes)
    requires Scalar(c)
    ensures var bs := EncodeOne(c) + more; Span(bs) == |EncodeOne(c)| && First(bs) == c
  {
    if c >= 0x10000 {
      FourBytes(c, more);
    } else if c >= 0x800 {
      ThreeBytes(c, more);
    } else {
      SixBits(c);
    }
  }

  /** Decoding is exact on well-formed input, U+FFFD included. */
  lemma {:induction false} DecodeEncode(text: Text)
    requires forall c :: c in text ==> Scalar(c)
    ensures Decode(Encode(text)) == text
  {
    if text != [] {
      OneRoundTrip(text[0], Encode(text[1..]));
      var bs := Encode(text);
      assert bs[|EncodeOne(text[0])|..] == Encode(text[1..]);
      DecodeEncode(text[1..]);
    }
  }

  // ------------------------------------------------------------------ what any bytes decode to

  lemma TwoDigits(q: nat, r: nat)
    requires r < 64
    ensures (q * 64 + r) / 64 == q && (q * 64 + r) % 64 == r
  {
  }

  lemma ThreeDigits(a: nat, b: nat, c: nat)
    requires b < 64 && c < 64
    ensures var v := a * 4096 + b * 64 + c; v / 4096 == a && v / 64 % 64 == b && v % 64 == c
  {
    var v := a * 4096 + b * 64 + c;
    TwoDigits(a * 64 + b, c);
    assert v == (a * 64 + b) * 64 + c;
    TwoDigits(a, b);
    assert v / 4096 == v / 64 / 64;
  }

  lemma FourDigits(a: nat, b: nat, c: nat, d: nat)
    requires b < 64 && c < 64 && d < 64
    ensures var v := a * 262144 + b * 4096 + c * 64 + d;
      v / 262144 == a && v / 4096 % 64 == b && v / 64 % 64 == c && v % 64 == d
  {
    var v := a * 262144 + b * 4096 + c * 64 + d;
    ThreeDigits(a * 64 + b, c, d);
    assert v == (a * 64 + b) * 4096 + c * 64 + d;
    TwoDigits(a, b);
    assert v / 262144 == v / 4096 / 64;
  }

  lemma WholeThree(bs: Bytes)
    requires bs != [] && SeqLength(bs[0]) == Span(bs) == 3
    ensures Scalar(First(bs)) && EncodeOne(First(bs)) == bs[..3]
  {
    ThreeDigits(bs[0] - 0xE0, bs[1] - 0x80, bs[2] - 0x80);
  }

  lemma WholeFour(bs: Bytes)
    requires bs != [] && SeqLength(bs[0]) == Span(bs) == 4
    ensures Scalar(First(bs)) && EncodeOne(First(bs)) == bs[..4]
  {
    FourDigits(bs[0] - 0xF0, bs[1] - 0x80, bs[2] - 0x80, bs[3] - 0x80);
  }

  /** A whole sequence is the encoding of the character it decodes to. */
  lemma WholeIsEncoding(bs: Bytes)
    requires bs != [] && SeqLength(bs[0]) == Span(bs)
    ensures Scalar(First(bs)) && EncodeOne(First(bs)) == bs[..Span(bs)]
  {
    match SeqLength(bs[0])
    case 1 =>
    case 2 => TwoDigits(bs[0] - 0xC0, bs[1] - 0x80);
    case 3 => WholeThree(bs);
    case _ => WholeFour(bs);
  }

  /** Whatever the bytes, decoding gives Unicode scalar values. */
  lemma {:induction false} DecodesToScalars(bs: Bytes)
    ensures forall c :: c in Decode(bs) ==> Scalar(c)
  {
    hide Span, First;
    if bs != [] {
      FirstIsScalar(bs);
      DecodesToScalars(bs[Span(bs)..]);
    }
  }

  lemma FirstIsScalar(bs: Bytes)
    requires bs != []
    ensures Scalar(First(bs))
  {
    if SeqLength(bs[0]) == Span(bs) {
      WholeIsEncoding(bs);
    }
  }

  lemma CleanFirst(bs: Bytes)
    requires bs != [] && First(bs) != REPLACEMENT
    ensures Scalar(First(bs)) && EncodeOne(First(bs)) == bs[..Span(bs)]
  {
    WholeIsEncoding(bs);
  }

  /** A decode that shows no U+FFFD loses nothing: encoding it gives the same bytes back. */
  lemma {:induction false} EncodeDecode(bs: Bytes)
    requires REPLACEMENT !in Decode(bs)
    ensures (forall c :: c in Decode(bs) ==> Scalar(c)) && Encode(Decode(bs)) == bs
  {
    hide Span, First, EncodeOne;
    DecodesToScalars(bs);
    if bs != [] {
      assert First(bs) == Decode(bs)[0] && Decode(bs)[1..] == Decode(bs[Span(bs)..]);
      CleanFirst(bs);
      EncodeDecode(bs[Span(bs)..]);
      assert bs == bs[..Span(bs)] + bs[Span(bs)..];
    }
  }

  /** These bytes begin the encoding of some character. */
  ghost predicate Begins(bs: Bytes) {
    exists c: CodePoint :: Scalar(c) && bs <= EncodeOne(c)
  }

  lemma BeginsSpan(bs: Bytes, c: CodePoint, m: nat)
    requires Scalar(c) && 0 < m <= |bs| && bs[..m] <= EncodeOne(c)
    ensures m <= Span(bs)
  {
    hide EncodeOne, Scalar;
    var e := EncodeOne(c);
    OneRoundTrip(c, []);
    assert e + [] == e;
    assert forall i :: 0 <= i < m ==> bs[i] == bs[..m][i] == e[i];
  }

  /** The sequence completed with the lowest bytes that may follow. */
  function Completed(bs: Bytes): Bytes
    requires bs != [] && 2 <= SeqLength(bs[0]) && Span(bs) < SeqLength(bs[0])
  {
    var lead, n := bs[0], SeqLength(bs[0]);
    var second := if lead == 0xE0 then 0xA0 else if lead == 0xF0 then 0x90 else 0x80;
    if Span(bs) == 1 then [lead, second] + [0x80, 0x80][..n - 2]
    else if Span(bs) == 2 then bs[..2] + [0x80, 0x80][..n - 2]
    else bs[..3] + [0x80]
  }

  lemma CompletedIsWhole(bs: Bytes)
    requires bs != [] && 2 <= SeqLength(bs[0]) && Span(bs) < SeqLength(bs[0])
    ensures var w := Completed(bs);
      w != [] && SeqLength(w[0]) == Span(w) == |w| && bs[..Span(bs)] <= w
  {
  }

  /**
   The replacement rule.  A broken sequence becomes one U+FFFD that covers as many bytes as can begin a
   character, and no more; a byte that can begin none is covered alone.
   */
  lemma BrokenIsMaximal(bs: Bytes, m: nat)
    requires bs != [] && SeqLength(bs[0]) != Span(bs)
    ensures First(bs) == REPLACEMENT
    ensures 0 < m <= |bs| && Begins(bs[..m]) ==> m <= Span(bs)
    ensures Begins(bs[..Span(bs)]) || (Span(bs) == 1 && !Begins(bs[..1]))
    ensures forall c :: Scalar(c) ==> EncodeOne(c) != bs[..Span(bs)]
  {
    hide EncodeOne, Completed;
    if 0 < m <= |bs| && Begins(bs[..m]) {
      var c: CodePoint :| Scalar(c) && bs[..m] <= EncodeOne(c);
      BeginsSpan(bs, c, m);
    }
    if SeqLength(bs[0]) >= 2 {
      CompletedIsWhole(bs);
      var w := Completed(bs);
      WholeIsEncoding(w);
      assert w[..Span(w)] == w;
      assert bs[..Span(bs)] <= EncodeOne(First(w));
    }
    forall c | Scalar(c) ensures EncodeOne(c) != bs[..Span(bs)] {
      NotWhole(bs, c);
    }
  }

  lemma NotWhole(bs: Bytes, c: CodePoint)
    requires bs != [] && SeqLength(bs[0]) != Span(bs) && Scalar(c)
    ensures EncodeOne(c) != bs[..Span(bs)]
  {
    hide EncodeOne, Scalar;
    OneRoundTrip(c, []);
    assert EncodeOne(c) + [] == EncodeOne(c);
    WholeLength(c);
  }

  lemma WholeLength(c: CodePoint)
    requires Scalar(c)
    ensures SeqLength(EncodeOne(c)[0]) == |EncodeOne(c)|
  {
    SixBits(c);
  }
}
