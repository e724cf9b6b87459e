/** `bytes.decode("utf-8", errors="surrogateescape")` and its inverse, after section 4 of RFC 3629 and PEP 383.
    A Python string is a sequence of code points and may hold lone surrogates, so text is a sequence of
    numbers here rather than of Dafny characters. */
module Utf8 {
  import opened Wire

  type Byte = b: int | 0 <= b < 256
  type CodePoint = c: int | 0 <= c <= 0x10FFFF
  type Bytes = seq<Byte>
  type Text = seq<CodePoint>

  predicate Continuation(b: Byte) {
    0x80 <= b <= 0xBF
  }

  /** First two bytes of a three-byte sequence: no overlong forms, no surrogates. */
  predicate Lead3(a: Byte, b: Byte) {
    || (a == 0xE0 && 0xA0 <= b <= 0xBF)
    || (0xE1 <= a <= 0xEF && a != 0xED && Continuation(b))
    || (a == 0xED && 0x80 <= b <= 0x9F)
  }

  /** First two bytes of a four-byte sequence: no overlong forms, nothing above U+10FFFF. */
  predicate Lead4(a: Byte, b: Byte) {
    || (a == 0xF0 && 0x90 <= b <= 0xBF)
    || (0xF1 <= a <= 0xF3 && Continuation(b))
    || (a == 0xF4 && 0x80 <= b <= 0x8F)
  }

  /** Length of the well-formed sequence at the front of `s`, or 0 when there is none. */
  function SequenceLength(s: Bytes): (n: nat)
    requires s != []
    ensures n <= 4 && n <= |s|
  {
    if s[0] < 0x80 then 1
    else if |s| >= 2 && 0xC2 <= s[0] <= 0xDF && Continuation(s[1]) then 2
    else if |s| >= 3 && Lead3(s[0], s[1]) && Continuation(s[2]) then 3
    else if |s| >= 4 && Lead4(s[0], s[1]) && Continuation(s[2]) && Continuation(s[3]) then 4
    else 0
  }

  /** The payload of a byte once its marker bits are taken off. */
  function Bits(b: Byte, marker: int): int {
    b - marker
  }

  function DecodeSequence(s: Bytes): CodePoint
    requires s != [] && SequenceLength(s) > 0
  {
    match SequenceLength(s)
    case 1 => s[0]
    case 2 => Bits(s[0], 0xC0) * 64 + Bits(s[1], 0x80)
    case 3 => Bits(s[0], 0xE0) * 4096 + Bits(s[1], 0x80) * 64 + Bits(s[2], 0x80)
    case _ => Bits(s[0], 0xF0) * 262144 + Bits(s[1], 0x80) * 4096 + Bits(s[2], 0x80) * 64 + Bits(s[3], 0x80)
  }

  /** Every byte that starts no well-formed sequence becomes the lone surrogate U+DC00 + byte. */
  function Decode(s: Bytes): Text {
    if s == [] then []
    else if SequenceLength(s) == 0 then [Bits(s[0], -0xDC00)] + Decode(s[1..])
    else [DecodeSequence(s)] + Decode(s[SequenceLength(s)..])
  }

  /** `None` stands for UnicodeEncodeError: a surrogate that escapes no byte. */
  function EncodePoint(c: CodePoint): Option<Bytes> {
    if c < 0x80 then Some([c])
    else if c < 0x800 then Some([0xC0 + c / 64, 0x80 + c % 64])
    else if 0xDC80 <= c <= 0xDCFF then Some([c - 0xDC00])
    else if 0xD800 <= c <= 0xDFFF then None
    else if c < 0x10000 then Some([0xE0 + c / 4096, 0x80 + c / 64 % 64, 0x80 + c % 64])
    else Some([0xF0 + c / 262144, 0x80 + c / 4096 % 64, 0x80 + c / 64 % 64, 0x80 + c % 64])
  }

  function Joined(a: Option<Bytes>, b: Option<Bytes>): Option<Bytes> {
    if a.Some? && b.Some? then Some(a.value + b.value) else None
  }

  function Encode(t: Text): Option<Bytes> {
    if t == [] then Some([]) else Joined(EncodePoint(t[0]), Encode(t[1..]))
  }

  // ---- decode then encode -------------------------------------------------------------------

  lemma FourByteDigits(a: nat, b: nat, c: nat, d: nat)
    requires b < 64 && c < 64 && d < 64
    ensures var n := a * 262144 + b * 4096 + c * 64 + d;
            n / 262144 == a && n / 4096 % 64 == b && n / 64 % 64 == c && n % 64 == d
  {
    var n := a * 262144 + b * 4096 + c * 64 + d;
    assert n / 64 == a * 4096 + b * 64 + c;
    assert n / 4096 == a * 64 + b;
  }

  lemma RoundTrip2(a: Byte, b: Byte)
    requires 0xC2 <= a <= 0xDF && Continuation(b)
    ensures EncodePoint(Bits(a, 0xC0) * 64 + Bits(b, 0x80)) == Some([a, b])
  {
    FourByteDigits(0, 0, Bits(a, 0xC0), Bits(b, 0x80));
  }

  lemma RoundTrip3(a: Byte, b: Byte, c: Byte)
    requires Lead3(a, b) && Continuation(c)
    ensures EncodePoint(Bits(a, 0xE0) * 4096 + Bits(b, 0x80) * 64 + Bits(c, 0x80)) == Some([a, b, c])
  {
    FourByteDigits(0, Bits(a, 0xE0), Bits(b, 0x80), Bits(c, 0x80));
  }

  lemma RoundTrip4(a: Byte, b: Byte, c: Byte, d: Byte)
    requires Lead4(a, b) && Continuation(c) && Continuation(d)
    ensures EncodePoint(Bits(a, 0xF0) * 262144 + Bits(b, 0x80) * 4096 + Bits(c, 0x80) * 64 + Bits(d, 0x80))
         == Some([a, b, c, d])
  {
    FourByteDigits(Bits(a, 0xF0), Bits(b, 0x80), Bits(c, 0x80), Bits(d, 0x80));
  }

  lemma SequenceRoundTrip(s: Bytes)
    requires s != [] && SequenceLength(s) > 0
    ensures EncodePoint(DecodeSequence(s)) == Some(s[..SequenceLength(s)])
  {
    if SequenceLength(s) == 1 {
      assert s[..1] == [s[0]];
    } else if SequenceLength(s) == 2 {
      RoundTrip2(s[0], s[1]);
      assert s[..2] == [s[0], s[1]];
    } else if SequenceLength(s) == 3 {
      RoundTrip3(s[0], s[1], s[2]);
      assert s[..3] == [s[0], s[1], s[2]];
    } else if SequenceLength(s) == 4 {
      RoundTrip4(s[0], s[1], s[2], s[3]);
      assert s[..4] == [s[0], s[1], s[2], s[3]];
    }
  }

  lemma EncodeCons(c: CodePoint, rest: Text)
    ensures Encode([c] + rest) == Joined(EncodePoint(c), Encode(rest))
  {
    assert ([c] + rest)[1..] == rest;
  }

  lemma EscapeRoundTrip(s: Bytes)
    requires s != [] && SequenceLength(s) == 0
    ensures Decode(s)[0] == Bits(s[0], -0xDC00) && EncodePoint(Decode(s)[0]) == Some([s[0]])
  {
  }

  lemma EscapeStep(s: Bytes)
    requires s != [] && SequenceLength(s) == 0 && Encode(Decode(s[1..])) == Some(s[1..])
    ensures Encode(Decode(s)) == Some(s)
  {
    EscapeRoundTrip(s);
    EncodeCons(Decode(s)[0], Decode(s[1..]));
    assert s == [s[0]] + s[1..];
  }

  lemma SequenceStep(s: Bytes)
    requires s != [] && SequenceLength(s) > 0
    requires Encode(Decode(s[SequenceLength(s)..])) == Some(s[SequenceLength(s)..])
    ensures Encode(Decode(s)) == Some(s)
  {
    var n := SequenceLength(s);
    SequenceRoundTrip(s);
    EncodeCons(DecodeSequence(s), Decode(s[n..]));
    assert s == s[..n] + s[n..];
  }

  /** For every byte string, well-formed or not, decoding and encoding again gives the same bytes. */
  lemma {:induction false} DecodeEncode(s: Bytes)
    ensures Encode(Decode(s)) == Some(s)
  {
    if s != [] {
      if SequenceLength(s) == 0 {
        DecodeEncode(s[1..]);
        EscapeStep(s);
      } else {
        DecodeEncode(s[SequenceLength(s)..]);
        SequenceStep(s);
      }
    }
  }

  /** So two byte strings never decode to the same text. */
  lemma DecodeInjective(s: Bytes, t: Bytes)
    requires Decode(s) == Decode(t)
    ensures s == t
  {
    DecodeEncode(s);
    DecodeEncode(t);
  }

  // ---- encode then decode -------------------------------------------------------------------

  predicate Scalar(c: CodePoint) {
    !(0xD800 <= c <= 0xDFFF)
  }

  lemma PointRoundTrip(c: CodePoint, rest: Bytes)
    requires Scalar(c)
    ensures var e := EncodePoint(c).value;
            SequenceLength(e + rest) == |e| && DecodeSequence(e + rest) == c
  {
    if 0x800 <= c < 0x10000 {
      assert c == c / 4096 * 4096 + c / 64 % 64 * 64 + c % 64;
    } else if 0x10000 <= c {
      assert c == c / 262144 * 262144 + c / 4096 % 64 * 4096 + c / 64 % 64 * 64 + c % 64;
    }
  }

  /** On text without surrogates this is ordinary UTF-8: encoding succeeds and decodes to the same text, so
      escapes are used for malformed bytes only. */
  lemma {:induction false} EncodeDecode(t: Text)
    requires forall c :: c in t ==> Scalar(c)
    ensures Encode(t).Some? && Decode(Encode(t).value) == t
  {
    if t != [] {
      EncodeDecode(t[1..]);
      assert Scalar(t[0]);
      var e, rest := EncodePoint(t[0]).value, Encode(t[1..]).value;
      PointRoundTrip(t[0], rest);
      assert (e + rest)[|e|..] == rest;
      assert t == [t[0]] + t[1..];
    }
  }

  lemma JoinedAssoc(a: Option<Bytes>, b: Option<Bytes>, c: Option<Bytes>)
    ensures Joined(Joined(a, b), c) == Joined(a, Joined(b, c))
  {
    if a.Some? && b.Some? && c.Some? {
      assert a.value + b.value + c.value == a.value + (b.value + c.value);
    }
  }

  /** Encoding works piecewise. */
  lemma {:induction false} EncodeConcat(a: Text, b: Text)
    ensures Encode(a + b) == Joined(Encode(a), Encode(b))
  {
    if a == [] {
      assert a + b == b;
      if Encode(b).Some? { assert [] + Encode(b).value == Encode(b).value; }
    } else {
      EncodeConcat(a[1..], b);
      assert (a + b)[1..] == a[1..] + b;
      JoinedAssoc(EncodePoint(a[0]), Encode(a[1..]), Encode(b));
    }
  }

  // ---- known sequences ----------------------------------------------------------------------

  /** The sample characters of section 3 of RFC 3629 and thereabouts: pound and euro sign, an astral letter. */
  lemma KnownCharacters()
    ensures EncodePoint(0xA3) == Some([0xC2, 0xA3]) && DecodeSequence([0xC2, 0xA3]) == 0xA3
    ensures EncodePoint(0x20AC) == Some([0xE2, 0x82, 0xAC]) && DecodeSequence([0xE2, 0x82, 0xAC]) == 0x20AC
    ensures EncodePoint(0x10348) == Some([0xF0, 0x90, 0x8D, 0x88])
    ensures DecodeSequence([0xF0, 0x90, 0x8D, 0x88]) == 0x10348
  {
  }

  /** What starts no sequence is escaped byte by byte: a stray byte, an overlong zero, an encoded surrogate, a code
      point past the last. */
  lemma KnownEscapes(b: Byte)
    requires b in [0xFF, 0xC0, 0x80]
    ensures Decode([b]) == [0xDC00 + b] && EncodePoint(0xDC00 + b) == Some([b])
    ensures SequenceLength([0xC0, 0x80]) == SequenceLength([0xED, 0xA0, 0x80]) == 0
    ensures SequenceLength([0xF4, 0x90, 0x80, 0x80]) == SequenceLength([0xE0, 0x80, 0x80]) == 0
    ensures EncodePoint(0xD800) == EncodePoint(0xDC7F) == EncodePoint(0xDD00) == None
  {
    assert [b][1..] == [];
  }
}
