/** The canonical string and the bytes handed to HMAC-SHA256. The MAC itself (section 2 of RFC 2104) and
    base64 stay an arbitrary function. */
module Signing {
  import opened Wire
  import opened Utf8

  const NEWLINE: CodePoint := 0x0A

  /** The code points of a Dafny string literal. */
  function Literal(s: string): Text {
    seq(|s|, i requires 0 <= i < |s| => s[i] as int)
  }

  /** What `str.upper()` does to one code point; it may grow into several. */
  type CaseMap = CodePoint -> Text

  function AsciiUpper(c: CodePoint): CodePoint {
    if 0x61 <= c <= 0x7A then c - 0x20 else c
  }

  /** What is asked of it: ASCII is mapped as usual, and nothing but a newline yields one. The rest of the Unicode
      tables does not matter here. */
  ghost predicate IsCasing(up: CaseMap) {
    && (forall c :: 0 <= c < 0x80 ==> up(c) == [AsciiUpper(c)])
    && (forall c :: c != NEWLINE ==> NEWLINE !in up(c))
  }

  /** `str.upper()` */
  function Upper(up: CaseMap, t: Text): Text {
    if t == [] then [] else up(t[0]) + Upper(up, t[1..])
  }

  /** On ASCII text this is the usual mapping, letter by letter. */
  lemma {:induction false} AsciiUpperCase(up: CaseMap, t: Text)
    requires IsCasing(up) && forall i :: 0 <= i < |t| ==> t[i] < 0x80
    ensures |Upper(up, t)| == |t| && forall i :: 0 <= i < |t| ==> Upper(up, t)[i] == AsciiUpper(t[i])
  {
    if t != [] {
      AsciiUpperCase(up, t[1..]);
      assert up(t[0]) == [AsciiUpper(t[0])];
    }
  }

  /** Signing does not depend on the case in which the method is written. */
  lemma {:induction false} UpperIsCaseBlind(up: CaseMap, s: Text, t: Text)
    requires IsCasing(up) && |s| == |t|
    requires forall i :: 0 <= i < |s| ==> s[i] == t[i] || (0x61 <= s[i] <= 0x7A && t[i] == s[i] - 0x20)
    ensures Upper(up, s) == Upper(up, t)
  {
    if s != [] {
      UpperIsCaseBlind(up, s[1..], t[1..]);
      if s[0] != t[0] {
        assert up(s[0]) == [t[0]] == up(t[0]);
      }
    }
  }

  function Line(t: Text): Text {
    t + [NEWLINE]
  }

  function CanonicalString(up: CaseMap, verb: Text, path: Text, timestamp: Text, nonce: Text, body: Bytes): Text {
    Line(Upper(up, verb)) + Line(path) + Line(timestamp) + Line(nonce) + Decode(body)
  }

  /** The bytes `compute_signature` passes to HMAC; `None` stands for UnicodeEncodeError. */
  function SignedBytes(up: CaseMap, verb: Text, path: Text, timestamp: Text, nonce: Text, body: Bytes): Option<Bytes> {
    Encode(CanonicalString(up, verb, path, timestamp, nonce, body))
  }

  /** `mac` is base64 of HMAC-SHA256. */
  function ComputeSignature(mac: (Bytes, Bytes) -> string, secret: Bytes, up: CaseMap,
                            verb: Text, path: Text, timestamp: Text, nonce: Text, body: Bytes): Option<string>
  {
    match SignedBytes(up, verb, path, timestamp, nonce, body)
    case None => None
    case Some(message) => Some(mac(secret, message))
  }

  // ---- raw-byte signing ---------------------------------------------------------------------

  function EncodedLine(t: Text): Option<Bytes> {
    if Encode(t).Some? then Some(Encode(t).value + [NEWLINE]) else None
  }

  lemma EncodeLine(t: Text, rest: Text)
    ensures Encode(Line(t) + rest) == Joined(EncodedLine(t), Encode(rest))
  {
    EncodeConcat(Line(t), rest);
    EncodeConcat(t, [NEWLINE]);
    assert Encode([NEWLINE]) == Some([NEWLINE]) by {
      EncodeCons(NEWLINE, []);
      assert [NEWLINE] + [] == [NEWLINE];
    }
  }

  /** For every body, valid UTF-8 or not, the MAC covers the four header lines and then the body's own
      bytes; signing fails exactly when a header field cannot be encoded. */
  lemma SignsRawBytes(up: CaseMap, verb: Text, path: Text, timestamp: Text, nonce: Text, body: Bytes)
    ensures SignedBytes(up, verb, path, timestamp, nonce, body)
         == Joined(EncodedLine(Upper(up, verb)),
                   Joined(EncodedLine(path), Joined(EncodedLine(timestamp), Joined(EncodedLine(nonce), Some(body)))))
  {
    EncodeLines(Upper(up, verb), path, timestamp, nonce, Decode(body));
    DecodeEncode(body);
  }

  lemma EncodeLines(a: Text, b: Text, c: Text, d: Text, rest: Text)
    ensures Encode(Line(a) + Line(b) + Line(c) + Line(d) + rest)
         == Joined(EncodedLine(a),
                   Joined(EncodedLine(b), Joined(EncodedLine(c), Joined(EncodedLine(d), Encode(rest)))))
  {
    FourConcat(Line(a), Line(b), Line(c), Line(d), rest);
    EncodeLine(a, Line(b) + (Line(c) + (Line(d) + rest)));
    EncodeLine(b, Line(c) + (Line(d) + rest));
    EncodeLine(c, Line(d) + rest);
    EncodeLine(d, rest);
  }

  lemma FourConcat(a: Text, b: Text, c: Text, d: Text, rest: Text)
    ensures a + b + c + d + rest == a + (b + (c + (d + rest)))
  {
  }

  /** The signature itself: with header fields that can be encoded it is the MAC of exactly those bytes, whatever the
      body is; otherwise there is none. */
  lemma SignatureCovers(mac: (Bytes, Bytes) -> string, secret: Bytes, up: CaseMap,
                        verb: Text, path: Text, timestamp: Text, nonce: Text, body: Bytes)
    ensures var v, p, t, n := Encode(Upper(up, verb)), Encode(path), Encode(timestamp), Encode(nonce);
            ComputeSignature(mac, secret, up, verb, path, timestamp, nonce, body)
            == if v.Some? && p.Some? && t.Some? && n.Some?
               then Some(mac(secret, v.value + [NEWLINE] + (p.value + [NEWLINE]
                                       + (t.value + [NEWLINE] + (n.value + [NEWLINE] + body)))))
               else None
  {
    SignsRawBytes(up, verb, path, timestamp, nonce, body);
  }

  // ---- injectivity --------------------------------------------------------------------------

  predicate NewlineFree(t: Text) {
    forall i :: 0 <= i < |t| ==> t[i] != NEWLINE
  }

  function Newlines(t: Text): nat {
    if t == [] then 0 else (if t[0] == NEWLINE then 1 else 0) + Newlines(t[1..])
  }

  lemma {:induction false} NewlineFreeCount(t: Text)
    ensures NewlineFree(t) <==> Newlines(t) == 0
  {
    if t != [] {
      NewlineFreeCount(t[1..]);
      assert forall i :: 1 <= i < |t| ==> t[i] == t[1..][i - 1];
    }
  }

  /** Two texts with the same number of newlines, each ended by one more and followed by something,
      can only be equal piece by piece. */
  lemma {:induction false} LinesSplit(a: Text, b: Text, x: Text, y: Text)
    requires Newlines(a) == Newlines(b)
    requires Line(a) + x == Line(b) + y
    ensures a == b && x == y
  {
    var s, t := Line(a) + x, Line(b) + y;
    assert s[0] == (if a == [] then NEWLINE else a[0]) && t[0] == (if b == [] then NEWLINE else b[0]);
    assert s[1..] == t[1..];
    if a == [] && b == [] {
      assert s[1..] == x && t[1..] == y;
    } else if a != [] && b != [] {
      assert s[1..] == Line(a[1..]) + x && t[1..] == Line(b[1..]) + y;
      LinesSplit(a[1..], b[1..], x, y);
    }
  }

  lemma {:induction false} NewlinesConcat(a: Text, b: Text)
    ensures Newlines(a + b) == Newlines(a) + Newlines(b)
  {
    if a == [] {
      assert a + b == b;
    } else {
      NewlinesConcat(a[1..], b);
      assert (a + b)[1..] == a[1..] + b;
    }
  }

  /** Upper-casing neither adds nor removes lines. */
  lemma {:induction false} UpperNewlines(up: CaseMap, t: Text)
    requires IsCasing(up)
    ensures Newlines(Upper(up, t)) == Newlines(t)
  {
    if t != [] {
      UpperNewlines(up, t[1..]);
      NewlinesConcat(up(t[0]), Upper(up, t[1..]));
      NewlineFreeCount(up(t[0]));
      if t[0] == NEWLINE {
        assert up(NEWLINE) == [NEWLINE];
      }
    }
  }

  datatype Request = Request(verb: Text, path: Text, timestamp: Text, nonce: Text, body: Bytes) {
    function Canonical(up: CaseMap): Text {
      CanonicalString(up, verb, path, timestamp, nonce, body)
    }

    function AfterTimestamp(): Text { Line(nonce) + Decode(body) }

    function AfterPath(): Text { Line(timestamp) + AfterTimestamp() }

    function AfterVerb(): Text { Line(path) + AfterPath() }

    lemma CanonicalLines(up: CaseMap)
      ensures Canonical(up) == Line(Upper(up, verb)) + AfterVerb()
    {
    }

    /** The header fields span as many lines as those of `r`. */
    predicate SameLines(r: Request) {
      && Newlines(verb) == Newlines(r.verb) && Newlines(path) == Newlines(r.path)
      && Newlines(timestamp) == Newlines(r.timestamp) && Newlines(nonce) == Newlines(r.nonce)
    }

    /** No header field but perhaps the method spans lines. */
    predicate FieldsOnOneLine() {
      NewlineFree(path) && NewlineFree(timestamp) && NewlineFree(nonce)
    }

    predicate Agrees(up: CaseMap, r: Request) {
      && Upper(up, verb) == Upper(up, r.verb) && path == r.path && timestamp == r.timestamp && nonce == r.nonce
      && body == r.body
    }
  }

  /** Two requests that share a canonical string are the same request exactly when their header fields span equally many
      lines, field by field. Where they do, the canonical string is injective. */
  lemma CanonicalInjective(up: CaseMap, a: Request, b: Request)
    requires IsCasing(up)
    ensures a.SameLines(b) ==> (a.Canonical(up) == b.Canonical(up) <==> a.Agrees(up, b))
    ensures a.Canonical(up) == b.Canonical(up) ==> (a.Agrees(up, b) <==> a.SameLines(b))
  {
    UpperNewlines(up, a.verb);
    UpperNewlines(up, b.verb);
    if a.Canonical(up) == b.Canonical(up) && a.SameLines(b) {
      a.CanonicalLines(up);
      b.CanonicalLines(up);
      LinesSplit(Upper(up, a.verb), Upper(up, b.verb), a.AfterVerb(), b.AfterVerb());
      TailInjective(a, b);
    }
  }

  lemma TailInjective(a: Request, b: Request)
    requires a.SameLines(b) && a.AfterVerb() == b.AfterVerb()
    ensures a.path == b.path && a.timestamp == b.timestamp && a.nonce == b.nonce && a.body == b.body
  {
    LinesSplit(a.path, b.path, a.AfterPath(), b.AfterPath());
    LinesSplit(a.timestamp, b.timestamp, a.AfterTimestamp(), b.AfterTimestamp());
    LinesSplit(a.nonce, b.nonce, Decode(a.body), Decode(b.body));
    DecodeInjective(a.body, b.body);
  }

  /** With path, timestamp and nonce on one line only the methods matter, and with methods on one line nothing does. */
  lemma OneLineInjective(up: CaseMap, a: Request, b: Request)
    requires IsCasing(up) && a.FieldsOnOneLine() && b.FieldsOnOneLine()
    ensures a.Canonical(up) == b.Canonical(up) ==> (a.Agrees(up, b) <==> Newlines(a.verb) == Newlines(b.verb))
    ensures NewlineFree(a.verb) && NewlineFree(b.verb) ==> (a.Canonical(up) == b.Canonical(up) <==> a.Agrees(up, b))
  {
    CanonicalInjective(up, a, b);
    LinesOf(a);
    LinesOf(b);
  }

  lemma LinesOf(a: Request)
    ensures NewlineFree(a.verb) <==> Newlines(a.verb) == 0
    ensures NewlineFree(a.path) <==> Newlines(a.path) == 0
    ensures NewlineFree(a.timestamp) <==> Newlines(a.timestamp) == 0
    ensures NewlineFree(a.nonce) <==> Newlines(a.nonce) == 0
  {
    NewlineFreeCount(a.verb);
    NewlineFreeCount(a.path);
    NewlineFreeCount(a.timestamp);
    NewlineFreeCount(a.nonce);
  }

  /** The condition is needed: a method, or a path, that contains a newline can shift the later fields. */
  lemma NewlineInMethodCollides(up: CaseMap) returns (a: Request, b: Request)
    requires IsCasing(up)
    ensures a.FieldsOnOneLine() && b.FieldsOnOneLine() && NewlineFree(a.verb) && !NewlineFree(b.verb)
    ensures a.Canonical(up) == b.Canonical(up) && !a.Agrees(up, b)
  {
    a := Request([0x41], [0x58], [0x79], [0x7A], [0x77, 0x0A, 0x76]);
    b := Request([0x41, 0x0A, 0x58], [0x79], [0x7A], [0x77], [0x76]);
    MethodsInCapitals(up);
    DecodeTail();
    assert b.verb[1] == NEWLINE;
  }

  lemma MethodsInCapitals(up: CaseMap)
    requires IsCasing(up)
    ensures Upper(up, [0x41]) == [0x41] && Upper(up, [0x41, 0x0A, 0x58]) == [0x41, 0x0A, 0x58]
  {
    AsciiUpperCase(up, [0x41]);
    AsciiUpperCase(up, [0x41, 0x0A, 0x58]);
  }

  lemma NewlineInPathCollides(up: CaseMap) returns (a: Request, b: Request)
    requires IsCasing(up)
    ensures a.verb == b.verb && NewlineFree(a.verb) && a.FieldsOnOneLine() && !NewlineFree(b.path)
    ensures a.Canonical(up) == b.Canonical(up) && !a.Agrees(up, b)
  {
    a := Request([0x41], [0x58], [0x79], [0x7A], [0x77, 0x0A, 0x76]);
    b := Request([0x41], [0x58, 0x0A, 0x79], [0x7A], [0x77], [0x76]);
    DecodeTail();
    assert b.path[1] == NEWLINE;
  }

  lemma DecodeTail()
    ensures Decode([0x76]) == [0x76] && Decode([0x77, 0x0A, 0x76]) == [0x77, 0x0A, 0x76]
  {
    var s: Bytes := [0x77, 0x0A, 0x76];
    assert s[1..] == [0x0A, 0x76] && s[1..][1..] == [0x76] && s[1..][1..][1..] == [];
    assert Decode([0x76]) == [0x76] by { assert [0x76][1..] == []; }
    assert Decode(s[1..]) == [0x0A, 0x76];
  }

  /** A canonical string fixes the method among methods on one line, whatever the other fields hold. In
      particular no REST `POST` shares its canonical string with a WebSocket handshake. */
  lemma MethodsNeverMix(up: CaseMap, a: Request, b: Request)
    requires IsCasing(up) && NewlineFree(a.verb) && NewlineFree(b.verb)
    requires Upper(up, a.verb) != Upper(up, b.verb)
    ensures a.Canonical(up) != b.Canonical(up)
  {
    LinesOf(a);
    LinesOf(b);
    UpperNewlines(up, a.verb);
    UpperNewlines(up, b.verb);
    if a.Canonical(up) == b.Canonical(up) {
      a.CanonicalLines(up);
      b.CanonicalLines(up);
      LinesSplit(Upper(up, a.verb), Upper(up, b.verb), a.AfterVerb(), b.AfterVerb());
    }
  }

  /** The handshake as `_build_auth_frame` signs it. */
  function Handshake(exchange: Text, timestamp: Text, nonce: Text, body: Bytes): Request {
    Request(Literal("WS"), Literal("/v1/") + exchange + Literal("/ws"), timestamp, nonce, body)
  }

  /** What a handshake signs, line by line. */
  lemma HandshakeLines(up: CaseMap, exchange: Text, timestamp: Text, nonce: Text, body: Bytes)
    requires IsCasing(up)
    ensures Handshake(exchange, timestamp, nonce, body).Canonical(up)
         == [0x57, 0x53, 0x0A] + ([0x2F, 0x76, 0x31, 0x2F] + exchange + [0x2F, 0x77, 0x73, 0x0A])
            + (timestamp + [0x0A]) + (nonce + [0x0A]) + Decode(body)
  {
    var h := Handshake(exchange, timestamp, nonce, body);
    AsciiUpperCase(up, h.verb);
    assert Upper(up, h.verb) == [0x57, 0x53];
    assert h.path == [0x2F, 0x76, 0x31, 0x2F] + exchange + [0x2F, 0x77, 0x73];
  }

  /** Whatever the fields hold, the exchange included. */
  lemma HandshakeIsNotAPost(up: CaseMap, path: Text, timestamp: Text, nonce: Text, body: Bytes,
                            exchange: Text, timestamp': Text, nonce': Text, body': Bytes)
    requires IsCasing(up)
    ensures Request(Literal("POST"), path, timestamp, nonce, body).Canonical(up)
         != Handshake(exchange, timestamp', nonce', body').Canonical(up)
  {
    var post := Request(Literal("POST"), path, timestamp, nonce, body);
    var ws := Handshake(exchange, timestamp', nonce', body');
    AsciiUpperCase(up, post.verb);
    AsciiUpperCase(up, ws.verb);
    MethodsNeverMix(up, post, ws);
  }
}
