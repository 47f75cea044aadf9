/** Unsubscribe tokens: a payload "alertID:recipient" and its MAC, both in
    unpadded base64url (section 5 of RFC 4648), joined by a dot. Strings are
    byte strings. The MAC is a parameter: nothing is assumed of it. */
module UnsubscribeToken {
  import opened Prelude

  type Byte = x: int | 0 <= x < 256
  type Bytes = seq<Byte>
  type Mac = (Bytes, Bytes) -> Bytes

  const DOT: Byte := 46
  const COLON: Byte := 58
  const DASH: Byte := 45
  const CR: Byte := 13
  const LF: Byte := 10

  // --------------------------------------------------------------- base64url

  type Sextet = x: int | 0 <= x < 64

  function Digit(v: Sextet): Byte {
    if v < 26 then 65 + v                 // A-Z
    else if v < 52 then 97 + (v - 26)     // a-z
    else if v < 62 then 48 + (v - 52)     // 0-9
    else if v == 62 then 45               // -
    else 95                               // _
  }

  function DigitValue(c: Byte): Option<Sextet> {
    if 65 <= c <= 90 then Some(c - 65)
    else if 97 <= c <= 122 then Some(c - 97 + 26)
    else if 48 <= c <= 57 then Some(c - 48 + 52)
    else if c == 45 then Some(62)
    else if c == 95 then Some(63)
    else None
  }

  lemma DigitRoundTrip(v: Sextet)
    ensures DigitValue(Digit(v)) == Some(v)
    ensures Digit(v) != DOT && Digit(v) != CR && Digit(v) != LF
  {
  }

  function Encode(bs: Bytes): Bytes {
    if bs == [] then []
    else if |bs| == 1 then [Digit(bs[0] / 4), Digit(bs[0] % 4 * 16)]
    else if |bs| == 2 then [Digit(bs[0] / 4), Digit(bs[0] % 4 * 16 + bs[1] / 16), Digit(bs[1] % 16 * 4)]
    else
      [Digit(bs[0] / 4), Digit(bs[0] % 4 * 16 + bs[1] / 16), Digit(bs[1] % 16 * 4 + bs[2] / 64), Digit(bs[2] % 64)]
      + Encode(bs[3..])
  }

  /** The decoder skips line breaks wherever they occur. */
  function SkipBreaks(cs: Bytes): Bytes {
    if cs == [] then []
    else if cs[0] == CR || cs[0] == LF then SkipBreaks(cs[1..])
    else [cs[0]] + SkipBreaks(cs[1..])
  }

  /** Left-over bits of a final short group are ignored; a single left-over
      digit and any other character are errors. */
  function DecodeDigits(cs: Bytes): Option<Bytes> {
    if cs == [] then Some([])
    else if |cs| == 1 then None
    else
      var a, b := DigitValue(cs[0]), DigitValue(cs[1]);
      if a.None? || b.None? then None
      else
        var first := a.value * 4 + b.value / 16;
        if |cs| == 2 then Some([first])
        else
          var c := DigitValue(cs[2]);
          if c.None? then None
          else
            var second := b.value % 16 * 16 + c.value / 4;
            if |cs| == 3 then Some([first, second])
            else
              var d := DigitValue(cs[3]);
              var rest := DecodeDigits(cs[4..]);
              if d.None? || rest.None? then None
              else Some([first, second, c.value % 4 * 64 + d.value] + rest.value)
  }

  function Decode(cs: Bytes): Option<Bytes> {
    DecodeDigits(SkipBreaks(cs))
  }

  predicate IsPlain(c: Byte) {
    c != DOT && c != CR && c != LF
  }

  lemma {:induction false} EncodeIsPlain(bs: Bytes)
    ensures forall i :: 0 <= i < |Encode(bs)| ==> IsPlain(Encode(bs)[i])
  {
    if |bs| >= 3 {
      EncodeIsPlain(bs[3..]);
    }
  }

  lemma {:induction false} NothingSkipped(cs: Bytes)
    requires forall i :: 0 <= i < |cs| ==> IsPlain(cs[i])
    ensures SkipBreaks(cs) == cs
  {
    if cs != [] {
      assert IsPlain(cs[0]);
      NothingSkipped(cs[1..]);
    }
  }

  /** Splitting bytes into groups of six bits and putting them together again. */
  lemma FirstByte(x: Byte, y: int)
    requires 0 <= y < 16
    ensures x / 4 * 4 + (x % 4 * 16 + y) / 16 == x
    ensures (x % 4 * 16 + y) % 16 == y
  {
  }

  lemma SecondByte(x: Byte, y: int)
    requires 0 <= y < 4
    ensures x / 16 * 16 + (x % 16 * 4 + y) / 4 == x
    ensures (x % 16 * 4 + y) % 4 == y
  {
  }

  lemma DecodeOne(a: Byte)
    ensures DecodeDigits(Encode([a])) == Some([a])
  {
    var v0, v1 := a / 4, a % 4 * 16;
    assert Encode([a]) == [Digit(v0), Digit(v1)];
    assert v0 * 4 + v1 / 16 == a;
    DigitRoundTrip(v0);
    DigitRoundTrip(v1);
  }

  lemma DecodeTwo(a: Byte, b: Byte)
    ensures DecodeDigits(Encode([a, b])) == Some([a, b])
  {
    var v0, v1, v2 := a / 4, a % 4 * 16 + b / 16, b % 16 * 4;
    assert Encode([a, b]) == [Digit(v0), Digit(v1), Digit(v2)];
    assert v0 * 4 + v1 / 16 == a by { FirstByte(a, b / 16); }
    assert v1 % 16 * 16 + v2 / 4 == b by { FirstByte(a, b / 16); SecondByte(b, 0); }
    DigitRoundTrip(v0);
    DigitRoundTrip(v1);
    DigitRoundTrip(v2);
  }

  lemma DecodeThree(a: Byte, b: Byte, c: Byte, rest: Bytes)
    requires DecodeDigits(Encode(rest)) == Some(rest)
    ensures DecodeDigits(Encode([a, b, c] + rest)) == Some([a, b, c] + rest)
  {
    FirstByte(a, b / 16);
    SecondByte(b, c / 64);
    DigitRoundTrip(a / 4);
    DigitRoundTrip(a % 4 * 16 + b / 16);
    DigitRoundTrip(b % 16 * 4 + c / 64);
    DigitRoundTrip(c % 64);
    assert ([a, b, c] + rest)[3..] == rest;
    assert Encode([a, b, c] + rest)[4..] == Encode(rest);
  }

  lemma {:induction false} DecodeEncode(bs: Bytes)
    ensures DecodeDigits(Encode(bs)) == Some(bs)
  {
    if |bs| == 1 {
      assert bs == [bs[0]];
      DecodeOne(bs[0]);
    } else if |bs| == 2 {
      assert bs == [bs[0], bs[1]];
      DecodeTwo(bs[0], bs[1]);
    } else if |bs| >= 3 {
      DecodeEncode(bs[3..]);
      assert bs == [bs[0], bs[1], bs[2]] + bs[3..];
      DecodeThree(bs[0], bs[1], bs[2], bs[3..]);
    }
  }

  /** Decoding inverts encoding on every byte string. */
  lemma Base64RoundTrip(bs: Bytes)
    ensures Decode(Encode(bs)) == Some(bs)
  {
    EncodeIsPlain(bs);
    NothingSkipped(Encode(bs));
    DecodeEncode(bs);
  }

  /** Table 2 of RFC 4648: the capitals, the small letters and the figures in their
      order, then minus and underscore. */
  lemma Alphabet(v: Sextet)
    ensures Digit(0) == 'A' as int && Digit(25) == 'Z' as int && Digit(26) == 'a' as int && Digit(51) == 'z' as int
    ensures Digit(52) == '0' as int && Digit(61) == '9' as int && Digit(62) == '-' as int && Digit(63) == '_' as int
    ensures v < 61 && v != 25 && v != 51 ==> Digit(v + 1) == Digit(v) + 1
  {
  }

  /** And no other character is a digit. */
  lemma AlphabetInverse(v: Sextet, c: Byte)
    ensures DigitValue(c) == Some(v) <==> c == Digit(v)
  {
    DigitRoundTrip(v);
  }

  /** Some of the test vectors of section 10 of RFC 4648, without padding, and the
      two digits in which base64url differs from base64. */
  lemma Vectors()
    ensures Encode([102]) == [90, 103]                                             // "f", "Zg"
    ensures Encode([102, 111]) == [90, 109, 56]                                    // "fo", "Zm8"
    ensures Encode([102, 111, 111]) == [90, 109, 57, 118]                          // "foo", "Zm9v"
    ensures Encode([251, 255]) == [45, 95, 56]                                     // "-_8"
  {
    var foo := [102, 111, 111];
    assert foo[3..] == [] && Encode(foo[3..]) == [];
    assert Encode(foo) == [Digit(25), Digit(38), Digit(61), Digit(47)];
  }

  /** A character outside the alphabet, or a lone last digit, is refused. */
  lemma {:induction false} DecodeRefuses(cs: Bytes)
    requires |cs| % 4 == 1 || exists i :: 0 <= i < |cs| && DigitValue(cs[i]).None?
    ensures DecodeDigits(cs) == None
  {
    if |cs| >= 4 && forall i :: 0 <= i < 4 ==> DigitValue(cs[i]).Some? {
      if i :| 0 <= i < |cs| && DigitValue(cs[i]).None? {
        assert cs[4..][i - 4] == cs[i];
      }
      DecodeRefuses(cs[4..]);
    }
  }

  /** Line breaks make no difference, wherever they are. */
  lemma {:induction false} BreaksSkipped(a: Bytes, c: Byte, b: Bytes)
    requires c == 13 || c == 10
    ensures SkipBreaks(a + [c] + b) == SkipBreaks(a + b)
    ensures Decode(a + [c] + b) == Decode(a + b)
  {
    if a == [] {
      assert ([] + [c] + b)[1..] == b && [] + b == b;
    } else {
      assert (a + [c] + b)[1..] == a[1..] + [c] + b;
      assert (a + b)[1..] == a[1..] + b;
      BreaksSkipped(a[1..], c, b);
    }
  }

  // -------------------------------------------------------------------- uuid

  type Uuid = u: Bytes | |u| == 16 witness [0, 0, 0, 0, 0, 0, 0, 0, 0, 0, 0, 0, 0, 0, 0, 0]

  type Nibble = x: int | 0 <= x < 16

  function HexDigit(v: Nibble): Byte {
    if v < 10 then 48 + v else 97 + (v - 10)
  }

  function HexValue(c: Byte): Option<Nibble> {
    if 48 <= c <= 57 then Some(c - 48)
    else if 97 <= c <= 102 then Some(c - 97 + 10)
    else if 65 <= c <= 70 then Some(c - 65 + 10)
    else None
  }

  function Hex(bs: Bytes): (cs: Bytes)
    ensures |cs| == 2 * |bs|
    ensures COLON !in cs
  {
    if bs == [] then [] else [HexDigit(bs[0] / 16), HexDigit(bs[0] % 16)] + Hex(bs[1..])
  }

  function Unhex(cs: Bytes): Option<Bytes> {
    if cs == [] then Some([])
    else if |cs| == 1 then None
    else
      var a, b, rest := HexValue(cs[0]), HexValue(cs[1]), Unhex(cs[2..]);
      if a.None? || b.None? || rest.None? then None else Some([a.value * 16 + b.value] + rest.value)
  }

  lemma {:induction false} UnhexHex(bs: Bytes)
    ensures Unhex(Hex(bs)) == Some(bs)
  {
    if bs != [] {
      UnhexHex(bs[1..]);
      assert Hex(bs)[2..] == Hex(bs[1..]);
      assert bs == [bs[0]] + bs[1..];
    }
  }

  function PrintUuid(u: Uuid): Bytes {
    Dashed(Hex(u[..4]), Hex(u[4..6]), Hex(u[6..8]), Hex(u[8..10]), Hex(u[10..]))
  }

  /** The dashed form of 36 characters. */
  function ParseDashed(s: Bytes): Option<Uuid>
    requires |s| == 36
  {
    if s[8] != DASH || s[13] != DASH || s[18] != DASH || s[23] != DASH then None
    else Sixteen(Unhex(s[..8] + s[9..13] + s[14..18] + s[19..23] + s[24..]))
  }

  function Sixteen(bs: Option<Bytes>): Option<Uuid> {
    if bs.Some? && |bs.value| == 16 then Some(bs.value) else None
  }

  /** Besides the dashed form the parser takes it with one character on either
      side, and 32 bare hex digits. The form with a urn: prefix contains a
      colon, so it cannot occur before the first colon of a payload. */
  function ParseUuid(s: Bytes): Option<Uuid> {
    if |s| == 36 then ParseDashed(s)
    else if |s| == 38 then ParseDashed(s[1..37])
    else if |s| == 32 then Sixteen(Unhex(s))
    else None
  }

  lemma {:induction false} HexConcat(a: Bytes, b: Bytes)
    ensures Hex(a + b) == Hex(a) + Hex(b)
  {
    if a == [] {
      assert a + b == b;
    } else {
      assert (a + b)[1..] == a[1..] + b;
      HexConcat(a[1..], b);
    }
  }

  function Dashed(a: Bytes, b: Bytes, c: Bytes, d: Bytes, e: Bytes): Bytes {
    a + [DASH] + b + [DASH] + c + [DASH] + d + [DASH] + e
  }

  lemma DashedPieces(a: Bytes, b: Bytes, c: Bytes, d: Bytes, e: Bytes)
    requires |a| == 8 && |b| == |c| == |d| == 4 && |e| == 12
    ensures var s := Dashed(a, b, c, d, e);
            && |s| == 36 && s[8] == DASH && s[13] == DASH && s[18] == DASH && s[23] == DASH
            && s[..8] == a && s[9..13] == b && s[14..18] == c && s[19..23] == d && s[24..] == e
  {
  }

  lemma HexPieces(u: Uuid)
    ensures Hex(u[..4]) + Hex(u[4..6]) + Hex(u[6..8]) + Hex(u[8..10]) + Hex(u[10..]) == Hex(u)
  {
    HexConcat(u[..4], u[4..6]);
    HexConcat(u[..6], u[6..8]);
    HexConcat(u[..8], u[8..10]);
    HexConcat(u[..10], u[10..]);
    assert u[..4] + u[4..6] == u[..6] && u[..6] + u[6..8] == u[..8] && u[..8] + u[8..10] == u[..10];
    assert u[..10] + u[10..] == u;
  }

  lemma UuidRoundTrip(u: Uuid)
    ensures ParseUuid(PrintUuid(u)) == Some(u)
    ensures COLON !in PrintUuid(u)
  {
    DashedPieces(Hex(u[..4]), Hex(u[4..6]), Hex(u[6..8]), Hex(u[8..10]), Hex(u[10..]));
    HexPieces(u);
    UnhexHex(u);
  }

  /** Between any two characters, or without dashes, it is the same id. */
  lemma OtherForms(u: Uuid, x: Byte, y: Byte)
    ensures ParseUuid([x] + PrintUuid(u) + [y]) == Some(u)
    ensures ParseUuid(Hex(u)) == Some(u)
  {
    UuidRoundTrip(u);
    DashedPieces(Hex(u[..4]), Hex(u[4..6]), Hex(u[6..8]), Hex(u[8..10]), Hex(u[10..]));
    assert ([x] + PrintUuid(u) + [y])[1..37] == PrintUuid(u);
    UnhexHex(u);
  }

  /** Hex digits in the usual notation; the parser takes capitals as well. */
  lemma HexDigits(v: Nibble)
    ensures HexDigit(v) == "0123456789abcdef"[v] as int
    ensures HexValue("0123456789ABCDEF"[v] as int) == Some(v)
  {
  }

  // ------------------------------------------------------------------ tokens

  function Payload(id: Uuid, recipient: Bytes): Bytes {
    PrintUuid(id) + [COLON] + recipient
  }

  function Generate(mac: Mac, secret: Bytes, id: Uuid, recipient: Bytes): Bytes {
    Encode(Payload(id, recipient)) + [DOT] + Encode(mac(secret, Payload(id, recipient)))
  }

  function Verify(mac: Mac, secret: Bytes, token: Bytes): Option<(Uuid, Bytes)> {
    var dot := IndexOf(token, DOT);
    if dot < 0 then None
    else
      var payload, sig := Decode(token[..dot]), Decode(token[dot + 1..]);
      if payload.None? || sig.None? || sig.value != mac(secret, payload.value) then None
      else
        var colon := IndexOf(payload.value, COLON);
        if colon < 0 then None
        else
          var id := ParseUuid(payload.value[..colon]);
          if id.None? then None else Some((id.value, payload.value[colon + 1..]))
  }

  lemma PayloadParses(id: Uuid, recipient: Bytes)
    ensures var p := Payload(id, recipient);
            var colon := IndexOf(p, COLON);
            colon >= 0 && ParseUuid(p[..colon]) == Some(id) && p[colon + 1..] == recipient
  {
    var p := Payload(id, recipient);
    UuidRoundTrip(id);
    IndexOfFirst(PrintUuid(id), COLON, recipient);
    assert p[..|PrintUuid(id)|] == PrintUuid(id);
  }

  lemma TokenParts(mac: Mac, secret: Bytes, id: Uuid, recipient: Bytes)
    ensures var t, p := Generate(mac, secret, id, recipient), Payload(id, recipient);
            var dot := IndexOf(t, DOT);
            dot >= 0 && Decode(t[..dot]) == Some(p) && Decode(t[dot + 1..]) == Some(mac(secret, p))
  {
    var p := Payload(id, recipient);
    var body, sig := Encode(p), Encode(mac(secret, p));
    EncodeIsPlain(p);
    IndexOfFirst(body, DOT, sig);
    assert (body + [DOT] + sig)[..|body|] == body && (body + [DOT] + sig)[|body| + 1..] == sig;
    Base64RoundTrip(p);
    Base64RoundTrip(mac(secret, p));
  }

  /** A token verified under the secret it was made with gives back exactly the
      alert id and the recipient, for every recipient string, whether or not it
      contains colons or dots; under another secret it is accepted, with the
      same answer, if and only if both secrets give the payload the same MAC. */
  lemma TokenRoundTrip(mac: Mac, secret: Bytes, other: Bytes, id: Uuid, recipient: Bytes)
    ensures Verify(mac, secret, Generate(mac, secret, id, recipient)) == Some((id, recipient))
    ensures Verify(mac, other, Generate(mac, secret, id, recipient)) ==
            if mac(other, Payload(id, recipient)) == mac(secret, Payload(id, recipient))
            then Some((id, recipient)) else None
  {
    TokenParts(mac, secret, id, recipient);
    PayloadParses(id, recipient);
  }

  /** Different alerts or recipients never share a token. */
  lemma TokensDiffer(mac: Mac, secret: Bytes, id1: Uuid, r1: Bytes, id2: Uuid, r2: Bytes)
    requires Generate(mac, secret, id1, r1) == Generate(mac, secret, id2, r2)
    ensures id1 == id2 && r1 == r2
  {
    TokenRoundTrip(mac, secret, secret, id1, r1);
    TokenRoundTrip(mac, secret, secret, id2, r2);
  }

  /** The token is body, a dot and sig; sig is the MAC of the payload that body
      encodes; and the payload is an id, a colon and a recipient, the answer. */
  ghost predicate Carries(mac: Mac, secret: Bytes, token: Bytes, body: Bytes, sig: Bytes, name: Bytes,
                          answer: (Uuid, Bytes)) {
    && token == body + [DOT] + sig && DOT !in body
    && Decode(body) == Some(name + [COLON] + answer.1) && COLON !in name && ParseUuid(name) == Some(answer.0)
    && Decode(sig) == Some(mac(secret, name + [COLON] + answer.1))
  }

  /** A token is accepted, with a given answer, if and only if it carries a correct
      MAC of the very payload that the answer is read from. */
  lemma AcceptedIffAuthentic(mac: Mac, secret: Bytes, token: Bytes, answer: (Uuid, Bytes))
    ensures Verify(mac, secret, token) == Some(answer) <==>
              exists body, sig, name :: Carries(mac, secret, token, body, sig, name, answer)
  {
    if Verify(mac, secret, token) == Some(answer) {
      AcceptedCarries(mac, secret, token, answer);
    }
    if body, sig, name :| Carries(mac, secret, token, body, sig, name, answer) {
      CarriedAccepted(mac, secret, token, body, sig, name, answer);
    }
  }

  lemma AcceptedCarries(mac: Mac, secret: Bytes, token: Bytes, answer: (Uuid, Bytes))
    requires Verify(mac, secret, token) == Some(answer)
    ensures exists body, sig, name :: Carries(mac, secret, token, body, sig, name, answer)
  {
    var dot := IndexOf(token, DOT);
    var body, sig := token[..dot], token[dot + 1..];
    var payload := Decode(body).value;
    var colon := IndexOf(payload, COLON);
    var name, recipient := payload[..colon], payload[colon + 1..];
    assert token == body + [DOT] + sig;
    assert payload == name + [COLON] + recipient;
    assert Carries(mac, secret, token, body, sig, name, answer);
  }

  lemma CarriedAccepted(mac: Mac, secret: Bytes, token: Bytes, body: Bytes, sig: Bytes, name: Bytes,
                        answer: (Uuid, Bytes))
    requires Carries(mac, secret, token, body, sig, name, answer)
    ensures Verify(mac, secret, token) == Some(answer)
  {
    IndexOfFirst(body, DOT, sig);
    assert token[..|body|] == body && token[|body| + 1..] == sig;
    var payload := name + [COLON] + answer.1;
    IndexOfFirst(name, COLON, answer.1);
    assert payload[..|name|] == name && payload[|name| + 1..] == answer.1;
  }
}
