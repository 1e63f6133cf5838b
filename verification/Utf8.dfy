/** UTF-8 as defined by sections 3 and 4 of RFC 3629: the codec behind `String::from_utf8`. */
module Utf8 {
  import opened Wrappers

  type Byte = x: int | 0 <= x < 256

  /** A Unicode scalar value: surrogates have no encoding. */
  type Scalar = x: int | 0 <= x < 0xD800 || 0xE000 <= x < 0x11_0000

  predicate IsTail(b: Byte) {
    0x80 <= b < 0xC0
  }

  /** The six payload bits of a tail byte. */
  function Low(b: Byte): int {
    b as int - 0x80
  }

  function EncodeScalar(c: Scalar): (bytes: seq<Byte>)
    ensures 1 <= |bytes| <= 4 && !IsTail(bytes[0])
    ensures forall i :: 1 <= i < |bytes| ==> IsTail(bytes[i])
    ensures c >= 0x80 ==> forall i :: 0 <= i < |bytes| ==> bytes[i] >= 0x80
  {
    if c < 0x80 then [c]
    else if c < 0x800 then [0xC0 + c / 64, 0x80 + c % 64]
    else if c < 0x1_0000 then [0xE0 + c / 4096, 0x80 + c / 64 % 64, 0x80 + c % 64]
    else [0xF0 + c / 262_144, 0x80 + c / 4096 % 64, 0x80 + c / 64 % 64, 0x80 + c % 64]
  }

  function Encode(text: seq<Scalar>): seq<Byte> {
    if text == [] then [] else EncodeScalar(text[0]) + Encode(text[1..])
  }

  /** The scalar at the front of `bytes` and the number of bytes it takes, if well formed. */
  function DecodeFirst(bytes: seq<Byte>): (first: Option<(Scalar, nat)>)
    requires bytes != []
    ensures first.Some? ==> 1 <= first.value.1 <= |bytes|
  {
    var b := bytes[0];
    if b < 0x80 then Some((b, 1))
    else if 0xC2 <= b < 0xE0 && |bytes| >= 2 && IsTail(bytes[1]) then
      Some(((b as int - 0xC0) * 64 + Low(bytes[1]), 2))
    else if 0xE0 <= b < 0xF0 && |bytes| >= 3 && IsTail(bytes[1]) && IsTail(bytes[2])
      && (b == 0xE0 ==> bytes[1] >= 0xA0) && (b == 0xED ==> bytes[1] < 0xA0) then
      Some(((b as int - 0xE0) * 4096 + Low(bytes[1]) * 64 + Low(bytes[2]), 3))
    else if 0xF0 <= b < 0xF5 && |bytes| >= 4 && IsTail(bytes[1]) && IsTail(bytes[2])
      && IsTail(bytes[3]) && (b == 0xF0 ==> bytes[1] >= 0x90) && (b == 0xF4 ==> bytes[1] < 0x90) then
      Some(((b as int - 0xF0) * 262_144 + Low(bytes[1]) * 4096 + Low(bytes[2]) * 64 + Low(bytes[3]), 4))
    else None
  }

  function Decode(bytes: seq<Byte>): Option<seq<Scalar>> {
    if bytes == [] then Some([])
    else
      match DecodeFirst(bytes)
      case None => None
      case Some((c, n)) =>
        match Decode(bytes[n..])
        case None => None
        case Some(text) => Some([c] + text)
  }

  lemma DecodeFirstOfEncoding(c: Scalar, rest: seq<Byte>)
    ensures DecodeFirst(EncodeScalar(c) + rest) == Some((c, |EncodeScalar(c)|))
  {
    var bytes := EncodeScalar(c);
    var n := |bytes|;
    assert (bytes + rest)[..n] == bytes;
    if n == 3 {
      assert c / 64 == 64 * (c / 4096) + c / 64 % 64;
    } else if n == 4 {
      assert c / 64 == 64 * (c / 4096) + c / 64 % 64;
      assert c / 4096 == 64 * (c / 262_144) + c / 4096 % 64;
    }
  }

  lemma DecodeFirstIsAnEncoding(bytes: seq<Byte>)
    requires bytes != [] && DecodeFirst(bytes).Some?
    ensures var (c, n) := DecodeFirst(bytes).value; bytes[..n] == EncodeScalar(c)
  {
    var (c, n) := DecodeFirst(bytes).value;
    if n == 3 {
      ThreeByteEncoding(c, bytes[0] as int - 0xE0, Low(bytes[1]), Low(bytes[2]));
      assert bytes[..3] == [bytes[0], bytes[1], bytes[2]];
    } else if n == 4 {
      FourByteEncoding(c, bytes[0] as int - 0xF0, Low(bytes[1]), Low(bytes[2]), Low(bytes[3]));
      assert bytes[..4] == [bytes[0], bytes[1], bytes[2], bytes[3]];
    }
  }

  lemma ThreeByteEncoding(c: Scalar, a: int, b: int, d: int)
    requires 0 <= a < 16 && 0 <= b < 64 && 0 <= d < 64 && c == a * 4096 + b * 64 + d >= 0x800
    ensures EncodeScalar(c) == [0xE0 + a, 0x80 + b, 0x80 + d]
  {
    ThreeDigits(a, b, d);
  }

  lemma FourByteEncoding(c: Scalar, a: int, b: int, d: int, e: int)
    requires 0 <= a < 5 && 0 <= b < 64 && 0 <= d < 64 && 0 <= e < 64
    requires c == a * 262_144 + b * 4096 + d * 64 + e >= 0x1_0000
    ensures EncodeScalar(c) == [0xF0 + a, 0x80 + b, 0x80 + d, 0x80 + e]
  {
    FourDigits(a, b, d, e);
  }

  lemma ThreeDigits(a: int, b: int, d: int)
    requires 0 <= b < 64 && 0 <= d < 64
    ensures var c := a * 4096 + b * 64 + d;
      c / 4096 == a && c / 64 % 64 == b && c % 64 == d
  {
    var c := a * 4096 + b * 64 + d;
    assert c / 64 == a * 64 + b;
  }

  lemma FourDigits(a: int, b: int, d: int, e: int)
    requires 0 <= b < 64 && 0 <= d < 64 && 0 <= e < 64
    ensures var c := a * 262_144 + b * 4096 + d * 64 + e;
      c / 262_144 == a && c / 4096 % 64 == b && c / 64 % 64 == d && c % 64 == e
  {
    var c := a * 262_144 + b * 4096 + d * 64 + e;
    assert c / 64 == a * 4096 + b * 64 + d;
    ThreeDigits(a, b, d);
    assert c / 4096 == a * 64 + b;
  }

  lemma DecodeStep(front: seq<Byte>, c: Scalar, rest: seq<Byte>)
    requires front != [] && DecodeFirst(front + rest) == Some((c, |front|))
    ensures Decode(front + rest) == if Decode(rest).Some? then Some([c] + Decode(rest).value) else None
  {
    assert (front + rest)[|front|..] == rest;
  }

  /** Round trip one way: every text is decoded from its encoding. */
  lemma {:induction false} DecodeEncode(text: seq<Scalar>)
    ensures Decode(Encode(text)) == Some(text)
  {
    if text != [] {
      DecodeFirstOfEncoding(text[0], Encode(text[1..]));
      DecodeStep(EncodeScalar(text[0]), text[0], Encode(text[1..]));
      DecodeEncode(text[1..]);
      assert text == [text[0]] + text[1..];
    }
  }

  /** Round trip the other way: decodable bytes are the encoding of what they decode to. */
  lemma {:induction false} EncodeDecode(bytes: seq<Byte>)
    requires Decode(bytes).Some?
    ensures Encode(Decode(bytes).value) == bytes
  {
    if bytes != [] {
      var (c, n) := DecodeFirst(bytes).value;
      var front, rest := bytes[..n], bytes[n..];
      assert front == EncodeScalar(c) by {
        DecodeFirstIsAnEncoding(bytes);
      }
      assert bytes == front + rest;
      DecodeStep(front, c, rest);
      EncodeDecode(rest);
      assert ([c] + Decode(rest).value)[1..] == Decode(rest).value;
    }
  }

  lemma {:induction false} EncodeAppend(text: seq<Scalar>, c: Scalar)
    ensures Encode(text + [c]) == Encode(text) + EncodeScalar(c)
  {
    if text == [] {
      assert text + [c] == [c];
      assert [c][1..] == [];
    } else {
      EncodeAppend(text[1..], c);
      assert (text + [c])[1..] == text[1..] + [c];
    }
  }
}
