/**
 UTF-8 as section 3 of RFC 3629 defines it: shortest form only, no surrogates, nothing above
 U+10FFFF. `Decode` is Python's strict `bytes.decode("utf-8")`, `Encode` is `str.encode("utf-8")`.
 */
module Utf8 {
  import opened Basics

  function EncodeChar(c: char): (b: Bytes)
    ensures 1 <= |b| <= 4
  {
    var n := c as int;
    if n < 0x80 then [n]
    else if n < 0x800 then [0xC0 + n / 0x40, Tail(n)]
    else if n < 0x1_0000 then [0xE0 + n / 0x40 / 0x40, Tail(n / 0x40), Tail(n)]
    else [0xF0 + n / 0x40 / 0x40 / 0x40, Tail(n / 0x40 / 0x40), Tail(n / 0x40), Tail(n)]
  }

  function Tail(n: nat): Byte {
    0x80 + n % 0x40
  }

  function Encode(s: string): Bytes {
    if s == "" then [] else EncodeChar(s[0]) + Encode(s[1..])
  }

  predicate IsTail(b: Byte) {
    0x80 <= b < 0xC0
  }

  /** Is `n` a Unicode scalar value that needs more than the code points below `least`? */
  predicate ScalarFrom(n: int, least: int) {
    least <= n && (0 <= n < 0xD800 || 0xE000 <= n < 0x11_0000)
  }

  function Scalar(n: int, least: int): (r: Option<char>)
    ensures r.Some? ==> r.value as int == n && least <= n
  {
    if ScalarFrom(n, least) then Some(n as char) else None
  }

  /** Append six payload bits to the bits read so far. */
  function Shift(bits: nat, b: Byte): (n: nat)
    requires IsTail(b)
    ensures n / 0x40 == bits && Tail(n) == b
  {
    0x40 * bits + (b as int - 0x80)
  }

  function DecodeTwo(b0: Byte, b1: Byte): (r: Option<char>)
    ensures r.Some? ==> EncodeChar(r.value) == [b0, b1]
  {
    if 0xC0 <= b0 < 0xE0 && IsTail(b1) then Scalar(Shift(b0 as int - 0xC0, b1), 0x80) else None
  }

  function DecodeThree(b0: Byte, b1: Byte, b2: Byte): (r: Option<char>)
    ensures r.Some? ==> EncodeChar(r.value) == [b0, b1, b2]
  {
    if 0xE0 <= b0 < 0xF0 && IsTail(b1) && IsTail(b2) then
      Scalar(Shift(Shift(b0 as int - 0xE0, b1), b2), 0x800)
    else None
  }

  function DecodeFour(b0: Byte, b1: Byte, b2: Byte, b3: Byte): (r: Option<char>)
    ensures r.Some? ==> EncodeChar(r.value) == [b0, b1, b2, b3]
  {
    if 0xF0 <= b0 < 0xF8 && IsTail(b1) && IsTail(b2) && IsTail(b3) then
      Scalar(Shift(Shift(Shift(b0 as int - 0xF0, b1), b2), b3), 0x1_0000)
    else None
  }

  /** The first character of `b`; the leading byte decides how many bytes it occupies. */
  function DecodeChar(b: Bytes): (r: Option<(char, nat)>)
    ensures r.Some? ==> 1 <= r.value.1 <= |b| && b[..r.value.1] == EncodeChar(r.value.0)
  {
    if b == [] then None
    else if b[0] < 0x80 then Some((b[0] as char, 1))
    else if b[0] < 0xE0 then WithLength(if |b| < 2 then None else DecodeTwo(b[0], b[1]), 2)
    else if b[0] < 0xF0 then WithLength(if |b| < 3 then None else DecodeThree(b[0], b[1], b[2]), 3)
    else WithLength(if |b| < 4 then None else DecodeFour(b[0], b[1], b[2], b[3]), 4)
  }

  function WithLength(r: Option<char>, length: nat): Option<(char, nat)> {
    match r
    case None => None
    case Some(c) => Some((c, length))
  }

  function Decode(b: Bytes): Option<string>
    decreases |b|
  {
    if b == [] then Some("")
    else match DecodeChar(b)
      case None => None
      case Some((c, length)) =>
        match Decode(b[length..])
        case None => None
        case Some(rest) => Some([c] + rest)
  }

  lemma DecodeCharOfEncoded(c: char, rest: Bytes)
    ensures DecodeChar(EncodeChar(c) + rest) == Some((c, |EncodeChar(c)|))
  {
    var n := c as int;
    assert Shift(n / 0x40, Tail(n)) == n;
    assert Shift(n / 0x40 / 0x40, Tail(n / 0x40)) == n / 0x40;
    assert Shift(n / 0x40 / 0x40 / 0x40, Tail(n / 0x40 / 0x40)) == n / 0x40 / 0x40;
  }

  lemma {:induction false} DecodeOfEncode(s: string)
    ensures Decode(Encode(s)) == Some(s)
  {
    if s != "" {
      var head, rest := EncodeChar(s[0]), Encode(s[1..]);
      DecodeCharOfEncoded(s[0], rest);
      assert (head + rest)[|head|..] == rest;
      DecodeOfEncode(s[1..]);
      assert s == [s[0]] + s[1..];
    }
  }

  lemma EncodeCons(c: char, s: string)
    ensures Encode([c] + s) == EncodeChar(c) + Encode(s)
  {
    assert ([c] + s)[1..] == s;
  }

  lemma {:induction false} EncodeOfDecode(b: Bytes)
    requires Decode(b).Some?
    ensures Encode(Decode(b).value) == b
    decreases |b|
  {
    if b != [] {
      var first := DecodeChar(b);
      DecodeStep(b, first);
      var (c, length) := first.value;
      EncodeOfDecode(b[length..]);
      EncodeCons(c, Decode(b[length..]).value);
    }
  }

  lemma DecodeStep(b: Bytes, first: Option<(char, nat)>)
    requires b != [] && first == DecodeChar(b) && Decode(b).Some?
    ensures first.Some? && Decode(b[first.value.1..]).Some?
    ensures Decode(b).value == [first.value.0] + Decode(b[first.value.1..]).value
    ensures b == EncodeChar(first.value.0) + b[first.value.1..]
  {
    var length := first.value.1;
    assert b == b[..length] + b[length..];
  }

  /** Strict decoding is exactly the inverse of encoding: re-encoding never changes a byte. */
  lemma DecodeInvertsEncode(b: Bytes, s: string)
    ensures Decode(b) == Some(s) <==> Encode(s) == b
  {
    DecodeOfEncode(s);
    if Decode(b) == Some(s) {
      EncodeOfDecode(b);
    }
  }

  lemma EncodeInjective(s: string, t: string)
    requires Encode(s) == Encode(t)
    ensures s == t
  {
    DecodeOfEncode(s);
    DecodeOfEncode(t);
  }

  lemma {:induction false} EncodeConcat(s: string, t: string)
    ensures Encode(s + t) == Encode(s) + Encode(t)
  {
    if s == "" {
      assert s + t == t;
    } else {
      assert (s + t)[1..] == s[1..] + t;
      EncodeConcat(s[1..], t);
    }
  }

  /** The bits an octet carries after a leading octet, or after its `mark`. */
  function Bits(b: Byte, mark: nat): int {
    b as int - mark
  }

  /** The table of section 3 of RFC 3629: how many octets, what the first one is, and which bits they carry. */
  lemma EncodeCharMeans(c: char)
    ensures var n, b := c as int, EncodeChar(c);
            && (n <= 0x7F <==> |b| == 1) && (0x80 <= n <= 0x7FF <==> |b| == 2) && (0x800 <= n <= 0xFFFF <==> |b| == 3)
            && (forall i :: 0 < i < |b| ==> 0x80 <= b[i] < 0xC0)
            && (|b| == 1 ==> b[0] == n)
            && (|b| == 2 ==> 0xC0 <= b[0] < 0xE0 && n == Bits(b[0], 0xC0) * 0x40 + Bits(b[1], 0x80))
            && (|b| == 3 ==>
              && 0xE0 <= b[0] < 0xF0
              && n == (Bits(b[0], 0xE0) * 0x40 + Bits(b[1], 0x80)) * 0x40 + Bits(b[2], 0x80))
            && (|b| == 4 ==>
              && 0xF0 <= b[0] < 0xF8
              && n == ((Bits(b[0], 0xF0) * 0x40 + Bits(b[1], 0x80)) * 0x40 + Bits(b[2], 0x80)) * 0x40
                      + Bits(b[3], 0x80))
  {
  }
}
