/**
  Base64 as the relay uses it: the standard alphabet with padding for frame bodies, and the
  URL alphabet without padding for published keys (sections 4 and 5 of RFC 4648).
  Decoding follows the lenient reading of Go's encoding/base64: carriage returns and line feeds
  are skipped, left-over low bits of the last character are ignored, and an error leaves the
  bytes decoded so far.
*/
module Base64 {

  type Byte = b: int | 0 <= b < 256
  type Bytes = seq<Byte>
  type Sextet = v: int | 0 <= v < 64

  datatype Variant = Std | RawURL

  datatype Decoded = Decoded(data: Bytes, ok: bool)

  const PAD: char := '='

  function Digit(v: Sextet, variant: Variant): (c: char)
    ensures Value(c, variant) == v
  {
    if v < 26 then 'A' + (v as char)
    else if v < 52 then 'a' + ((v - 26) as char)
    else if v < 62 then '0' + ((v - 52) as char)
    else if v == 62 then (if variant.Std? then '+' else '-')
    else (if variant.Std? then '/' else '_')
  }

  /** The sextet a character stands for, or -1. */
  function Value(c: char, variant: Variant): (v: int)
    ensures -1 <= v < 64
    ensures c in "\r\n=" ==> v == -1
  {
    if 'A' <= c <= 'Z' then c as int - 'A' as int
    else if 'a' <= c <= 'z' then c as int - 'a' as int + 26
    else if '0' <= c <= '9' then c as int - '0' as int + 52
    else if c == (if variant.Std? then '+' else '-') then 62
    else if c == (if variant.Std? then '/' else '_') then 63
    else -1
  }

  predicate IsDigit(c: char, variant: Variant) {
    Value(c, variant) >= 0
  }

  function Padding(n: nat, variant: Variant): string
    requires n <= 2
  {
    if variant.RawURL? then "" else if n == 1 then [PAD] else if n == 2 then [PAD, PAD] else ""
  }

  function Encode(bs: Bytes, variant: Variant): (s: string) {
    if |bs| == 0 then ""
    else if |bs| == 1 then
      [Digit(bs[0] / 4, variant), Digit(bs[0] % 4 * 16, variant)] + Padding(2, variant)
    else if |bs| == 2 then
      [Digit(bs[0] / 4, variant), Digit(bs[0] % 4 * 16 + bs[1] / 16, variant), Digit(bs[1] % 16 * 4, variant)]
      + Padding(1, variant)
    else
      [Digit(bs[0] / 4, variant), Digit(bs[0] % 4 * 16 + bs[1] / 16, variant),
       Digit(bs[1] % 16 * 4 + bs[2] / 64, variant), Digit(bs[2] % 64, variant)]
      + Encode(bs[3..], variant)
  }

  function StripNewlines(s: string): string {
    if s == "" then ""
    else if s[0] == '\r' || s[0] == '\n' then StripNewlines(s[1..])
    else [s[0]] + StripNewlines(s[1..])
  }

  function First(a: Sextet, b: Sextet): Byte { a * 4 + b / 16 }
  function Second(b: Sextet, c: Sextet): Byte { b % 16 * 16 + c / 4 }
  function Third(c: Sextet, d: Sextet): Byte { c % 4 * 64 + d }

  /** The number of leading characters of `s`, at most four, that are digits. */
  function DigitRun(s: string, variant: Variant): (n: nat)
    ensures n <= 4 && n <= |s|
    ensures forall i :: 0 <= i < n ==> IsDigit(s[i], variant)
  {
    if |s| == 0 || !IsDigit(s[0], variant) then 0
    else if |s| == 1 || !IsDigit(s[1], variant) then 1
    else if |s| == 2 || !IsDigit(s[2], variant) then 2
    else if |s| == 3 || !IsDigit(s[3], variant) then 3
    else 4
  }

  function DecodeQuanta(s: string, variant: Variant): Decoded {
    var n := DigitRun(s, variant);
    if s == "" then Decoded([], true)
    else if n == 4 then
      var a, b, c, d := Value(s[0], variant), Value(s[1], variant), Value(s[2], variant), Value(s[3], variant);
      var rest := DecodeQuanta(s[4..], variant);
      Decoded([First(a, b), Second(b, c), Third(c, d)] + rest.data, rest.ok)
    else if n == 3 && (if variant.Std? then |s| >= 4 && s[3] == PAD else |s| == 3) then
      var a, b, c := Value(s[0], variant), Value(s[1], variant), Value(s[2], variant);
      Decoded([First(a, b), Second(b, c)], |s| <= 4)
    else if n == 2 && (if variant.Std? then |s| >= 4 && s[2] == PAD && s[3] == PAD else |s| == 2) then
      var a, b := Value(s[0], variant), Value(s[1], variant);
      Decoded([First(a, b)], |s| <= 4)
    else Decoded([], false)
  }

  function Decode(s: string, variant: Variant): Decoded {
    DecodeQuanta(StripNewlines(s), variant)
  }

  lemma {:induction false} EncodeHasNoNewlines(bs: Bytes, variant: Variant)
    ensures StripNewlines(Encode(bs, variant)) == Encode(bs, variant)
    decreases |bs|
  {
    if |bs| >= 3 {
      EncodeHasNoNewlines(bs[3..], variant);
      var head := Encode(bs, variant)[..4];
      forall i | 0 <= i < 4 ensures IsDigit(head[i], variant) {}
      StripKeepsDigits(head, Encode(bs[3..], variant), variant);
      assert Encode(bs, variant) == head + Encode(bs[3..], variant);
    } else {
      var s := Encode(bs, variant);
      forall i | 0 <= i < |s| ensures IsDigit(s[i], variant) || s[i] == PAD {}
      StripKeepsDigits(s, "", variant);
      assert s + "" == s;
    }
  }

  lemma {:induction false} StripKeepsDigits(head: string, rest: string, variant: Variant)
    requires forall i :: 0 <= i < |head| ==> IsDigit(head[i], variant) || head[i] == PAD
    ensures StripNewlines(head + rest) == head + StripNewlines(rest)
    decreases |head|
  {
    if head == "" {
      assert head + rest == rest;
    } else {
      assert head[0] != '\r' && head[0] != '\n';
      assert (head + rest)[1..] == head[1..] + rest;
      StripKeepsDigits(head[1..], rest, variant);
    }
  }

  /** Splitting three bytes over four sextets loses nothing. */
  lemma SextetsRejoin(x: Byte, y: Byte, z: Byte)
    ensures First(x / 4, x % 4 * 16 + y / 16) == x
    ensures Second(x % 4 * 16 + y / 16, y % 16 * 4 + z / 64) == y
    ensures Third(y % 16 * 4 + z / 64, z % 64) == z
  {
    assert (x % 4 * 16 + y / 16) / 16 == x % 4 && (x % 4 * 16 + y / 16) % 16 == y / 16;
    assert (y % 16 * 4 + z / 64) / 4 == y % 16 && (y % 16 * 4 + z / 64) % 4 == z / 64;
  }

  /** One group of four digits decodes to three bytes followed by the rest. */
  lemma DecodeGroup(a: Sextet, b: Sextet, c: Sextet, d: Sextet, rest: string, variant: Variant)
    ensures
      var s := [Digit(a, variant), Digit(b, variant), Digit(c, variant), Digit(d, variant)] + rest;
      var tail := DecodeQuanta(rest, variant);
      DecodeQuanta(s, variant) == Decoded([First(a, b), Second(b, c), Third(c, d)] + tail.data, tail.ok)
  {
    var s := [Digit(a, variant), Digit(b, variant), Digit(c, variant), Digit(d, variant)] + rest;
    assert s[4..] == rest;
    assert DigitRun(s, variant) == 4;
  }

  lemma DecodeTwoBytes(x: Byte, y: Byte, variant: Variant)
    ensures DecodeQuanta(Encode([x, y], variant), variant) == Decoded([x, y], true)
  {
    SextetsRejoin(x, y, 0);
    assert DigitRun(Encode([x, y], variant), variant) == 3;
  }

  lemma DecodeOneByte(x: Byte, variant: Variant)
    ensures DecodeQuanta(Encode([x], variant), variant) == Decoded([x], true)
  {
    SextetsRejoin(x, 0, 0);
    assert DigitRun(Encode([x], variant), variant) == 2;
  }

  lemma DecodeThreeBytes(x: Byte, y: Byte, z: Byte, rest: Bytes, variant: Variant)
    ensures
      var tail := DecodeQuanta(Encode(rest, variant), variant);
      DecodeQuanta(Encode([x, y, z] + rest, variant), variant) == Decoded([x, y, z] + tail.data, tail.ok)
  {
    SextetsRejoin(x, y, z);
    assert ([x, y, z] + rest)[3..] == rest;
    DecodeGroup(x / 4, x % 4 * 16 + y / 16, y % 16 * 4 + z / 64, z % 64, Encode(rest, variant), variant);
  }

  lemma {:induction false} QuantaRoundTrip(bs: Bytes, variant: Variant)
    ensures DecodeQuanta(Encode(bs, variant), variant) == Decoded(bs, true)
    decreases |bs|
  {
    if |bs| >= 3 {
      QuantaRoundTrip(bs[3..], variant);
      assert bs == [bs[0], bs[1], bs[2]] + bs[3..];
      DecodeThreeBytes(bs[0], bs[1], bs[2], bs[3..], variant);
    } else if |bs| == 2 {
      assert bs == [bs[0], bs[1]];
      DecodeTwoBytes(bs[0], bs[1], variant);
    } else if |bs| == 1 {
      assert bs == [bs[0]];
      DecodeOneByte(bs[0], variant);
    } else {
      assert bs == [];
    }
  }

  /** Decoding gives back exactly the bytes that were encoded. */
  lemma RoundTrip(bs: Bytes, variant: Variant)
    ensures Decode(Encode(bs, variant), variant) == Decoded(bs, true)
  {
    EncodeHasNoNewlines(bs, variant);
    QuantaRoundTrip(bs, variant);
  }

  /** Only the empty sequence is encoded as the empty string. */
  lemma EncodeEmpty(bs: Bytes, variant: Variant)
    ensures Encode(bs, variant) == "" <==> bs == []
  {
  }

  /** The number that base-64 digits stand for, most significant first. */
  function DigitsNumber(s: string, variant: Variant): int {
    if s == "" then 0 else DigitsNumber(s[..|s| - 1], variant) * 64 + Value(s[|s| - 1], variant)
  }

  /** The four digits of three bytes stand for the same 24-bit number as the bytes. */
  lemma GroupNumber(x: Byte, y: Byte, z: Byte, variant: Variant)
    ensures DigitsNumber(Encode([x, y, z], variant), variant) == (x * 256 + y) * 256 + z
    ensures DigitsNumber(Encode([x, y], variant)[..3], variant) == (x * 256 + y) * 4
    ensures DigitsNumber(Encode([x], variant)[..2], variant) == x * 16
  {
    var s := Encode([x, y, z], variant);
    assert [x, y, z][3..] == [] && Encode([], variant) == "";
    assert |s| == 4;
    FourDigits(s[0], s[1], s[2], s[3], variant);
    assert s == [s[0], s[1], s[2], s[3]];
    var t, u := Encode([x, y], variant), Encode([x], variant);
    FourDigits(t[0], t[1], t[2], 'A', variant);
    assert t[..3] == [t[0], t[1], t[2]] && u[..2] == [u[0], u[1]];
    FourDigits(u[0], u[1], 'A', 'A', variant);
  }

  lemma FourDigits(a: char, b: char, c: char, d: char, variant: Variant)
    ensures DigitsNumber([a, b], variant) == Value(a, variant) * 64 + Value(b, variant)
    ensures DigitsNumber([a, b, c], variant) == DigitsNumber([a, b], variant) * 64 + Value(c, variant)
    ensures DigitsNumber([a, b, c, d], variant) == DigitsNumber([a, b, c], variant) * 64 + Value(d, variant)
  {
    assert DigitsNumber([a], variant) == Value(a, variant) && DigitsNumber("", variant) == 0;
    assert [a, b, c, d][..3] == [a, b, c] && [a, b, c][..2] == [a, b] && [a, b][..1] == [a] && [a][..0] == "";
  }

  /** The first and last digit of each range of the two alphabets, in tables 1 and 2 of RFC 4648. */
  lemma Alphabets(variant: Variant)
    ensures Digit(0, variant) == 'A' && Digit(25, variant) == 'Z' && Digit(26, variant) == 'a'
    ensures Digit(51, variant) == 'z' && Digit(52, variant) == '0' && Digit(61, variant) == '9'
    ensures forall v: Sextet :: v != 25 && v != 51 && v < 61 ==>
      Digit(v + 1, variant) as int == Digit(v, variant) as int + 1
    ensures Digit(62, Std) == '+' && Digit(63, Std) == '/' && Digit(62, RawURL) == '-' && Digit(63, RawURL) == '_'
  {
  }
}
