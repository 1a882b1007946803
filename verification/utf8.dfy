// UTF-8, as the WHATWG Encoding Standard defines it: the encoder of
// section 9.1 and the decoder of section 9.1 (with its error handling: one
// U+FFFD per maximal ill-formed subsequence). Strings here are sequences of
// Unicode scalar values, so there are no lone surrogates to encode.

module Utf8 {

  type Byte = b: int | 0 <= b < 0x100

  const Replacement: char := '\U{FFFD}'

  predicate IsAscii(c: char) {
    c as int < 0x80
  }

  predicate IsContinuation(b: Byte) {
    0x80 <= b <= 0xBF
  }

  /** The one to four bytes of a scalar value. */
  function EncodeChar(c: char): (r: seq<Byte>)
    ensures 1 <= |r| <= 4
    ensures |r| == 1 <==> IsAscii(c)
    ensures IsAscii(c) ==> r == [c as int]
    ensures !IsAscii(c) ==> r[0] >= 0xC2
    ensures forall i | 1 <= i < |r| :: IsContinuation(r[i])
  {
    var cp := c as int;
    if cp < 0x80 then [cp]
    else if cp < 0x800 then [0xC0 + cp / 0x40, 0x80 + cp % 0x40]
    else if cp < 0x1_0000 then
      [0xE0 + cp / 0x40 / 0x40, 0x80 + cp / 0x40 % 0x40, 0x80 + cp % 0x40]
    else
      [0xF0 + cp / 0x40 / 0x40 / 0x40, 0x80 + cp / 0x40 / 0x40 % 0x40,
       0x80 + cp / 0x40 % 0x40, 0x80 + cp % 0x40]
  }

  /** UTF-8 encode. */
  function Encode(s: string): (r: seq<Byte>)
    ensures |r| >= |s|
    ensures (forall i | 0 <= i < |s| :: IsAscii(s[i])) ==> |r| == |s|
  {
    if s == [] then [] else EncodeChar(s[0]) + Encode(s[1..])
  }

  lemma {:induction false} EncodeConcat(a: string, b: string)
    ensures Encode(a + b) == Encode(a) + Encode(b)
  {
    if a == [] {
      assert a + b == b;
    } else {
      assert (a + b)[0] == a[0];
      assert (a + b)[1..] == a[1..] + b;
      EncodeConcat(a[1..], b);
    }
  }

  /** An ASCII string encodes to its own code units. */
  lemma {:induction false} EncodeAscii(s: string)
    requires forall i | 0 <= i < |s| :: IsAscii(s[i])
    ensures |Encode(s)| == |s|
    ensures forall i | 0 <= i < |s| :: Encode(s)[i] == s[i] as int
  {
    if s != [] {
      EncodeAscii(s[1..]);
    }
  }

  /** One step of the decoder: the scalar value the bytes at the front
      stand for and how many bytes it takes, or U+FFFD for an ill-formed
      prefix, consuming the bytes before the first offending one. */
  function DecodeOne(bs: seq<Byte>): (r: (char, nat))
    requires |bs| > 0
    ensures 1 <= r.1 <= |bs| && r.1 <= 4
    ensures bs[0] < 0x80 ==> r == (bs[0] as char, 1)
  {
    var b0: int := bs[0];
    if b0 < 0x80 then (b0 as char, 1)
    else if 0xC2 <= b0 <= 0xDF then
      if |bs| < 2 || !IsContinuation(bs[1]) then (Replacement, 1)
      else (((b0 - 0xC0) * 0x40 + (bs[1] as int - 0x80)) as char, 2)
    else if 0xE0 <= b0 <= 0xEF then
      var lower := if b0 == 0xE0 then 0xA0 else 0x80;
      var upper := if b0 == 0xED then 0x9F else 0xBF;
      if |bs| < 2 || !(lower <= bs[1] <= upper) then (Replacement, 1)
      else if |bs| < 3 || !IsContinuation(bs[2]) then (Replacement, 2)
      else (((b0 - 0xE0) * 0x1000 + (bs[1] as int - 0x80) * 0x40 + (bs[2] as int - 0x80)) as char, 3)
    else if 0xF0 <= b0 <= 0xF4 then
      var lower := if b0 == 0xF0 then 0x90 else 0x80;
      var upper := if b0 == 0xF4 then 0x8F else 0xBF;
      if |bs| < 2 || !(lower <= bs[1] <= upper) then (Replacement, 1)
      else if |bs| < 3 || !IsContinuation(bs[2]) then (Replacement, 2)
      else if |bs| < 4 || !IsContinuation(bs[3]) then (Replacement, 3)
      else (((b0 - 0xF0) * 0x4_0000 + (bs[1] as int - 0x80) * 0x1000
             + (bs[2] as int - 0x80) * 0x40 + (bs[3] as int - 0x80)) as char, 4)
    else (Replacement, 1)
  }

  /** UTF-8 decode without BOM handling: a leading U+FEFF is kept. */
  function Decode(bs: seq<Byte>): (r: string)
    ensures |r| <= |bs|
    decreases |bs|
  {
    if bs == [] then []
    else
      var step := DecodeOne(bs);
      [step.0] + Decode(bs[step.1..])
  }

  lemma DecodeTwo(c: char, rest: seq<Byte>)
    requires 0x80 <= c as int < 0x800
    ensures DecodeOne(EncodeChar(c) + rest) == (c, 2)
  {
    var cp := c as int;
    var bs := EncodeChar(c) + rest;
    assert bs[0] == 0xC0 + cp / 0x40 && bs[1] == 0x80 + cp % 0x40;
    assert cp == cp / 0x40 * 0x40 + cp % 0x40;
  }

  lemma DecodeThree(c: char, rest: seq<Byte>)
    requires 0x800 <= c as int < 0x1_0000
    ensures DecodeOne(EncodeChar(c) + rest) == (c, 3)
  {
    var cp := c as int;
    var bs := EncodeChar(c) + rest;
    var q1 := cp / 0x40;
    var q2 := q1 / 0x40;
    assert cp == q1 * 0x40 + cp % 0x40;
    assert q1 == q2 * 0x40 + q1 % 0x40;
    assert bs[0] == 0xE0 + q2 && bs[1] == 0x80 + q1 % 0x40 && bs[2] == 0x80 + cp % 0x40;
    assert q2 == 0 ==> bs[1] >= 0xA0;
    assert q2 == 13 ==> bs[1] <= 0x9F;
  }

  lemma DecodeFour(c: char, rest: seq<Byte>)
    requires 0x1_0000 <= c as int
    ensures DecodeOne(EncodeChar(c) + rest) == (c, 4)
  {
    var cp := c as int;
    var bs := EncodeChar(c) + rest;
    var q1 := cp / 0x40;
    var q2 := q1 / 0x40;
    var q3 := q2 / 0x40;
    assert cp == q1 * 0x40 + cp % 0x40;
    assert q1 == q2 * 0x40 + q1 % 0x40;
    assert q2 == q3 * 0x40 + q2 % 0x40;
    assert bs[0] == 0xF0 + q3 && bs[1] == 0x80 + q2 % 0x40;
    assert bs[2] == 0x80 + q1 % 0x40 && bs[3] == 0x80 + cp % 0x40;
    assert q3 == 0 ==> bs[1] >= 0x90;
    assert q3 == 4 ==> bs[1] <= 0x8F;
  }

  /** The decoder reads an encoded scalar value back in one step. */
  lemma DecodeOneEncodeChar(c: char, rest: seq<Byte>)
    ensures DecodeOne(EncodeChar(c) + rest) == (c, |EncodeChar(c)|)
  {
    var cp := c as int;
    if cp < 0x80 {
    } else if cp < 0x800 {
      DecodeTwo(c, rest);
    } else if cp < 0x1_0000 {
      DecodeThree(c, rest);
    } else {
      DecodeFour(c, rest);
    }
  }

  /** Decoding an encoding gives the string back. */
  lemma {:induction false} DecodeEncode(s: string)
    ensures Decode(Encode(s)) == s
  {
    if s != [] {
      var e := EncodeChar(s[0]);
      DecodeOneEncodeChar(s[0], Encode(s[1..]));
      assert (e + Encode(s[1..]))[|e|..] == Encode(s[1..]);
      DecodeEncode(s[1..]);
    }
  }

  /** ASCII characters encode as themselves; U+00E9 takes two bytes. */
  lemma EncodeExample()
    ensures Encode("A & \U{E9}") == [0x41, 0x20, 0x26, 0x20, 0xC3, 0xA9]
  {
    var s := "A & \U{E9}";
    assert s[4..] == ['\U{E9}'];
    assert Encode(s[4..]) == EncodeChar('\U{E9}') == [0xC3, 0xA9];
    assert Encode(s[3..]) == [0x20, 0xC3, 0xA9];
    assert Encode(s[2..]) == [0x26, 0x20, 0xC3, 0xA9];
    assert Encode(s[1..]) == [0x20, 0x26, 0x20, 0xC3, 0xA9];
  }
}
