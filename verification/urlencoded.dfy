// The application/x-www-form-urlencoded format of the WHATWG URL Standard:
// the serializer of section 5.2 (with the urlencoded percent-encode set and
// space as '+') and the parser of section 5.1. This is what
// `URLSearchParams.toString()` and `new URLSearchParams(query)` do.

module UrlEncoded {
  import opened Utf8

  datatype Pair = Pair(name: string, value: string)

  const Ampersand: Byte := 0x26
  const Equals: Byte := 0x3D
  const Plus: Byte := 0x2B
  const Percent: Byte := 0x25
  const Space: Byte := 0x20

  predicate IsAsciiDigit(b: Byte) {
    0x30 <= b <= 0x39
  }

  predicate IsAsciiAlphanumeric(b: Byte) {
    IsAsciiDigit(b) || 0x41 <= b <= 0x5A || 0x61 <= b <= 0x7A
  }

  /** Bytes outside the application/x-www-form-urlencoded percent-encode
      set: ASCII alphanumerics and `*`, `-`, `.`, `_`. */
  predicate IsUnreserved(b: Byte) {
    IsAsciiAlphanumeric(b) || b == 0x2A || b == 0x2D || b == 0x2E || b == 0x5F
  }

  /** The bytes a serialized component is made of. */
  predicate IsSerialized(b: Byte) {
    IsUnreserved(b) || b == Plus || b == Percent
  }

  predicate IsAsciiHexDigit(b: Byte) {
    IsAsciiDigit(b) || 0x41 <= b <= 0x46 || 0x61 <= b <= 0x66
  }

  function HexValue(b: Byte): (r: int)
    requires IsAsciiHexDigit(b)
    ensures 0 <= r < 16
  {
    if IsAsciiDigit(b) then b - 0x30
    else if b <= 0x46 then b - 0x41 + 10
    else b - 0x61 + 10
  }

  /** The upper-case hex digit for `n`. */
  function HexDigit(n: int): (r: Byte)
    requires 0 <= n < 16
    ensures IsAsciiHexDigit(r) && IsAsciiAlphanumeric(r) && HexValue(r) == n
  {
    if n < 10 then 0x30 + n else 0x41 + n - 10
  }

  /** Percent-encode one byte after UTF-8 encoding, space as plus. */
  function EncodeByte(b: Byte): (r: seq<Byte>)
    ensures forall i | 0 <= i < |r| :: IsSerialized(r[i])
    ensures b == Space ==> r == [Plus]
    ensures IsUnreserved(b) ==> r == [b]
    ensures b != Space && !IsUnreserved(b) ==>
      |r| == 3 && r[0] == Percent && IsAsciiHexDigit(r[1]) && IsAsciiHexDigit(r[2])
      && HexValue(r[1]) * 16 + HexValue(r[2]) == b
  {
    if b == Space then [Plus]
    else if IsUnreserved(b) then [b]
    else [Percent, HexDigit(b / 16), HexDigit(b % 16)]
  }

  function EncodeBytes(bs: seq<Byte>): (r: seq<Byte>)
    ensures forall i | 0 <= i < |r| :: IsSerialized(r[i])
    ensures |r| >= |bs|
  {
    if bs == [] then [] else EncodeByte(bs[0]) + EncodeBytes(bs[1..])
  }

  /** A name or value as it appears in the serialization. */
  function EncodeComponent(s: string): (r: seq<Byte>)
    ensures forall i | 0 <= i < |r| :: IsSerialized(r[i])
  {
    EncodeBytes(Utf8.Encode(s))
  }

  function SerializePair(p: Pair): (r: seq<Byte>)
    ensures |r| > 0
    ensures forall i | 0 <= i < |r| :: IsSerialized(r[i]) || r[i] == Equals
  {
    EncodeComponent(p.name) + [Equals] + EncodeComponent(p.value)
  }

  /** The serializer's output as bytes: `name=value` pairs joined by `&`. */
  function SerializeBytes(pairs: seq<Pair>): (r: seq<Byte>)
    ensures forall i | 0 <= i < |r| :: IsSerialized(r[i]) || r[i] == Equals || r[i] == Ampersand
    ensures pairs == [] <==> r == []
  {
    if pairs == [] then []
    else if |pairs| == 1 then SerializePair(pairs[0])
    else SerializePair(pairs[0]) + [Ampersand] + SerializeBytes(pairs[1..])
  }

  /** An ASCII byte sequence read as a string. */
  function AsString(bs: seq<Byte>): (r: string)
    requires forall i | 0 <= i < |bs| :: bs[i] < 0x80
    ensures |r| == |bs|
    ensures forall i | 0 <= i < |bs| :: r[i] as int == bs[i] && IsAscii(r[i])
  {
    if bs == [] then [] else [bs[0] as char] + AsString(bs[1..])
  }

  /** `URLSearchParams.toString()`. */
  function Serialize(pairs: seq<Pair>): (r: string)
    ensures forall i | 0 <= i < |r| :: IsAscii(r[i])
  {
    AsString(SerializeBytes(pairs))
  }

  /** The pieces of `bs` between occurrences of `sep`. */
  function SplitOn(bs: seq<Byte>, sep: Byte): (r: seq<seq<Byte>>)
    ensures |r| >= 1
  {
    if bs == [] then [[]]
    else if bs[0] == sep then [[]] + SplitOn(bs[1..], sep)
    else
      var rest := SplitOn(bs[1..], sep);
      [[bs[0]] + rest[0]] + rest[1..]
  }

  /** The bytes before the first `sep` and those after it; without a `sep`,
      everything and nothing. */
  function SplitFirst(bs: seq<Byte>, sep: Byte): (r: (seq<Byte>, seq<Byte>))
    ensures sep !in r.0
    ensures sep in bs ==> bs == r.0 + [sep] + r.1
    ensures sep !in bs ==> r == (bs, [])
  {
    if bs == [] then ([], [])
    else if bs[0] == sep then ([], bs[1..])
    else
      var rest := SplitFirst(bs[1..], sep);
      assert bs == [bs[0]] + bs[1..];
      assert sep in bs ==> sep in bs[1..];
      ([bs[0]] + rest.0, rest.1)
  }

  function PlusToSpace(bs: seq<Byte>): (r: seq<Byte>)
    ensures |r| == |bs|
    ensures forall i | 0 <= i < |bs| :: r[i] == (if bs[i] == Plus then Space else bs[i])
  {
    if bs == [] then [] else [if bs[0] == Plus then Space else bs[0]] + PlusToSpace(bs[1..])
  }

  /** Percent-decode: `%` and two hex digits become one byte; any other `%`
      stays as it is. */
  function PercentDecode(bs: seq<Byte>): (r: seq<Byte>)
    ensures |r| <= |bs|
    ensures Percent !in bs ==> r == bs
  {
    if bs == [] then []
    else if bs[0] == Percent && |bs| >= 3 && IsAsciiHexDigit(bs[1]) && IsAsciiHexDigit(bs[2]) then
      [HexValue(bs[1]) * 16 + HexValue(bs[2])] + PercentDecode(bs[3..])
    else
      assert Percent !in bs ==> Percent !in bs[1..];
      [bs[0]] + PercentDecode(bs[1..])
  }

  function DecodeComponent(bs: seq<Byte>): string {
    Utf8.Decode(PercentDecode(PlusToSpace(bs)))
  }

  /** Steps 3 and 4 of the parser: empty sequences are skipped, the others
      split at their first `=`. */
  function ParseSequences(seqs: seq<seq<Byte>>): (r: seq<Pair>)
    ensures |r| <= |seqs|
  {
    if seqs == [] then []
    else if seqs[0] == [] then ParseSequences(seqs[1..])
    else
      var parts := SplitFirst(seqs[0], Equals);
      [Pair(DecodeComponent(parts.0), DecodeComponent(parts.1))] + ParseSequences(seqs[1..])
  }

  /** The application/x-www-form-urlencoded parser, on bytes. */
  function ParseBytes(bs: seq<Byte>): seq<Pair> {
    ParseSequences(SplitOn(bs, Ampersand))
  }

  /** The string parser: the parser applied to the UTF-8 encoding. */
  function Parse(input: string): seq<Pair> {
    ParseBytes(Utf8.Encode(input))
  }

  // Round trip.

  lemma {:induction false} EncodeAsString(bs: seq<Byte>)
    requires forall i | 0 <= i < |bs| :: bs[i] < 0x80
    ensures Utf8.Encode(AsString(bs)) == bs
  {
    EncodeAscii(AsString(bs));
  }

  lemma {:induction false} PlusToSpaceConcat(a: seq<Byte>, b: seq<Byte>)
    ensures PlusToSpace(a + b) == PlusToSpace(a) + PlusToSpace(b)
  {
  }

  lemma DecodeEncodedByte(b: Byte, rest: seq<Byte>)
    ensures PercentDecode(PlusToSpace(EncodeByte(b)) + rest) == [b] + PercentDecode(rest)
  {
    var e := EncodeByte(b);
    if b == Space {
      assert PlusToSpace(e) + rest == [Space] + rest;
    } else if IsUnreserved(b) {
      assert PlusToSpace(e) + rest == [b] + rest;
    } else {
      assert PlusToSpace(e) == e;
      assert (e + rest)[3..] == rest;
    }
  }

  /** Decoding undoes the percent-encoding of a byte sequence. */
  lemma {:induction false} DecodeEncodeBytes(bs: seq<Byte>)
    ensures PercentDecode(PlusToSpace(EncodeBytes(bs))) == bs
  {
    if bs != [] {
      var e := EncodeByte(bs[0]);
      var tail := EncodeBytes(bs[1..]);
      PlusToSpaceConcat(e, tail);
      DecodeEncodedByte(bs[0], PlusToSpace(tail));
      DecodeEncodeBytes(bs[1..]);
    }
  }

  /** A name or value survives serialization and parsing. */
  lemma DecodeEncodeComponent(s: string)
    ensures DecodeComponent(EncodeComponent(s)) == s
  {
    DecodeEncodeBytes(Utf8.Encode(s));
    DecodeEncode(s);
  }

  lemma {:induction false} SplitOnWithout(a: seq<Byte>, sep: Byte)
    requires sep !in a
    ensures SplitOn(a, sep) == [a]
  {
    if a != [] {
      SplitOnWithout(a[1..], sep);
      assert a == [a[0]] + a[1..];
    }
  }

  lemma {:induction false} SplitOnAt(a: seq<Byte>, sep: Byte, rest: seq<Byte>)
    requires sep !in a
    ensures SplitOn(a + [sep] + rest, sep) == [a] + SplitOn(rest, sep)
  {
    if a == [] {
      assert a + [sep] + rest == [sep] + rest;
    } else {
      assert (a + [sep] + rest)[0] == a[0];
      assert (a + [sep] + rest)[1..] == a[1..] + [sep] + rest;
      SplitOnAt(a[1..], sep, rest);
      assert a == [a[0]] + a[1..];
    }
  }

  /** A sequence splits at the first separator after a separator-free
      prefix. */
  lemma {:induction false} SplitFirstAt(a: seq<Byte>, sep: Byte, rest: seq<Byte>)
    requires sep !in a
    ensures SplitFirst(a + [sep] + rest, sep) == (a, rest)
  {
    if a == [] {
      assert a + [sep] + rest == [sep] + rest;
    } else {
      assert (a + [sep] + rest)[0] == a[0];
      assert (a + [sep] + rest)[1..] == a[1..] + [sep] + rest;
      SplitFirstAt(a[1..], sep, rest);
      assert a == [a[0]] + a[1..];
    }
  }

  lemma ParseSerializedPair(p: Pair)
    ensures SplitFirst(SerializePair(p), Equals) == (EncodeComponent(p.name), EncodeComponent(p.value))
  {
    var n := EncodeComponent(p.name);
    assert forall i | 0 <= i < |n| :: n[i] != Equals;
    SplitFirstAt(n, Equals, EncodeComponent(p.value));
  }

  /** Parsing a serialization gives back the pairs, in order. */
  lemma {:induction false} ParseSerializeBytes(pairs: seq<Pair>)
    ensures ParseBytes(SerializeBytes(pairs)) == pairs
  {
    if pairs != [] {
      var first := SerializePair(pairs[0]);
      assert forall i | 0 <= i < |first| :: first[i] != Ampersand;
      ParseSerializedPair(pairs[0]);
      DecodeEncodeComponent(pairs[0].name);
      DecodeEncodeComponent(pairs[0].value);
      if |pairs| == 1 {
        SplitOnWithout(first, Ampersand);
        assert ParseSequences([first]) == [pairs[0]];
      } else {
        var rest := SerializeBytes(pairs[1..]);
        SplitOnAt(first, Ampersand, rest);
        ParseSerializeBytes(pairs[1..]);
        assert ParseSequences([first] + SplitOn(rest, Ampersand))
          == [pairs[0]] + ParseSequences(SplitOn(rest, Ampersand));
      }
    }
  }

  /** `new URLSearchParams(params.toString())` has the entries of `params`. */
  lemma ParseSerialize(pairs: seq<Pair>)
    ensures Parse(Serialize(pairs)) == pairs
  {
    EncodeAsString(SerializeBytes(pairs));
    ParseSerializeBytes(pairs);
  }

  lemma EncodeByteExamples()
    ensures EncodeByte(0xC3) == [Percent, 0x43, 0x33]
    ensures EncodeByte(0xA9) == [Percent, 0x41, 0x39]
    ensures EncodeByte(0x26) == [Percent, 0x32, 0x36]
  {
    assert EncodeByte(0xC3) == [Percent, HexDigit(12), HexDigit(3)];
    assert EncodeByte(0xA9) == [Percent, HexDigit(10), HexDigit(9)];
    assert EncodeByte(0x26) == [Percent, HexDigit(2), HexDigit(6)];
  }

  /** Space becomes `+`, `&` is percent-encoded with upper-case digits, and
      a non-ASCII character is percent-encoded byte by byte. */
  lemma EncodeComponentExample()
    ensures EncodeComponent("A & \U{E9}") == [0x41, Plus, Percent, 0x32, 0x36, Plus,
                                            Percent, 0x43, 0x33, Percent, 0x41, 0x39]
  {
    Utf8.EncodeExample();
    EncodeBytesExample();
  }

  lemma EncodeBytesExample()
    ensures EncodeBytes([0x41, 0x20, 0x26, 0x20, 0xC3, 0xA9]) == [0x41, Plus, Percent, 0x32, 0x36, Plus,
                                                                 Percent, 0x43, 0x33, Percent, 0x41, 0x39]
  {
    EncodeByteExamples();
    var bs: seq<Byte> := [0x41, 0x20, 0x26, 0x20, 0xC3, 0xA9];
    assert EncodeBytes(bs[5..]) == [Percent, 0x41, 0x39];
    assert EncodeBytes(bs[4..]) == [Percent, 0x43, 0x33, Percent, 0x41, 0x39];
    assert EncodeBytes(bs[2..]) == [Percent, 0x32, 0x36, Plus, Percent, 0x43, 0x33, Percent, 0x41, 0x39];
  }
}
