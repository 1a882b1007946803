/** String helpers with the semantics of the ECMAScript built-ins the site
    relies on: `toLowerCase` (restricted to ASCII letters), `trim`,
    `includes` and `startsWith`. */
module Text {

  /** The characters `String.prototype.trim` removes: WhiteSpace and
      LineTerminator of ECMA-262, sections 12.2 and 12.3. */
  predicate IsJsSpace(c: char) {
    || c == '\t' || c == '\n' || c == '\U{000B}' || c == '\U{000C}' || c == '\r'
    || c == ' ' || c == '\U{00A0}' || c == '\U{1680}'
    || ('\U{2000}' <= c <= '\U{200A}')
    || c == '\U{2028}' || c == '\U{2029}' || c == '\U{202F}' || c == '\U{205F}'
    || c == '\U{3000}' || c == '\U{FEFF}'
  }

  predicate AllSpace(s: string) {
    forall i | 0 <= i < |s| :: IsJsSpace(s[i])
  }

  /** No removable character at either end. */
  predicate IsTrimmed(s: string) {
    s == [] || (!IsJsSpace(s[0]) && !IsJsSpace(s[|s| - 1]))
  }

  predicate IsUpperAscii(c: char) {
    'A' <= c <= 'Z'
  }

  /** `toLowerCase` on one character; only ASCII letters are folded. */
  function LowerChar(c: char): (r: char)
    ensures !IsUpperAscii(r)
    ensures IsUpperAscii(c) ==> r as int == c as int + 32
    ensures !IsUpperAscii(c) ==> r == c
  {
    if IsUpperAscii(c) then (c as int + 32) as char else c
  }

  function Lower(s: string): (r: string)
    ensures |r| == |s|
    ensures forall i | 0 <= i < |s| :: r[i] == LowerChar(s[i])
  {
    seq(|s|, i requires 0 <= i < |s| => LowerChar(s[i]))
  }

  /** Lower-casing twice is lower-casing once. */
  lemma LowerIdempotent(s: string)
    ensures Lower(Lower(s)) == Lower(s)
  {
  }

  /** How many spaces `trim` removes at the start. */
  function LeadingSpaces(s: string): (n: nat)
    ensures n <= |s|
    ensures forall i | 0 <= i < n :: IsJsSpace(s[i])
    ensures n < |s| ==> !IsJsSpace(s[n])
  {
    if |s| > 0 && IsJsSpace(s[0]) then 1 + LeadingSpaces(s[1..]) else 0
  }

  /** Where the spaces `trim` removes at the end begin. */
  function TrailingStart(s: string): (n: nat)
    ensures n <= |s|
    ensures forall i | n <= i < |s| :: IsJsSpace(s[i])
    ensures n > 0 ==> !IsJsSpace(s[n - 1])
    decreases |s|
  {
    if |s| > 0 && IsJsSpace(s[|s| - 1]) then TrailingStart(s[..|s| - 1]) else |s|
  }

  /** `r` sits in `s` at offset `k` with nothing but spaces around it. */
  predicate SpaceFramed(s: string, r: string, k: int) {
    0 <= k <= k + |r| <= |s| && s[k..k + |r|] == r
    && AllSpace(s[..k]) && AllSpace(s[k + |r|..])
  }

  /** `trim`: the input with its leading and trailing spaces removed; what
      remains is a contiguous slice of the input, surrounded only by spaces. */
  function Trim(s: string): (r: string)
    ensures IsTrimmed(r)
    ensures SpaceFramed(s, r, LeadingSpaces(s))
  {
    var k := LeadingSpaces(s);
    var t := s[k..];
    var m := TrailingStart(t);
    Framed(s, k, m);
    t[..m]
  }

  lemma Framed(s: string, k: nat, m: nat)
    requires k <= |s| && m <= |s| - k
    requires forall i | 0 <= i < k :: IsJsSpace(s[i])
    requires forall i | k + m <= i < |s| :: IsJsSpace(s[i])
    ensures SpaceFramed(s, s[k..][..m], k)
  {
    assert s[k..][..m] == s[k..k + m];
    var tail := s[k + m..];
    assert forall i | 0 <= i < |tail| :: tail[i] == s[k + m + i];
  }

  /** A query made only of spaces trims to the empty string, and only such a
      query does. */
  lemma TrimEmptyIffAllSpace(s: string)
    ensures Trim(s) == [] <==> AllSpace(s)
  {
    var k := LeadingSpaces(s);
    var t := s[k..];
    if Trim(s) == [] {
      assert TrailingStart(t) == 0;
    }
  }

  /** `!s.trim()`: nothing but white space, the empty string included. */
  predicate IsBlank(s: string) {
    Trim(s) == ""
  }

  /** A non-blank string is not empty. */
  lemma NonBlankNonEmpty(s: string)
    requires !IsBlank(s)
    ensures s != ""
  {
    if s == "" {
      TrimEmptyIffAllSpace(s);
    }
  }

  /** `includes`: `needle` occurs as a contiguous slice of `hay`. */
  predicate Contains(hay: string, needle: string) {
    exists i | 0 <= i <= |hay| :: OccursAt(hay, needle, i)
  }

  predicate OccursAt(hay: string, needle: string, i: int) {
    0 <= i <= i + |needle| <= |hay| && hay[i..i + |needle|] == needle
  }

  predicate StartsWith(s: string, prefix: string) {
    |prefix| <= |s| && s[..|prefix|] == prefix
  }

  predicate EndsWith(s: string, suffix: string) {
    |suffix| <= |s| && s[|s| - |suffix|..] == suffix
  }

  /** A string contains itself. */
  lemma ContainsSelf(s: string)
    ensures Contains(s, s)
  {
    assert OccursAt(s, s, 0);
  }

  /** A concatenation contains each of its middle parts. */
  lemma ContainsMiddle(p: string, m: string, q: string)
    ensures Contains(p + m + q, m)
  {
    assert OccursAt(p + m + q, m, |p|);
  }

  /** Whatever the tail of a string contains, the string contains. */
  lemma ContainsInTail(a: string, b: string, m: string)
    requires Contains(b, m)
    ensures Contains(a + b, m)
  {
    var i :| 0 <= i <= |b| && OccursAt(b, m, i);
    assert (a + b)[|a| + i..|a| + i + |m|] == b[i..i + |m|];
    assert OccursAt(a + b, m, |a| + i);
  }

  /** A string ends with its last part. */
  lemma EndsWithLast(a: string, b: string)
    ensures EndsWith(a + b, b)
  {
    assert (a + b)[|a + b| - |b|..] == b;
  }

  /** Containment chains: a slice of a slice is a slice. */
  lemma ContainsTransitive(a: string, b: string, c: string)
    requires Contains(a, b) && Contains(b, c)
    ensures Contains(a, c)
  {
    var i :| 0 <= i <= |a| && OccursAt(a, b, i);
    var j :| 0 <= j <= |b| && OccursAt(b, c, j);
    assert b == a[i..i + |b|];
    assert forall t | 0 <= t < |c| :: a[i + j + t] == b[j + t] == c[t];
    assert OccursAt(a, c, i + j);
  }

  /** Text framed by white space on both sides, and itself starting and
      ending with a visible character, is exactly what `trim` returns. */
  lemma TrimFramed(a: string, x: string, w: string)
    requires AllSpace(a) && AllSpace(w)
    requires x != [] && !IsJsSpace(x[0]) && !IsJsSpace(x[|x| - 1])
    ensures Trim(a + x + w) == x
  {
    var s := a + x + w;
    var k := LeadingSpaces(s);
    assert SpaceFramed(s, Trim(s), k);
    assert s[|a|..|a| + |x|] == x;
  }

  /** Trimming leaves alone a middle part that starts and ends with a
      non-space character: it survives as a slice of the trimmed text. */
  lemma {:induction false} TrimKeepsInner(a: string, b: string, c: string)
    requires b != [] && !IsJsSpace(b[0]) && !IsJsSpace(b[|b| - 1])
    ensures Contains(Trim(a + b + c), b)
  {
    var s := a + b + c;
    assert s[|a|..|a| + |b|] == b;
    TrimKeepsSlice(s, |a|, |a| + |b|);
  }

  /** The same, for a slice of the input. */
  lemma TrimKeepsSlice(s: string, lo: int, hi: int)
    requires 0 <= lo < hi <= |s| && !IsJsSpace(s[lo]) && !IsJsSpace(s[hi - 1])
    ensures Contains(Trim(s), s[lo..hi])
  {
    var k := LeadingSpaces(s);
    assert k <= lo;
    var t := s[k..];
    assert t[hi - 1 - k] == s[hi - 1];
    var r := Trim(s);
    InnerSlice(s, t, r, k, lo, hi);
    assert OccursAt(r, s[lo..hi], lo - k);
  }

  /** A slice of the input seen through the trimmed prefix and suffix. */
  lemma InnerSlice(s: string, t: string, r: string, k: int, lo: int, hi: int)
    requires 0 <= k <= lo <= hi <= |s| && t == s[k..] && |r| <= |t| && r == t[..|r|] && hi - k <= |r|
    ensures r[lo - k..hi - k] == s[lo..hi]
  {
  }

}
