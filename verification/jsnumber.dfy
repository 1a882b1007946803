/** ECMAScript numbers as the calculators use them: a real value or NaN
    (no rounding, no infinities), the `[^0-9.]` input sanitiser, and the two
    ways the calculators read a sanitised field: `parseFloat` (longest
    decimal prefix) and `Number` (the whole string or NaN). */
module JsNumber {
  import opened Lists

  /** A JavaScript number: `NaN`, or a finite value held exactly. */
  datatype Num = NaN | Fin(v: real) {

    /** `<`, `<=`, `>`, `>=`: every comparison involving NaN is false. */
    predicate Lt(b: real) { Fin? && v < b }
    predicate Le(b: real) { Fin? && v <= b }
    predicate Gt(b: real) { Fin? && v > b }
    predicate Ge(b: real) { Fin? && v >= b }

    /** `+`, `-`, `*`: NaN in, NaN out. */
    function Plus(b: Num): Num {
      if NaN? || b.NaN? then NaN else Fin(v + b.v)
    }
    function Minus(b: Num): Num {
      if NaN? || b.NaN? then NaN else Fin(v - b.v)
    }
    function Times(b: Num): Num {
      if NaN? || b.NaN? then NaN else Fin(v * b.v)
    }

    /** `/` by a non-zero constant. */
    function Over(d: real): Num
      requires d != 0.0
    {
      if NaN? then NaN else Fin(v / d)
    }

    /** Truthiness: `0` and `NaN` are falsy. */
    predicate Truthy() { Fin? && v != 0.0 }
  }

  /** `x || 0`: a falsy number (NaN or 0) becomes 0. */
  function OrZero(n: Num): (r: real)
    ensures n.NaN? ==> r == 0.0
    ensures n.Fin? ==> r == n.v
  {
    if n.Truthy() then n.v else 0.0
  }

  /** A percentage between 0 and 100 of a non-negative amount lies between
      nothing and the whole amount. */
  lemma PercentBounds(amount: real, percent: real)
    requires amount >= 0.0 && 0.0 <= percent <= 100.0
    ensures 0.0 <= amount * (percent / 100.0) <= amount
  {
    assert amount * (percent / 100.0) <= amount * 1.0;
  }

  /** `amount * (percent / 100)` on finite values with a percentage
      between 0 and 100. */
  function PercentOfAmount(amount: real, percent: real): (r: real)
    requires amount >= 0.0 && 0.0 <= percent <= 100.0
    ensures 0.0 <= r <= amount
    ensures r == amount * (percent / 100.0)
  {
    PercentBounds(amount, percent);
    amount * (percent / 100.0)
  }

  /** `amount * (percent / 100)` in JavaScript numbers: finite for finite
      operands, and at most `cap` percent of a non-negative amount. */
  lemma PercentOf(amount: Num, percent: Num, cap: real)
    requires amount.Fin? && percent.Fin?
    requires amount.v >= 0.0 && 0.0 <= percent.v <= cap
    ensures amount.Times(percent.Over(100.0)) == Fin(amount.v * (percent.v / 100.0))
    ensures 0.0 <= amount.v * (percent.v / 100.0) <= amount.v * (cap / 100.0)
  {
    assert percent.v / 100.0 <= cap / 100.0;
  }

  predicate IsDigit(c: char) {
    '0' <= c <= '9'
  }

  /** The characters `value.replace(/[^0-9.]/g, "")` keeps. */
  predicate IsNumericChar(c: char) {
    IsDigit(c) || c == '.'
  }

  predicate IsSanitized(s: string) {
    forall i | 0 <= i < |s| :: IsNumericChar(s[i])
  }

  /** The input sanitiser every calculator applies on each keystroke. */
  function Sanitize(s: string): (r: string)
    ensures IsSanitized(r)
    ensures IsSubsequence(r, s)
    ensures forall c :: c in r <==> c in s && IsNumericChar(c)
    ensures forall c :: multiset(r)[c] == if IsNumericChar(c) then multiset(s)[c] else 0
  {
    FilterIsSubsequence(s, IsNumericChar);
    forall c
      ensures c in Filter(s, IsNumericChar) <==> c in s && IsNumericChar(c)
      ensures multiset(Filter(s, IsNumericChar))[c] == if IsNumericChar(c) then multiset(s)[c] else 0
    {
      FilterMembership(s, IsNumericChar, c);
      FilterCount(s, IsNumericChar, c);
    }
    Filter(s, IsNumericChar)
  }

  /** A sanitised string is left unchanged by the sanitiser. */
  lemma {:induction false} SanitizeFixesSanitized(s: string)
    requires IsSanitized(s)
    ensures Sanitize(s) == s
  {
    if s != [] {
      SanitizeFixesSanitized(s[1..]);
    }
  }

  /** Sanitising twice is sanitising once. */
  lemma SanitizeIdempotent(s: string)
    ensures Sanitize(Sanitize(s)) == Sanitize(s)
  {
    SanitizeFixesSanitized(Sanitize(s));
  }

  function DigitValue(c: char): nat
    requires IsDigit(c)
  {
    c as int - '0' as int
  }

  predicate AllDigits(s: string) {
    forall i | 0 <= i < |s| :: IsDigit(s[i])
  }

  /** The value of a string of decimal digits, most significant first. */
  function DigitsValue(ds: string): nat
    requires AllDigits(ds)
  {
    if ds == [] then 0 else DigitsValue(ds[..|ds| - 1]) * 10 + DigitValue(ds[|ds| - 1])
  }

  function Pow10(n: nat): (r: nat)
    ensures r >= 1
  {
    if n == 0 then 1 else 10 * Pow10(n - 1)
  }

  /** The length of the longest all-digit prefix. */
  function LeadingDigits(s: string): (n: nat)
    ensures n <= |s| && AllDigits(s[..n])
    ensures n < |s| ==> !IsDigit(s[n])
  {
    if s != [] && IsDigit(s[0]) then
      var n := 1 + LeadingDigits(s[1..]);
      assert s[..n] == [s[0]] + s[1..][..n - 1];
      n
    else 0
  }

  /** The value of the decimal literal `whole.frac`. */
  function DecimalValue(whole: string, frac: string): real
    requires AllDigits(whole) && AllDigits(frac)
  {
    DigitsValue(whole) as real + DigitsValue(frac) as real / Pow10(|frac|) as real
  }

  /** `parseFloat` on a sanitised string: the value of the longest prefix of
      the form `d+`, `d+.d*` or `.d+`, or NaN when there is none. */
  function ParseFloat(s: string): (r: Num)
    requires IsSanitized(s)
    ensures r.Fin? ==> r.v >= 0.0
    ensures r.NaN? <==> s == [] || (s[0] == '.' && (|s| == 1 || !IsDigit(s[1])))
  {
    var i := LeadingDigits(s);
    if i < |s| && s[i] == '.' then
      var j := LeadingDigits(s[i + 1..]);
      if i == 0 && j == 0 then NaN
      else Fin(DecimalValue(s[..i], s[i + 1..][..j]))
    else if i == 0 then NaN
    else Fin(DigitsValue(s[..i]) as real)
  }

  /** How many `.` characters a string holds. */
  function DotCount(s: string): nat {
    if s == [] then 0 else (if s[0] == '.' then 1 else 0) + DotCount(s[1..])
  }

  predicate HasDigit(s: string) {
    exists i | 0 <= i < |s| :: IsDigit(s[i])
  }

  /** `Number(s)` on a sanitised string: the whole string must be a decimal
      literal, otherwise NaN; the empty string is 0. */
  function ToNumber(s: string): (r: Num)
    requires IsSanitized(s)
    ensures r.Fin? ==> r.v >= 0.0
  {
    if s == [] then Fin(0.0)
    else
      var i := LeadingDigits(s);
      if i == |s| then Fin(DigitsValue(s) as real)
      else if s[i] == '.' && LeadingDigits(s[i + 1..]) == |s| - i - 1 && |s| > 1 then
        Fin(DecimalValue(s[..i], s[i + 1..]))
      else NaN
  }

  /** A form field read by `value === "" ? null : Number(value)`: `null`
      for empty text, otherwise the number. */
  datatype Parsed = Null | Value(n: Num)

  /** Reading a sanitised field: null exactly when empty, and never a
      negative number. */
  function ParseField(s: string): (p: Parsed)
    requires IsSanitized(s)
    ensures p.Null? <==> s == ""
    ensures p.Value? && p.n.Fin? ==> p.n.v >= 0.0
  {
    if s == "" then Null else Value(ToNumber(s))
  }

  lemma {:induction false} DotCountConcat(a: string, b: string)
    ensures DotCount(a + b) == DotCount(a) + DotCount(b)
  {
    if a != [] {
      DotCountConcat(a[1..], b);
      assert (a + b)[1..] == a[1..] + b;
    } else {
      assert a + b == b;
    }
  }

  lemma {:induction false} DotCountDigits(s: string)
    requires AllDigits(s)
    ensures DotCount(s) == 0
  {
    if s != [] {
      DotCountDigits(s[1..]);
    }
  }

  /** Splitting a string at one of its dots. */
  lemma DotCountAt(s: string, i: nat)
    requires i < |s| && s[i] == '.'
    ensures DotCount(s) == DotCount(s[..i]) + 1 + DotCount(s[i + 1..])
  {
    assert s == s[..i] + ([s[i]] + s[i + 1..]);
    DotCountConcat(s[..i], [s[i]] + s[i + 1..]);
  }

  /** A non-empty sanitised field is a number for `Number` exactly when it
      has at most one `.` and at least one digit; so `"."` and `"1.2.3"`
      are NaN. */
  lemma ToNumberDefinedIff(s: string)
    requires IsSanitized(s) && s != []
    ensures ToNumber(s).Fin? <==> DotCount(s) <= 1 && HasDigit(s)
  {
    var i := LeadingDigits(s);
    if i == |s| {
      assert s[..i] == s;
      DotCountDigits(s);
      assert IsDigit(s[0]);
    } else {
      DotCountAt(s, i);
      DotCountDigits(s[..i]);
      var t := s[i + 1..];
      var j := LeadingDigits(t);
      if j < |t| {
        DotCountAt(t, j);
        assert DotCount(s) >= 2;
      } else {
        assert t[..j] == t;
        DotCountDigits(t);
        if |s| == 1 {
          assert !HasDigit(s);
        } else if i == 0 {
          assert IsDigit(s[1]);
        } else {
          assert IsDigit(s[0]);
        }
      }
    }
  }

  /** Where `Number` succeeds on a non-empty field, `parseFloat` reads the
      same value. */
  lemma ToNumberAgreesWithParseFloat(s: string)
    requires IsSanitized(s) && s != [] && ToNumber(s).Fin?
    ensures ParseFloat(s) == ToNumber(s)
  {
    var i := LeadingDigits(s);
    if i < |s| {
      var t := s[i + 1..];
      assert t[..LeadingDigits(t)] == t;
    } else {
      assert s[..i] == s;
    }
  }

  /** A string of digits reads as its decimal value. */
  lemma AllDigitsNumber(s: string)
    requires s != [] && AllDigits(s)
    ensures ToNumber(s) == Fin(DigitsValue(s) as real)
  {
    assert s[..|s|] == s;
  }

  /** The decimal rendering of a natural number, as typed by a user. */
  function NatToDigits(n: nat): (r: string)
    ensures AllDigits(r) && r != []
  {
    if n < 10 then [('0' as int + n) as char]
    else NatToDigits(n / 10) + [('0' as int + n % 10) as char]
  }

  /** Reading back the digits of a natural number gives the number. */
  lemma {:induction false} NatToDigitsValue(n: nat)
    ensures DigitsValue(NatToDigits(n)) == n
  {
    if n >= 10 {
      NatToDigitsValue(n / 10);
      var ds := NatToDigits(n);
      assert ds[..|ds| - 1] == NatToDigits(n / 10);
    }
  }

  /** Both parsers read a typed whole number back exactly. */
  lemma ParseNatRoundTrip(n: nat)
    ensures ParseFloat(NatToDigits(n)) == Fin(n as real)
    ensures ToNumber(NatToDigits(n)) == Fin(n as real)
  {
    var s := NatToDigits(n);
    NatToDigitsValue(n);
    assert s[..|s|] == s;
  }

  /** `parseFloat("1.2.3")` reads 1.2 while `Number("1.2.3")` is NaN, and
      `"."` is NaN for both. */
  lemma MixedParseExamples()
    ensures ParseFloat("1.2.3") == Fin(1.2)
    ensures ToNumber("1.2.3") == NaN
    ensures ParseFloat(".") == NaN && ToNumber(".") == NaN
  {
    var s := "1.2.3";
    assert LeadingDigits(s) == 1;
    assert LeadingDigits(s[2..]) == 1;
    assert s[..1] == "1" && s[2..][..1] == "2";
    assert DigitsValue("1") == 1 && DigitsValue("2") == 2;
  }
}
