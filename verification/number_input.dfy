/**
 * The constraint a browser checks on an `<input type="number" min=.. max=..>`
 * before the form's submit handler runs: the text is a decimal number, lies
 * within [min, max], and matches the default step of 1 counted from an
 * integral `min`, so its value is a whole number. Everything is integer
 * arithmetic: a decimal is kept as `mantissa / 10^scale`.
 */
module NumberInput {
  import opened Wrappers

  predicate IsDigit(c: char) {
    '0' <= c <= '9'
  }

  predicate AllDigits(s: string) {
    forall i :: 0 <= i < |s| ==> IsDigit(s[i])
  }

  /** The number a run of decimal digits denotes, most significant digit first. */
  function DigitsValue(s: string): nat
    requires AllDigits(s)
    decreases |s|
  {
    if s == [] then 0 else DigitsValue(s[..|s| - 1]) * 10 + (s[|s| - 1] as int - '0' as int)
  }

  function Pow10(n: nat): (r: nat)
    ensures r >= 1
  {
    if n == 0 then 1 else 10 * Pow10(n - 1)
  }

  /** The number `mantissa / 10^scale`. */
  datatype Decimal = Decimal(mantissa: int, scale: nat)

  /** The text before the first '.', and the text after it when there is one. */
  datatype Split = Split(whole: string, fraction: Option<string>)

  function SplitAtDot(s: string): (r: Split)
    ensures r.fraction.None? ==> r.whole == s
    ensures r.fraction.Some? ==> s == r.whole + "." + r.fraction.value && '.' !in r.whole
  {
    if s == [] then Split([], None)
    else if s[0] == '.' then Split([], Some(s[1..]))
    else
      var rest := SplitAtDot(s[1..]);
      Split([s[0]] + rest.whole, rest.fraction)
  }

  /** `digits` or `digits.digits`. */
  function ParseUnsigned(s: string): (r: Option<Decimal>)
    ensures r.Some? ==> r.value.mantissa >= 0 && |s| > 0
  {
    var p := SplitAtDot(s);
    if p.whole == [] || !AllDigits(p.whole) then None
    else if p.fraction.None? then Some(Decimal(DigitsValue(p.whole), 0))
    else
      var f := p.fraction.value;
      if f == [] || !AllDigits(f) then None
      else Some(Decimal(DigitsValue(p.whole) * Pow10(|f|) + DigitsValue(f), |f|))
  }

  /** An optional leading '-' before an unsigned decimal. */
  function ParseNumber(s: string): (r: Option<Decimal>)
    ensures s == [] ==> r.None?
    ensures r.Some? && |s| > 0 && s[0] != '-' ==> r.value.mantissa >= 0
  {
    if |s| > 0 && s[0] == '-' then
      var u := ParseUnsigned(s[1..]);
      if u.None? then None else Some(Decimal(-u.value.mantissa, u.value.scale))
    else ParseUnsigned(s)
  }

  /** No step mismatch: the value is a whole number. */
  predicate IsWhole(d: Decimal) {
    d.mantissa % Pow10(d.scale) == 0
  }

  /** The integer part, which for a whole value is the value itself. */
  function WholePart(d: Decimal): int {
    d.mantissa / Pow10(d.scale)
  }

  /**
   * The field is filled in, is a number, is whole and lies within [lo, hi].
   * A value with a fractional part already fails the step check, so the
   * range check only ever compares whole numbers.
   */
  predicate NumberFieldValid(s: string, lo: int, hi: int) {
    var p := ParseNumber(s);
    p.Some? && IsWhole(p.value) && lo <= WholePart(p.value) <= hi
  }

  // ---------------------------------------------------------------------------
  // Rendering whole numbers, the partner of parsing

  function DigitChar(d: nat): char
    requires d < 10
  {
    ('0' as int + d) as char
  }

  function NatString(n: nat): string
    decreases n
  {
    if n < 10 then [DigitChar(n)] else NatString(n / 10) + [DigitChar(n % 10)]
  }

  function IntString(n: int): string {
    if n < 0 then "-" + NatString(-n) else NatString(n)
  }

  lemma {:induction false} NatStringDigits(n: nat)
    ensures |NatString(n)| > 0 && AllDigits(NatString(n))
    ensures DigitsValue(NatString(n)) == n
    decreases n
  {
    if n >= 10 {
      NatStringDigits(n / 10);
      var s := NatString(n);
      assert s[..|s| - 1] == NatString(n / 10);
    }
  }

  lemma {:induction false} NoDotNoSplit(s: string)
    requires '.' !in s
    ensures SplitAtDot(s) == Split(s, None)
    decreases |s|
  {
    if s != [] {
      assert '.' !in s[1..];
      NoDotNoSplit(s[1..]);
    }
  }

  /** The digits of a natural number parse back to it, with no fractional digits. */
  lemma ParseNatString(m: nat)
    ensures |NatString(m)| > 0 && IsDigit(NatString(m)[0])
    ensures ParseUnsigned(NatString(m)) == Some(Decimal(m, 0))
  {
    NatStringDigits(m);
    var s := NatString(m);
    assert '.' !in s by {
      forall i | 0 <= i < |s| ensures s[i] != '.' {
        assert IsDigit(s[i]);
      }
    }
    NoDotNoSplit(s);
    assert IsDigit(s[0]);
  }

  /** The rendering of a whole number parses back to it, with no fractional digits. */
  lemma ParseIntString(n: int)
    ensures ParseNumber(IntString(n)) == Some(Decimal(n, 0))
  {
    if n < 0 {
      ParseNatString(-n);
      assert IntString(n)[1..] == NatString(-n);
    } else {
      ParseNatString(n);
    }
  }

  /** For a whole-number rendering the field constraint is exactly the range check. */
  lemma IntStringValid(n: int, lo: int, hi: int)
    ensures NumberFieldValid(IntString(n), lo, hi) <==> lo <= n <= hi
  {
    ParseIntString(n);
  }

  /** A valid field denotes a whole number inside the range. */
  lemma ValidIsWholeInRange(s: string, lo: int, hi: int)
    requires NumberFieldValid(s, lo, hi)
    ensures var d := ParseNumber(s).value;
      d.mantissa == WholePart(d) * Pow10(d.scale) && lo <= WholePart(d) <= hi
  {
    var d := ParseNumber(s).value;
    ExactDivision(d.mantissa, Pow10(d.scale));
  }

  lemma ExactDivision(m: int, p: int)
    requires p >= 1 && m % p == 0
    ensures m == (m / p) * p
  {
  }

  /** An empty field is missing, whatever the range. */
  lemma EmptyIsInvalid(lo: int, hi: int)
    ensures !NumberFieldValid("", lo, hi)
  {
  }

  /** A trailing zero fraction is still whole. */
  lemma WholeFractionExample()
    ensures NumberFieldValid("45.0", -90, 90)
  {
    assert SplitAtDot("45.0") == Split("45", Some("0"));
    assert DigitsValue("45") == 45 by {
      assert "45"[..1] == "4";
    }
    assert DigitsValue("0") == 0;
    assert ParseNumber("45.0") == Some(Decimal(450, 1));
  }

  /** A nonzero fraction is a step mismatch. */
  lemma StepMismatchExample()
    ensures !NumberFieldValid("45.5", -90, 90)
  {
    assert SplitAtDot("45.5") == Split("45", Some("5"));
    assert DigitsValue("45") == 45 by {
      assert "45"[..1] == "4";
    }
    assert DigitsValue("5") == 5;
    assert ParseNumber("45.5") == Some(Decimal(455, 1));
  }
}
