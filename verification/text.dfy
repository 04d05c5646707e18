/** The string operations the forms and the team directory rely on: the
    `/\D/g` digit filter, JavaScript's `Number(...)`, `parseFloat`, `parseInt`
    and `String(...)` on the values the forms produce, `split('T')[0]`,
    `toLowerCase()` and `includes`. */
module Text {
  import opened Wrappers

  predicate IsDigit(c: char) { '0' <= c <= '9' }

  predicate AllDigits(s: string) { forall i :: 0 <= i < |s| ==> IsDigit(s[i]) }

  function DigitChar(d: nat): (c: char)
    requires d < 10
    ensures IsDigit(c) && c as int - '0' as int == d
  {
    ('0' as int + d) as char
  }

  /** `s.replace(/\D/g, "")`: every character outside 0-9 removed.  With
      `DigitsOnlyAppend`, the single-character case fixes the result for
      every input. */
  function DigitsOnly(s: string): (r: string)
    ensures AllDigits(r) && |r| <= |s|
    ensures |s| == 1 ==> r == (if IsDigit(s[0]) then s else "")
  {
    if |s| == 0 then ""
    else if IsDigit(s[|s| - 1]) then DigitsOnly(s[..|s| - 1]) + [s[|s| - 1]]
    else DigitsOnly(s[..|s| - 1])
  }

  /** The number a digit string denotes, leading zeros allowed. */
  function Value(ds: string): nat
    requires AllDigits(ds)
  {
    if |ds| == 0 then 0 else 10 * Value(ds[..|ds| - 1]) + (ds[|ds| - 1] as int - '0' as int)
  }

  /** `String(n)` for a natural number: its decimal digits, no leading zero. */
  function NatToString(n: nat): (r: string)
    ensures AllDigits(r) && |r| > 0
    ensures |r| > 1 ==> r[0] != '0'
  {
    if n < 10 then [DigitChar(n)] else NatToString(n / 10) + [DigitChar(n % 10)]
  }

  function Pow10(n: nat): (r: nat)
    ensures r > 0
  {
    if n == 0 then 1 else 10 * Pow10(n - 1)
  }

  /** Length of the longest all-digit prefix. */
  function LeadingDigits(s: string): (r: nat)
    ensures r <= |s| && AllDigits(s[..r])
    ensures r < |s| ==> !IsDigit(s[r])
  {
    if |s| == 0 || !IsDigit(s[0]) then 0
    else
      var n := LeadingDigits(s[1..]);
      assert s[..1 + n] == [s[0]] + s[1..][..n];
      1 + n
  }

  /** `parseFloat(s)` on the shape `digits[.digits]`: the longest such prefix is
      read and the rest ignored; `None` stands for `NaN` (no leading digit). */
  function ParseFloat(s: string): Option<real>
  {
    var i := LeadingDigits(s);
    if i == 0 then None
    else if i < |s| && s[i] == '.' then
      var f := LeadingDigits(s[i + 1..]);
      Some(Value(s[..i]) as real + Fraction(s[i + 1..][..f]))
    else Some(Value(s[..i]) as real)
  }

  /** The value of the digits after a decimal point. */
  function Fraction(ds: string): real
    requires AllDigits(ds)
  {
    Value(ds) as real / Pow10(|ds|) as real
  }

  /** How many characters `ParseFloat` reads. */
  function DecimalLength(s: string): (r: nat)
    ensures r <= |s|
  {
    var i := LeadingDigits(s);
    if i == 0 then 0
    else if i < |s| && s[i] == '.' then i + 1 + LeadingDigits(s[i + 1..])
    else i
  }

  /** `Number(s)`: the empty string is 0, otherwise the whole string must be a
      decimal; `None` stands for `NaN`. */
  function NumberOf(s: string): (r: Option<real>)
    ensures |s| > 0 && r.Some? ==> r == ParseFloat(s)
  {
    if |s| == 0 then Some(0.0)
    else if DecimalLength(s) == |s| then ParseFloat(s)
    else None
  }

  /** `parseInt(s)` on unsigned decimals; `None` stands for `NaN`. */
  function ParseInt(s: string): (r: Option<nat>)
    ensures r.None? <==> (|s| == 0 || !IsDigit(s[0]))
    ensures r.Some? ==> r.value == Value(s[..LeadingDigits(s)])
  {
    var i := LeadingDigits(s);
    if i == 0 then None else Some(Value(s[..i]))
  }

  /** `String(c / 100)` for a whole number of cents, as JavaScript prints it:
      no trailing zeros in the fraction and no fraction at all for whole
      amounts (`150` cents prints `1.5`, `100` prints `1`). */
  function ShowCents(c: nat): string
  {
    var whole := NatToString(c / 100);
    var cents := c % 100;
    if cents == 0 then whole
    else if cents % 10 == 0 then whole + "." + [DigitChar(cents / 10)]
    else whole + "." + [DigitChar(cents / 10), DigitChar(cents % 10)]
  }

  /** `s.split(c)[0]`: the text before the first `c`, or all of `s`. */
  function BeforeFirst(s: string, c: char): (r: string)
    ensures r <= s && c !in r
    ensures |r| == |s| || s[|r|] == c
  {
    if |s| == 0 || s[0] == c then "" else [s[0]] + BeforeFirst(s[1..], c)
  }

  /** `toLowerCase()` on one character, for the Basic Latin and Latin-1
      letters (A-Z and the accented capitals from U+00C0 to U+00DE, except
      the multiplication sign U+00D7). */
  function Lower(c: char): char
  {
    if 'A' <= c <= 'Z' || ('À' <= c <= 'Þ' && c != '×') then (c as int + 32) as char
    else c
  }

  function LowerString(s: string): (r: string)
    ensures |r| == |s|
    ensures forall i :: 0 <= i < |s| ==> r[i] == Lower(s[i])
  {
    if |s| == 0 then "" else [Lower(s[0])] + LowerString(s[1..])
  }

  /** `hay.includes(needle)`. */
  predicate Contains(hay: string, needle: string)
  {
    needle <= hay || (|hay| > 0 && Contains(hay[1..], needle))
  }

  // ---------------------------------------------------------------------------
  // Lemmas

  /** Reading back what `NatToString` wrote gives the number. */
  lemma {:induction false} ValueOfNatToString(n: nat)
    ensures Value(NatToString(n)) == n
  {
    if n >= 10 {
      ValueOfNatToString(n / 10);
      var s := NatToString(n);
      assert s[..|s| - 1] == NatToString(n / 10);
    }
  }

  /** The digit filter keeps each part's digits, in order. */
  lemma {:induction false} DigitsOnlyAppend(a: string, b: string)
    ensures DigitsOnly(a + b) == DigitsOnly(a) + DigitsOnly(b)
    decreases |b|
  {
    if |b| == 0 {
      assert a + b == a;
    } else {
      assert (a + b)[..|a + b| - 1] == a + b[..|b| - 1];
      DigitsOnlyAppend(a, b[..|b| - 1]);
    }
  }

  /** A string of digits passes the filter unchanged. */
  lemma {:induction false} DigitsOnlyKeepsDigits(s: string)
    requires AllDigits(s)
    ensures DigitsOnly(s) == s
    decreases |s|
  {
    if |s| > 0 {
      DigitsOnlyKeepsDigits(s[..|s| - 1]);
    }
  }

  lemma {:induction false} LeadingDigitsOfDigitsThen(a: string, b: string)
    requires AllDigits(a)
    requires |b| == 0 || !IsDigit(b[0])
    ensures LeadingDigits(a + b) == |a|
    decreases |a|
  {
    if |a| > 0 {
      assert (a + b)[1..] == a[1..] + b;
      LeadingDigitsOfDigitsThen(a[1..], b);
    }
  }

  /** `parseInt(String(n) + rest)` gives `n` back when `rest` does not go on
      with a digit. */
  lemma ParseIntReadsNatToString(n: nat, rest: string)
    requires |rest| == 0 || !IsDigit(rest[0])
    ensures ParseInt(NatToString(n) + rest) == Some(n)
  {
    var w := NatToString(n);
    LeadingDigitsOfDigitsThen(w, rest);
    assert (w + rest)[..|w|] == w;
    ValueOfNatToString(n);
  }

  /** A digit string alone reads as its value, whole. */
  lemma ReadWhole(w: string)
    requires AllDigits(w) && |w| > 0
    ensures ParseFloat(w) == Some(Value(w) as real)
    ensures DecimalLength(w) == |w|
  {
    LeadingDigitsOfDigitsThen(w, "");
    assert w + "" == w;
    assert w[..|w|] == w;
  }

  /** In `w.f` the whole part is `w` and the fraction digits are all of `f`. */
  lemma SplitWholeDotFraction(w: string, f: string)
    requires AllDigits(w) && |w| > 0 && AllDigits(f)
    ensures var s := w + "." + f;
      && LeadingDigits(s) == |w| && s[..|w|] == w && s[|w|] == '.'
      && s[|w| + 1..] == f && LeadingDigits(f) == |f| && f[..|f|] == f
  {
    var s := w + "." + f;
    assert s == w + ("." + f);
    LeadingDigitsOfDigitsThen(w, "." + f);
    LeadingDigitsOfDigitsThen(f, "");
    assert f + "" == f;
  }

  /** `w.f` reads as `w + f / 10^|f|`, all of it. */
  lemma ReadWholeDotFraction(w: string, f: string)
    requires AllDigits(w) && |w| > 0 && AllDigits(f)
    ensures ParseFloat(w + "." + f) == Some(Value(w) as real + Fraction(f))
    ensures DecimalLength(w + "." + f) == |w + "." + f|
  {
    SplitWholeDotFraction(w, f);
  }

  lemma CentsArithmetic(c: nat)
    ensures c as real / 100.0 == (c / 100) as real + (c % 100) as real / 100.0
    ensures (c % 100) % 10 == 0 ==> ((c % 100) / 10) as real / 10.0 == (c % 100) as real / 100.0
  {
  }

  /** A whole amount prints without a fraction. */
  lemma WholeCentsRead(c: nat)
    requires c % 100 == 0
    ensures ParseFloat(ShowCents(c)) == Some(c as real / 100.0)
    ensures DecimalLength(ShowCents(c)) == |ShowCents(c)|
  {
    ValueOfNatToString(c / 100);
    CentsArithmetic(c);
    ReadWhole(NatToString(c / 100));
  }

  lemma OneDigitFraction(a: nat)
    requires a < 10
    ensures Fraction([DigitChar(a)]) == a as real / 10.0
  {
    var f := [DigitChar(a)];
    assert f[..0] == [];
    assert Value(f) == a;
    assert Pow10(|f|) == 10;
  }

  lemma TwoDigitFraction(a: nat, b: nat)
    requires a < 10 && b < 10
    ensures Fraction([DigitChar(a), DigitChar(b)]) == (10 * a + b) as real / 100.0
  {
    var f := [DigitChar(a), DigitChar(b)];
    assert f[..1] == [DigitChar(a)];
    assert [DigitChar(a)][..0] == [];
    assert Value([DigitChar(a)]) == a;
    assert Value(f) == 10 * a + b;
    assert Pow10(|f|) == 100;
  }

  /** A one-digit fraction reads as tenths. */
  lemma TenthsRead(c: nat)
    requires c % 100 != 0 && (c % 100) % 10 == 0
    ensures ParseFloat(ShowCents(c)) == Some(c as real / 100.0)
    ensures DecimalLength(ShowCents(c)) == |ShowCents(c)|
  {
    var cents := c % 100;
    var f := [DigitChar(cents / 10)];
    assert ShowCents(c) == NatToString(c / 100) + "." + f;
    ValueOfNatToString(c / 100);
    ReadWholeDotFraction(NatToString(c / 100), f);
    OneDigitFraction(cents / 10);
    CentsArithmetic(c);
  }

  /** A two-digit fraction reads as hundredths. */
  lemma HundredthsRead(c: nat)
    requires (c % 100) % 10 != 0
    ensures ParseFloat(ShowCents(c)) == Some(c as real / 100.0)
    ensures DecimalLength(ShowCents(c)) == |ShowCents(c)|
  {
    var cents := c % 100;
    var f := [DigitChar(cents / 10), DigitChar(cents % 10)];
    assert ShowCents(c) == NatToString(c / 100) + "." + f;
    ValueOfNatToString(c / 100);
    ReadWholeDotFraction(NatToString(c / 100), f);
    TwoDigitFraction(cents / 10, cents % 10);
    CentsArithmetic(c);
  }

  /** `parseFloat(String(c / 100))` and `Number(String(c / 100))` give back
      exactly `c / 100`: the text the currency inputs store reads back as the
      amount that was typed. */
  lemma ShowCentsRoundTrip(c: nat)
    ensures ParseFloat(ShowCents(c)) == Some(c as real / 100.0)
    ensures NumberOf(ShowCents(c)) == Some(c as real / 100.0)
  {
    if c % 100 == 0 {
      WholeCentsRead(c);
    } else if (c % 100) % 10 == 0 {
      TenthsRead(c);
    } else {
      HundredthsRead(c);
    }
  }

  /** The empty string occurs in every string. */
  lemma EmptyIsContained(hay: string)
    ensures Contains(hay, "")
  {
  }

  /** Lower-casing twice is lower-casing once. */
  lemma LowerStringIdempotent(s: string)
    ensures LowerString(LowerString(s)) == LowerString(s)
  {
  }
}
