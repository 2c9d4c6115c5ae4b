/** The human-readable amount of the CSV export (routes/payments.ts). */
module HumanAmount {
  import opened Decimal

  const STROOPS_PER_UNIT: nat := 10_000_000

  function Zeros(k: nat): (s: string)
    ensures |s| == k && AllDigits(s) && Value(s) == 0
  {
    if k == 0 then "" else
      var s := Zeros(k - 1) + "0";
      assert s[..|s| - 1] == Zeros(k - 1);
      s
  }

  /** Filled up to seven digits with zeros in front. */
  function PadStart7(s: string): string { if |s| >= 7 then s else Zeros(7 - |s|) + s }

  /** Without the zeros at the end. */
  function StripTrailingZeros(s: string): string {
    if s != "" && s[|s| - 1] == '0' then StripTrailingZeros(s[..|s| - 1]) else s
  }

  function FractionText(f: nat): string {
    var t := StripTrailingZeros(PadStart7(Digits(f)));
    if t == "" then "0" else t
  }

  function Abs(n: int): nat { if n < 0 then -n else n }

  function ToHumanAmount(n: int): string {
    (if n < 0 then "-" else "") + Digits(Abs(n) / STROOPS_PER_UNIT) + "." + FractionText(Abs(n) % STROOPS_PER_UNIT)
  }

  // ---------------------------------------------------------------------------
  // What a decimal denotes
  // ---------------------------------------------------------------------------

  function DotIndex(s: string): (i: nat)
    ensures i <= |s| && (i < |s| ==> s[i] == '.') && forall j :: 0 <= j < i ==> s[j] != '.'
  {
    if s == "" || s[0] == '.' then 0 else 1 + DotIndex(s[1..])
  }

  function Unsigned(s: string): string { if s != "" && s[0] == '-' then s[1..] else s }

  function WholePart(s: string): string { Unsigned(s)[..DotIndex(Unsigned(s))] }

  function FractionPart(s: string): string {
    var u := Unsigned(s);
    if DotIndex(u) < |u| then u[DotIndex(u) + 1..] else ""
  }

  /** The text is a decimal: digits, a point, digits, perhaps after a minus sign. */
  predicate IsDecimal(s: string) {
    AllDigits(WholePart(s)) && WholePart(s) != "" && AllDigits(FractionPart(s)) && FractionPart(s) != ""
  }

  /** The number a decimal denotes. */
  function Denotes(s: string): real
    requires IsDecimal(s)
  {
    var magnitude := Value(WholePart(s)) as real + Value(FractionPart(s)) as real / Pow10(|FractionPart(s)|) as real;
    if s[0] == '-' then -magnitude else magnitude
  }

  // ---------------------------------------------------------------------------
  // Proof
  // ---------------------------------------------------------------------------

  lemma {:induction false} DigitsLength(n: nat, k: nat)
    requires k >= 1 && n < Pow10(k)
    ensures |Digits(n)| <= k
  {
    if n >= 10 {
      DigitsLength(n / 10, k - 1);
    }
  }

  lemma Pow7()
    ensures Pow10(7) == STROOPS_PER_UNIT
  {
    assert Pow10(1) == 10 && Pow10(2) == 100 && Pow10(3) == 1000;
    assert Pow10(5) == 100_000;
  }

  lemma DigitsAtMost7(f: nat)
    requires f < STROOPS_PER_UNIT
    ensures |Digits(f)| <= 7
  {
    Pow7();
    DigitsLength(f, 7);
  }

  lemma PadStart7Value(f: nat)
    requires |Digits(f)| <= 7
    ensures |PadStart7(Digits(f))| == 7 && AllDigits(PadStart7(Digits(f))) && Value(PadStart7(Digits(f))) == f
  {
    ValueOfDigits(f);
    PadValue(7 - |Digits(f)|, Digits(f));
  }

  lemma PadValue(k: nat, s: string)
    requires AllDigits(s)
    ensures AllDigits(Zeros(k) + s) && Value(Zeros(k) + s) == Value(s)
  {
    ValueConcat(Zeros(k), s);
    assert 0 * Pow10(|s|) == 0;
  }

  lemma {:induction false} StripKeepsValue(s: string)
    requires AllDigits(s)
    ensures var t := StripTrailingZeros(s);
            && |t| <= |s| && AllDigits(t) && Value(s) == Value(t) * Pow10(|s| - |t|)
            && (t != "" ==> t[|t| - 1] != '0')
  {
    if s != "" && s[|s| - 1] == '0' {
      var s' := s[..|s| - 1];
      StripKeepsValue(s');
      var t := StripTrailingZeros(s');
      MulTen(Value(t), Pow10(|s'| - |t|));
    }
  }

  lemma TenTimes(x: nat, y: nat)
    ensures (10 * x) * y == 10 * (x * y)
  {
  }

  lemma {:induction false} PowAdd(a: nat, b: nat)
    ensures Pow10(a) * Pow10(b) == Pow10(a + b)
  {
    if a > 0 {
      PowAdd(a - 1, b);
      TenTimes(Pow10(a - 1), Pow10(b));
    }
  }

  lemma Fraction(x: nat, p: nat, q: nat, f: nat)
    requires p >= 1 && q >= 1 && p * q == STROOPS_PER_UNIT && x * q == f
    ensures x as real / p as real == f as real / STROOPS_PER_UNIT as real
  {
    var a, b, c := x as real, p as real, q as real;
    assert b * c == (p * q) as real;
    assert a * c == (x * q) as real;
    assert a / b == (a * c) / (b * c);
  }

  /** The fraction text denotes f / 10^7 and ends in a zero only when it is "0". */
  lemma FractionTextValue(f: nat)
    requires f < STROOPS_PER_UNIT
    ensures var t := FractionText(f);
            && t != "" && AllDigits(t) && (t == "0" || t[|t| - 1] != '0')
            && Value(t) as real / Pow10(|t|) as real == f as real / STROOPS_PER_UNIT as real
  {
    DigitsAtMost7(f);
    PadStart7Value(f);
    var s := PadStart7(Digits(f));
    StripKeepsValue(s);
    StrippedDenotes(s, StripTrailingZeros(s));
  }

  /** Dropping zeros after the point does not change the fraction; nothing left is written "0". */
  lemma StrippedDenotes(s: string, t: string)
    requires |s| == 7 && AllDigits(s) && |t| <= 7 && AllDigits(t) && Value(s) == Value(t) * Pow10(7 - |t|)
    ensures var u := if t == "" then "0" else t;
            AllDigits(u) && Value(u) as real / Pow10(|u|) as real == Value(s) as real / STROOPS_PER_UNIT as real
  {
    Pow7();
    if t != "" {
      PowAdd(|t|, 7 - |t|);
      Fraction(Value(t), Pow10(|t|), Pow10(7 - |t|), Value(s));
    } else {
      assert Value("") == 0 && Value("0") == 0;
    }
  }

  lemma {:induction false} DotIndexAfterDigits(w: string, rest: string)
    requires AllDigits(w)
    ensures DotIndex(w + "." + rest) == |w|
  {
    if w != "" {
      assert (w + "." + rest)[1..] == w[1..] + "." + rest;
      DotIndexAfterDigits(w[1..], rest);
    }
  }

  lemma PartsOf(n: int)
    ensures WholePart(ToHumanAmount(n)) == Digits(Abs(n) / STROOPS_PER_UNIT)
    ensures FractionPart(ToHumanAmount(n)) == FractionText(Abs(n) % STROOPS_PER_UNIT)
    ensures ToHumanAmount(n) != "" && (ToHumanAmount(n)[0] == '-' <==> n < 0)
  {
    PartsOfText(n < 0, Digits(Abs(n) / STROOPS_PER_UNIT), FractionText(Abs(n) % STROOPS_PER_UNIT));
  }

  lemma PartsOfText(negative: bool, w: string, t: string)
    requires AllDigits(w) && w != ""
    ensures var s := (if negative then "-" else "") + w + "." + t;
            s != "" && (s[0] == '-' <==> negative) && WholePart(s) == w && FractionPart(s) == t
  {
    var s := (if negative then "-" else "") + w + "." + t;
    var u := w + "." + t;
    assert IsDigit(w[0]);
    if negative { assert s[1..] == u; } else { assert s == u; }
    DotIndexAfterDigits(w, t);
    assert u[..|w|] == w && u[|w| + 1..] == t;
  }

  lemma {:induction false} NoLeadingZero(n: nat)
    ensures Digits(n) == "0" || Digits(n)[0] != '0'
    ensures n > 0 ==> Digits(n)[0] != '0'
  {
    if n >= 10 { NoLeadingZero(n / 10); }
  }

  /** For every amount the printed decimal denotes exactly amount / 10^7, with no leading or trailing
      zero beyond a lone "0" and a minus sign exactly for negative amounts. */
  lemma HumanAmountIsExact(n: int)
    ensures IsDecimal(ToHumanAmount(n))
    ensures Denotes(ToHumanAmount(n)) == n as real / 10_000_000.0
    ensures var t := FractionPart(ToHumanAmount(n)); t == "0" || t[|t| - 1] != '0'
    ensures var w := WholePart(ToHumanAmount(n)); w == "0" || w[0] != '0'
    ensures ToHumanAmount(n)[0] == '-' <==> n < 0
  {
    NoLeadingZero(Abs(n) / STROOPS_PER_UNIT);
    PartsOf(n);
    var w, f := Abs(n) / STROOPS_PER_UNIT, Abs(n) % STROOPS_PER_UNIT;
    FractionTextValue(f);
    ValueOfDigits(w);
    assert Abs(n) == w * STROOPS_PER_UNIT + f;
    assert w as real + f as real / STROOPS_PER_UNIT as real == Abs(n) as real / STROOPS_PER_UNIT as real;
  }

  /** A reader can recover the amount, so different amounts print differently. */
  lemma HumanAmountInjective(m: int, n: int)
    requires ToHumanAmount(m) == ToHumanAmount(n)
    ensures m == n
  {
    HumanAmountIsExact(m);
    HumanAmountIsExact(n);
  }
}
