/** Decimal text of integers, as JavaScript prints (`String`) and reads (`parseInt`) it. */
module Decimal {
  import opened Wrappers

  predicate IsDigit(c: char) { '0' <= c <= '9' }

  predicate AllDigits(s: string) { forall i :: 0 <= i < |s| ==> IsDigit(s[i]) }

  function DigitChar(d: nat): (c: char)
    requires d < 10
    ensures IsDigit(c) && DigitValue(c) == d
  {
    ('0' as int + d) as char
  }

  function DigitValue(c: char): (d: nat)
    requires IsDigit(c)
    ensures d < 10
  {
    c as int - '0' as int
  }

  /** The digits of `n`, most significant first. */
  function Digits(n: nat): (s: string)
    ensures s != "" && AllDigits(s)
  {
    if n < 10 then [DigitChar(n)] else Digits(n / 10) + [DigitChar(n % 10)]
  }

  /** The number a digit string denotes. */
  function Value(s: string): nat
    requires AllDigits(s)
  {
    if s == "" then 0 else 10 * Value(s[..|s| - 1]) + DigitValue(s[|s| - 1])
  }

  function Pow10(k: nat): (p: nat)
    ensures p >= 1
  {
    if k == 0 then 1 else 10 * Pow10(k - 1)
  }

  lemma {:induction false} ValueOfDigits(n: nat)
    ensures Value(Digits(n)) == n
  {
    if n >= 10 {
      ValueOfDigits(n / 10);
      var s := Digits(n);
      assert s[..|s| - 1] == Digits(n / 10);
    }
  }

  lemma MulTen(x: nat, p: nat)
    ensures x * (10 * p) == 10 * (x * p)
  {
  }

  /** One more digit shifts both halves of a number. */
  lemma Shift(x: nat, y: nat, p: nat, q: nat, d: nat)
    requires q == 10 * p
    ensures 10 * (x * p + y) + d == x * q + (10 * y + d)
  {
    MulTen(x, p);
  }

  lemma ValueSnoc(s: string, c: char)
    requires AllDigits(s) && IsDigit(c)
    ensures AllDigits(s + [c]) && Value(s + [c]) == 10 * Value(s) + DigitValue(c)
  {
    assert (s + [c])[..|s|] == s;
  }

  lemma {:induction false} ValueConcat(a: string, b: string)
    requires AllDigits(a) && AllDigits(b)
    ensures AllDigits(a + b) && Value(a + b) == Value(a) * Pow10(|b|) + Value(b)
  {
    if b == "" {
      assert a + b == a;
    } else {
      var b' := b[..|b| - 1];
      ValueConcat(a, b');
      var c := b[|b| - 1];
      ValueSnoc(a + b', c);
      ValueSnoc(b', c);
      assert a + b == a + b' + [c] && b == b' + [c];
      Shift(Value(a), Value(b'), Pow10(|b'|), Pow10(|b|), DigitValue(c));
    }
  }

  /** The characters that `trim` removes and that `parseInt` skips. */
  predicate IsSpace(c: char) {
    '\t' <= c <= '\r' || c == ' ' || c == '\U{00a0}' || c == '\U{1680}' || '\U{2000}' <= c <= '\U{200a}' ||
    c == '\U{2028}' || c == '\U{2029}' || c == '\U{202f}' || c == '\U{205f}' || c == '\U{3000}' || c == '\U{feff}'
  }

  /** White space and line terminators of ECMAScript, by character code. */
  lemma WhiteSpaceIs(c: char)
    ensures IsSpace(c) <==>
            var n := c as int;
            9 <= n <= 13 || 8192 <= n <= 8202 || n in {32, 160, 5760, 8232, 8233, 8239, 8287, 12288, 65279}
  {
  }

  function SkipSpaces(s: string): string {
    if s != "" && IsSpace(s[0]) then SkipSpaces(s[1..]) else s
  }

  function LeadingDigits(s: string): (d: string)
    ensures AllDigits(d)
  {
    if s != "" && IsDigit(s[0]) then [s[0]] + LeadingDigits(s[1..]) else ""
  }

  /** parseInt(s, 10); None is NaN. */
  function ParseInt(s: string): Option<int> {
    var t := SkipSpaces(s);
    var negative := t != "" && t[0] == '-';
    var signed := t != "" && (t[0] == '-' || t[0] == '+');
    var d := LeadingDigits(if signed then t[1..] else t);
    var v: int := if d == "" then 0 else Value(d);
    if d == "" then None else Some(if negative then -v else v)
  }

  lemma {:induction false} LeadingDigitsAll(s: string)
    requires AllDigits(s)
    ensures LeadingDigits(s) == s
  {
    if s != "" {
      LeadingDigitsAll(s[1..]);
      assert [s[0]] + s[1..] == s;
    }
  }

  lemma ParseIntOfDigits(n: nat)
    ensures ParseInt(Digits(n)) == Some(n)
  {
    var s := Digits(n);
    assert IsDigit(s[0]);
    LeadingDigitsAll(s);
    ValueOfDigits(n);
  }

  lemma {:induction false} SkipSpacesPrefix(pre: string, rest: string)
    requires forall i :: 0 <= i < |pre| ==> IsSpace(pre[i])
    requires rest != "" && !IsSpace(rest[0])
    ensures SkipSpaces(pre + rest) == rest
  {
    if pre == "" {
      assert pre + rest == rest;
    } else {
      assert (pre + rest)[1..] == pre[1..] + rest;
      SkipSpacesPrefix(pre[1..], rest);
    }
  }

  lemma {:induction false} LeadingDigitsPrefix(d: string, rest: string)
    requires AllDigits(d) && (rest == "" || !IsDigit(rest[0]))
    ensures LeadingDigits(d + rest) == d
  {
    if d == "" {
      assert d + rest == rest;
    } else {
      assert (d + rest)[1..] == d[1..] + rest;
      LeadingDigitsPrefix(d[1..], rest);
      assert [d[0]] + d[1..] == d;
    }
  }

  /** White space, a sign and digits are read as the signed number, whatever follows the digits. */
  lemma ParseIntReading(pre: string, sign: string, d: string, rest: string)
    requires forall i :: 0 <= i < |pre| ==> IsSpace(pre[i])
    requires sign in {"", "-", "+"} && d != "" && AllDigits(d) && (rest == "" || !IsDigit(rest[0]))
    ensures ParseInt(pre + (sign + (d + rest))) == Some((if sign == "-" then -1 else 1) * (Value(d) as int))
  {
    var body := d + rest;
    assert IsDigit(body[0]);
    var t := sign + body;
    SkipSpacesPrefix(pre, t);
    LeadingDigitsPrefix(d, rest);
    if sign == "" { assert t == body; } else { assert t[1..] == body; }
  }
}
