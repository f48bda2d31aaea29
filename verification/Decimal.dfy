/** Decimal printing of non-negative integers and JavaScript's `Number.parseInt(text, 10)`.
  Fresh builder ids and the provider's response ids both rest on the facts proved here. */
module Decimal {
  import opened Options

  predicate IsDigit(c: char) {
    '0' <= c <= '9'
  }

  predicate AllDigits(s: string) {
    forall k :: 0 <= k < |s| ==> IsDigit(s[k])
  }

  function DigitValue(c: char): (v: nat)
    requires IsDigit(c)
    ensures v < 10
  {
    c as int - '0' as int
  }

  function DigitChar(d: nat): (c: char)
    requires d < 10
    ensures IsDigit(c) && DigitValue(c) == d
  {
    ('0' as int + d) as char
  }

  function Print(n: nat): string {
    if n < 10 then [DigitChar(n)] else Print(n / 10) + [DigitChar(n % 10)]
  }

  function Value(s: string): nat
    requires AllDigits(s)
  {
    if s == [] then 0 else Value(s[..|s| - 1]) * 10 + DigitValue(s[|s| - 1])
  }

  lemma {:induction false} PrintRoundTrip(n: nat)
    ensures Print(n) != [] && AllDigits(Print(n)) && Value(Print(n)) == n
  {
    if n < 10 {
      assert Print(n)[..0] == [];
    } else {
      PrintRoundTrip(n / 10);
      assert Print(n)[..|Print(n)| - 1] == Print(n / 10);
    }
  }

  lemma PrintInjective(m: nat, n: nat)
    requires Print(m) == Print(n)
    ensures m == n
  {
    PrintRoundTrip(m);
    PrintRoundTrip(n);
  }

  /** A name, a dash and a printed number determine both the name and the number:
    a printed number holds no dash, so the last dash is the separator. */
  lemma DashedInjective(a: string, m: nat, b: string, n: nat)
    requires a + "-" + Print(m) == b + "-" + Print(n)
    ensures a == b && m == n
  {
    PrintRoundTrip(m);
    PrintRoundTrip(n);
    var left, right := a + "-" + Print(m), b + "-" + Print(n);
    assert left[|a|] == '-' && right[|b|] == '-';
    assert forall k :: |a| < k < |left| ==> IsDigit(left[k]);
    assert forall k :: |b| < k < |right| ==> IsDigit(right[k]);
    assert |a| == |b|;
    assert left[..|a|] == a && right[..|b|] == b;
    assert left[|a| + 1..] == Print(m) && right[|b| + 1..] == Print(n);
    PrintInjective(m, n);
  }

  /** The white space that `parseInt` skips. */
  predicate IsSpace(c: char) {
    || '\t' <= c <= '\r'
    || c == ' ' || c == '\U{A0}' || c == '\U{1680}'
    || '\U{2000}' <= c <= '\U{200A}'
    || c == '\U{2028}' || c == '\U{2029}' || c == '\U{202F}' || c == '\U{205F}'
    || c == '\U{3000}' || c == '\U{FEFF}'
  }

  function SkipSpaces(s: string): string {
    if s != [] && IsSpace(s[0]) then SkipSpaces(s[1..]) else s
  }

  function LeadingDigits(s: string): (d: string)
    ensures AllDigits(d)
  {
    if s != [] && IsDigit(s[0]) then [s[0]] + LeadingDigits(s[1..]) else []
  }

  function ParseInt(s: string): Option<int> {
    var t := SkipSpaces(s);
    var negative := t != [] && t[0] == '-';
    var digits := LeadingDigits(if t != [] && (t[0] == '-' || t[0] == '+') then t[1..] else t);
    if digits == [] then None
    else
      var magnitude: int := Value(digits);
      Some(if negative then -magnitude else magnitude)
  }

  lemma {:induction false} LeadingDigitsOfDigits(s: string)
    requires AllDigits(s)
    ensures LeadingDigits(s) == s
  {
    if s != [] {
      LeadingDigitsOfDigits(s[1..]);
    }
  }

  lemma ParseIntPrint(n: nat)
    ensures ParseInt(Print(n)) == Some(n)
  {
    PrintRoundTrip(n);
    LeadingDigitsOfDigits(Print(n));
    assert IsDigit(Print(n)[0]);
  }
}
