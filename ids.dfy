/** Decimal rendering of counters and the zero padding (`String(n).padStart(w, "0")`)
    from which the store builds record identifiers. */
module Ids {

  predicate IsDigit(c: char) {
    '0' <= c <= '9'
  }

  predicate AllDigits(s: string) {
    forall i :: 0 <= i < |s| ==> IsDigit(s[i])
  }

  function DigitChar(d: nat): (c: char)
    requires d < 10
    ensures IsDigit(c)
  {
    (48 + d) as char
  }

  function DigitValue(c: char): (d: nat)
    requires IsDigit(c)
    ensures d < 10
  {
    (c as int) - 48
  }

  /** `String(n)` for a non-negative integer: its decimal digits, most significant first. */
  function Decimal(n: nat): (r: string)
    ensures 1 <= |r| && AllDigits(r)
    ensures n < 10 <==> |r| == 1
    ensures n > 0 ==> r[0] != '0'
    decreases n
  {
    if n < 10 then [DigitChar(n)] else Decimal(n / 10) + [DigitChar(n % 10)]
  }

  /** The number a string of decimal digits denotes; leading zeros contribute nothing. */
  function Value(s: string): nat
    requires AllDigits(s)
    decreases |s|
  {
    if s == [] then 0 else Value(s[..|s| - 1]) * 10 + DigitValue(s[|s| - 1])
  }

  function Zeros(k: nat): (r: string)
    ensures |r| == k && forall i :: 0 <= i < k ==> r[i] == '0'
  {
    seq(k, _ => '0')
  }

  /** `s.padStart(width, "0")`: left padding with '0' up to `width` characters, never truncating. */
  function ZeroPad(s: string, width: nat): (r: string)
    ensures |r| == if |s| >= width then |s| else width
    ensures r[|r| - |s|..] == s
    ensures forall i :: 0 <= i < |r| - |s| ==> r[i] == '0'
  {
    if |s| >= width then s else Zeros(width - |s|) + s
  }

  /** `String(n).padStart(width, "0")`. */
  function PadNumber(n: nat, width: nat): string {
    ZeroPad(Decimal(n), width)
  }

  lemma {:induction false} ValueOfDecimal(n: nat)
    ensures Value(Decimal(n)) == n
    decreases n
  {
    var r := Decimal(n);
    if n >= 10 {
      var hi := Decimal(n / 10);
      assert r == hi + [DigitChar(n % 10)];
      assert r[..|r| - 1] == hi;
      ValueOfDecimal(n / 10);
    }
  }

  lemma {:induction false} ValueOfZeros(k: nat)
    ensures AllDigits(Zeros(k)) && Value(Zeros(k)) == 0
  {
    if k > 0 {
      assert Zeros(k)[..k - 1] == Zeros(k - 1);
      ValueOfZeros(k - 1);
    }
  }

  lemma {:induction false} ValueIgnoresLeadingZeros(k: nat, s: string)
    requires AllDigits(s)
    ensures AllDigits(Zeros(k) + s) && Value(Zeros(k) + s) == Value(s)
    decreases |s|
  {
    var t := Zeros(k) + s;
    if s == [] {
      assert t == Zeros(k);
      ValueOfZeros(k);
    } else {
      assert t[..|t| - 1] == Zeros(k) + s[..|s| - 1];
      ValueIgnoresLeadingZeros(k, s[..|s| - 1]);
    }
  }

  /** Reading a padded counter back gives the counter: padding loses nothing. */
  lemma PadNumberValue(n: nat, width: nat)
    ensures AllDigits(PadNumber(n, width)) && Value(PadNumber(n, width)) == n
  {
    var d := Decimal(n);
    ValueOfDecimal(n);
    if |d| < width {
      ValueIgnoresLeadingZeros(width - |d|, d);
    }
  }

  lemma PadNumberInjective(a: nat, b: nat, width: nat)
    requires PadNumber(a, width) == PadNumber(b, width)
    ensures a == b
  {
    PadNumberValue(a, width);
    PadNumberValue(b, width);
  }

  lemma PrefixCancel(p: string, x: string, y: string)
    requires p + x == p + y
    ensures x == y
  {
    assert x == (p + x)[|p|..];
    assert y == (p + y)[|p|..];
  }

  /** In `p + "-" + a` with `a` all digits, the last '-' sits just before `a`. */
  lemma DashBeforeDigits(p: string, a: string)
    requires AllDigits(a)
    ensures var t := p + "-" + a;
      t[|t| - |a| - 1] == '-' && t[|t| - |a|..] == a &&
      forall k :: |t| - |a| <= k < |t| ==> IsDigit(t[k])
  {
    var t := p + "-" + a;
    forall k | |t| - |a| <= k < |t| ensures IsDigit(t[k]) {
      assert t[k] == a[k - (|t| - |a|)];
    }
  }

  /** Two strings `p + "-" + a` and `q + "-" + b` with digit tails `a`, `b` that are equal have
      equal tails, whatever their heads. */
  lemma DigitTailsAgree(p: string, a: string, q: string, b: string)
    requires AllDigits(a) && AllDigits(b) && p + "-" + a == q + "-" + b
    ensures a == b
  {
    DashBeforeDigits(p, a);
    DashBeforeDigits(q, b);
    if |a| != |b| {
      assert false;
    }
  }

  /** Identifiers made of one prefix and a padded counter are equal only for equal counters. */
  lemma PrefixedPadInjective(prefix: string, a: nat, b: nat, width: nat)
    requires prefix + PadNumber(a, width) == prefix + PadNumber(b, width)
    ensures a == b
  {
    PrefixCancel(prefix, PadNumber(a, width), PadNumber(b, width));
    PadNumberInjective(a, b, width);
  }
}
