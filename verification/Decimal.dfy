/** Decimal strings, zero padding and the order in which a sort puts strings. */
module Decimal {

  predicate IsDigit(c: char) {
    '0' <= c <= '9'
  }

  predicate AllDigits(s: string) {
    forall i :: 0 <= i < |s| ==> IsDigit(s[i])
  }

  function Digit(n: nat): (c: char)
    requires n < 10
    ensures IsDigit(c)
  {
    '0' + (n as char)
  }

  function DigitValue(c: char): (n: nat)
    requires IsDigit(c)
    ensures n < 10
  {
    (c - '0') as nat
  }

  /** The shortest decimal string of n. */
  function Digits(n: nat): (s: string)
    ensures s != "" && AllDigits(s)
  {
    if n < 10 then [Digit(n)] else Digits(n / 10) + [Digit(n % 10)]
  }

  function Value(s: string): nat
    requires AllDigits(s)
  {
    if s == "" then 0 else 10 * Value(s[..|s| - 1]) + DigitValue(s[|s| - 1])
  }

  function Power10(k: nat): (p: nat)
    ensures p >= 1
  {
    if k == 0 then 1 else 10 * Power10(k - 1)
  }

  lemma PowersOf10()
    ensures Power10(13) == 10_000_000_000_000
    ensures Power10(16) == 10_000_000_000_000_000
  {
    assert Power10(4) == 10_000;
    assert Power10(8) == 100_000_000;
    assert Power10(12) == 1_000_000_000_000;
    assert Power10(13) == 10 * Power10(12);
    assert Power10(16) == 10 * Power10(15);
  }

  lemma {:induction false} ValueOfDigits(n: nat)
    ensures Value(Digits(n)) == n
  {
    if 10 <= n {
      ValueOfDigits(n / 10);
      assert Digits(n)[..|Digits(n)| - 1] == Digits(n / 10);
    } else {
      assert Digits(n)[..0] == "";
    }
  }

  lemma {:induction false} DigitsFit(n: nat, width: nat)
    requires 1 <= width && n < Power10(width)
    ensures |Digits(n)| <= width
  {
    if 10 <= n {
      assert Power10(1) == 10 * Power10(0) == 10;
      assert Power10(width) == 10 * Power10(width - 1);
      DigitsFit(n / 10, width - 1);
    }
  }

  function Zeros(n: nat): (s: string)
    ensures |s| == n && AllDigits(s)
  {
    seq(n, i => '0')
  }

  function PadStart(s: string, width: nat): (r: string)
    ensures width <= |r| && |s| <= |r|
  {
    if |s| >= width then s else Zeros(width - |s|) + s
  }

  lemma {:induction false} LeadingZeros(k: nat, s: string)
    requires AllDigits(s)
    ensures AllDigits(Zeros(k) + s) && Value(Zeros(k) + s) == Value(s)
    decreases k + |s|
  {
    var t := Zeros(k) + s;
    if s != "" {
      LeadingZeros(k, s[..|s| - 1]);
      assert t[..|t| - 1] == Zeros(k) + s[..|s| - 1];
    } else if k > 0 {
      assert t == Zeros(k);
      assert t[..k - 1] == Zeros(k - 1) + "";
      LeadingZeros(k - 1, "");
    }
  }

  /** The order of an array sort on strings: by the first differing character, a prefix first. */
  predicate Before(a: string, b: string) {
    if b == "" then false
    else if a == "" then true
    else if a[0] != b[0] then a[0] < b[0]
    else Before(a[1..], b[1..])
  }

  /** Of two strings exactly one comes first, unless they are the same string. */
  lemma {:induction false} BeforeTotal(a: string, b: string)
    ensures a == b ==> !Before(a, b)
    ensures a != b ==> Before(a, b) != Before(b, a)
  {
    if a != "" && b != "" {
      BeforeTotal(a[1..], b[1..]);
      assert a == [a[0]] + a[1..] && b == [b[0]] + b[1..];
    }
  }

  lemma {:induction false} BeforeTransitive(a: string, b: string, c: string)
    requires Before(a, b) && Before(b, c)
    ensures Before(a, c)
  {
    if a != "" && a[0] == b[0] == c[0] {
      BeforeTransitive(a[1..], b[1..], c[1..]);
    }
  }

  /** Equal-length heads decide; only a tie looks at the tails. */
  lemma {:induction false} BeforeConcat(a: string, b: string, x: string, y: string)
    requires |a| == |b|
    ensures Before(a + x, b + y) <==> Before(a, b) || (a == b && Before(x, y))
  {
    if a == "" {
      assert a + x == x && b + y == y;
    } else {
      BeforeConcat(a[1..], b[1..], x, y);
      assert (a + x)[1..] == a[1..] + x && (b + y)[1..] == b[1..] + y;
      assert a == [a[0]] + a[1..] && b == [b[0]] + b[1..];
    }
  }

  /** On digit strings of one length, string order is numeric order. */
  lemma {:induction false} BeforeIsLess(a: string, b: string)
    requires |a| == |b| && AllDigits(a) && AllDigits(b)
    ensures Before(a, b) <==> Value(a) < Value(b)
    ensures a == b <==> Value(a) == Value(b)
  {
    if a != "" {
      var n := |a| - 1;
      BeforeIsLess(a[..n], b[..n]);
      BeforeConcat(a[..n], b[..n], [a[n]], [b[n]]);
      assert a == a[..n] + [a[n]] && b == b[..n] + [b[n]];
      assert Before([a[n]], [b[n]]) <==> a[n] < b[n];
      assert DigitValue(a[n]) < DigitValue(b[n]) <==> a[n] < b[n];
      assert DigitValue(a[n]) == DigitValue(b[n]) ==> a[n] == b[n];
    }
  }

  lemma PadStartValue(s: string, width: nat)
    requires AllDigits(s) && |s| <= width
    ensures |PadStart(s, width)| == width && AllDigits(PadStart(s, width))
    ensures Value(PadStart(s, width)) == Value(s)
  {
    if |s| < width {
      LeadingZeros(width - |s|, s);
    }
  }

  lemma PaddedValue(n: nat, width: nat)
    requires 1 <= width && n < Power10(width)
    ensures |PadStart(Digits(n), width)| == width && AllDigits(PadStart(Digits(n), width))
    ensures Value(PadStart(Digits(n), width)) == n
  {
    DigitsFit(n, width);
    ValueOfDigits(n);
    PadStartValue(Digits(n), width);
  }

  /** Padding to a width that fits turns numeric order into string order. */
  lemma PaddedOrder(m: nat, n: nat, width: nat)
    requires 1 <= width && m < Power10(width) && n < Power10(width)
    ensures Before(PadStart(Digits(m), width), PadStart(Digits(n), width)) <==> m < n
    ensures PadStart(Digits(m), width) == PadStart(Digits(n), width) <==> m == n
  {
    PaddedValue(m, width);
    PaddedValue(n, width);
    BeforeIsLess(PadStart(Digits(m), width), PadStart(Digits(n), width));
  }
}
