/**
 Decimal rendering as JavaScript does it: `n.toString().padStart(width, '0')` for non-negative
 integers, the value such a string denotes, and the lexicographic order in which stored strings
 are compared.
 */
module Decimal {

  predicate IsDigit(c: char) {
    '0' <= c <= '9'
  }

  predicate AllDigits(s: string) {
    forall i :: 0 <= i < |s| ==> IsDigit(s[i])
  }

  function DigitChar(d: nat): (c: char)
    requires d < 10
  {
    ('0' as int + d) as char
  }

  function DigitValue(c: char): (d: nat)
    requires IsDigit(c)
  {
    c as int - '0' as int
  }

  function Pow10(k: nat): (p: nat)
    ensures p >= 1
  {
    if k == 0 then 1 else 10 * Pow10(k - 1)
  }

  /** `Number.prototype.toString` on a non-negative integer. */
  function ToString(n: nat): (s: string)
    ensures |s| > 0 && AllDigits(s)
  {
    if n < 10 then [DigitChar(n)] else ToString(n / 10) + [DigitChar(n % 10)]
  }

  function Zeros(k: nat): (s: string)
    ensures |s| == k && AllDigits(s)
  {
    if k == 0 then "" else "0" + Zeros(k - 1)
  }

  /** `String.prototype.padStart(width, '0')`: a string already that long is left alone. */
  function PadStart(s: string, width: nat): string {
    if |s| >= width then s else Zeros(width - |s|) + s
  }

  function Render(n: nat, width: nat): (s: string)
    ensures AllDigits(s)
  {
    PadStart(ToString(n), width)
  }

  function Value(s: string): nat
    requires AllDigits(s)
  {
    if s == "" then 0 else 10 * Value(s[..|s| - 1]) + DigitValue(s[|s| - 1])
  }

  /** Lexicographic order of strings by code unit. */
  predicate Less(a: string, b: string) {
    b != "" && (a == "" || a[0] < b[0] || (a[0] == b[0] && Less(a[1..], b[1..])))
  }

  /** The ten digits. */
  lemma DigitsAre()
    ensures ToString(0) == "0" && ToString(1) == "1" && ToString(2) == "2" && ToString(3) == "3" && ToString(4) == "4"
    ensures ToString(5) == "5" && ToString(6) == "6" && ToString(7) == "7" && ToString(8) == "8" && ToString(9) == "9"
  {
  }

  /** Digits are written from the most significant to the least. */
  lemma AppendDigit(n: nat, d: nat)
    requires n > 0 && d < 10
    ensures ToString(10 * n + d) == ToString(n) + ToString(d)
  {
  }

  lemma {:induction false} ZerosAreZeros(k: nat)
    ensures forall i :: 0 <= i < k ==> Zeros(k)[i] == '0'
  {
    if k > 0 {
      ZerosAreZeros(k - 1);
    }
  }

  /** A padded number is zeros up to the width, if there is room, and then its digits. */
  lemma RenderIs(n: nat, width: nat)
    ensures var s, r := ToString(n), Render(n, width);
            && |r| == (if |s| < width then width else |s|)
            && r[|r| - |s|..] == s
            && forall i :: 0 <= i < |r| - |s| ==> r[i] == '0'
  {
    var s := ToString(n);
    if |s| < width {
      ZerosAreZeros(width - |s|);
    }
  }

  /** The digits of a positive number do not begin with a zero. */
  lemma {:induction false} NoLeadingZero(n: nat)
    ensures n > 0 ==> ToString(n)[0] != '0'
  {
    if n >= 10 {
      NoLeadingZero(n / 10);
    }
  }

  // ---- Reading back what was rendered ----

  lemma {:induction false} ToStringValue(n: nat)
    ensures Value(ToString(n)) == n
  {
    if n >= 10 {
      ToStringValue(n / 10);
      assert ToString(n)[..|ToString(n)| - 1] == ToString(n / 10);
    }
  }

  lemma {:induction false} ValueSplit(c: char, s: string)
    requires IsDigit(c) && AllDigits(s)
    ensures AllDigits([c] + s) && Value([c] + s) == DigitValue(c) * Pow10(|s|) + Value(s)
  {
    var t := [c] + s;
    if s == "" {
      assert t[..0] == "";
    } else {
      var front, d, p := s[..|s| - 1], DigitValue(c), Pow10(|s| - 1);
      ValueSplit(c, front);
      assert t[..|t| - 1] == [c] + front;
      assert d * (10 * p) == 10 * (d * p);
    }
  }

  lemma LeadingZero(t: string)
    requires AllDigits(t)
    ensures AllDigits(['0'] + t) && Value(['0'] + t) == Value(t)
  {
    ValueSplit('0', t);
    assert DigitValue('0') == 0;
  }

  lemma {:induction false} ZerosValue(k: nat, s: string)
    requires AllDigits(s)
    ensures Value(Zeros(k) + s) == Value(s)
  {
    if k == 0 {
      assert Zeros(0) + s == s;
    } else {
      var t := Zeros(k - 1) + s;
      assert Zeros(k) + s == ['0'] + t;
      ZerosValue(k - 1, s);
      LeadingZero(t);
    }
  }

  /** Rendering loses nothing, whatever the width and however far the number runs past it. */
  lemma RenderValue(n: nat, width: nat)
    ensures Value(Render(n, width)) == n
  {
    ToStringValue(n);
    var s := ToString(n);
    if |s| < width {
      ZerosValue(width - |s|, s);
    }
  }

  lemma RenderInjective(m: nat, n: nat, width: nat)
    ensures Render(m, width) == Render(n, width) <==> m == n
  {
    RenderValue(m, width);
    RenderValue(n, width);
  }

  // ---- Length and order ----

  lemma {:induction false} Pow10Grows(k: nat)
    requires k >= 1
    ensures Pow10(k) >= 10
  {
  }

  lemma {:induction false} ToStringLength(n: nat, width: nat)
    requires width >= 1
    ensures |ToString(n)| <= width <==> n < Pow10(width)
  {
    if n >= 10 {
      if width > 1 {
        ToStringLength(n / 10, width - 1);
      } else {
        assert Pow10(1) == 10;
      }
    } else {
      Pow10Grows(width);
    }
  }

  lemma {:induction false} ValueBound(s: string)
    requires AllDigits(s)
    ensures Value(s) < Pow10(|s|)
  {
    if s != "" {
      ValueBound(s[..|s| - 1]);
    }
  }

  lemma LeadingDigit(x: nat, y: nat, p: nat, u: nat, v: nat)
    requires u < p && v < p
    ensures x * p + u < y * p + v <==> x < y || (x == y && u < v)
  {
    if x < y {
      assert (x + 1) * p <= y * p;
    } else if y < x {
      assert (y + 1) * p <= x * p;
    }
  }

  /** On digit strings of equal length the stored order is the numeric order. */
  lemma {:induction false} LessIsNumeric(a: string, b: string)
    requires |a| == |b| && AllDigits(a) && AllDigits(b)
    ensures Less(a, b) <==> Value(a) < Value(b)
  {
    if a != "" {
      LessIsNumeric(a[1..], b[1..]);
      assert a == [a[0]] + a[1..] && b == [b[0]] + b[1..];
      ValueSplit(a[0], a[1..]);
      ValueSplit(b[0], b[1..]);
      ValueBound(a[1..]);
      ValueBound(b[1..]);
      LeadingDigit(DigitValue(a[0]), DigitValue(b[0]), Pow10(|a| - 1), Value(a[1..]), Value(b[1..]));
    }
  }

  lemma RenderLength(n: nat, width: nat)
    requires width >= 1 && n < Pow10(width)
    ensures |Render(n, width)| == width
  {
    ToStringLength(n, width);
  }

  /** The largest number that fits starts with '9'; the next one starts with '1'. */
  lemma {:induction false} AtTheEdge(width: nat)
    requires width >= 1
    ensures ToString(Pow10(width) - 1)[0] == '9' && ToString(Pow10(width))[0] == '1'
  {
    if width == 1 {
      assert Pow10(1) == 10;
      assert ToString(10) == ToString(1) + "0";
    } else {
      AtTheEdge(width - 1);
      Pow10Grows(width - 1);
      var p := Pow10(width - 1);
      assert (10 * p - 1) / 10 == p - 1 && (10 * p) / 10 == p;
    }
  }

  lemma RenderOrdered(m: nat, n: nat, width: nat)
    requires width >= 1 && m < n < Pow10(width)
    ensures Less(Render(m, width), Render(n, width))
  {
    RenderLength(m, width);
    RenderLength(n, width);
    RenderValue(m, width);
    RenderValue(n, width);
    LessIsNumeric(Render(m, width), Render(n, width));
  }

  lemma EdgeLengths(width: nat)
    requires width >= 1
    ensures |ToString(Pow10(width) - 1)| == width && |ToString(Pow10(width))| > width
  {
  }

  lemma OutOfOrderPastTheWidth(width: nat)
    requires width >= 1
    ensures !Less(Render(Pow10(width) - 1, width), Render(Pow10(width), width))
  {
    EdgeLengths(width);
    AtTheEdge(width);
    var a, b := ToString(Pow10(width) - 1), ToString(Pow10(width));
    assert Render(Pow10(width) - 1, width) == a && Render(Pow10(width), width) == b;
    assert b[0] < a[0];
  }

  /** Stored order agrees with numeric order on exactly the ranges that fit the pad width. */
  lemma RenderOrderExact(width: nat, bound: nat)
    requires width >= 1
    ensures (forall m: nat, n: nat :: m < n < bound ==> Less(Render(m, width), Render(n, width)))
       <==> bound <= Pow10(width)
  {
    if bound <= Pow10(width) {
      forall m: nat, n: nat | m < n < bound
        ensures Less(Render(m, width), Render(n, width))
      {
        RenderOrdered(m, n, width);
      }
    } else {
      OutOfOrderPastTheWidth(width);
      assert Pow10(width) - 1 < Pow10(width) < bound;
    }
  }
}
