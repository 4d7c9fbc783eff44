/**
 * Decimal numerals: strconv.Itoa on the numbers that the placeholder rewriter prints, and the
 * reading of a run of digits, with the round trip and the order facts that both users need.
 */
module Decimal {

  predicate IsDigit(c: char) {
    '0' <= c <= '9'
  }

  predicate AllDigits(s: string) {
    forall i | 0 <= i < |s| :: IsDigit(s[i])
  }

  function DigitChar(d: nat): char
    requires d < 10
  {
    '0' + d as char
  }

  function DigitValue(c: char): nat
    requires IsDigit(c)
  {
    c as nat - '0' as nat
  }

  /** strconv.Itoa on a non-negative number. */
  function Itoa(n: nat): string {
    if n < 10 then [DigitChar(n)] else Itoa(n / 10) + [DigitChar(n % 10)]
  }

  /** The number that a run of digits denotes. */
  function Atoi(s: string): nat
    requires AllDigits(s)
  {
    if s == "" then 0 else 10 * Atoi(s[..|s| - 1]) + DigitValue(s[|s| - 1])
  }

  /** How many digits `s` starts with. */
  function DigitRun(s: string): (k: nat)
    ensures k <= |s|
    ensures AllDigits(s[..k])
    ensures k < |s| ==> !IsDigit(s[k])
  {
    if s == "" || !IsDigit(s[0]) then 0 else
      var k := 1 + DigitRun(s[1..]);
      assert s[..k] == [s[0]] + s[1..][..k - 1];
      k
  }

  function Pow10(k: nat): (p: nat)
    ensures p >= 1
  {
    if k == 0 then 1 else 10 * Pow10(k - 1)
  }

  /** Printing a number and reading it back gives the number. */
  lemma {:induction false} PrintThenRead(n: nat)
    ensures AllDigits(Itoa(n)) && Itoa(n) != ""
    ensures Atoi(Itoa(n)) == n
  {
    if n >= 10 {
      PrintThenRead(n / 10);
      assert Itoa(n)[..|Itoa(n)| - 1] == Itoa(n / 10);
    }
  }

  /** A digit run is maximal: it ends exactly where digits stop. */
  lemma {:induction false} DigitRunOfConcat(d: string, rest: string)
    requires AllDigits(d)
    ensures DigitRun(d + rest) == |d| + DigitRun(rest)
  {
    if d == "" {
      assert d + rest == rest;
    } else {
      assert (d + rest)[1..] == d[1..] + rest;
      DigitRunOfConcat(d[1..], rest);
    }
  }

  /** Reading from the left: the leading digit weighs the power of ten of what follows. */
  lemma {:induction false} AtoiFromLeft(s: string)
    requires AllDigits(s) && s != ""
    ensures Atoi(s) == DigitValue(s[0]) * Pow10(|s| - 1) + Atoi(s[1..])
    ensures Atoi(s) < Pow10(|s|)
  {
    var front, last := s[..|s| - 1], DigitValue(s[|s| - 1]);
    if front == "" {
      assert s[1..] == "";
    } else {
      AtoiFromLeft(front);
      assert s[1..][..|s[1..]| - 1] == front[1..];
      assert Atoi(s[1..]) == 10 * Atoi(front[1..]) + last;
      ShiftLeft(DigitValue(s[0]), Pow10(|front| - 1), Atoi(front[1..]), last);
    }
  }

  lemma ShiftLeft(d: nat, p: nat, low: nat, last: nat)
    ensures 10 * (d * p + low) + last == d * (10 * p) + (10 * low + last)
  {
    assert 10 * (d * p) == d * (10 * p);
  }

  /** Byte order on strings, as Go's < on strings and sort.Strings use it. */
  predicate Less(a: string, b: string) {
    b != "" && (a == "" || a[0] < b[0] || (a[0] == b[0] && Less(a[1..], b[1..])))
  }

  /** Byte order is a strict order: asymmetric, and any third string lies on one side or the other. */
  lemma {:induction false} LessIsAnOrder(a: string, b: string, c: string)
    requires Less(a, c)
    ensures !Less(c, a)
    ensures Less(a, b) || Less(b, c)
  {
    if a != "" {
      if b != "" && a[0] == c[0] {
        LessIsAnOrder(a[1..], b[1..], c[1..]);
      } else if a[0] == c[0] {
        LessIsAnOrder(a[1..], "", c[1..]);
      }
    }
  }

  /** On numerals of one width, byte order is numeric order. */
  lemma {:induction false} FixedWidthOrder(a: string, b: string)
    requires AllDigits(a) && AllDigits(b) && |a| == |b|
    ensures Less(a, b) <==> Atoi(a) < Atoi(b)
    ensures a == b <==> Atoi(a) == Atoi(b)
  {
    if a != "" {
      AtoiFromLeft(a);
      AtoiFromLeft(b);
      FixedWidthOrder(a[1..], b[1..]);
      var x, y, p := DigitValue(a[0]), DigitValue(b[0]), Pow10(|a| - 1);
      if |a| > 1 {
        AtoiFromLeft(a[1..]);
        AtoiFromLeft(b[1..]);
      }
      if x < y {
        LeadingDigitDecides(x, y, p, Atoi(a[1..]), Atoi(b[1..]));
      } else if y < x {
        LeadingDigitDecides(y, x, p, Atoi(b[1..]), Atoi(a[1..]));
      } else {
        assert a == [a[0]] + a[1..] && b == [b[0]] + b[1..];
      }
    }
  }

  lemma {:induction false} LeadingDigitDecides(x: nat, y: nat, p: nat, u: nat, v: nat)
    requires x < y && u < p
    ensures x * p + u < y * p + v
    decreases y
  {
    assert y * p == (y - 1) * p + p;
    if x < y - 1 {
      LeadingDigitDecides(x, y - 1, p, u, v);
    }
  }

  /** How two strings with equally long first parts compare: by the first parts unless these agree. */
  lemma {:induction false} LessOfConcat(a: string, b: string, x: string, y: string)
    requires |a| == |b|
    ensures Less(a + x, b + y) <==> Less(a, b) || (a == b && Less(x, y))
  {
    if a == "" {
      assert a + x == x && b + y == y;
    } else {
      assert (a + x)[1..] == a[1..] + x && (b + y)[1..] == b[1..] + y;
      LessOfConcat(a[1..], b[1..], x, y);
      assert a == [a[0]] + a[1..] && b == [b[0]] + b[1..];
    }
  }
}
