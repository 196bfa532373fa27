/** Decimal numerals over ASCII digits, and the lexicographic order on strings. */
module Decimals {
  predicate IsDigit(c: char) {
    '0' <= c <= '9'
  }

  predicate AllDigits(s: string) {
    forall i :: 0 <= i < |s| ==> IsDigit(s[i])
  }

  /** What the pattern \d+ matches. */
  predicate Digits(s: string) {
    |s| > 0 && AllDigits(s)
  }

  function DigitValue(c: char): nat
    requires IsDigit(c)
  {
    c as int - '0' as int
  }

  function Value(s: string): nat
    requires AllDigits(s)
  {
    if s == "" then 0 else Value(s[..|s| - 1]) * 10 + DigitValue(s[|s| - 1])
  }

  function DigitChar(d: nat): (c: char)
    requires d < 10
    ensures IsDigit(c) && DigitValue(c) == d
  {
    ('0' as int + d) as char
  }

  /** The numeral without leading zeros. */
  function Numeral(n: nat): (s: string)
    ensures Digits(s)
  {
    if n < 10 then [DigitChar(n)] else Numeral(n / 10) + [DigitChar(n % 10)]
  }

  function Zeros(k: nat): (s: string)
    ensures |s| == k && forall i :: 0 <= i < k ==> s[i] == '0'
  {
    seq(k, _ => '0')
  }

  lemma {:induction false} NumeralValue(n: nat)
    ensures Value(Numeral(n)) == n
  {
    if n < 10 {
      assert Numeral(n)[..0] == "";
    } else {
      NumeralValue(n / 10);
      assert Numeral(n)[..|Numeral(n)| - 1] == Numeral(n / 10);
    }
  }

  lemma {:induction false} NumeralStartsNonZero(n: nat)
    requires n > 0
    ensures Numeral(n)[0] > '0'
  {
    if n >= 10 {
      NumeralStartsNonZero(n / 10);
    }
  }

  lemma {:induction false} ZeroValue(s: string)
    requires AllDigits(s) && Value(s) == 0
    ensures forall i :: 0 <= i < |s| ==> s[i] == '0'
  {
    if s != "" {
      var front := s[..|s| - 1];
      assert Value(s) == Value(front) * 10 + DigitValue(s[|s| - 1]);
      ZeroValue(front);
      forall i | 0 <= i < |s| ensures s[i] == '0' {
        if i < |front| { assert s[i] == front[i]; }
      }
    }
  }

  /** Any numeral is the canonical one of its value behind some leading zeros. */
  lemma {:induction false} PaddedNumeral(s: string) returns (k: nat)
    requires Digits(s) && Value(s) > 0
    ensures s == Zeros(k) + Numeral(Value(s))
  {
    var front, last := s[..|s| - 1], s[|s| - 1];
    assert s == front + [last];
    LastDigit(front, last);
    if Value(front) == 0 {
      ZeroValue(front);
      k := |front|;
      assert front == Zeros(k);
    } else {
      k := PaddedNumeral(front);
      assert Zeros(k) + (Numeral(Value(front)) + [last]) == (Zeros(k) + Numeral(Value(front))) + [last];
    }
  }

  /** A number's last digit, read and written. */
  lemma LastDigit(front: string, last: char)
    requires AllDigits(front) && IsDigit(last)
    ensures Value(front + [last]) == 10 * Value(front) + DigitValue(last)
    ensures Numeral(Value(front + [last])) == if Value(front) == 0 then [last] else Numeral(Value(front)) + [last]
  {
    var s := front + [last];
    assert s[..|s| - 1] == front && s[|s| - 1] == last;
    NumeralOfLast(Value(front), DigitValue(last));
    assert DigitChar(DigitValue(last)) == last;
  }

  lemma NumeralOfLast(v: nat, d: nat)
    requires d < 10
    ensures Numeral(10 * v + d) == if v == 0 then [DigitChar(d)] else Numeral(v) + [DigitChar(d)]
  {
    TenTimes(v, d);
  }

  lemma TenTimes(v: nat, d: nat)
    requires d < 10
    ensures (10 * v + d) / 10 == v && (10 * v + d) % 10 == d
  {
  }

  // ---------------------------------------------------------------- string order

  predicate StrLe(a: string, b: string) {
    a == "" || (b != "" && (a[0] < b[0] || (a[0] == b[0] && StrLe(a[1..], b[1..]))))
  }

  lemma {:induction false} StrLeTotal(a: string, b: string)
    ensures StrLe(a, b) || StrLe(b, a)
    ensures StrLe(a, b) && StrLe(b, a) ==> a == b
  {
    if a != "" && b != "" && a[0] == b[0] {
      StrLeTotal(a[1..], b[1..]);
      assert a == [a[0]] + a[1..] && b == [b[0]] + b[1..];
    }
  }

  lemma {:induction false} StrLeTransitive(a: string, b: string, c: string)
    requires StrLe(a, b) && StrLe(b, c)
    ensures StrLe(a, c)
  {
    if a != "" && a[0] == b[0] && b[0] == c[0] {
      StrLeTransitive(a[1..], b[1..], c[1..]);
    }
  }

  lemma {:induction false} StrLeAfterPrefix(p: string, a: string, b: string)
    requires StrLe(a, b)
    ensures StrLe(p + a, p + b)
  {
    if p == "" {
      assert p + a == a && p + b == b;
    } else {
      StrLeAfterPrefix(p[1..], a, b);
      assert (p + a)[1..] == p[1..] + a && (p + b)[1..] == p[1..] + b;
    }
  }
}
