/** Decimal numerals, prefixes and suffixes, and the byte-wise order of strings. */
module Strings {
  import opened Wrappers

  // ----- decimal numerals

  predicate IsDigit(c: char)
  {
    '0' <= c <= '9'
  }

  predicate AllDigits(s: string)
  {
    s != [] && forall i :: 0 <= i < |s| ==> IsDigit(s[i])
  }

  function Digit(v: nat): (c: char)
    requires v < 10
    ensures IsDigit(c) && DigitValue(c) == v
  {
    ('0' as int + v) as char
  }

  function DigitValue(c: char): nat
    requires IsDigit(c)
  {
    c as int - '0' as int
  }

  function Digits(n: nat): (s: string)
    ensures AllDigits(s)
  {
    if n < 10 then [Digit(n)] else Digits(n / 10) + [Digit(n % 10)]
  }

  function Itoa(n: int): string
  {
    if n < 0 then ['-'] + Digits(-n) else Digits(n)
  }

  function Value(s: string): nat
    requires AllDigits(s)
  {
    if |s| == 1 then DigitValue(s[0])
    else 10 * Value(s[..|s| - 1]) + DigitValue(s[|s| - 1])
  }

  const MAX_INT64: int := 0x7FFF_FFFF_FFFF_FFFF

  function InInt64(v: int): Option<int>
  {
    if -MAX_INT64 - 1 <= v <= MAX_INT64 then Some(v) else None
  }

  /** strconv.Atoi: an optional sign, then digits, within 64 bits. */
  function Atoi(s: string): (n: Option<int>)
  {
    if AllDigits(s) then InInt64(Value(s))
    else if s == [] || !AllDigits(s[1..]) then None
    else if s[0] == '-' then InInt64(0 - Value(s[1..]))
    else if s[0] == '+' then InInt64(Value(s[1..]))
    else None
  }

  /** What a text reads as: digits with or without a sign, if the number fits 64 bits, and otherwise nothing. */
  lemma AtoiMeans(s: string, v: int)
    ensures Atoi(s) == Some(v) <==>
              && -0x8000_0000_0000_0000 <= v < 0x8000_0000_0000_0000
              && (|| (AllDigits(s) && v == Value(s))
                  || (s != [] && AllDigits(s[1..]) && s[0] == '+' && v == Value(s[1..]))
                  || (s != [] && AllDigits(s[1..]) && s[0] == '-' && v == -(Value(s[1..]) as int)))
  {
    if AllDigits(s) {
      assert IsDigit(s[0]);
    }
  }

  lemma ValueAppend(s: string, c: char)
    requires AllDigits(s) && IsDigit(c)
    ensures AllDigits(s + [c]) && Value(s + [c]) == 10 * Value(s) + DigitValue(c)
  {
    assert (s + [c])[..|s|] == s;
  }

  lemma {:induction false} ValueOfDigits(n: nat)
    ensures Value(Digits(n)) == n
  {
    if n >= 10 {
      ValueOfDigits(n / 10);
      ValueAppend(Digits(n / 10), Digit(n % 10));
    }
  }

  /** Reading back a printed number gives the number. */
  lemma AtoiOfItoa(n: int)
    requires -MAX_INT64 - 1 <= n <= MAX_INT64
    ensures Atoi(Itoa(n)) == Some(n)
  {
    ValueOfDigits(if n < 0 then -n else n);
    if n < 0 {
      assert Itoa(n)[1..] == Digits(-n);
      assert !IsDigit(Itoa(n)[0]);
    }
  }

  // ----- prefixes and suffixes

  predicate HasPrefix(s: string, p: string)
  {
    |p| <= |s| && s[..|p|] == p
  }

  predicate HasSuffix(s: string, p: string)
  {
    |p| <= |s| && s[|s| - |p|..] == p
  }

  // ----- order

  predicate Less(a: string, b: string)
  {
    b != [] && (a == [] || a[0] < b[0] || (a[0] == b[0] && Less(a[1..], b[1..])))
  }

  /** The strings agree up to k, where the first ends or has the smaller character. */
  ghost predicate DecidedAt(a: string, b: string, k: nat)
  {
    k <= |a| && k < |b| && a[..k] == b[..k] && (k < |a| ==> a[k] < b[k])
  }

  /** The order is the dictionary's. */
  lemma {:induction false} LessMeans(a: string, b: string) returns (k: nat)
    requires Less(a, b)
    ensures DecidedAt(a, b, k)
  {
    k := 0;
    if a != [] && a[0] == b[0] {
      var j := LessMeans(a[1..], b[1..]);
      k := j + 1;
      assert a[..k] == [a[0]] + a[1..][..j] && b[..k] == [b[0]] + b[1..][..j];
    }
  }

  lemma {:induction false} MeansLess(a: string, b: string, k: nat)
    requires DecidedAt(a, b, k)
    ensures Less(a, b)
    decreases k
  {
    if k > 0 {
      assert a[0] == a[..k][0] == b[..k][0] == b[0];
      assert a[1..][..k - 1] == a[..k][1..] && b[1..][..k - 1] == b[..k][1..];
      MeansLess(a[1..], b[1..], k - 1);
    }
  }

  lemma {:induction false} LessIrreflexive(a: string)
    ensures !Less(a, a)
  {
    if a != [] {
      LessIrreflexive(a[1..]);
    }
  }

  lemma {:induction false} LessTransitive(a: string, b: string, c: string)
    requires Less(a, b) && Less(b, c)
    ensures Less(a, c)
  {
    if a != [] && a[0] == b[0] && b[0] == c[0] {
      LessTransitive(a[1..], b[1..], c[1..]);
    }
  }

  lemma {:induction false} LessTotal(a: string, b: string)
    ensures a == b || Less(a, b) || Less(b, a)
  {
    if a != [] && b != [] && a[0] == b[0] {
      LessTotal(a[1..], b[1..]);
      assert a == [a[0]] + a[1..] && b == [b[0]] + b[1..];
    }
  }
}
