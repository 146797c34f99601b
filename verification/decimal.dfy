/** Decimal text of non-negative integers: JavaScript's `String(n)` /
    `n.toString()`, `padStart(width, "0")`, and `Number(text)` for plain
    digit strings. */
module Decimal {
  import opened Common

  predicate IsDigit(c: char) {
    '0' <= c <= '9'
  }

  predicate AllDigits(s: string) {
    forall i :: 0 <= i < |s| ==> IsDigit(s[i])
  }

  function DigitChar(d: int): (c: char)
    requires 0 <= d < 10
    ensures IsDigit(c)
  {
    (('0' as int) + d) as char
  }

  function DigitValue(c: char): (d: int)
    requires IsDigit(c)
    ensures 0 <= d < 10
    ensures DigitChar(d) == c
  {
    c as int - '0' as int
  }

  /** `String(n)`: the shortest decimal text of `n`, without leading zeros. */
  function Digits(n: nat): (s: string)
    ensures 1 <= |s|
    ensures AllDigits(s)
  {
    if n < 10 then [DigitChar(n)] else Digits(n / 10) + [DigitChar(n % 10)]
  }

  lemma AllDigitsConcat(a: string, b: string)
    requires AllDigits(a) && AllDigits(b)
    ensures AllDigits(a + b)
  {
  }

  /** The number a digit string denotes (`Number(s)` for such strings; the
      empty string denotes 0). */
  function Value(s: string): nat
    requires AllDigits(s)
  {
    if s == [] then 0 else Value(s[..|s| - 1]) * 10 + DigitValue(s[|s| - 1])
  }

  /** `Number(s)` restricted to what the model parses: a non-empty run of digits. */
  function ParseNat(s: string): (r: Option<nat>)
    ensures r.Some? <==> |s| > 0 && AllDigits(s)
  {
    if |s| > 0 && AllDigits(s) then Some(Value(s)) else None
  }

  /** `s.padStart(width, fill)`. */
  function PadStart(s: string, width: nat, fill: char): (r: string)
    ensures |r| == Max(|s|, width)
    ensures r[|r| - |s|..] == s
    ensures forall i :: 0 <= i < |r| - |s| ==> r[i] == fill
  {
    if |s| >= width then s else Repeat(fill, width - |s|) + s
  }

  function Repeat(c: char, n: nat): (r: string)
    ensures |r| == n
    ensures forall i :: 0 <= i < n ==> r[i] == c
  {
    if n == 0 then [] else [c] + Repeat(c, n - 1)
  }

  /** `String(n).padStart(width, "0")`. */
  function ZeroPad(n: nat, width: nat): (s: string)
    ensures |s| == Max(|Digits(n)|, width)
    ensures AllDigits(s)
  {
    PadStart(Digits(n), width, '0')
  }

  /** Reading back the text `String(n)` gives `n`. */
  lemma {:induction false} ValueOfDigits(n: nat)
    ensures Value(Digits(n)) == n
  {
    if n >= 10 {
      ValueOfDigits(n / 10);
      var s := Digits(n);
      assert s[..|s| - 1] == Digits(n / 10);
    }
  }

  /** Leading zeros do not change the number a digit string denotes. */
  lemma {:induction false} ValueIgnoresLeadingZeros(z: string, s: string)
    requires forall i :: 0 <= i < |z| ==> z[i] == '0'
    requires AllDigits(s)
    ensures AllDigits(z + s)
    ensures Value(z + s) == Value(s)
    decreases |s|, |z|
  {
    if s == [] {
      assert z + s == z;
      if z != [] {
        ValueIgnoresLeadingZeros(z[..|z| - 1], []);
        assert z[..|z| - 1] + [] == z[..|z| - 1];
      }
    } else {
      ValueIgnoresLeadingZeros(z, s[..|s| - 1]);
      assert (z + s)[..|z + s| - 1] == z + s[..|s| - 1];
    }
  }

  /** Zero padding round-trips: `Number(String(n).padStart(w, "0")) == n`. */
  lemma ZeroPadRoundTrip(n: nat, width: nat)
    ensures ParseNat(ZeroPad(n, width)) == Some(n)
  {
    var d := Digits(n);
    var s := ZeroPad(n, width);
    ValueOfDigits(n);
    if |d| < width {
      ValueIgnoresLeadingZeros(Repeat('0', width - |d|), d);
    }
  }

  /** A two-digit field as date formatting writes it: tens, then units. */
  function TwoDigits(n: nat): (s: string)
    requires n < 100
    ensures |s| == 2 && AllDigits(s)
  {
    [DigitChar(n / 10), DigitChar(n % 10)]
  }

  /** A two-digit field reads back as its number. */
  lemma TwoDigitsValue(n: nat)
    requires n < 100
    ensures Value(TwoDigits(n)) == n
  {
    var s := TwoDigits(n);
    assert s[..1] == [DigitChar(n / 10)];
    assert DigitValue(DigitChar(n / 10)) == n / 10;
    assert DigitValue(DigitChar(n % 10)) == n % 10;
    assert Value([DigitChar(n / 10)]) == n / 10 by {
      assert [DigitChar(n / 10)][..0] == [];
    }
  }

  /** Two-digit formatting agrees with `String(n).padStart(2, "0")`. */
  lemma TwoDigitsIsZeroPad(n: nat)
    requires n < 100
    ensures TwoDigits(n) == ZeroPad(n, 2)
  {
    if n < 10 {
      assert Digits(n) == [DigitChar(n)];
      assert Repeat('0', 1) == ['0'];
      assert DigitChar(0) == '0';
    } else {
      assert Digits(n / 10) == [DigitChar(n / 10)];
    }
  }

  /** A four-digit field (a year as ISO dates write it). */
  function FourDigits(n: nat): (s: string)
    requires n < 10000
    ensures |s| == 4 && AllDigits(s)
  {
    TwoDigits(n / 100) + TwoDigits(n % 100)
  }

  /** Appending two digits multiplies by a hundred and adds their value. */
  lemma ValueAppendTwo(a: string, b: string)
    requires AllDigits(a) && AllDigits(b) && |b| == 2
    ensures AllDigits(a + b)
    ensures Value(a + b) == Value(a) * 100 + Value(b)
  {
    var ab, a1 := a + b, a + b[..1];
    AllDigitsConcat(a, b);
    AllDigitsConcat(a, b[..1]);
    assert ab[..|ab| - 1] == a1 && ab[|ab| - 1] == b[1];
    assert a1[..|a1| - 1] == a && a1[|a1| - 1] == b[0];
    assert Value(a1) == Value(a) * 10 + DigitValue(b[0]);
    assert Value(ab) == Value(a1) * 10 + DigitValue(b[1]);
    assert b[..1][..0] == [] && b[..1][0] == b[0];
    assert Value(b[..1]) == DigitValue(b[0]);
    assert Value(b) == DigitValue(b[0]) * 10 + DigitValue(b[1]);
  }

  lemma FourDigitsValue(n: nat)
    requires n < 10000
    ensures Value(FourDigits(n)) == n
  {
    TwoDigitsValue(n / 100);
    TwoDigitsValue(n % 100);
    ValueAppendTwo(TwoDigits(n / 100), TwoDigits(n % 100));
  }
}
