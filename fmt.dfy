/** Go's `fmt.Sprintf("%03d", n)` for the non-negative integers the
    simulation formats: the decimal digits of `n`, padded on the left with
    zeros to at least three characters. `Value` reads such a string back
    and is the inverse that makes the formatting injective. */
module Fmt {

  predicate IsDigit(c: char) {
    '0' <= c <= '9'
  }

  predicate AllDigits(s: string) {
    forall k :: 0 <= k < |s| ==> IsDigit(s[k])
  }

  function DigitChar(d: nat): (c: char)
    requires d < 10
    ensures IsDigit(c) && DigitValue(c) == d
  {
    ('0' as int + d) as char
  }

  function DigitValue(c: char): nat
    requires IsDigit(c)
  {
    c as int - '0' as int
  }

  /** The shortest decimal representation of `n` (`%d`). */
  function Decimal(n: nat): (s: string)
    ensures 1 <= |s| && AllDigits(s)
    ensures n < 10 ==> |s| == 1
    ensures 10 <= n ==> |s| == |Decimal(n / 10)| + 1
  {
    if n < 10 then [DigitChar(n)] else Decimal(n / 10) + [DigitChar(n % 10)]
  }

  /** The number a string of decimal digits denotes, most significant first. */
  function Value(s: string): nat
    requires AllDigits(s)
  {
    if s == [] then 0 else Value(s[..|s| - 1]) * 10 + DigitValue(s[|s| - 1])
  }

  function Zeros(k: nat): (s: string)
    ensures |s| == k && AllDigits(s)
    ensures forall i :: 0 <= i < k ==> s[i] == '0'
  {
    seq(k, _ => '0')
  }

  /** `%03d`: zero-padded to width three; wider numbers are not cut. */
  function Pad3(n: nat): (s: string)
    ensures 3 <= |s| && AllDigits(s)
  {
    var d := Decimal(n);
    if |d| < 3 then
      var z := Zeros(3 - |d|);
      assert forall k :: 0 <= k < |z + d| ==> (z + d)[k] == if k < |z| then z[k] else d[k - |z|];
      z + d
    else
      d
  }

  lemma {:induction false} ValueOfDecimal(n: nat)
    ensures Value(Decimal(n)) == n
  {
    if 10 <= n {
      var d := Decimal(n);
      assert d[..|d| - 1] == Decimal(n / 10);
      ValueOfDecimal(n / 10);
    }
  }

  lemma {:induction false} ValueOfZeros(k: nat)
    ensures Value(Zeros(k)) == 0
  {
    if 0 < k {
      assert Zeros(k)[..k - 1] == Zeros(k - 1);
      ValueOfZeros(k - 1);
    }
  }

  /** Leading zeros do not change the value read back. */
  lemma {:induction false} ValueIgnoresLeadingZeros(k: nat, s: string)
    requires AllDigits(s)
    ensures AllDigits(Zeros(k) + s) && Value(Zeros(k) + s) == Value(s)
    decreases |s|
  {
    var z := Zeros(k) + s;
    assert AllDigits(z);
    if s == [] {
      assert z == Zeros(k);
      ValueOfZeros(k);
    } else {
      assert z[..|z| - 1] == Zeros(k) + s[..|s| - 1];
      assert z[|z| - 1] == s[|s| - 1];
      ValueIgnoresLeadingZeros(k, s[..|s| - 1]);
    }
  }

  /** `%03d` yields only digits, and reading them back gives `n`. */
  lemma Pad3RoundTrip(n: nat)
    ensures AllDigits(Pad3(n)) && Value(Pad3(n)) == n
  {
    var d := Decimal(n);
    ValueOfDecimal(n);
    if |d| < 3 {
      ValueIgnoresLeadingZeros(3 - |d|, d);
    }
  }

  /** Distinct numbers are formatted to distinct strings. */
  lemma Pad3Injective(a: nat, b: nat)
    ensures Pad3(a) == Pad3(b) ==> a == b
  {
    Pad3RoundTrip(a);
    Pad3RoundTrip(b);
  }

  /** Every number below 1000 is formatted to exactly three digits. */
  lemma Pad3Width(n: nat)
    requires n < 1000
    ensures |Pad3(n)| == 3
  {
    if 10 <= n {
      if 10 <= n / 10 {
        assert n / 10 / 10 < 10;
      }
    }
  }

  /** From 1000 on, `%03d` adds no padding: it is the plain decimal form. */
  lemma Pad3Wide(n: nat)
    requires 1000 <= n
    ensures Pad3(n) == Decimal(n) && 4 <= |Pad3(n)|
  {
    assert 10 <= n / 10 / 10;
  }
}
