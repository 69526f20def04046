/**
 Decimal printing and parsing of text. `Int2Decimal` fills a 32-byte buffer from the end while
 dividing; the numbers it prints are unsigned 64-bit.
 */
module Decimal {

  predicate IsDigit(c: char) {
    '0' <= c <= '9'
  }

  predicate AllDigits(s: string) {
    s != [] && forall i :: 0 <= i < |s| ==> IsDigit(s[i])
  }

  /** The value of a digit string, most significant digit first. */
  function Value(s: string): nat
    requires forall i :: 0 <= i < |s| ==> IsDigit(s[i])
  {
    if s == [] then 0 else
    assert IsDigit(s[|s| - 1]);
    10 * Value(s[..|s| - 1]) + (s[|s| - 1] as int - '0' as int)
  }

  function Digit(d: nat): char
    requires d < 10
  {
    '0' + d as char
  }

  /** The decimal numeral of n. */
  function Numeral(n: nat): (s: string)
    ensures AllDigits(s)
  {
    if n < 10 then [Digit(n)] else Numeral(n / 10) + [Digit(n % 10)]
  }

  lemma {:induction false} NumeralParses(n: nat)
    ensures Value(Numeral(n)) == n
    ensures Numeral(n)[0] == '0' ==> n == 0
  {
    if n >= 10 {
      NumeralParses(n / 10);
      assert Numeral(n)[..|Numeral(n)| - 1] == Numeral(n / 10);
    }
  }

  function Zeros(k: nat): (z: string)
    ensures |z| == k && forall i :: 0 <= i < k ==> z[i] == '0'
  {
    if k == 0 then "" else Zeros(k - 1) + "0"
  }

  /** And digits are the numeral of their value, but for leading zeros. */
  lemma {:induction false} DigitsAreNumeral(s: string) returns (k: nat)
    requires AllDigits(s)
    ensures s == Zeros(k) + Numeral(Value(s))
  {
    var n := |s| - 1;
    assert IsDigit(s[n]);
    var d := s[n] as int - '0' as int;
    assert s == s[..n] + [Digit(d)];
    if n == 0 {
      k := 0;
      assert s[..0] == "";
    } else {
      var v := Value(s[..n]);
      assert AllDigits(s[..n]);
      k := DigitsAreNumeral(s[..n]);
      if v == 0 {
        k := k + 1;
        assert Numeral(v) == "0";
      } else {
        assert Value(s) / 10 == v && Value(s) % 10 == d;
      }
    }
  }

  lemma {:induction false} OnlyZeros(k: nat)
    ensures Value(Zeros(k)) == 0
  {
    if k > 0 {
      OnlyZeros(k - 1);
      assert Zeros(k)[..k - 1] == Zeros(k - 1);
    }
  }

  lemma OneDigitMore(a: string, d: nat, s: string)
    requires d < 10 && s == a + [Digit(d)] && forall i :: 0 <= i < |a| ==> IsDigit(a[i])
    ensures (forall i :: 0 <= i < |s| ==> IsDigit(s[i])) && Value(s) == 10 * Value(a) + d
  {
    assert s[..|s| - 1] == a;
  }

  lemma Regroup(a: string, b: string, c: char)
    ensures a + (b + [c]) == a + b + [c]
  {
  }

  lemma {:induction false} ZerosCountNothing(n: nat, k: nat)
    ensures Value(Zeros(k) + Numeral(n)) == n
  {
    if n < 10 {
      OnlyZeros(k);
      OneDigitMore(Zeros(k), n, Zeros(k) + Numeral(n));
    } else {
      ZerosCountNothing(n / 10, k);
      Regroup(Zeros(k), Numeral(n / 10), Digit(n % 10));
      OneDigitMore(Zeros(k) + Numeral(n / 10), n % 10, Zeros(k) + Numeral(n));
    }
  }

  lemma {:induction false} NumeralFits(n: nat, digits: nat)
    requires digits >= 1 && n < Pow10(digits)
    ensures |Numeral(n)| <= digits
    decreases digits
  {
    if n >= 10 {
      assert Pow10(1) == 10;
      NumeralFits(n / 10, digits - 1);
    }
  }

  function Pow10(k: nat): nat {
    if k == 0 then 1 else 10 * Pow10(k - 1)
  }

  const UINT_LIMIT := 0x1_0000_0000_0000_0000
  const BUFFER_SIZE := 32

  lemma Uint64Fits(n: nat)
    requires n < UINT_LIMIT
    ensures |Numeral(n)| <= 20
  {
    assert Pow10(20) == 100_000_000_000_000_000_000 by {
      assert Pow10(5) == 100_000;
      assert Pow10(10) == 10_000_000_000;
      assert Pow10(15) == 1_000_000_000_000_000;
    }
    NumeralFits(n, 20);
  }

  /** int2decimal: never writes below index 0 of its buffer, and prints the numeral of its argument. */
  method Int2Decimal(i: nat) returns (s: string)
    requires i < UINT_LIMIT
    ensures s == Numeral(i)
  {
    if i == 0 {
      assert Numeral(0) == [Digit(0)];
      return "0";
    }
    Uint64Fits(i);
    var b := new char[BUFFER_SIZE](_ => '0');
    var bp, x := b.Length, i;
    while x > 0
      invariant 0 <= bp <= b.Length && 0 <= x
      invariant x > 0 ==> Numeral(i) == Numeral(x) + b[bp..]
      invariant x == 0 ==> Numeral(i) == b[bp..]
      invariant x > 0 || bp < b.Length
      invariant |b[bp..]| + (if x > 0 then |Numeral(x)| else 0) == |Numeral(i)|
      decreases x
    {
      bp := bp - 1;
      b[bp] := Digit(x % 10);
      assert x >= 10 ==> Numeral(x) == Numeral(x / 10) + [Digit(x % 10)];
      assert b[bp..] == [Digit(x % 10)] + b[bp + 1..];
      x := x / 10;
    }
    return b[bp..];
  }
}
