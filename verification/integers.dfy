/**
 * The arbitrary-precision integer arithmetic (cpp_int) that the tokenizer and the
 * evaluator rely on: digit strings in a radix, powers, factorials and C++'s
 * truncating division. Dafny's `int` is unbounded, like cpp_int.
 */
module Integers {

  function Abs(a: int): nat {
    if a < 0 then -a else a
  }

  /** b raised to the n-th power, the reference for repeated multiplication. */
  function Pow(b: int, n: nat): int {
    if n == 0 then 1 else b * Pow(b, n - 1)
  }

  lemma {:induction false} PowAtLeastOne(b: int, n: nat)
    requires b >= 1
    ensures Pow(b, n) >= 1
  {
    if n > 0 {
      PowAtLeastOne(b, n - 1);
    }
  }

  /** n! = 1 * 2 * ... * n, with 0! = 1. */
  function Factorial(n: nat): (r: nat)
    ensures r >= 1
    ensures r >= n
  {
    if n == 0 then 1 else n * Factorial(n - 1)
  }

  // ---------------------------------------------------------------------------
  // Digit strings
  // ---------------------------------------------------------------------------

  predicate IsDigit(c: char) {
    '0' <= c <= '9'
  }

  function DigitValue(c: char): (d: nat)
    requires IsDigit(c)
    ensures d <= 9
  {
    (c as int) - ('0' as int)
  }

  /** Every character of ds is a digit below radix. */
  predicate AllDigits(radix: nat, ds: string) {
    forall k | 0 <= k < |ds| :: IsDigit(ds[k]) && DigitValue(ds[k]) < radix
  }

  /** The value of a digit string read left to right: multiply what has been read so
      far by the radix and add the next digit (the shape of every parsing loop). */
  function ShiftAndAdd(radix: nat, ds: string): int
    requires AllDigits(radix, ds)
  {
    if |ds| == 0 then 0
    else ShiftAndAdd(radix, ds[..|ds| - 1]) * radix + DigitValue(ds[|ds| - 1])
  }

  /** The positional value of a digit string: the sum of d_k * radix^(n-1-k). */
  function Positional(radix: nat, ds: string): int
    requires AllDigits(radix, ds)
  {
    if |ds| == 0 then 0
    else DigitValue(ds[0]) * Pow(radix, |ds| - 1) + Positional(radix, ds[1..])
  }

  /** Appending one digit multiplies the positional value by the radix and adds it. */
  lemma {:induction false} PositionalSnoc(radix: nat, ds: string, c: char)
    requires AllDigits(radix, ds) && IsDigit(c) && DigitValue(c) < radix
    ensures AllDigits(radix, ds + [c])
    ensures Positional(radix, ds + [c]) == Positional(radix, ds) * radix + DigitValue(c)
  {
    var w := ds + [c];
    if |ds| == 0 {
      assert w[1..] == [];
    } else {
      assert w[0] == ds[0];
      assert w[1..] == ds[1..] + [c];
      PositionalSnoc(radix, ds[1..], c);
      assert Pow(radix, |w| - 1) == radix * Pow(radix, |ds| - 1);
      Regroup(DigitValue(ds[0]), radix, Pow(radix, |ds| - 1), Positional(radix, ds[1..]), DigitValue(c));
    }
  }

  lemma Regroup(d: int, radix: int, p: int, rest: int, c: int)
    ensures d * (radix * p) + (rest * radix + c) == (d * p + rest) * radix + c
  {
    MulAssoc(d, radix, p);
  }

  lemma MulAssoc(a: int, b: int, c: int)
    ensures a * (b * c) == (a * c) * b
  {
  }

  /** Reading digits left to right by shift-and-add yields their positional value. */
  lemma {:induction false} ShiftAndAddIsPositional(radix: nat, ds: string)
    requires AllDigits(radix, ds)
    ensures ShiftAndAdd(radix, ds) == Positional(radix, ds)
  {
    if |ds| > 0 {
      var init := ds[..|ds| - 1];
      assert ds == init + [ds[|ds| - 1]];
      ShiftAndAddIsPositional(radix, init);
      PositionalSnoc(radix, init, ds[|ds| - 1]);
    }
  }

  // ---------------------------------------------------------------------------
  // C++ integer division
  // ---------------------------------------------------------------------------

  /** cpp_int's `/`: the quotient rounded toward zero (not Dafny's Euclidean `/`). */
  function TruncDiv(a: int, b: int): int
    requires b != 0
  {
    var q := Abs(a) / Abs(b);
    if (a < 0) == (b < 0) then q else -q
  }

  /** cpp_int's `%`: the remainder takes the sign of the dividend. */
  function TruncMod(a: int, b: int): int
    requires b != 0
  {
    var m := Abs(a) % Abs(b);
    if a < 0 then -m else m
  }

  /** Truncating quotient and remainder recombine into the dividend; the remainder is
      smaller than the divisor in magnitude, and is zero or has the dividend's sign. */
  lemma TruncDivModIdentity(a: int, b: int)
    requires b != 0
    ensures a == b * TruncDiv(a, b) + TruncMod(a, b)
    ensures Abs(TruncMod(a, b)) < Abs(b)
    ensures TruncMod(a, b) == 0 || (TruncMod(a, b) < 0 <==> a < 0)
    ensures Abs(TruncDiv(a, b)) * Abs(b) <= Abs(a)
  {
    var q := Abs(a) / Abs(b);
    var m := Abs(a) % Abs(b);
    EuclidOnMagnitudes(Abs(a), Abs(b));
    if a < 0 && b < 0 {
      assert TruncDiv(a, b) == q && TruncMod(a, b) == -m;
      NegatedProduct(b, q);
    } else if a < 0 {
      assert TruncDiv(a, b) == -q && TruncMod(a, b) == -m;
      NegatedProduct(b, q);
    } else if b < 0 {
      assert TruncDiv(a, b) == -q && TruncMod(a, b) == m;
      NegatedProduct(b, q);
    }
  }

  /** Dafny's division on non-negative operands. */
  lemma EuclidOnMagnitudes(x: nat, y: nat)
    requires y > 0
    ensures x == y * (x / y) + x % y && 0 <= x % y < y && (x / y) * y <= x && x / y >= 0
  {
  }

  lemma NegatedProduct(b: int, q: int)
    ensures b * -q == -(b * q) == (-b) * q
  {
  }
}
