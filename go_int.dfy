/** Go's signed 64-bit `int` arithmetic, as the script variable calculator uses it:
    wrap-around on overflow, division and remainder truncated toward zero, and the
    bitwise operators on the two's-complement representation. */
module GoInt {

  const TWO_63: int := 0x8000_0000_0000_0000
  const TWO_64: int := 0x1_0000_0000_0000_0000

  /** A value of Go's 64-bit `int`. */
  type Int64 = x: int | -0x8000_0000_0000_0000 <= x < 0x8000_0000_0000_0000

  /** The Int64 congruent to x modulo 2^64 (what Go keeps of an overflowing result). */
  function Wrap(x: int): (r: Int64)
    ensures (r - x) % TWO_64 == 0
    ensures -TWO_63 <= x < TWO_63 ==> r == x
  {
    var m := x % TWO_64;
    if m >= TWO_63 then m - TWO_64 else m
  }

  function Abs(x: int): nat { if x < 0 then -x else x }

  /** Go's `/` on integers: the quotient rounded toward zero. */
  function TruncDiv(l: int, r: int): int
    requires r != 0
  {
    var q := Abs(l) / Abs(r);
    if (l < 0) == (r < 0) then q else -q
  }

  /** Go's `%` on integers: the remainder that goes with TruncDiv, carrying the
      sign of the dividend. */
  function TruncMod(l: int, r: int): int
    requires r != 0
  {
    var m := Abs(l) % Abs(r);
    if l < 0 then -m else m
  }

  /** The two's-complement bits of x, read as an unsigned number below 2^64. */
  function Unsigned(x: int): nat { x % TWO_64 }

  /** The Int64 whose two's-complement bits, read unsigned, are u. */
  function Signed(u: nat): (r: Int64)
    requires u < TWO_64
    ensures Unsigned(r) == u
  {
    if u >= TWO_63 then u - TWO_64 else u
  }

  datatype BitOperator = OrBits | AndBits | XorBits

  function ApplyBit(op: BitOperator, x: bool, y: bool): bool
  {
    match op
    case OrBits => x || y
    case AndBits => x && y
    case XorBits => x != y
  }

  /** The operator applied bit by bit to the low n bits of a and b. */
  function Bitwise(op: BitOperator, a: nat, b: nat, n: nat): nat
    decreases n
  {
    if n == 0 then 0
    else (if ApplyBit(op, a % 2 == 1, b % 2 == 1) then 1 else 0) + 2 * Bitwise(op, a / 2, b / 2, n - 1)
  }

  /** n bits make a number below 2^n. */
  lemma {:induction false} BitwiseBound(op: BitOperator, a: nat, b: nat, n: nat)
    ensures Bitwise(op, a, b, n) < Pow2(n)
  {
    if n > 0 {
      BitwiseBound(op, a / 2, b / 2, n - 1);
    }
  }

  /** A 64-bit bitwise operator on Go ints. */
  function BitwiseInt64(op: BitOperator, l: Int64, r: Int64): Int64
  {
    BitwiseBound(op, Unsigned(l), Unsigned(r), 64);
    Pow2Width();
    Signed(Bitwise(op, Unsigned(l), Unsigned(r), 64))
  }

  /** All-zero operands give zero under every operator. */
  lemma {:induction false} BitwiseZeros(op: BitOperator, n: nat)
    ensures Bitwise(op, 0, 0, n) == 0
  {
    if n > 0 {
      BitwiseZeros(op, n - 1);
    }
  }

  /** On one-bit operands only the lowest bit can be set. */
  lemma BitwiseOneBit(op: BitOperator, a: nat, b: nat, n: nat)
    requires n > 0 && a < 2 && b < 2
    ensures Bitwise(op, a, b, n) == if ApplyBit(op, a == 1, b == 1) then 1 else 0
  {
    BitwiseZeros(op, n - 1);
  }

  /** Each bit operator is symmetric, so the whole bitwise operation is. */
  lemma {:induction false} BitwiseCommutes(op: BitOperator, a: nat, b: nat, n: nat)
    ensures Bitwise(op, a, b, n) == Bitwise(op, b, a, n)
    decreases n
  {
    if n > 0 {
      BitwiseCommutes(op, a / 2, b / 2, n - 1);
    }
  }

  /** A number xor itself has no bit set. */
  lemma {:induction false} BitwiseXorSelf(a: nat, n: nat)
    ensures Bitwise(XorBits, a, a, n) == 0
    decreases n
  {
    if n > 0 {
      BitwiseXorSelf(a / 2, n - 1);
    }
  }

  function Or(l: Int64, r: Int64): Int64 { BitwiseInt64(OrBits, l, r) }
  function And(l: Int64, r: Int64): Int64 { BitwiseInt64(AndBits, l, r) }
  function Xor(l: Int64, r: Int64): Int64 { BitwiseInt64(XorBits, l, r) }

  /** Go's unary `^x` on a signed integer, the bitwise complement, is -x-1. */
  function Not(l: Int64): Int64 { -(l as int) - 1 }

  function Pow2(n: nat): (r: nat)
    ensures r >= 1
  {
    if n == 0 then 1 else 2 * Pow2(n - 1)
  }

  lemma {:induction false} Pow2Sum(a: nat, b: nat)
    ensures Pow2(a + b) == Pow2(a) * Pow2(b)
    decreases a
  {
    if a > 0 {
      Pow2Sum(a - 1, b);
    }
  }

  lemma Pow2Width()
    ensures Pow2(64) == TWO_64
  {
    assert Pow2(8) == 0x100;
    Pow2Sum(8, 8);
    assert Pow2(16) == 0x1_0000;
    Pow2Sum(16, 16);
    assert Pow2(32) == 0x1_0000_0000;
    Pow2Sum(32, 32);
  }

  /** Go's `l << s` on int: the low 64 bits of l * 2^s. */
  function ShiftLeft(l: Int64, s: nat): Int64 { Wrap(l * Pow2(s)) }

  /** Go's `l >> s` on a signed int: an arithmetic shift, halving with rounding
      toward negative infinity s times (Dafny's `/` by 2 rounds that way). */
  function ShiftRight(l: Int64, s: nat): (r: Int64)
    ensures l >= 0 ==> 0 <= r <= l
    ensures l < 0 ==> l <= r < 0
  {
    if s == 0 then l else ShiftRight(l, s - 1) / 2
  }

  /** Go's guarantee for `/` and `%`: q * r + m == l, where the remainder m is smaller
      than the divisor in magnitude and is zero or has the sign of the dividend. */
  lemma TruncDivMod(l: int, r: int)
    requires r != 0
    ensures TruncDiv(l, r) * r + TruncMod(l, r) == l
    ensures Abs(TruncMod(l, r)) < Abs(r)
    ensures TruncMod(l, r) == 0 || (TruncMod(l, r) < 0 <==> l < 0)
  {
    var a: int, b: int := Abs(l), Abs(r);
    var q: int, m: int := a / b, a % b;
    assert a == q * b + m && 0 <= m < b;
    MulSigns(q, b);
    assert r == b || r == -b;
    assert l == a || l == -a;
  }

  lemma MulSigns(x: int, y: int)
    ensures (-x) * (-y) == x * y && (-x) * y == -(x * y) && x * (-y) == -(x * y)
  {
  }

  /** Wrap keeps exactly the residue modulo 2^64: two integers wrap to the same Int64
      if and only if they are congruent. */
  lemma WrapCongruent(x: int, y: int)
    ensures Wrap(x) == Wrap(y) <==> (x - y) % TWO_64 == 0
  {
    var wx, wy := Wrap(x), Wrap(y);
    if (x - y) % TWO_64 == 0 {
      assert (wx - wy) % TWO_64 == 0 by { ModSum(wx - x, x - y, y - wy); }
      assert -TWO_64 < wx - wy < TWO_64;
      ModZeroSmall(wx - wy);
    } else if wx == wy {
      ModSum(x - wx, wx - wy, wy - y);
    }
  }

  lemma ModSum(a: int, b: int, c: int)
    requires a % TWO_64 == 0 && b % TWO_64 == 0 && c % TWO_64 == 0
    ensures (a + b + c) % TWO_64 == 0
  {
    var ka, kb, kc := a / TWO_64, b / TWO_64, c / TWO_64;
    assert a + b + c == TWO_64 * (ka + kb + kc);
  }

  lemma ModZeroSmall(d: int)
    requires -TWO_64 < d < TWO_64 && d % TWO_64 == 0
    ensures d == 0
  {
  }
}
