/** The script variable calculator: one of twelve Go `int` operators applied to a
    variable's value and a right operand. */
module Calculator {
  import opened GoInt
  import opened ScriptTypes

  /** The shift count Go computes as `rightValue % 32`: truncated, so negative for a
      negative right operand that is not a multiple of 32. */
  function ShiftCount(rightValue: Int64): int
  {
    TruncMod(rightValue, 32)
  }

  /** Operations 0-11 are + - * / % | & ^ ^x << >> >>. Division or remainder by zero and
      a negative shift count are Go runtime panics; any other operation is fatal. */
  function ScriptVariableCalculator(operation: int, leftValue: Int64, rightValue: Int64): (r: Result<Int64>)
    ensures r.Err? <==>
      !(0 <= operation <= 11) ||
      ((operation == 3 || operation == 4) && rightValue == 0) ||
      (9 <= operation <= 11 && rightValue < 0 && rightValue % 32 != 0)
    ensures r.Err? && !(0 <= operation <= 11) ==> r.fault == InvalidCalculatorOperation
    ensures r.Err? && (operation == 3 || operation == 4) ==> r.fault == DivideByZero
    ensures r.Err? && 9 <= operation <= 11 ==> r.fault == NegativeShiftAmount
  {
    match operation
    case 0 => Ok(Wrap(leftValue + rightValue))
    case 1 => Ok(Wrap(leftValue - rightValue))
    case 2 => Ok(Wrap(leftValue * rightValue))
    case 3 => if rightValue == 0 then Err(DivideByZero) else Ok(Wrap(TruncDiv(leftValue, rightValue)))
    case 4 =>
      if rightValue == 0 then Err(DivideByZero)
      else
        TruncDivMod(leftValue, rightValue);
        Ok(TruncMod(leftValue, rightValue))
    case 5 => Ok(Or(leftValue, rightValue))
    case 6 => Ok(And(leftValue, rightValue))
    case 7 => Ok(Xor(leftValue, rightValue))
    case 8 => Ok(Not(leftValue))
    case 9 =>
      ShiftCountSign(rightValue);
      var s := ShiftCount(rightValue);
      if s < 0 then Err(NegativeShiftAmount) else Ok(ShiftLeft(leftValue, s))
    case 10 =>
      ShiftCountSign(rightValue);
      var s := ShiftCount(rightValue);
      if s < 0 then Err(NegativeShiftAmount) else Ok(ShiftRight(leftValue, s))
    case 11 =>
      ShiftCountSign(rightValue);
      var s := ShiftCount(rightValue);
      if s < 0 then Err(NegativeShiftAmount) else Ok(ShiftRight(leftValue, s))
    case _ => Err(InvalidCalculatorOperation)
  }

  /** The shift count lies in (-32, 32); it is negative exactly when the right operand is
      negative and not a multiple of 32. */
  lemma ShiftCountSign(rightValue: Int64)
    ensures -32 < ShiftCount(rightValue) < 32
    ensures ShiftCount(rightValue) < 0 <==> rightValue < 0 && rightValue % 32 != 0
  {
    TruncDivMod(rightValue, 32);
    if rightValue < 0 {
      var a := -(rightValue as int);
      assert ShiftCount(rightValue) == -(a % 32);
      if a % 32 == 0 {
        assert rightValue == 32 * (-(a / 32));
      }
      if rightValue % 32 == 0 {
        assert a == 32 * (-(rightValue / 32));
      }
    }
  }

  /** Operations 10 and 11 are the same arithmetic shift. */
  lemma ShiftRightOperatorsAgree(leftValue: Int64, rightValue: Int64)
    ensures ScriptVariableCalculator(10, leftValue, rightValue) == ScriptVariableCalculator(11, leftValue, rightValue)
  {
  }

  /** Subtracting what was added gives the value back, overflow or not. */
  lemma AddThenSubtract(leftValue: Int64, rightValue: Int64)
    ensures ScriptVariableCalculator(0, leftValue, rightValue).Ok?
    ensures ScriptVariableCalculator(1, ScriptVariableCalculator(0, leftValue, rightValue).value, rightValue) == Ok(leftValue)
  {
    var sum := Wrap(leftValue + rightValue);
    WrapCongruent(sum - rightValue, leftValue);
  }

  /** Go's division identity survives wrap-around: quotient times divisor plus remainder
      is the dividend modulo 2^64, and the remainder is smaller than the divisor. */
  lemma DivideRemainder(leftValue: Int64, rightValue: Int64)
    requires rightValue != 0
    ensures ScriptVariableCalculator(3, leftValue, rightValue).Ok?
    ensures ScriptVariableCalculator(4, leftValue, rightValue).Ok?
    ensures Wrap(ScriptVariableCalculator(3, leftValue, rightValue).value * rightValue +
                 ScriptVariableCalculator(4, leftValue, rightValue).value) == leftValue
    ensures Abs(ScriptVariableCalculator(4, leftValue, rightValue).value) < Abs(rightValue)
  {
    TruncDivMod(leftValue, rightValue);
    var q := TruncDiv(leftValue, rightValue);
    var m := TruncMod(leftValue, rightValue);
    var wq := Wrap(q);
    MulCongruent(wq, q, rightValue);
    assert (wq * rightValue + m) - leftValue == wq * rightValue - q * rightValue;
    WrapCongruent(wq * rightValue + m, leftValue);
  }

  /** Congruence modulo 2^64 is kept by multiplication. */
  lemma MulCongruent(a: int, b: int, c: int)
    requires (a - b) % TWO_64 == 0
    ensures (a * c - b * c) % TWO_64 == 0
  {
    var k := (a - b) / TWO_64;
    assert a - b == TWO_64 * k;
    assert a * c - b * c == (a - b) * c;
    assert a * c - b * c == TWO_64 * (k * c);
  }

  /** The bitwise complement applied twice is the identity. */
  lemma NotTwice(leftValue: Int64)
    ensures ScriptVariableCalculator(8, ScriptVariableCalculator(8, leftValue, 0).value, 0) == Ok(leftValue)
  {
  }

  /** A shift count is taken modulo 32: for a non-negative count every shift operation
      gives what it gives for the count's remainder by 32, so shifting left by 33 is
      doubling with wrap-around. */
  lemma ShiftCountModulo(leftValue: Int64, rightValue: Int64)
    requires rightValue >= 0
    ensures forall operation :: 9 <= operation <= 11 ==>
      ScriptVariableCalculator(operation, leftValue, rightValue) ==
        ScriptVariableCalculator(operation, leftValue, (rightValue % 32) as Int64)
    ensures ScriptVariableCalculator(9, leftValue, 33) == ScriptVariableCalculator(9, leftValue, 1)
    ensures ScriptVariableCalculator(9, leftValue, 1) == Ok(Wrap(2 * leftValue))
  {
    var reduced := (rightValue % 32) as Int64;
    TruncDivMod(rightValue, 32);
    TruncDivMod(reduced, 32);
    ShiftCountSign(rightValue);
    ShiftCountSign(reduced);
    assert ShiftCount(rightValue) == ShiftCount(reduced);
  }

  /** The or, and and xor operations do not depend on the order of their operands. */
  lemma BitOperatorsCommute(leftValue: Int64, rightValue: Int64)
    ensures forall operation :: 5 <= operation <= 7 ==>
      ScriptVariableCalculator(operation, leftValue, rightValue) == ScriptVariableCalculator(operation, rightValue, leftValue)
  {
    var l, r := Unsigned(leftValue), Unsigned(rightValue);
    BitwiseCommutes(OrBits, l, r, 64);
    BitwiseCommutes(AndBits, l, r, 64);
    BitwiseCommutes(XorBits, l, r, 64);
  }

  /** A variable xor-ed with its own value becomes 0. */
  lemma XorSelfClears(leftValue: Int64)
    ensures ScriptVariableCalculator(7, leftValue, leftValue) == Ok(0)
  {
    BitwiseXorSelf(Unsigned(leftValue), 64);
  }
}
