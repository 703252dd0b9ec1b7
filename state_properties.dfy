/** What the flag and variable handlers promise when a script combines them: a flip
    undone by a second flip, a check that sees what set_bit wrote, a compare that sees
    what save or copy stored, and the comparison operators that negate each other. */
module StateProperties {
  import opened GoInt
  import ScriptTypes
  import opened Game
  import opened StateHandlers

  /** Flipping a bit twice gives the game state back unchanged. */
  lemma FlipTwiceRestores(g: GameRec, bitArray: int, bitNumber: int)
    ensures SetBit(g, bitArray, bitNumber, 7).Ok?
    ensures SetBit(SetBit(g, bitArray, bitNumber, 7).value, bitArray, bitNumber, 7) == ScriptTypes.Ok(g)
  {
    var x := (bitArray, bitNumber);
    var g1 := SetBit(g, bitArray, bitNumber, 7).value;
    if x in g.bits {
      assert g1.bits == g.bits - {x};
      assert g1.bits + {x} == g.bits;
    } else {
      assert g1.bits == g.bits + {x};
      assert g1.bits - {x} == g.bits;
    }
  }

  /** Setting or clearing a bit a second time changes nothing more. */
  lemma SetBitIdempotent(g: GameRec, bitArray: int, bitNumber: int, operation: int)
    requires operation == 0 || operation == 1
    ensures SetBit(SetBit(g, bitArray, bitNumber, operation).value, bitArray, bitNumber, operation) ==
      SetBit(g, bitArray, bitNumber, operation)
  {
    var x := (bitArray, bitNumber);
    var g1 := SetBit(g, bitArray, bitNumber, operation).value;
    if operation == 0 {
      assert g1.bits - {x} == g1.bits;
    } else {
      assert g1.bits + {x} == g1.bits;
    }
  }

  /** A check right after a set_bit passes exactly when it tests for the value written:
      1 after setting, 0 after clearing, the opposite of the old bit after a flip. */
  lemma CheckSeesSetBit(g: GameRec, bitArray: int, bitNumber: int, operation: int, value: int)
    requires operation == 0 || operation == 1 || operation == 7
    ensures var written := if operation == 7 then 1 - g.GetBitArray(bitArray, bitNumber) else operation;
      CheckBit(SetBit(g, bitArray, bitNumber, operation).value, bitArray, bitNumber, value) == 1 <==> value == written
  {
  }

  /** A set_bit does not disturb a check of any other bit. */
  lemma CheckIgnoresOtherSetBit(g: GameRec, bitArray: int, bitNumber: int, operation: int,
                                otherArray: int, otherNumber: int, value: int)
    requires SetBit(g, bitArray, bitNumber, operation).Ok?
    requires (otherArray, otherNumber) != (bitArray, bitNumber)
    ensures CheckBit(SetBit(g, bitArray, bitNumber, operation).value, otherArray, otherNumber, value) ==
      CheckBit(g, otherArray, otherNumber, value)
  {
  }

  /** A compare for equality right after a save of the same literal passes, and one for
      inequality fails. */
  lemma CompareSeesSave(g: GameRec, varId: int, value: Int64)
    ensures Compare(Save(g, varId, value), varId, 0, value) == 1
    ensures Compare(Save(g, varId, value), varId, 5, value) == 0
  {
  }

  /** After a copy the destination compares equal to the source's old value. */
  lemma CompareSeesCopy(g: GameRec, destVarId: int, sourceVarId: int)
    ensures Compare(Copy(g, destVarId, sourceVarId), destVarId, 0, g.GetScriptVariable(sourceVarId)) == 1
  {
  }

  /** The comparison operators come in negating pairs: == and !=, > and <=, >= and <. */
  lemma CompareOperatorsNegate(a: Int64, b: Int64)
    ensures CompareSignal(a, 0, b) == 1 - CompareSignal(a, 5, b)
    ensures CompareSignal(a, 1, b) == 1 - CompareSignal(a, 4, b)
    ensures CompareSignal(a, 2, b) == 1 - CompareSignal(a, 3, b)
  {
  }

  /** Testing a value for a common set bit with itself tests it for being nonzero. */
  lemma CommonBitWithSelf(a: Int64)
    ensures CompareSignal(a, 6, a) == (if a != 0 then 1 else 0)
  {
    AndItself(a);
  }

  /** A value and-ed with itself is itself. */
  lemma AndItself(a: Int64)
    ensures And(a, a) == a
  {
    var u := Unsigned(a);
    AndSelf(u, 64);
    Pow2Width();
    ModOfDecomposition(u, TWO_64, 0, u);
    assert Bitwise(AndBits, u, u, 64) == u;
    UnsignedInjective(Signed(u), a);
  }

  /** Distinct Int64 values have distinct two's-complement bits. */
  lemma UnsignedInjective(x: Int64, y: Int64)
    requires Unsigned(x) == Unsigned(y)
    ensures x == y
  {
    assert Unsigned(x) == if x >= 0 then x as int else x + TWO_64;
    assert Unsigned(y) == if y >= 0 then y as int else y + TWO_64;
  }

  /** A number and-ed with itself keeps its low n bits. */
  lemma {:induction false} AndSelf(a: nat, n: nat)
    ensures Bitwise(AndBits, a, a, n) == a % Pow2(n)
    decreases n
  {
    if n > 0 {
      AndSelf(a / 2, n - 1);
      var m := Pow2(n - 1);
      var q := (a / 2) / m;
      assert a / 2 == q * m + (a / 2) % m;
      assert a == (2 * m) * q + (a % 2 + 2 * ((a / 2) % m));
      assert 0 <= a % 2 + 2 * ((a / 2) % m) < 2 * m;
      ModOfDecomposition(a, 2 * m, q, a % 2 + 2 * ((a / 2) % m));
    }
  }

  /** The remainder of a number written as d * q + m with m below d is m. */
  lemma ModOfDecomposition(a: int, d: int, q: int, m: int)
    requires d > 0 && 0 <= m < d && a == d * q + m
    ensures a % d == m
  {
    var q2, m2 := a / d, a % d;
    assert d * q2 + m2 == d * q + m;
    assert d * (q - q2) == m2 - m;
    if q > q2 {
      MulAtLeast(d, q - q2);
    } else if q < q2 {
      MulAtLeast(d, q2 - q);
    }
  }

  lemma MulAtLeast(d: int, k: int)
    requires d > 0 && k >= 1
    ensures d * k >= d
  {
  }
}
