/** What the control-flow handlers promise when they are chained the way a script runs
    them: if-blocks open and close in balance, a failed condition skips its block, a
    loop body runs `count` times, a sleep stalls its thread for `count` passes, a switch
    enters the first matching case (or else the first default), and a subroutine returns to the instruction after
    its call. */
module ThreadProperties {
  import opened GoInt
  import opened ScriptTypes
  import opened ThreadSpec

  // ---------------------------------------------------------------------------------
  // if / else / end_if
  // ---------------------------------------------------------------------------------

  /** if_start saves the address just past its block in the next stack slot of the
      current level and opens one block; it fails exactly when that slot is missing. */
  lemma IfBlockStartSavesBlockEnd(t: ThreadRec, size: int, blockLength: int)
    ensures ThreadSpec.IfBlockStart(t, size, blockLength).Ok? <==> t.HasLevel() && 0 <= t.stackIndex < |t.Level().stack|
    ensures ThreadSpec.IfBlockStart(t, size, blockLength).Ok? ==>
      var s := ThreadSpec.IfBlockStart(t, size, blockLength).value;
      s.signal == 1 && s.thread.HasLevel() && s.thread.subLevel == t.subLevel &&
      s.thread.stackIndex == t.stackIndex + 1 &&
      s.thread.Level().ifElseCounter == t.Level().ifElseCounter + 1 &&
      s.thread.Level().stack == t.Level().stack[t.stackIndex := t.programCounter + size + blockLength] &&
      s.thread.Level().loopLevel == t.Level().loopLevel &&
      s.thread.programCounter == t.programCounter &&
      s.thread.overrideProgramCounter == t.overrideProgramCounter
  {
  }

  /** The three block handlers and the dispatcher's pop keep one saved address per open
      block. */
  lemma BlockHandlersKeepBalance(t: ThreadRec, size: int, blockLength: int)
    requires Balanced(t)
    ensures ThreadSpec.IfBlockStart(t, size, blockLength).Ok? ==> Balanced(ThreadSpec.IfBlockStart(t, size, blockLength).value.thread)
    ensures ThreadSpec.ElseCheck(t, blockLength).Ok? && Balanced(ThreadSpec.ElseCheck(t, blockLength).value.thread)
    ensures ThreadSpec.EndIf(t).Ok? && Balanced(ThreadSpec.EndIf(t).value.thread)
    ensures Pop(t).Ok? ==> Balanced(Pop(t).value)
  {
  }

  /** The thread an if_start leaves behind, with only the saved slot different. */
  function Saved(t: ThreadRec, size: int, blockLength: int): ThreadRec
    requires t.HasLevel() && 0 <= t.stackIndex < |t.Level().stack|
  {
    t.SetLevel(t.Level().(stack := t.Level().stack[t.stackIndex := t.programCounter + size + blockLength]))
  }

  /** A block whose condition held runs to its end_if, or to its else: either closes
      the block and brings both counters back to where they were before if_start; else
      also jumps over the else body. */
  lemma CompletedBlockRestoresCounters(t: ThreadRec, size: int, blockLength: int, p: int, elseLength: int)
    requires ThreadSpec.IfBlockStart(t, size, blockLength).Ok?
    ensures var t1 := ThreadSpec.IfBlockStart(t, size, blockLength).value.thread.(programCounter := p);
      ThreadSpec.EndIf(t1) == Ok(Step(Saved(t, size, blockLength).(programCounter := p), 1)) &&
      ThreadSpec.ElseCheck(t1, elseLength) ==
        Ok(Step(Saved(t, size, blockLength).(programCounter := p + elseLength, overrideProgramCounter := true), 1))
  {
    var t1 := ThreadSpec.IfBlockStart(t, size, blockLength).value.thread.(programCounter := p);
    var closed := t1.Level().(ifElseCounter := t1.Level().ifElseCounter - 1);
    assert closed == Saved(t, size, blockLength).Level();
    assert t1.SetLevel(closed).levelState == Saved(t, size, blockLength).levelState;
  }

  /** A condition that fails inside the block (a check or compare signalling 0, wherever
      it left the address) makes the dispatcher pop the block: the thread resumes just
      past the block, and the counters are back where they were before if_start. */
  lemma FailedConditionSkipsBlock(t: ThreadRec, size: int, blockLength: int, p: int)
    requires ThreadSpec.IfBlockStart(t, size, blockLength).Ok?
    requires t.Level().ifElseCounter >= -1
    ensures var t1 := ThreadSpec.IfBlockStart(t, size, blockLength).value.thread.(programCounter := p);
      Unwind(t1, 0) == Resume(Saved(t, size, blockLength).(programCounter := t.programCounter + size + blockLength))
  {
    var t1 := ThreadSpec.IfBlockStart(t, size, blockLength).value.thread.(programCounter := p);
    assert t1.Level().(ifElseCounter := t1.Level().ifElseCounter - 1) == Saved(t, size, blockLength).Level();
  }

  /** The dispatcher's unwinding: signal 2 ends the pass before anything is indexed,
      whatever the thread's levels; otherwise a missing current level is an index fault,
      no open block at the current level ends the pass, and else the innermost block is
      popped, which is fatal when no address was saved. */
  lemma UnwindCases(t: ThreadRec, signal: int)
    ensures signal == 2 ==> Unwind(t, signal) == Finish
    ensures signal != 2 && !t.HasLevel() ==> Unwind(t, signal) == Abort(IndexOutOfRange)
    ensures signal != 2 && t.HasLevel() ==> (t.Level().ifElseCounter < 0 <==> Unwind(t, signal).Finish?)
    ensures signal != 2 && t.HasLevel() && t.Level().ifElseCounter >= 0 && t.stackIndex == 0 ==>
      Unwind(t, signal) == Abort(EmptyStack)
    ensures signal != 2 && t.HasLevel() && t.Level().ifElseCounter >= 0 && (t.stackIndex < 0 || t.stackIndex > |t.Level().stack|)
      ==> Unwind(t, signal) == Abort(IndexOutOfRange)
    ensures signal != 2 && t.HasLevel() && t.Level().ifElseCounter >= 0 && 0 < t.stackIndex <= |t.Level().stack| ==>
      Unwind(t, signal) ==
        Resume(t.SetLevel(t.Level().(ifElseCounter := t.Level().ifElseCounter - 1))
                .(stackIndex := t.stackIndex - 1, programCounter := t.Level().stack[t.stackIndex - 1]))
  {
  }

  // ---------------------------------------------------------------------------------
  // for / for_end
  // ---------------------------------------------------------------------------------

  /** for opens frame loopLevel + 1 holding the count, the body start and the address
      past the body, and enters the body; a zero count jumps past the body instead and
      opens nothing. */
  lemma ForLoopBeginOpensFrame(t: ThreadRec, size: int, blockLength: int, count: int)
    ensures count == 0 ==>
      ThreadSpec.ForLoopBegin(t, size, blockLength, count) ==
        Ok(Step(t.(programCounter := t.programCounter + size + blockLength, overrideProgramCounter := true), 1))
    ensures count != 0 ==>
      (ThreadSpec.ForLoopBegin(t, size, blockLength, count).Ok? <==> t.HasLevel() && t.Level().HasLoop(t.Level().loopLevel + 1))
    ensures count != 0 && ThreadSpec.ForLoopBegin(t, size, blockLength, count).Ok? ==>
      var s := ThreadSpec.ForLoopBegin(t, size, blockLength, count).value;
      var k := t.Level().loopLevel + 1;
      s.signal == 1 && s.thread.HasLevel() &&
      s.thread.programCounter == t.programCounter + size && s.thread.overrideProgramCounter &&
      s.thread.Level().loopLevel == k && s.thread.Level().HasLoop(k) &&
      s.thread.Level().loopState[k] ==
        LoopRec(count, t.programCounter + size + blockLength, t.programCounter + size, t.Level().ifElseCounter) &&
      s.thread.Level().ifElseCounter == t.Level().ifElseCounter
  {
  }

  /** `n` turns of a loop whose body runs straight to its for_end at address endPc:
      each turn the body brings the thread to for_end, which then runs. */
  function LoopRounds(t: ThreadRec, size: int, endPc: int, n: nat): Result<ThreadRec>
  {
    if n == 0 then Ok(t)
    else
      match LoopRounds(t, size, endPc, n - 1)
      case Err(f) => Err(f)
      case Ok(t1) =>
        match ThreadSpec.ForLoopEnd(t1.(programCounter := endPc), size)
        case Err(f) => Err(f)
        case Ok(s) => Ok(s.thread)
  }

  /** The frame a thread's current level has open. */
  predicate InLoop(t: ThreadRec)
  {
    t.HasLevel() && t.Level().HasLoop(t.Level().loopLevel)
  }

  /** While the frame's counter stays above the turns taken, each for_end sends the
      thread back to the body start and counts one down; nothing else in the level's
      frame changes. */
  lemma {:induction false} LoopRoundsRepeat(t: ThreadRec, size: int, endPc: int, n: nat)
    requires InLoop(t)
    requires n < t.Level().loopState[t.Level().loopLevel].counter
    ensures LoopRounds(t, size, endPc, n).Ok?
    ensures var t' := LoopRounds(t, size, endPc, n).value;
      var k := t.Level().loopLevel;
      var l := t.Level().loopState[k];
      t'.subLevel == t.subLevel && InLoop(t') && t'.Level().loopLevel == k &&
      t'.Level().loopState[k] == l.(counter := l.counter - n) &&
      t'.Level().ifElseCounter == t.Level().ifElseCounter &&
      (n > 0 ==> t'.programCounter == l.stackValue)
    decreases n
  {
    if n > 0 {
      LoopRoundsRepeat(t, size, endPc, n - 1);
    }
  }

  /** A for with count >= 1 enters its body once itself; for_end sends the thread back
      to the body count - 1 times, and the count-th for_end closes the frame and moves
      past itself. So the body runs exactly count times. */
  lemma ForLoopRunsBodyCountTimes(t: ThreadRec, size: int, blockLength: int, count: int, endPc: int)
    requires count >= 1
    requires ThreadSpec.ForLoopBegin(t, size, blockLength, count).Ok?
    ensures var t1 := ThreadSpec.ForLoopBegin(t, size, blockLength, count).value.thread;
      forall n: nat :: n < count ==>
        LoopRounds(t1, size, endPc, n).Ok? && LoopRounds(t1, size, endPc, n).value.programCounter == t.programCounter + size
    ensures var t1 := ThreadSpec.ForLoopBegin(t, size, blockLength, count).value.thread;
      LoopRounds(t1, size, endPc, count).Ok? &&
      var t' := LoopRounds(t1, size, endPc, count).value;
      t'.HasLevel() && t'.subLevel == t.subLevel &&
      t'.programCounter == endPc + size &&
      t'.Level().loopLevel == t.Level().loopLevel &&
      t'.Level().ifElseCounter == t.Level().ifElseCounter
  {
    var t1 := ThreadSpec.ForLoopBegin(t, size, blockLength, count).value.thread;
    forall n: nat | n < count
      ensures LoopRounds(t1, size, endPc, n).Ok? && LoopRounds(t1, size, endPc, n).value.programCounter == t.programCounter + size
    {
      LoopRoundsRepeat(t1, size, endPc, n);
    }
    LoopRoundsRepeat(t1, size, endPc, count - 1);
  }

  // ---------------------------------------------------------------------------------
  // sleep / sleeping
  // ---------------------------------------------------------------------------------

  /** `n` passes of a sleeping opcode: each runs it once at its own address. */
  function SleepRounds(t: ThreadRec, size: int, n: nat): Result<ThreadRec>
  {
    if n == 0 then Ok(t)
    else
      match SleepRounds(t, size, n - 1)
      case Err(f) => Err(f)
      case Ok(t1) =>
        match ThreadSpec.Sleeping(t1, size)
        case Err(f) => Err(f)
        case Ok(s) => Ok(s.thread)
  }

  /** sleeping always stops the pass. */
  lemma SleepingEndsPass(t: ThreadRec, size: int)
    ensures ThreadSpec.Sleeping(t, size).Ok? ==> ThreadSpec.Sleeping(t, size).value.signal == 2
    ensures ThreadSpec.Sleeping(t, size).Ok? <==> InLoop(t)
  {
  }

  /** While the counter stays above the passes taken, the thread stays on its sleeping
      opcode, one tick fewer to go each pass. */
  lemma {:induction false} SleepRoundsStall(t: ThreadRec, size: int, n: nat)
    requires InLoop(t)
    requires n < t.Level().loopState[t.Level().loopLevel].counter
    ensures SleepRounds(t, size, n).Ok?
    ensures var t' := SleepRounds(t, size, n).value;
      var k := t.Level().loopLevel;
      var l := t.Level().loopState[k];
      t'.subLevel == t.subLevel && InLoop(t') && t'.Level().loopLevel == k &&
      t'.Level().loopState[k] == l.(counter := l.counter - n) &&
      t'.programCounter == t.programCounter
    decreases n
  {
    if n > 0 {
      SleepRoundsStall(t, size, n - 1);
    }
  }

  /** sleep with count >= 1 parks the thread on the sleeping opcode one byte on, which
      holds it there for count - 1 passes and on the count-th pass closes the frame and
      moves past itself. */
  lemma SleepStallsCountPasses(t: ThreadRec, count: int, size: int)
    requires count >= 1
    requires ThreadSpec.Sleep(t, count).Ok?
    ensures var t1 := ThreadSpec.Sleep(t, count).value.thread;
      forall n: nat :: n < count ==>
        SleepRounds(t1, size, n).Ok? && SleepRounds(t1, size, n).value.programCounter == t.programCounter + 1
    ensures var t1 := ThreadSpec.Sleep(t, count).value.thread;
      SleepRounds(t1, size, count).Ok? &&
      var t' := SleepRounds(t1, size, count).value;
      t'.HasLevel() && t'.subLevel == t.subLevel &&
      t'.programCounter == t.programCounter + 1 + size &&
      t'.Level().loopLevel == t.Level().loopLevel
  {
    var t1 := ThreadSpec.Sleep(t, count).value.thread;
    forall n: nat | n < count
      ensures SleepRounds(t1, size, n).Ok? && SleepRounds(t1, size, n).value.programCounter == t.programCounter + 1
    {
      SleepRoundsStall(t1, size, n);
    }
    SleepRoundsStall(t1, size, count - 1);
  }

  // ---------------------------------------------------------------------------------
  // switch / case / default / end_switch / break
  // ---------------------------------------------------------------------------------

  /** Where a scan stops is justified by the block: entering a body means a case with
      the switch value or a default just before it, leaving means an end_switch. */
  lemma {:induction false} SwitchScanSound(instructions: map<int, Instr>, sizes: InstructionSize,
                                           switchValue: Int64, pc: int, visited: set<int>)
    ensures SwitchScan(instructions, sizes, switchValue, pc, visited).Ok? ==>
      match SwitchScan(instructions, sizes, switchValue, pc, visited).value
      case Enter(x) =>
        exists q :: q in instructions && q !in visited &&
          ((instructions[q].Case? && instructions[q].caseValue == switchValue && x == q + sizes(OpCase)) ||
           (instructions[q].Default? && x == q + sizes(OpDefault)))
      case Leave(x) =>
        exists q :: q in instructions && q !in visited && instructions[q].EndSwitch? && x == q + sizes(OpEndSwitch)
    decreases instructions.Keys - visited
  {
    if pc !in visited && pc in instructions {
      match instructions[pc]
      case Case(blockLength, value) =>
        if value != switchValue {
          SwitchScanSound(instructions, sizes, switchValue, pc + sizes(OpCase) + blockLength, visited + {pc});
        }
      case _ =>
    }
  }

  /** A scan that meets a case with a different value moves on to the instruction just
      past that case's body. */
  lemma SwitchScanSkipsCase(instructions: map<int, Instr>, sizes: InstructionSize, switchValue: Int64,
                            pc: int, visited: set<int>, blockLength: int, value: Int64)
    requires pc !in visited && pc in instructions && instructions[pc] == Case(blockLength, value)
    requires value != switchValue
    ensures SwitchScan(instructions, sizes, switchValue, pc, visited) ==
      SwitchScan(instructions, sizes, switchValue, pc + sizes(OpCase) + blockLength, visited + {pc})
  {
  }

  /** `chain` is a walk the scan can take: distinct addresses, each but the last a case
      whose value differs from the switch value, each followed by the address just past
      that case's body. */
  predicate SkipChain(instructions: map<int, Instr>, sizes: InstructionSize, switchValue: Int64, chain: seq<int>)
  {
    (forall i, j :: 0 <= i < j < |chain| ==> chain[i] != chain[j]) &&
    forall i :: 0 <= i < |chain| - 1 ==>
      chain[i] in instructions && instructions[chain[i]].Case? &&
      instructions[chain[i]].caseValue != switchValue &&
      chain[i + 1] == chain[i] + sizes(OpCase) + instructions[chain[i]].blockLength
  }

  /** The scan stops at the first stopping instruction on its walk: past any run of
      non-matching cases it enters the first case with the switch value, or else the
      first default, or leaves past the first end_switch. */
  lemma {:induction false} SwitchScanStopsAtFirst(instructions: map<int, Instr>, sizes: InstructionSize,
                                                  switchValue: Int64, chain: seq<int>, visited: set<int>)
    requires |chain| > 0 && SkipChain(instructions, sizes, switchValue, chain)
    requires forall i :: 0 <= i < |chain| ==> chain[i] !in visited
    requires chain[|chain| - 1] in instructions
    ensures var last := chain[|chain| - 1];
      instructions[last].Case? && instructions[last].caseValue == switchValue ==>
        SwitchScan(instructions, sizes, switchValue, chain[0], visited) == Ok(Enter(last + sizes(OpCase)))
    ensures var last := chain[|chain| - 1];
      instructions[last].Default? ==>
        SwitchScan(instructions, sizes, switchValue, chain[0], visited) == Ok(Enter(last + sizes(OpDefault)))
    ensures var last := chain[|chain| - 1];
      instructions[last].EndSwitch? ==>
        SwitchScan(instructions, sizes, switchValue, chain[0], visited) == Ok(Leave(last + sizes(OpEndSwitch)))
    decreases |chain|
  {
    if |chain| > 1 {
      var rest := chain[1..];
      assert SkipChain(instructions, sizes, switchValue, rest) by {
        forall i, j | 0 <= i < j < |rest| ensures rest[i] != rest[j] {
          assert rest[i] == chain[i + 1] && rest[j] == chain[j + 1];
        }
        forall i | 0 <= i < |rest| - 1
          ensures rest[i] in instructions && instructions[rest[i]].Case? &&
            instructions[rest[i]].caseValue != switchValue &&
            rest[i + 1] == rest[i] + sizes(OpCase) + instructions[rest[i]].blockLength
        {
          assert rest[i] == chain[i + 1] && rest[i + 1] == chain[i + 2];
        }
      }
      forall i | 0 <= i < |rest| ensures rest[i] !in visited + {chain[0]} {
        assert rest[i] == chain[i + 1];
      }
      SwitchScanStopsAtFirst(instructions, sizes, switchValue, rest, visited + {chain[0]});
      var c := instructions[chain[0]];
      SwitchScanSkipsCase(instructions, sizes, switchValue, chain[0], visited, c.blockLength, c.caseValue);
    }
  }

  /** A block of two cases and then a default: the value of either case enters that
      case's body, and any other value enters the default's body. Without the default,
      any other value leaves the block past end_switch. */
  lemma SwitchScanScenario(instructions: map<int, Instr>, sizes: InstructionSize, first: int,
                           length0: int, length1: int, last: Instr, other: Int64)
    requires length0 >= 0 && length1 >= 0
    requires other != 1 && other != 2
    requires last.Default? || last.EndSwitch?
    requires var second := first + sizes(OpCase) + length0;
      var third := second + sizes(OpCase) + length1;
      first in instructions && instructions[first] == Case(length0, 1) &&
      second in instructions && instructions[second] == Case(length1, 2) &&
      third in instructions && instructions[third] == last
    ensures SwitchScan(instructions, sizes, 1, first, {}) == Ok(Enter(first + sizes(OpCase)))
    ensures var second := first + sizes(OpCase) + length0;
      SwitchScan(instructions, sizes, 2, first, {}) == Ok(Enter(second + sizes(OpCase)))
    ensures var third := first + sizes(OpCase) + length0 + sizes(OpCase) + length1;
      SwitchScan(instructions, sizes, other, first, {}) ==
        (if last.Default? then Ok(Enter(third + sizes(OpDefault))) else Ok(Leave(third + sizes(OpEndSwitch))))
  {
    var second := first + sizes(OpCase) + length0;
    var third := second + sizes(OpCase) + length1;
    SwitchScanSkipsCase(instructions, sizes, 2, first, {}, length0, 1);
    SwitchScanSkipsCase(instructions, sizes, other, first, {}, length0, 1);
    assert {} + {first} == {first};
    SwitchScanSkipsCase(instructions, sizes, other, second, {first}, length1, 2);
  }

  /** switch opens frame loopLevel + 1 recording the address past the block and the
      open if-block count, then goes where the scan stops; leaving past end_switch
      closes the frame again. */
  lemma SwitchBeginFrames(t: ThreadRec, instructions: map<int, Instr>, sizes: InstructionSize,
                          size: int, switchValue: Int64, blockLength: int)
    requires t.HasLevel() && t.Level().HasLoop(t.Level().loopLevel + 1)
    ensures var scan := SwitchScan(instructions, sizes, switchValue, t.programCounter + size, {});
      var s := ThreadSpec.SwitchBegin(t, instructions, sizes, size, switchValue, blockLength);
      var k := t.Level().loopLevel + 1;
      (s.Ok? <==> scan.Ok?) &&
      (s.Ok? ==>
        s.value.signal == 1 && s.value.thread.HasLevel() && s.value.thread.subLevel == t.subLevel &&
        s.value.thread.programCounter == scan.value.pc && s.value.thread.overrideProgramCounter &&
        s.value.thread.Level().ifElseCounter == t.Level().ifElseCounter &&
        s.value.thread.Level().loopState[k].breakAddress == t.programCounter + size + blockLength &&
        s.value.thread.Level().loopState[k].levelIfCounter == t.Level().ifElseCounter &&
        s.value.thread.Level().loopLevel == (if scan.value.Enter? then k else k - 1))
  {
  }

  /** break inside a case body that opened no if-block of its own leaves the block:
      the thread jumps past it, and both the frame depth and the if-block count are
      back where they were before switch. */
  lemma SwitchThenBreak(t: ThreadRec, instructions: map<int, Instr>, sizes: InstructionSize,
                        size: int, switchValue: Int64, blockLength: int, p: int)
    requires t.HasLevel() && t.Level().HasLoop(t.Level().loopLevel + 1)
    requires SwitchScan(instructions, sizes, switchValue, t.programCounter + size, {}).Ok?
    requires SwitchScan(instructions, sizes, switchValue, t.programCounter + size, {}).value.Enter?
    ensures var t1 := ThreadSpec.SwitchBegin(t, instructions, sizes, size, switchValue, blockLength).value.thread
                        .(programCounter := p);
      ThreadSpec.Break(t1).Ok? &&
      var t' := ThreadSpec.Break(t1).value.thread;
      t'.HasLevel() && t'.programCounter == t.programCounter + size + blockLength &&
      t'.Level().loopLevel == t.Level().loopLevel &&
      t'.Level().ifElseCounter == t.Level().ifElseCounter &&
      t'.stackIndex == t.stackIndex
  {
    SwitchBeginFrames(t, instructions, sizes, size, switchValue, blockLength);
  }

  /** break restores the if-block count the frame recorded but not the stack index, so
      breaking out of a loop from inside an if-block the loop opened leaves the level
      unbalanced. */
  lemma BreakFromInnerBlockUnbalances(t: ThreadRec)
    requires Balanced(t) && InLoop(t)
    requires t.Level().loopState[t.Level().loopLevel].levelIfCounter != t.Level().ifElseCounter
    ensures ThreadSpec.Break(t).Ok? && !Balanced(ThreadSpec.Break(t).value.thread)
  {
  }

  // ---------------------------------------------------------------------------------
  // gosub / evt_end
  // ---------------------------------------------------------------------------------

  /** gosub then the callee's evt_end, wherever it sits: control comes back to the
      instruction after the gosub at the caller's level. */
  lemma GoSubThenEvtEndReturns(t: ThreadRec, startProgramCounter: seq<int>, size: int, event: int, p: int)
    requires ThreadSpec.GoSub(t, startProgramCounter, size, event).Ok?
    ensures var s := ThreadSpec.GoSub(t, startProgramCounter, size, event).value;
      s.thread.subLevel == t.subLevel + 1 &&
      s.thread.programCounter == startProgramCounter[event] &&
      s.thread.Level().ifElseCounter == -1 && s.thread.Level().loopLevel == -1 &&
      Balanced(s.thread)
    ensures var t1 := ThreadSpec.GoSub(t, startProgramCounter, size, event).value.thread.(programCounter := p);
      ThreadSpec.EvtEnd(t1).Ok? && ThreadSpec.EvtEnd(t1).value.signal == 1 &&
      var t' := ThreadSpec.EvtEnd(t1).value.thread;
      t'.subLevel == t.subLevel && t'.programCounter == t.programCounter + size &&
      t'.overrideProgramCounter && t'.runStatus == t.runStatus &&
      t'.stackIndex == 0 &&
      t'.HasLevel() && t'.Level() == t.Level().(returnAddress := t.programCounter + size)
  {
  }

  /** Returning from a subroutine sets the stack index from the callee's if-block count,
      not the caller's, so a call made from inside an if-block returns unbalanced. */
  lemma GoSubInsideBlockReturnsUnbalanced(t: ThreadRec, startProgramCounter: seq<int>, size: int, event: int)
    requires Balanced(t) && t.stackIndex > 0
    requires ThreadSpec.GoSub(t, startProgramCounter, size, event).Ok?
    ensures var t1 := ThreadSpec.GoSub(t, startProgramCounter, size, event).value.thread;
      ThreadSpec.EvtEnd(t1).Ok? && !Balanced(ThreadSpec.EvtEnd(t1).value.thread)
  {
    GoSubThenEvtEndReturns(t, startProgramCounter, size, event, ThreadSpec.GoSub(t, startProgramCounter, size, event).value.thread.programCounter);
  }

  /** evt_end at the top level halts the thread and stops the pass. */
  lemma EvtEndAtTopHalts(t: ThreadRec)
    requires t.subLevel == 0
    ensures ThreadSpec.EvtEnd(t) == Ok(Step(t.(runStatus := false), 2))
  {
  }
}
