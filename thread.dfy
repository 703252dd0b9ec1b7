/** A script thread as a mutable object. Each control-flow handler updates the thread's
    fields in place and is proved to do what the matching function of ThreadSpec says. */
module Thread {
  import opened GoInt
  import opened ScriptTypes
  import opened ThreadSpec

  class ScriptThread {
    var runStatus: bool
    var programCounter: int
    var subLevel: int
    var stackIndex: int
    var workSetComponent: int
    var workSetIndex: int
    var overrideProgramCounter: bool
    var levelState: seq<LevelRec>

    function Value(): ThreadRec
      reads this
    {
      ThreadRec(runStatus, programCounter, subLevel, stackIndex, workSetComponent, workSetIndex,
                overrideProgramCounter, levelState)
    }

    /** A stopped thread at address 0 with the given subroutine levels. */
    constructor (levels: seq<LevelRec>)
      ensures Value() == ThreadRec(false, 0, 0, 0, 0, 0, false, levels)
    {
      runStatus := false;
      programCounter := 0;
      subLevel := 0;
      stackIndex := 0;
      workSetComponent := 0;
      workSetIndex := 0;
      overrideProgramCounter := false;
      levelState := levels;
    }

    /** Stop the thread. */
    method Reset()
      modifies this
      ensures Value() == old(Value()).(runStatus := false)
    {
      runStatus := false;
    }

    /** Move past the current instruction. */
    method IncrementProgramCounter(size: int)
      modifies this
      ensures Value() == old(Value()).(programCounter := old(programCounter) + size)
    {
      programCounter := programCounter + size;
    }

    method EvtEnd() returns (r: Result<int>)
      modifies this
      ensures Reports(r, Value(), ThreadSpec.EvtEnd(old(Value())))
    {
      if subLevel != 0 {
        if !(0 <= subLevel < |levelState|) {
          return Err(IndexOutOfRange);
        }
        var ifElseCounter := levelState[subLevel].ifElseCounter;
        subLevel := subLevel - 1;
        programCounter := levelState[subLevel].returnAddress;
        overrideProgramCounter := true;
        stackIndex := ifElseCounter + 1;
        return Ok(1);
      }
      runStatus := false;
      return Ok(2);
    }

    method IfBlockStart(size: int, blockLength: int) returns (r: Result<int>)
      modifies this
      ensures Reports(r, Value(), ThreadSpec.IfBlockStart(old(Value()), size, blockLength))
    {
      if !(0 <= subLevel < |levelState|) || !(0 <= stackIndex < |levelState[subLevel].stack|) {
        return Err(IndexOutOfRange);
      }
      var lv := levelState[subLevel];
      var newPosition := programCounter + size + blockLength;
      levelState := levelState[subLevel := lv.(ifElseCounter := lv.ifElseCounter + 1,
                                                stack := lv.stack[stackIndex := newPosition])];
      stackIndex := stackIndex + 1;
      return Ok(1);
    }

    method ElseCheck(blockLength: int) returns (r: Result<int>)
      modifies this
      ensures Reports(r, Value(), ThreadSpec.ElseCheck(old(Value()), blockLength))
    {
      if !(0 <= subLevel < |levelState|) {
        return Err(IndexOutOfRange);
      }
      stackIndex := stackIndex - 1;
      programCounter := programCounter + blockLength;
      var lv := levelState[subLevel];
      levelState := levelState[subLevel := lv.(ifElseCounter := lv.ifElseCounter - 1)];
      overrideProgramCounter := true;
      return Ok(1);
    }

    method EndIf() returns (r: Result<int>)
      modifies this
      ensures Reports(r, Value(), ThreadSpec.EndIf(old(Value())))
    {
      if !(0 <= subLevel < |levelState|) {
        return Err(IndexOutOfRange);
      }
      stackIndex := stackIndex - 1;
      var lv := levelState[subLevel];
      levelState := levelState[subLevel := lv.(ifElseCounter := lv.ifElseCounter - 1)];
      return Ok(1);
    }

    method Sleep(count: int) returns (r: Result<int>)
      modifies this
      ensures Reports(r, Value(), ThreadSpec.Sleep(old(Value()), count))
    {
      if !(0 <= subLevel < |levelState|) || !(0 <= levelState[subLevel].loopLevel + 1 < |levelState[subLevel].loopState|) {
        return Err(IndexOutOfRange);
      }
      var lv := levelState[subLevel];
      programCounter := programCounter + 1;
      overrideProgramCounter := true;
      var k := lv.loopLevel + 1;
      lv := lv.(loopLevel := k);
      lv := lv.(loopState := lv.loopState[k := lv.loopState[k].(counter := count)]);
      levelState := levelState[subLevel := lv];
      return Ok(1);
    }

    method Sleeping(size: int) returns (r: Result<int>)
      modifies this
      ensures Reports(r, Value(), ThreadSpec.Sleeping(old(Value()), size))
    {
      if !(0 <= subLevel < |levelState|) || !(0 <= levelState[subLevel].loopLevel < |levelState[subLevel].loopState|) {
        return Err(IndexOutOfRange);
      }
      var lv := levelState[subLevel];
      var k := lv.loopLevel;
      var loop := lv.loopState[k];
      loop := loop.(counter := loop.counter - 1);
      lv := lv.(loopState := lv.loopState[k := loop]);
      if loop.counter == 0 {
        programCounter := programCounter + size;
        lv := lv.(loopLevel := k - 1);
      }
      levelState := levelState[subLevel := lv];
      overrideProgramCounter := true;
      return Ok(2);
    }

    method ForLoopBegin(size: int, blockLength: int, count: int) returns (r: Result<int>)
      modifies this
      ensures Reports(r, Value(), ThreadSpec.ForLoopBegin(old(Value()), size, blockLength, count))
    {
      if count != 0 {
        if !(0 <= subLevel < |levelState|) || !(0 <= levelState[subLevel].loopLevel + 1 < |levelState[subLevel].loopState|) {
          return Err(IndexOutOfRange);
        }
        var newProgramCounter := programCounter + size;
        var lv := levelState[subLevel];
        var k := lv.loopLevel + 1;
        lv := lv.(loopLevel := k);
        var loop := LoopRec(count, newProgramCounter + blockLength, newProgramCounter, lv.ifElseCounter);
        lv := lv.(loopState := lv.loopState[k := loop]);
        levelState := levelState[subLevel := lv];
        programCounter := newProgramCounter;
        overrideProgramCounter := true;
        return Ok(1);
      }
      programCounter := programCounter + size + blockLength;
      overrideProgramCounter := true;
      return Ok(1);
    }

    method ForLoopEnd(size: int) returns (r: Result<int>)
      modifies this
      ensures Reports(r, Value(), ThreadSpec.ForLoopEnd(old(Value()), size))
    {
      if !(0 <= subLevel < |levelState|) || !(0 <= levelState[subLevel].loopLevel < |levelState[subLevel].loopState|) {
        return Err(IndexOutOfRange);
      }
      var lv := levelState[subLevel];
      var k := lv.loopLevel;
      var loop := lv.loopState[k];
      loop := loop.(counter := loop.counter - 1);
      lv := lv.(loopState := lv.loopState[k := loop]);
      if loop.counter != 0 {
        levelState := levelState[subLevel := lv];
        programCounter := loop.stackValue;
        overrideProgramCounter := true;
        return Ok(1);
      }
      lv := lv.(loopLevel := k - 1);
      levelState := levelState[subLevel := lv];
      programCounter := programCounter + size;
      overrideProgramCounter := true;
      return Ok(1);
    }

    /** switch: the scan walks the case chain with a loop; `visited` is the ghost record of
        the addresses seen so far, and meeting one again is reported as divergence. */
    method SwitchBegin(instructions: map<int, Instr>, sizes: InstructionSize, size: int,
                       switchValue: Int64, blockLength: int) returns (r: Result<int>)
      modifies this
      ensures Reports(r, Value(), ThreadSpec.SwitchBegin(old(Value()), instructions, sizes, size, switchValue, blockLength))
    {
      if !(0 <= subLevel < |levelState|) || !(0 <= levelState[subLevel].loopLevel + 1 < |levelState[subLevel].loopState|) {
        return Err(IndexOutOfRange);
      }
      var lv := levelState[subLevel];
      var k := lv.loopLevel + 1;
      var newProgramCounter := programCounter + size;
      var first := newProgramCounter;
      lv := lv.(loopLevel := k);
      lv := lv.(loopState := lv.loopState[k := lv.loopState[k].(breakAddress := newProgramCounter + blockLength,
                                                                 levelIfCounter := lv.ifElseCounter)]);
      ghost var start := old(Value());
      var visited: set<int> := {};
      while true
        invariant SwitchScan(instructions, sizes, switchValue, first, {}) ==
                  SwitchScan(instructions, sizes, switchValue, newProgramCounter, visited)
        invariant Value() == start
        decreases instructions.Keys - visited
      {
        if newProgramCounter in visited {
          return Err(SwitchScanDiverges);
        }
        if newProgramCounter !in instructions {
          return Err(MissingInstruction);
        }
        var newLine := instructions[newProgramCounter];
        if newLine.Case? {
          if newLine.caseValue == switchValue {
            levelState := levelState[subLevel := lv];
            programCounter := newProgramCounter + sizes(OpCase);
            overrideProgramCounter := true;
            return Ok(1);
          }
          visited := visited + {newProgramCounter};
          newProgramCounter := newProgramCounter + sizes(OpCase) + newLine.blockLength;
        } else if newLine.Default? {
          levelState := levelState[subLevel := lv];
          programCounter := newProgramCounter + sizes(OpDefault);
          overrideProgramCounter := true;
          return Ok(1);
        } else if newLine.EndSwitch? {
          lv := lv.(loopLevel := lv.loopLevel - 1);
          levelState := levelState[subLevel := lv];
          programCounter := newProgramCounter + sizes(OpEndSwitch);
          overrideProgramCounter := true;
          return Ok(1);
        } else {
          return Err(SwitchUnknownOpcode);
        }
      }
    }

    method SwitchEnd() returns (r: Result<int>)
      modifies this
      ensures Reports(r, Value(), ThreadSpec.SwitchEnd(old(Value())))
    {
      if !(0 <= subLevel < |levelState|) {
        return Err(IndexOutOfRange);
      }
      levelState := levelState[subLevel := levelState[subLevel].(loopLevel := levelState[subLevel].loopLevel - 1)];
      return Ok(1);
    }

    method GoSub(startProgramCounter: seq<int>, size: int, event: int) returns (r: Result<int>)
      modifies this
      ensures Reports(r, Value(), ThreadSpec.GoSub(old(Value()), startProgramCounter, size, event))
    {
      if !(0 <= subLevel < |levelState|) || !(subLevel + 1 < |levelState|) || !(0 <= event < |startProgramCounter|) {
        return Err(IndexOutOfRange);
      }
      levelState := levelState[subLevel := levelState[subLevel].(returnAddress := programCounter + size)];
      levelState := levelState[subLevel + 1 := levelState[subLevel + 1].(ifElseCounter := -1)];
      levelState := levelState[subLevel + 1 := levelState[subLevel + 1].(loopLevel := -1)];
      stackIndex := 0;
      subLevel := subLevel + 1;
      programCounter := startProgramCounter[event];
      overrideProgramCounter := true;
      return Ok(1);
    }

    method Break() returns (r: Result<int>)
      modifies this
      ensures Reports(r, Value(), ThreadSpec.Break(old(Value())))
    {
      if !(0 <= subLevel < |levelState|) || !(0 <= levelState[subLevel].loopLevel < |levelState[subLevel].loopState|) {
        return Err(IndexOutOfRange);
      }
      var lv := levelState[subLevel];
      var loop := lv.loopState[lv.loopLevel];
      overrideProgramCounter := true;
      programCounter := loop.breakAddress;
      lv := lv.(ifElseCounter := loop.levelIfCounter);
      lv := lv.(loopLevel := lv.loopLevel - 1);
      levelState := levelState[subLevel := lv];
      return Ok(1);
    }

    method WorkSet(component: int, index: int) returns (r: int)
      modifies this
      ensures Value() == ThreadSpec.WorkSet(old(Value()), component, index) && r == 1
    {
      workSetComponent := component;
      workSetIndex := index;
      return 1;
    }
  
    /** The end of one round of the outer dispatch loop: the pass ends on signal 2 or when
        no if-block is open at the current level; an if-block open with nothing saved is
        fatal; otherwise resume at the address the innermost block saved. */
    method UnwindBlock(signal: int) returns (r: Unwinding)
      modifies this
      ensures ThreadSpec.Unwind(old(Value()), signal) == r
      ensures r.Resume? ==> r.thread == Value()
      ensures !r.Resume? ==> Value() == old(Value())
    {
      if signal == 2 {
        return Finish;
      }
      if !(0 <= subLevel < |levelState|) {
        return Abort(IndexOutOfRange);
      }
      if levelState[subLevel].ifElseCounter < 0 {
        return Finish;
      }
      if stackIndex == 0 {
        return Abort(EmptyStack);
      }
      if !(0 <= stackIndex - 1 < |levelState[subLevel].stack|) {
        return Abort(IndexOutOfRange);
      }
      stackIndex := stackIndex - 1;
      var stackTop := levelState[subLevel].stack[stackIndex];
      programCounter := stackTop;
      var lv := levelState[subLevel];
      levelState := levelState[subLevel := lv.(ifElseCounter := lv.ifElseCounter - 1)];
      return Resume(Value());
    }
  }
}
