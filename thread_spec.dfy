/** The state of one script thread as a value, and the control-flow handlers of the
    room-script interpreter as functions on it. Each handler returns the new thread
    state and its control signal (1 = continue, 2 = stop this pass, anything else =
    pop one if-block), or the fault at which the source aborts. */
module ThreadSpec {
  import opened GoInt
  import opened ScriptTypes

  /** One loop, switch or sleep frame of a subroutine level. */
  datatype LoopRec = LoopRec(counter: int, breakAddress: int, stackValue: int, levelIfCounter: int)

  /** The control state of one subroutine level. */
  datatype LevelRec = LevelRec(
    ifElseCounter: int,
    stack: seq<int>,
    returnAddress: int,
    loopLevel: int,
    loopState: seq<LoopRec>)
  {
    predicate HasLoop(k: int) { 0 <= k < |loopState| }

    function SetLoop(k: int, l: LoopRec): LevelRec
      requires HasLoop(k)
    {
      this.(loopState := loopState[k := l])
    }
  }

  /** One cooperative execution context. */
  datatype ThreadRec = ThreadRec(
    runStatus: bool,
    programCounter: int,
    subLevel: int,
    stackIndex: int,
    workSetComponent: int,
    workSetIndex: int,
    overrideProgramCounter: bool,
    levelState: seq<LevelRec>)
  {
    /** The current subroutine level exists. */
    predicate HasLevel() { 0 <= subLevel < |levelState| }

    function Level(): LevelRec
      requires HasLevel()
    {
      levelState[subLevel]
    }

    function SetLevel(lv: LevelRec): ThreadRec
      requires HasLevel()
    {
      this.(levelState := levelState[subLevel := lv])
    }
  }

  /** A handler's result: the new thread state and the control signal. */
  datatype Step = Step(thread: ThreadRec, signal: int)

  /** Block balance at the current level: one saved resume address per open if-block. */
  predicate Balanced(t: ThreadRec)
  {
    t.HasLevel() && t.stackIndex == t.Level().ifElseCounter + 1
  }

  /** evt_end: return from a subroutine, or halt the thread at the top level. */
  function EvtEnd(t: ThreadRec): Result<Step>
  {
    if t.subLevel != 0 then
      if !t.HasLevel() then Err(IndexOutOfRange)
      else
        var ifElseCounter := t.Level().ifElseCounter;
        var caller := t.subLevel - 1;
        Ok(Step(t.(subLevel := caller,
                   programCounter := t.levelState[caller].returnAddress,
                   overrideProgramCounter := true,
                   stackIndex := ifElseCounter + 1), 1))
    else
      Ok(Step(t.(runStatus := false), 2))
  }

  /** if_start: open a block whose end is size + blockLength bytes past this instruction. */
  function IfBlockStart(t: ThreadRec, size: int, blockLength: int): Result<Step>
  {
    if !t.HasLevel() || !(0 <= t.stackIndex < |t.Level().stack|) then Err(IndexOutOfRange)
    else
      var lv := t.Level();
      var newPosition := t.programCounter + size + blockLength;
      Ok(Step(t.SetLevel(lv.(ifElseCounter := lv.ifElseCounter + 1,
                             stack := lv.stack[t.stackIndex := newPosition]))
               .(stackIndex := t.stackIndex + 1), 1))
  }

  /** else: the if branch ran to its end, so close the block and skip the else body. */
  function ElseCheck(t: ThreadRec, blockLength: int): Result<Step>
  {
    if !t.HasLevel() then Err(IndexOutOfRange)
    else
      var lv := t.Level();
      Ok(Step(t.SetLevel(lv.(ifElseCounter := lv.ifElseCounter - 1))
               .(stackIndex := t.stackIndex - 1,
                 programCounter := t.programCounter + blockLength,
                 overrideProgramCounter := true), 1))
  }

  /** end_if: close the block. */
  function EndIf(t: ThreadRec): Result<Step>
  {
    if !t.HasLevel() then Err(IndexOutOfRange)
    else
      var lv := t.Level();
      Ok(Step(t.SetLevel(lv.(ifElseCounter := lv.ifElseCounter - 1))
               .(stackIndex := t.stackIndex - 1), 1))
  }

  /** sleep: open a frame counting `count` ticks and move to the sleeping opcode that
      follows the sleep opcode byte. */
  function Sleep(t: ThreadRec, count: int): Result<Step>
  {
    if !t.HasLevel() || !t.Level().HasLoop(t.Level().loopLevel + 1) then Err(IndexOutOfRange)
    else
      var lv := t.Level();
      var k := lv.loopLevel + 1;
      Ok(Step(t.SetLevel(lv.(loopLevel := k).SetLoop(k, lv.loopState[k].(counter := count)))
               .(programCounter := t.programCounter + 1, overrideProgramCounter := true), 1))
  }

  /** sleeping: count one tick down and stop the pass; on the last tick move past. */
  function Sleeping(t: ThreadRec, size: int): Result<Step>
  {
    if !t.HasLevel() || !t.Level().HasLoop(t.Level().loopLevel) then Err(IndexOutOfRange)
    else
      var lv := t.Level();
      var k := lv.loopLevel;
      var c := lv.loopState[k].counter - 1;
      var lv' := lv.SetLoop(k, lv.loopState[k].(counter := c));
      if c == 0 then
        Ok(Step(t.SetLevel(lv'.(loopLevel := k - 1))
                 .(programCounter := t.programCounter + size, overrideProgramCounter := true), 2))
      else
        Ok(Step(t.SetLevel(lv').(overrideProgramCounter := true), 2))
  }

  /** for: with a nonzero count open a loop frame and enter the body; with count 0 jump
      past the body. */
  function ForLoopBegin(t: ThreadRec, size: int, blockLength: int, count: int): Result<Step>
  {
    if count != 0 then
      if !t.HasLevel() || !t.Level().HasLoop(t.Level().loopLevel + 1) then Err(IndexOutOfRange)
      else
        var lv := t.Level();
        var k := lv.loopLevel + 1;
        var body := t.programCounter + size;
        Ok(Step(t.SetLevel(lv.(loopLevel := k).SetLoop(k, LoopRec(count, body + blockLength, body, lv.ifElseCounter)))
                 .(programCounter := body, overrideProgramCounter := true), 1))
    else
      Ok(Step(t.(programCounter := t.programCounter + size + blockLength, overrideProgramCounter := true), 1))
  }

  /** for_end: count one iteration down; jump back to the body while the count is not
      exhausted, else close the frame and move past. */
  function ForLoopEnd(t: ThreadRec, size: int): Result<Step>
  {
    if !t.HasLevel() || !t.Level().HasLoop(t.Level().loopLevel) then Err(IndexOutOfRange)
    else
      var lv := t.Level();
      var k := lv.loopLevel;
      var l := lv.loopState[k].(counter := lv.loopState[k].counter - 1);
      if l.counter != 0 then
        Ok(Step(t.SetLevel(lv.SetLoop(k, l)).(programCounter := l.stackValue, overrideProgramCounter := true), 1))
      else
        Ok(Step(t.SetLevel(lv.SetLoop(k, l).(loopLevel := k - 1))
                 .(programCounter := t.programCounter + size, overrideProgramCounter := true), 1))
  }

  /** Where the switch scan stops: inside a case or default body, or past end_switch. */
  datatype ScanEnd = Enter(pc: int) | Leave(pc: int)

  /** The scan of a switch block from address pc: the first case whose value equals
      switchValue, else the first default, else the end_switch. `visited` holds the
      addresses already scanned; meeting one again means the source's scan never ends. */
  function SwitchScan(instructions: map<int, Instr>, sizes: InstructionSize, switchValue: Int64,
                      pc: int, visited: set<int>): Result<ScanEnd>
    decreases instructions.Keys - visited
  {
    if pc in visited then Err(SwitchScanDiverges)
    else if pc !in instructions then Err(MissingInstruction)
    else
      var i := instructions[pc];
      match i
      case Case(blockLength, value) =>
        if value == switchValue then Ok(Enter(pc + sizes(OpCase)))
        else SwitchScan(instructions, sizes, switchValue, pc + sizes(OpCase) + blockLength, visited + {pc})
      case Default => Ok(Enter(pc + sizes(OpDefault)))
      case EndSwitch => Ok(Leave(pc + sizes(OpEndSwitch)))
      case _ => Err(SwitchUnknownOpcode)
  }

  /** switch: open a frame recording the break target, then scan the cases. */
  function SwitchBegin(t: ThreadRec, instructions: map<int, Instr>, sizes: InstructionSize,
                       size: int, switchValue: Int64, blockLength: int): Result<Step>
  {
    if !t.HasLevel() || !t.Level().HasLoop(t.Level().loopLevel + 1) then Err(IndexOutOfRange)
    else
      var lv := t.Level();
      var k := lv.loopLevel + 1;
      var first := t.programCounter + size;
      var lv' := lv.(loopLevel := k).SetLoop(k, lv.loopState[k].(breakAddress := first + blockLength,
                                                                  levelIfCounter := lv.ifElseCounter));
      match SwitchScan(instructions, sizes, switchValue, first, {})
      case Err(f) => Err(f)
      case Ok(Enter(pc)) =>
        Ok(Step(t.SetLevel(lv').(programCounter := pc, overrideProgramCounter := true), 1))
      case Ok(Leave(pc)) =>
        Ok(Step(t.SetLevel(lv'.(loopLevel := k - 1)).(programCounter := pc, overrideProgramCounter := true), 1))
  }

  /** end_switch reached by falling out of a case body: close the frame. */
  function SwitchEnd(t: ThreadRec): Result<Step>
  {
    if !t.HasLevel() then Err(IndexOutOfRange)
    else Ok(Step(t.SetLevel(t.Level().(loopLevel := t.Level().loopLevel - 1)), 1))
  }

  /** gosub: save the return address in the caller's level, reset the callee's level and
      jump to the entry point `event`. */
  function GoSub(t: ThreadRec, startProgramCounter: seq<int>, size: int, event: int): Result<Step>
  {
    if !t.HasLevel() || !(t.subLevel + 1 < |t.levelState|) || !(0 <= event < |startProgramCounter|) then
      Err(IndexOutOfRange)
    else
      var s := t.subLevel;
      var caller := t.levelState[s].(returnAddress := t.programCounter + size);
      var callee := t.levelState[s + 1].(ifElseCounter := -1, loopLevel := -1);
      Ok(Step(t.(levelState := t.levelState[s := caller][s + 1 := callee],
                 stackIndex := 0,
                 subLevel := s + 1,
                 programCounter := startProgramCounter[event],
                 overrideProgramCounter := true), 1))
  }

  /** break: leave the innermost loop or switch frame. */
  function Break(t: ThreadRec): Result<Step>
  {
    if !t.HasLevel() || !t.Level().HasLoop(t.Level().loopLevel) then Err(IndexOutOfRange)
    else
      var lv := t.Level();
      var l := lv.loopState[lv.loopLevel];
      Ok(Step(t.SetLevel(lv.(ifElseCounter := l.levelIfCounter, loopLevel := lv.loopLevel - 1))
               .(overrideProgramCounter := true, programCounter := l.breakAddress), 1))
  }

  /** work_set: select the object context of later member and position instructions. */
  function WorkSet(t: ThreadRec, component: int, index: int): ThreadRec
  {
    t.(workSetComponent := component, workSetIndex := index)
  }

  /** Unwinding one broken if-block: resume at the address it saved. */
  function Pop(t: ThreadRec): (r: Result<ThreadRec>)
  {
    if !t.HasLevel() || t.stackIndex == 0 then Err(if t.HasLevel() then EmptyStack else IndexOutOfRange)
    else if !(0 <= t.stackIndex - 1 < |t.Level().stack|) then Err(IndexOutOfRange)
    else
      var lv := t.Level();
      Ok(t.SetLevel(lv.(ifElseCounter := lv.ifElseCounter - 1))
          .(stackIndex := t.stackIndex - 1, programCounter := lv.stack[t.stackIndex - 1]))
  }

  datatype Unwinding = Finish | Resume(thread: ThreadRec) | Abort(fault: Fault)

  /** After the inner loop breaks with `signal`: the pass ends on signal 2 or when no
      if-block is open at the current level; otherwise the innermost block is popped. */
  function Unwind(t: ThreadRec, signal: int): Unwinding
  {
    if signal == 2 then Finish
    else if !t.HasLevel() then Abort(IndexOutOfRange)
    else if t.Level().ifElseCounter < 0 then Finish
    else
      match Pop(t)
      case Err(f) => Abort(f)
      case Ok(t') => Resume(t')
  }

  /** How a handler method's outcome matches a handler function: the same signal and the
      same new state, or the same fault. */
  predicate Reports(r: Result<int>, now: ThreadRec, spec: Result<Step>)
  {
    match spec
    case Ok(s) => r == Ok(s.signal) && now == s.thread
    case Err(f) => r == Err(f)
  }
}
