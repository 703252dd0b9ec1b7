/** The interpreter as a function of the whole state: the thread pool and the game. One
    instruction is dispatched, then a pass of one thread runs until a handler breaks
    control flow and the broken if-blocks are unwound, then one tick runs every thread
    at most once behind the shared tick gate. */
module EngineSpec {
  import opened GoInt
  import opened ScriptTypes
  import opened Game
  import opened ThreadSpec
  import opened StateHandlers

  /** The size of the thread pool. */
  const THREAD_COUNT: int := 20

  /** The tick gate's period: a script tick is due once more than 1/30 s has
      accumulated. */
  const SCRIPT_TICK: real := 1.0 / 30.0

  datatype EngineRec = EngineRec(threads: seq<ThreadRec>, game: GameRec)

  datatype Dispatched = Dispatched(engine: EngineRec, signal: int)

  /** The lowest index at or after `from` of a thread that is not running, or 0 when every
      one of them is running. */
  function LowestIdle(threads: seq<ThreadRec>, from: nat): (r: nat)
    ensures (exists j :: from <= j < |threads| && !threads[j].runStatus) ==>
      (from <= r < |threads| && !threads[r].runStatus && forall j :: from <= j < r ==> threads[j].runStatus)
    ensures (forall j :: from <= j < |threads| ==> threads[j].runStatus) ==> r == 0
    decreases |threads| - from
  {
    if from >= |threads| then 0
    else if !threads[from].runStatus then from
    else LowestIdle(threads, from + 1)
  }

  /** The thread an evt_exec starts: the named one when the number is a pool index, else
      the lowest-numbered idle thread, else thread 0. */
  function TargetThread(threads: seq<ThreadRec>, threadNum: int): nat
  {
    if 0 <= threadNum < |threads| then threadNum else LowestIdle(threads, 0)
  }

  /** evt_exec: start entry point `event` on the target thread with a fresh top level. */
  function EvtExec(threads: seq<ThreadRec>, startProgramCounter: seq<int>, threadNum: int, event: int)
    : (r: Result<seq<ThreadRec>>)
    ensures r.Ok? ==> |r.value| == |threads|
  {
    var n := TargetThread(threads, threadNum);
    if n >= |threads| || !(0 <= event < |startProgramCounter|) || |threads[n].levelState| == 0 then
      Err(IndexOutOfRange)
    else
      var t := threads[n];
      var top := t.levelState[0].(ifElseCounter := -1, loopLevel := -1);
      Ok(threads[n := t.(runStatus := true,
                         programCounter := startProgramCounter[event],
                         levelState := t.levelState[0 := top])])
  }

  /** A thread handler's outcome, written back into the pool. */
  function Lift(e: EngineRec, cur: nat, r: Result<Step>): (d: Result<Dispatched>)
    requires cur < |e.threads|
    ensures d.Ok? ==> |d.value.engine.threads| == |e.threads|
  {
    match r
    case Ok(s) => Ok(Dispatched(e.(threads := e.threads[cur := s.thread]), s.signal))
    case Err(f) => Err(f)
  }

  /** A game handler's outcome: the new game state and signal 1. */
  function LiftGame(e: EngineRec, r: Result<GameRec>): (d: Result<Dispatched>)
    ensures d.Ok? ==> d.value.engine.threads == e.threads
  {
    match r
    case Ok(g) => Ok(Dispatched(e.(game := g), 1))
    case Err(f) => Err(f)
  }

  /** The opcodes that open, close or leave an if, for or switch block. */
  predicate StructuresBlocks(instr: Instr)
  {
    instr.IfStart? || instr.ElseStart? || instr.EndIf? || instr.For? || instr.ForEnd? ||
    instr.Switch? || instr.EndSwitch? || instr.Break?
  }

  /** The opcodes that end, start, suspend or call into a thread, or select its work
      object. */
  predicate SchedulesThreads(instr: Instr)
  {
    instr.EvtEnd? || instr.EvtExec? || instr.Sleep? || instr.Sleeping? || instr.GoSub? ||
    instr.WorkSet?
  }

  /** The opcodes whose handlers read or write flag bits and script variables. */
  predicate UsesVariables(instr: Instr)
  {
    instr.Check? || instr.SetBit? || instr.Compare? || instr.Save? || instr.Copy? ||
    instr.Calc? || instr.Calc2?
  }

  /** The opcodes whose handlers call into the game or render collaborators. */
  predicate CallsCollaborator(instr: Instr)
  {
    instr.CutChg? || instr.ObjModelSet? || instr.PosSet? || instr.MemberSet? ||
    instr.ScaIdSet? || instr.SceEsprOn?
  }

  /** The handler the opcode selects, run on thread `cur`; `size` is the instruction's
      size. The calc2 opcode runs the calc handler, so its bytes are read in the calc
      layout. */
  function Execute(instr: Instr, e: EngineRec, cur: nat, data: ScriptFunction,
                   sizes: InstructionSize): (d: Result<Dispatched>)
    requires cur < |e.threads|
    ensures d.Ok? ==> |d.value.engine.threads| == |e.threads|
  {
    if StructuresBlocks(instr) then ExecuteBlocks(instr, e, cur, data, sizes)
    else if SchedulesThreads(instr) then ExecuteScheduling(instr, e, cur, data, sizes)
    else if UsesVariables(instr) then ExecuteVariables(instr, e, cur, data, sizes)
    else if CallsCollaborator(instr) then ExecuteCollaborator(instr, e, cur, data, sizes)
    else ExecuteForeign(instr, e, cur, data, sizes)
  }

  /** The block handlers. */
  function ExecuteBlocks(instr: Instr, e: EngineRec, cur: nat, data: ScriptFunction,
                        sizes: InstructionSize): (d: Result<Dispatched>)
    requires cur < |e.threads| && StructuresBlocks(instr)
    ensures d.Ok? ==> |d.value.engine.threads| == |e.threads|
  {
    var t := e.threads[cur];
    var size := sizes(OpcodeOf(instr));
    match instr
    case IfStart(blockLength) => Lift(e, cur, ThreadSpec.IfBlockStart(t, size, blockLength))
    case ElseStart(blockLength) => Lift(e, cur, ThreadSpec.ElseCheck(t, blockLength))
    case EndIf => Lift(e, cur, ThreadSpec.EndIf(t))
    case For(blockLength, count) => Lift(e, cur, ThreadSpec.ForLoopBegin(t, size, blockLength, count))
    case ForEnd => Lift(e, cur, ThreadSpec.ForLoopEnd(t, size))
    case Switch(varId, blockLength) =>
      Lift(e, cur, SwitchBegin(t, data.instructions, sizes, size, e.game.GetScriptVariable(varId), blockLength))
    case EndSwitch => Lift(e, cur, ThreadSpec.SwitchEnd(t))
    case Break => Lift(e, cur, ThreadSpec.Break(t))
  }

  /** The handlers that end, start, suspend or call into threads. */
  function ExecuteScheduling(instr: Instr, e: EngineRec, cur: nat, data: ScriptFunction,
                            sizes: InstructionSize): (d: Result<Dispatched>)
    requires cur < |e.threads| && SchedulesThreads(instr)
    ensures d.Ok? ==> |d.value.engine.threads| == |e.threads|
  {
    var t := e.threads[cur];
    var size := sizes(OpcodeOf(instr));
    match instr
    case EvtEnd => Lift(e, cur, ThreadSpec.EvtEnd(t))
    case EvtExec(threadNum, event) =>
      (match EvtExec(e.threads, data.startProgramCounter, threadNum, event)
       case Ok(ts) => Ok(Dispatched(e.(threads := ts), 1))
       case Err(f) => Err(f))
    case Sleep(count) => Lift(e, cur, ThreadSpec.Sleep(t, count))
    case Sleeping => Lift(e, cur, ThreadSpec.Sleeping(t, size))
    case GoSub(event) => Lift(e, cur, ThreadSpec.GoSub(t, data.startProgramCounter, size, event))
    case WorkSet(component, index) => Ok(Dispatched(e.(threads := e.threads[cur := ThreadSpec.WorkSet(t, component, index)]), 1))
  }

  /** The handlers of flag bits and script variables. */
  function ExecuteVariables(instr: Instr, e: EngineRec, cur: nat, data: ScriptFunction,
                           sizes: InstructionSize): (d: Result<Dispatched>)
    requires cur < |e.threads| && UsesVariables(instr)
    ensures d.Ok? ==> |d.value.engine.threads| == |e.threads|
  {
    var g := e.game;
    match instr
    case Check(bitArray, number, value) => Ok(Dispatched(e, StateHandlers.CheckBit(g, bitArray, number, value)))
    case SetBit(bitArray, bitNumber, operation) => LiftGame(e, StateHandlers.SetBit(g, bitArray, bitNumber, operation))
    case Compare(varId, operation, value) => Ok(Dispatched(e, StateHandlers.Compare(g, varId, operation, value)))
    case Save(varId, value) => Ok(Dispatched(e.(game := StateHandlers.Save(g, varId, value)), 1))
    case Copy(destVarId, sourceVarId) => Ok(Dispatched(e.(game := StateHandlers.Copy(g, destVarId, sourceVarId)), 1))
    case Calc(args) => LiftGame(e, StateHandlers.Calc(g, args))
    case Calc2(asCalc, _) => LiftGame(e, StateHandlers.Calc(g, asCalc))
  }

  /** The handlers that call into the game and render collaborators. */
  function ExecuteCollaborator(instr: Instr, e: EngineRec, cur: nat, data: ScriptFunction,
                              sizes: InstructionSize): (d: Result<Dispatched>)
    requires cur < |e.threads| && CallsCollaborator(instr)
    ensures d.Ok? ==> |d.value.engine.threads| == |e.threads|
  {
    var t := e.threads[cur];
    var g := e.game;
    match instr
    case CutChg(cameraId) => Ok(Dispatched(e.(game := StateHandlers.CameraChange(g, cameraId)), 1))
    case ObjModelSet(_) => Ok(Dispatched(e.(game := StateHandlers.ObjectModelSet(g, instr)), 1))
    case PosSet(x, y, z) => Ok(Dispatched(e.(game := StateHandlers.PositionSet(g, t.workSetComponent, x, y, z)), 1))
    case MemberSet(memberIndex, value) =>
      LiftGame(e, StateHandlers.MemberSet(g, t.workSetComponent, t.workSetIndex, memberIndex, value))
    case ScaIdSet(id, flag) => Ok(Dispatched(e.(game := StateHandlers.ScaIdSet(g, id, flag)), 1))
    case SceEsprOn(_) => Ok(Dispatched(e.(game := StateHandlers.SceEsprOn(g, instr)), 1))
  }

  /** The trigger-area handlers defined outside the interpreter, and the handlers that
      decode their operands and do nothing else. */
  function ExecuteForeign(instr: Instr, e: EngineRec, cur: nat, data: ScriptFunction,
                         sizes: InstructionSize): (d: Result<Dispatched>)
    requires cur < |e.threads| && !StructuresBlocks(instr) && !SchedulesThreads(instr)
    requires !UsesVariables(instr) && !CallsCollaborator(instr)
    ensures d.Ok? ==> |d.value.engine.threads| == |e.threads|
  {
    var g := e.game;
    match instr
    case Case(_, _) => Ok(Dispatched(e, 1))
    case Default => Ok(Dispatched(e, 1))
    case Goto(_) => Ok(Dispatched(e, 1))
    case AotSet(_) => Ok(Dispatched(e.(game := StateHandlers.ForeignHandler(g, instr)), 1))
    case DoorAotSet(_) => Ok(Dispatched(e.(game := StateHandlers.ForeignHandler(g, instr)), 1))
    case MemberCmp(_) => Ok(Dispatched(e, 1))
    case PlcMotion(_) => Ok(Dispatched(e, 1))
    case PlcDest(_) => Ok(Dispatched(e, 1))
    case PlcNeck(_) => Ok(Dispatched(e, 1))
    case SceEmSet(_) => Ok(Dispatched(e, 1))
    case AotReset(_) => Ok(Dispatched(e.(game := StateHandlers.ForeignHandler(g, instr)), 1))
    case SceEsprKill(_) => Ok(Dispatched(e, 1))
    case ItemAotSet(_) => Ok(Dispatched(e.(game := StateHandlers.ForeignHandler(g, instr)), 1))
    case SceBgmControl(_) => Ok(Dispatched(e, 1))
    case AotSet4p(_) => Ok(Dispatched(e.(game := StateHandlers.ForeignHandler(g, instr)), 1))
    case DoorAotSet4p(_) => Ok(Dispatched(e.(game := StateHandlers.ForeignHandler(g, instr)), 1))
    case ItemAotSet4p(_) => Ok(Dispatched(e.(game := StateHandlers.ForeignHandler(g, instr)), 1))
    case Unlisted(_, _) => Ok(Dispatched(e, 1))
  }

  /** After the handler: advance by the instruction's size unless the handler set the
      address itself, then clear the override flag. */
  function Advance(e: EngineRec, cur: nat, size: int): (r: EngineRec)
    requires cur < |e.threads|
    ensures |r.threads| == |e.threads| && !r.threads[cur].overrideProgramCounter
  {
    var t := e.threads[cur];
    var t' := if !t.overrideProgramCounter then t.(programCounter := t.programCounter + size) else t;
    e.(threads := e.threads[cur := t'.(overrideProgramCounter := false)])
  }

  /** The pool with thread `cur`'s override flag cleared, as the fetch leaves it. */
  function ClearOverride(e: EngineRec, cur: nat): (r: EngineRec)
    requires cur < |e.threads|
    ensures |r.threads| == |e.threads| && !r.threads[cur].overrideProgramCounter
  {
    e.(threads := e.threads[cur := e.threads[cur].(overrideProgramCounter := false)])
  }

  /** The handler's outcome with the address advanced past an instruction of `size`. */
  function Complete(d: Result<Dispatched>, cur: nat, size: int): (r: Result<Dispatched>)
    requires d.Ok? ==> cur < |d.value.engine.threads|
    ensures r.Ok? ==> d.Ok? && |r.value.engine.threads| == |d.value.engine.threads| && !r.value.engine.threads[cur].overrideProgramCounter
  {
    match d
    case Err(f) => Err(f)
    case Ok(Dispatched(e1, signal)) => Ok(Dispatched(Advance(e1, cur, size), signal))
  }

  /** One step of the inner loop: fetch the instruction at the thread's address, clear
      the override flag, run the handler and advance. */
  function Dispatch(e: EngineRec, cur: nat, data: ScriptFunction, sizes: InstructionSize)
    : (d: Result<Dispatched>)
    requires cur < |e.threads|
    ensures d.Ok? ==> |d.value.engine.threads| == |e.threads| && !d.value.engine.threads[cur].overrideProgramCounter
    ensures e.threads[cur].programCounter !in data.instructions ==> d == Err(MissingInstruction)
  {
    var t := e.threads[cur];
    if t.programCounter !in data.instructions then Err(MissingInstruction)
    else
      var instr := data.instructions[t.programCounter];
      Complete(Execute(instr, ClearOverride(e, cur), cur, data, sizes), cur, sizes(OpcodeOf(instr)))
  }

  /** A bounded run: it ended with a signal and some fuel left, ran out of fuel, or hit a
      fatal fault. */
  datatype Run = Done(engine: EngineRec, signal: int, fuel: nat) | OutOfFuel(engine: EngineRec) | Crashed(fault: Fault)

  /** The inner loop: dispatch until a handler returns a signal other than 1, at most `fuel`
      times. */
  function Inner(e: EngineRec, cur: nat, data: ScriptFunction, sizes: InstructionSize, fuel: nat): (r: Run)
    requires cur < |e.threads|
    ensures r.Done? ==> r.signal != 1 && r.fuel < fuel && |r.engine.threads| == |e.threads|
    ensures r.OutOfFuel? ==> |r.engine.threads| == |e.threads|
    decreases fuel, 1
  {
    if fuel == 0 then OutOfFuel(e) else InnerTurn(e, cur, data, sizes, fuel)
  }

  /** One dispatch of the inner loop with `fuel` > 0 dispatches left, and the rest of
      the loop after it. */
  function InnerTurn(e: EngineRec, cur: nat, data: ScriptFunction, sizes: InstructionSize, fuel: nat): (r: Run)
    requires cur < |e.threads| && fuel > 0
    ensures r.Done? ==> r.signal != 1 && r.fuel < fuel && |r.engine.threads| == |e.threads|
    ensures r.OutOfFuel? ==> |r.engine.threads| == |e.threads|
    decreases fuel, 0
  {
    match Dispatch(e, cur, data, sizes)
    case Err(f) => Crashed(f)
    case Ok(Dispatched(e1, signal)) =>
      if signal != 1 then Done(e1, signal, fuel - 1)
      else Inner(e1, cur, data, sizes, fuel - 1)
  }

  lemma InnerEmpty(e: EngineRec, cur: nat, data: ScriptFunction, sizes: InstructionSize)
    requires cur < |e.threads|
    ensures Inner(e, cur, data, sizes, 0) == OutOfFuel(e)
  {
  }

  /** One turn of the inner loop once the dispatch's outcome is known. */
  lemma InnerStep(e: EngineRec, cur: nat, data: ScriptFunction, sizes: InstructionSize, fuel: nat,
                  d: Result<Dispatched>)
    requires cur < |e.threads| && fuel > 0 && Dispatch(e, cur, data, sizes) == d
    ensures Inner(e, cur, data, sizes, fuel) == InnerTurn(e, cur, data, sizes, fuel)
    ensures d.Err? ==> Inner(e, cur, data, sizes, fuel) == Crashed(d.fault)
    ensures d.Ok? && d.value.signal != 1 ==> Inner(e, cur, data, sizes, fuel) == Done(d.value.engine, d.value.signal, fuel - 1)
    ensures d.Ok? && d.value.signal == 1 ==> Inner(e, cur, data, sizes, fuel) == Inner(d.value.engine, cur, data, sizes, fuel - 1)
  {
  }

  /** The outer loop: run the inner loop, then end the pass or unwind one block and
      resume. */
  function Pass(e: EngineRec, cur: nat, data: ScriptFunction, sizes: InstructionSize, fuel: nat): (r: Run)
    requires cur < |e.threads|
    ensures r.Done? ==> |r.engine.threads| == |e.threads|
    ensures r.OutOfFuel? ==> |r.engine.threads| == |e.threads|
    decreases fuel
  {
    match Inner(e, cur, data, sizes, fuel)
    case Crashed(f) => Crashed(f)
    case OutOfFuel(e1) => OutOfFuel(e1)
    case Done(e1, signal, rest) =>
      match Unwind(e1.threads[cur], signal)
      case Abort(f) => Crashed(f)
      case Finish => Done(e1, signal, rest)
      case Resume(t') => Pass(e1.(threads := e1.threads[cur := t']), cur, data, sizes, rest)
  }

  /** The pool with the tick gate's accumulator. */
  datatype Pool = Pool(engine: EngineRec, delta: real)

  datatype Tick = Ticked(pool: Pool) | Stalled(pool: Pool) | Faulted(fault: Fault)

  /** The tick gate: `elapsed` is added to the accumulator; once it exceeds 1/30 s the
      accumulator is cleared and the gate opens, else the call does nothing more. */
  function Gate(delta: real, elapsed: real): (real, bool)
  {
    var d := delta + elapsed;
    if d > SCRIPT_TICK then (0.0, true) else (d, false)
  }

  /** One call for thread `cur`: through the gate, then a pass if the thread is running. */
  function RunThread(p: Pool, cur: nat, data: ScriptFunction, sizes: InstructionSize, elapsed: real, fuel: nat)
    : (r: Tick)
    requires cur < |p.engine.threads|
    ensures r.Ticked? ==> |r.pool.engine.threads| == |p.engine.threads|
  {
    var (delta, open) := Gate(p.delta, elapsed);
    if !open || !p.engine.threads[cur].runStatus then Ticked(p.(delta := delta))
    else
      match Pass(p.engine, cur, data, sizes, fuel)
      case Done(e1, _, _) => Ticked(Pool(e1, delta))
      case OutOfFuel(e1) => Stalled(Pool(e1, delta))
      case Crashed(f) => Faulted(f)
  }

  /** One tick: threads `from`, `from` + 1, ... in index order, each pass allowed `fuel`
      dispatch steps in all, shared by every round of its outer loop. */
  function RunScriptFrom(p: Pool, from: nat, data: ScriptFunction, sizes: InstructionSize, elapsed: real, fuel: nat)
    : (r: Tick)
    ensures r.Ticked? ==> |r.pool.engine.threads| == |p.engine.threads|
    decreases |p.engine.threads| - from
  {
    if from >= |p.engine.threads| then Ticked(p)
    else
      match RunThread(p, from, data, sizes, elapsed, fuel)
      case Ticked(p1) => RunScriptFrom(p1, from + 1, data, sizes, elapsed, fuel)
      case other => other
  }

  function RunScript(p: Pool, data: ScriptFunction, sizes: InstructionSize, elapsed: real, fuel: nat): Tick
  {
    RunScriptFrom(p, 0, data, sizes, elapsed, fuel)
  }

  /** init_script: mark the thread running at the entry point's address; none of the
      thread's other fields change. */
  function InitScript(threads: seq<ThreadRec>, data: ScriptFunction, threadNum: int, startFunction: int)
    : (r: Result<seq<ThreadRec>>)
    ensures r.Err? <==> !(0 <= threadNum < |threads|) || !(0 <= startFunction < |data.startProgramCounter|)
    ensures r.Ok? ==> (|r.value| == |threads| && r.value[threadNum].runStatus &&
      r.value[threadNum].programCounter == data.startProgramCounter[startFunction])
    ensures r.Ok? ==> forall j :: 0 <= j < |threads| && j != threadNum ==> r.value[j] == threads[j]
    ensures r.Ok? ==> r.value[threadNum].(runStatus := threads[threadNum].runStatus,
                                          programCounter := threads[threadNum].programCounter) == threads[threadNum]
  {
    if !(0 <= threadNum < |threads|) || !(0 <= startFunction < |data.startProgramCounter|) then Err(IndexOutOfRange)
    else Ok(threads[threadNum := threads[threadNum].(runStatus := true,
                                                     programCounter := data.startProgramCounter[startFunction])])
  }

  /** How a dispatch method's outcome matches Execute or Dispatch. */
  predicate DispatchReports(r: Result<int>, now: EngineRec, spec: Result<Dispatched>)
  {
    match spec
    case Ok(d) => r == Ok(d.signal) && now == d.engine
    case Err(f) => r == Err(f)
  }

  /** How a game handler method's outcome matches its function: signal 1 and the new
      game state, or the same fault. */
  predicate GameReports(r: Result<int>, now: GameRec, spec: Result<GameRec>)
  {
    match spec
    case Ok(g) => r == Ok(1) && now == g
    case Err(f) => r == Err(f)
  }

  /** What one call of the thread runner reports. */
  datatype Outcome = Ran | Exhausted | Fatal(fault: Fault)

  predicate TickReports(r: Outcome, now: Pool, spec: Tick)
  {
    match spec
    case Ticked(p) => r == Ran && now == p
    case Stalled(p) => r == Exhausted && now == p
    case Faulted(f) => r == Fatal(f)
  }

  /** What the inner loop and the pass report. */
  datatype Progress = Broke(signal: int, fuel: nat) | NoFuel | Fault(fault: Fault)

  predicate RunReports(r: Progress, now: EngineRec, spec: Run)
  {
    match spec
    case Done(e, signal, fuel) => r == Broke(signal, fuel) && now == e
    case OutOfFuel(e) => r == NoFuel && now == e
    case Crashed(f) => r == Fault(f)
  }
}
