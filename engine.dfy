/** The interpreter object: a fixed pool of twenty thread objects and the tick gate's
    accumulator. Its methods run one thread or one tick in place and are proved to do
    what the functions of EngineSpec say. */
module Engine {
  import opened GoInt
  import opened ScriptTypes
  import opened Game
  import opened Calculator
  import opened ThreadSpec
  import opened Thread
  import opened StateHandlers
  import opened EngineSpec

  class ScriptDef {
    const scriptThreads: array<ScriptThread>
    var scriptDeltaTime: real

    /** Twenty distinct thread objects. */
    ghost predicate Valid()
      reads scriptThreads
    {
      scriptThreads.Length == THREAD_COUNT &&
      forall i, j :: 0 <= i < j < scriptThreads.Length ==> scriptThreads[i] != scriptThreads[j]
    }

    ghost function Objects(): set<ScriptThread>
      reads scriptThreads
    {
      set i | 0 <= i < scriptThreads.Length :: scriptThreads[i]
    }

    ghost function Threads(): seq<ThreadRec>
      reads scriptThreads, Objects()
    {
      seq(scriptThreads.Length, i requires 0 <= i < scriptThreads.Length reads scriptThreads, Objects() =>
        scriptThreads[i].Value())
    }

    ghost function State(game: GameDef): EngineRec
      reads scriptThreads, Objects(), game
    {
      EngineRec(Threads(), game.Value())
    }

    ghost function PoolState(game: GameDef): Pool
      reads this, scriptThreads, Objects(), game
    {
      Pool(State(game), scriptDeltaTime)
    }

    /** Twenty stopped threads, each starting with the given subroutine levels. */
    constructor (levels: seq<LevelRec>)
      ensures Valid() && scriptDeltaTime == 0.0
      ensures Threads() == seq(THREAD_COUNT, _ => ThreadRec(false, 0, 0, 0, 0, 0, false, levels))
    {
      var t0 := new ScriptThread(levels);
      var threads := new ScriptThread[THREAD_COUNT](_ => t0);
      var i := 0;
      while i < THREAD_COUNT
        invariant 0 <= i <= THREAD_COUNT
        invariant forall j :: 0 <= j < i ==> threads[j].Value() == ThreadRec(false, 0, 0, 0, 0, 0, false, levels)
        invariant forall j, k :: 0 <= j < k < i ==> threads[j] != threads[k]
        modifies threads
      {
        threads[i] := new ScriptThread(levels);
        i := i + 1;
      }
      scriptThreads := threads;
      scriptDeltaTime := 0.0;
    }

    /** Stop every thread. */
    method Reset()
      requires Valid()
      modifies Objects()
      ensures |Threads()| == |old(Threads())|
      ensures forall i :: 0 <= i < |Threads()| ==> Threads()[i] == old(Threads())[i].(runStatus := false)
    {
      var i := 0;
      while i < scriptThreads.Length
        invariant 0 <= i <= scriptThreads.Length
        invariant forall j :: 0 <= j < i ==> scriptThreads[j].Value() == old(scriptThreads[j].Value()).(runStatus := false)
        invariant forall j :: i <= j < scriptThreads.Length ==> scriptThreads[j].Value() == old(scriptThreads[j].Value())
      {
        scriptThreads[i].Reset();
        i := i + 1;
      }
    }

    method InitScript(data: ScriptFunction, threadNum: int, startFunction: int) returns (r: Result<()>)
      requires Valid()
      modifies Objects()
      ensures match EngineSpec.InitScript(old(Threads()), data, threadNum, startFunction)
              case Ok(ts) => r == Ok(()) && Threads() == ts
              case Err(f) => r == Err(f)
    {
      if !(0 <= threadNum < scriptThreads.Length) || !(0 <= startFunction < |data.startProgramCounter|) {
        return Err(IndexOutOfRange);
      }
      var t := scriptThreads[threadNum];
      t.runStatus := true;
      t.programCounter := data.startProgramCounter[startFunction];
      return Ok(());
    }

    /** evt_exec: pick the target thread, searching for the lowest idle one when the
        instruction names none, and start the entry point on it. */
    method ScriptEvtExec(threadNum: int, event: int, data: ScriptFunction) returns (r: Result<int>)
      requires Valid()
      modifies Objects()
      ensures match EngineSpec.EvtExec(old(Threads()), data.startProgramCounter, threadNum, event)
              case Ok(ts) => r == Ok(1) && Threads() == ts
              case Err(f) => r == Err(f)
    {
      var nextThreadNum := 0;
      if 0 <= threadNum < scriptThreads.Length {
        nextThreadNum := threadNum;
      } else {
        var i := 0;
        while i < scriptThreads.Length
          invariant 0 <= i <= scriptThreads.Length
          invariant forall j :: 0 <= j < i ==> Threads()[j].runStatus
          invariant nextThreadNum == 0
        {
          if !scriptThreads[i].runStatus {
            nextThreadNum := i;
            assert !Threads()[i].runStatus;
            break;
          }
          i := i + 1;
        }
      }
      assert nextThreadNum == TargetThread(Threads(), threadNum);
      var t := scriptThreads[nextThreadNum];
      if !(0 <= event < |data.startProgramCounter|) || |t.levelState| == 0 {
        return Err(IndexOutOfRange);
      }
      ghost var before := Threads();
      ghost var top := t.levelState[0].(ifElseCounter := -1, loopLevel := -1);
      t.runStatus := true;
      t.programCounter := data.startProgramCounter[event];
      t.levelState := t.levelState[0 := t.levelState[0].(ifElseCounter := -1)];
      t.levelState := t.levelState[0 := t.levelState[0].(loopLevel := -1)];
      assert t.Value() == before[nextThreadNum].(runStatus := true, programCounter := data.startProgramCounter[event],
                                                 levelState := before[nextThreadNum].levelState[0 := top]);
      assert forall j :: 0 <= j < THREAD_COUNT && j != nextThreadNum ==> Threads()[j] == before[j];
      return Ok(1);
    }

    method ScriptCheckBit(game: GameDef, bitArray: int, number: int, value: int) returns (r: int)
      ensures r == StateHandlers.CheckBit(game.Value(), bitArray, number, value)
    {
      if game.GetBitArray(bitArray, number) == value {
        return 1;
      }
      return 0;
    }

    method ScriptSetBit(game: GameDef, bitArray: int, bitNumber: int, operation: int) returns (r: Result<int>)
      modifies game
      ensures GameReports(r, game.Value(), StateHandlers.SetBit(old(game.Value()), bitArray, bitNumber, operation))
    {
      if operation == 0 {
        game.SetBitArray(bitArray, bitNumber, 0);
      } else if operation == 1 {
        game.SetBitArray(bitArray, bitNumber, 1);
      } else if operation == 7 {
        var currentBit := game.GetBitArray(bitArray, bitNumber);
        game.SetBitArray(bitArray, bitNumber, FlipBit(currentBit));
      } else {
        return Err(InvalidSetBitOperation);
      }
      return Ok(1);
    }

    method ScriptCompare(game: GameDef, varId: int, operation: int, value: Int64) returns (r: int)
      ensures r == StateHandlers.Compare(game.Value(), varId, operation, value)
    {
      var variableValue := game.GetScriptVariable(varId);
      r := CompareSignal(variableValue, operation, value);
    }

    method ScriptSave(game: GameDef, varId: int, value: Int64) returns (r: int)
      modifies game
      ensures game.Value() == StateHandlers.Save(old(game.Value()), varId, value) && r == 1
    {
      game.SetScriptVariable(varId, value);
      return 1;
    }

    method ScriptCopy(game: GameDef, destVarId: int, sourceVarId: int) returns (r: int)
      modifies game
      ensures game.Value() == StateHandlers.Copy(old(game.Value()), destVarId, sourceVarId) && r == 1
    {
      var sourceValue := game.GetScriptVariable(sourceVarId);
      game.SetScriptVariable(destVarId, sourceValue);
      return 1;
    }

    method ScriptCalc(game: GameDef, args: CalcArgs) returns (r: Result<int>)
      modifies game
      ensures GameReports(r, game.Value(), StateHandlers.Calc(old(game.Value()), args))
    {
      var leftValue := game.GetScriptVariable(args.varId);
      var result := ScriptVariableCalculator(args.operation, leftValue, args.value);
      if result.Err? {
        return Err(result.fault);
      }
      game.SetScriptVariable(args.varId, result.value);
      return Ok(1);
    }

    method ScriptCalc2(game: GameDef, args: Calc2Args) returns (r: Result<int>)
      modifies game
      ensures GameReports(r, game.Value(), StateHandlers.Calc2(old(game.Value()), args))
    {
      var leftValue := game.GetScriptVariable(args.varId);
      var rightValue := game.GetScriptVariable(args.sourceVarId);
      var result := ScriptVariableCalculator(args.operation, leftValue, rightValue);
      if result.Err? {
        return Err(result.fault);
      }
      game.SetScriptVariable(args.varId, result.value);
      return Ok(1);
    }

    method ScriptPositionSet(game: GameDef, thread: ScriptThread, x: int, y: int, z: int) returns (r: int)
      modifies game
      ensures game.Value() == StateHandlers.PositionSet(old(game.Value()), thread.workSetComponent, x, y, z) && r == 1
    {
      if thread.workSetComponent == WORKSET_PLAYER {
        game.Record(SetPlayerPosition(x, y, z));
      }
      return 1;
    }

    method ScriptMemberSet(game: GameDef, thread: ScriptThread, memberIndex: int, value: int) returns (r: Result<int>)
      modifies game
      ensures GameReports(r, game.Value(),
        StateHandlers.MemberSet(old(game.Value()), thread.workSetComponent, thread.workSetIndex, memberIndex, value))
    {
      if thread.workSetComponent == WORKSET_PLAYER {
        if memberIndex == 15 {
          game.Record(SetPlayerRotation(value));
        }
      } else if thread.workSetComponent == WORKSET_OBJECT {
        if !(0 <= thread.workSetIndex < game.modelObjectCount) {
          return Err(IndexOutOfRange);
        }
        if memberIndex == 15 {
          game.Record(SetObjectRotation(thread.workSetIndex, value));
        }
      }
      return Ok(1);
    }

    method ScriptScaIdSet(game: GameDef, id: int, flag: int) returns (r: int)
      modifies game
      ensures game.Value() == StateHandlers.ScaIdSet(old(game.Value()), id, flag) && r == 1
    {
      if flag == 0 {
        game.Record(RemoveCollisionEntity(id));
      }
      return 1;
    }

    method ScriptSceEsprOn(game: GameDef, instr: Instr) returns (r: int)
      modifies game
      ensures game.Value() == StateHandlers.SceEsprOn(old(game.Value()), instr) && r == 1
    {
      game.Record(AddScriptSprite(instr));
      game.Record(AddSprite(instr));
      return 1;
    }

    /** Run the handler the opcode selects on thread `cur`. */
    method Execute(cur: nat, instr: Instr, data: ScriptFunction, sizes: InstructionSize, game: GameDef)
      returns (r: Result<int>)
      requires Valid() && cur < scriptThreads.Length
      modifies Objects(), game
      ensures DispatchReports(r, State(game), EngineSpec.Execute(instr, old(State(game)), cur, data, sizes))
    {
      if StructuresBlocks(instr) {
        r := ExecuteBlocks(cur, instr, data, sizes, game);
      } else if SchedulesThreads(instr) {
        r := ExecuteScheduling(cur, instr, data, sizes, game);
      } else if UsesVariables(instr) {
        r := ExecuteVariables(cur, instr, data, sizes, game);
      } else if CallsCollaborator(instr) {
        r := ExecuteCollaborator(cur, instr, data, sizes, game);
      } else {
        r := ExecuteForeign(cur, instr, data, sizes, game);
      }
    }

    /** The block handlers. */
    method ExecuteBlocks(cur: nat, instr: Instr, data: ScriptFunction, sizes: InstructionSize, game: GameDef)
      returns (r: Result<int>)
      requires Valid() && cur < scriptThreads.Length && StructuresBlocks(instr)
      modifies Objects()
      ensures DispatchReports(r, State(game), EngineSpec.ExecuteBlocks(instr, old(State(game)), cur, data, sizes))
    {
      var thread := scriptThreads[cur];
      var size := sizes(OpcodeOf(instr));
      match instr {
        case IfStart(blockLength) =>
          r := thread.IfBlockStart(size, blockLength);
        case ElseStart(blockLength) =>
          r := thread.ElseCheck(blockLength);
        case EndIf =>
          r := thread.EndIf();
        case For(blockLength, count) =>
          r := thread.ForLoopBegin(size, blockLength, count);
        case ForEnd =>
          r := thread.ForLoopEnd(size);
        case Switch(_, _) =>
          r := ExecuteSwitch(cur, instr, data, sizes, game);
        case EndSwitch =>
          r := ExecuteSwitch(cur, instr, data, sizes, game);
        case Break =>
          r := ExecuteSwitch(cur, instr, data, sizes, game);
      }
    }

    /** The switch and break handlers. */
    method ExecuteSwitch(cur: nat, instr: Instr, data: ScriptFunction, sizes: InstructionSize, game: GameDef)
      returns (r: Result<int>)
      requires Valid() && cur < scriptThreads.Length && (instr.Switch? || instr.EndSwitch? || instr.Break?)
      modifies Objects()
      ensures DispatchReports(r, State(game), EngineSpec.ExecuteBlocks(instr, old(State(game)), cur, data, sizes))
    {
      var thread := scriptThreads[cur];
      var size := sizes(OpcodeOf(instr));
      match instr {
        case Switch(varId, blockLength) =>
          var switchValue := game.GetScriptVariable(varId);
          r := thread.SwitchBegin(data.instructions, sizes, size, switchValue, blockLength);
        case EndSwitch =>
          r := thread.SwitchEnd();
        case Break =>
          r := thread.Break();
      }
    }

    /** The handlers that end, start, suspend or call into threads. */
    method ExecuteScheduling(cur: nat, instr: Instr, data: ScriptFunction, sizes: InstructionSize, game: GameDef)
      returns (r: Result<int>)
      requires Valid() && cur < scriptThreads.Length && SchedulesThreads(instr)
      modifies Objects()
      ensures DispatchReports(r, State(game), EngineSpec.ExecuteScheduling(instr, old(State(game)), cur, data, sizes))
    {
      var thread := scriptThreads[cur];
      var size := sizes(OpcodeOf(instr));
      match instr {
        case EvtEnd =>
          r := thread.EvtEnd();
        case EvtExec(threadNum, event) =>
          r := ScriptEvtExec(threadNum, event, data);
        case Sleep(count) =>
          r := thread.Sleep(count);
        case Sleeping =>
          r := thread.Sleeping(size);
        case GoSub(event) =>
          r := thread.GoSub(data.startProgramCounter, size, event);
        case WorkSet(component, index) =>
          var s := thread.WorkSet(component, index);
          r := Ok(s);
      }
    }

    /** The handlers of flag bits and script variables. */
    method ExecuteVariables(cur: nat, instr: Instr, data: ScriptFunction, sizes: InstructionSize, game: GameDef)
      returns (r: Result<int>)
      requires Valid() && cur < scriptThreads.Length && UsesVariables(instr)
      modifies game
      ensures DispatchReports(r, State(game), EngineSpec.ExecuteVariables(instr, old(State(game)), cur, data, sizes))
    {
      match instr {
        case Check(bitArray, number, value) =>
          var s := ScriptCheckBit(game, bitArray, number, value);
          r := Ok(s);
        case SetBit(bitArray, bitNumber, operation) =>
          r := ScriptSetBit(game, bitArray, bitNumber, operation);
        case Compare(varId, operation, value) =>
          var s := ScriptCompare(game, varId, operation, value);
          r := Ok(s);
        case Save(varId, value) =>
          var s := ScriptSave(game, varId, value);
          r := Ok(s);
        case Copy(destVarId, sourceVarId) =>
          var s := ScriptCopy(game, destVarId, sourceVarId);
          r := Ok(s);
        case Calc(args) =>
          r := ScriptCalc(game, args);
        case Calc2(asCalc, _) =>
          // The calc2 opcode is dispatched to the calc handler.
          r := ScriptCalc(game, asCalc);
      }
    }

    /** The handlers that call into the game and render collaborators. */
    method ExecuteCollaborator(cur: nat, instr: Instr, data: ScriptFunction, sizes: InstructionSize, game: GameDef)
      returns (r: Result<int>)
      requires Valid() && cur < scriptThreads.Length && CallsCollaborator(instr)
      modifies game
      ensures DispatchReports(r, State(game), EngineSpec.ExecuteCollaborator(instr, old(State(game)), cur, data, sizes))
    {
      var thread := scriptThreads[cur];
      match instr {
        case CutChg(cameraId) =>
          game.Record(ChangeCamera(cameraId));
          r := Ok(1);
        case ObjModelSet(_) =>
          game.Record(SetItemEntity(instr));
          r := Ok(1);
        case PosSet(x, y, z) =>
          var s := ScriptPositionSet(game, thread, x, y, z);
          r := Ok(s);
        case MemberSet(memberIndex, value) =>
          r := ScriptMemberSet(game, thread, memberIndex, value);
        case ScaIdSet(id, flag) =>
          var s := ScriptScaIdSet(game, id, flag);
          r := Ok(s);
        case SceEsprOn(_) =>
          var s := ScriptSceEsprOn(game, instr);
          r := Ok(s);
      }
    }

    /** The trigger-area handlers defined outside the interpreter, and the handlers that
        decode their operands and do nothing else. */
    method ExecuteForeign(cur: nat, instr: Instr, data: ScriptFunction, sizes: InstructionSize, game: GameDef)
      returns (r: Result<int>)
      requires Valid() && cur < scriptThreads.Length
      requires !StructuresBlocks(instr) && !SchedulesThreads(instr)
      requires !UsesVariables(instr) && !CallsCollaborator(instr)
      modifies game
      ensures DispatchReports(r, State(game), EngineSpec.ExecuteForeign(instr, old(State(game)), cur, data, sizes))
    {
      match instr {
        case Case(_, _) => r := Ok(1);
        case Default => r := Ok(1);
        case Goto(_) =>
          // The goto handler's body is disabled in the source: it returns 1 and changes nothing.
          r := Ok(1);
        case AotSet(_) =>
          game.Record(Effect.ForeignHandler(instr));
          r := Ok(1);
        case DoorAotSet(_) =>
          game.Record(Effect.ForeignHandler(instr));
          r := Ok(1);
        case AotReset(_) =>
          game.Record(Effect.ForeignHandler(instr));
          r := Ok(1);
        case ItemAotSet(_) =>
          game.Record(Effect.ForeignHandler(instr));
          r := Ok(1);
        case AotSet4p(_) =>
          game.Record(Effect.ForeignHandler(instr));
          r := Ok(1);
        case DoorAotSet4p(_) =>
          game.Record(Effect.ForeignHandler(instr));
          r := Ok(1);
        case ItemAotSet4p(_) =>
          game.Record(Effect.ForeignHandler(instr));
          r := Ok(1);
        case MemberCmp(_) => r := Ok(1);
        case PlcMotion(_) => r := Ok(1);
        case PlcDest(_) => r := Ok(1);
        case PlcNeck(_) => r := Ok(1);
        case SceEmSet(_) => r := Ok(1);
        case SceEsprKill(_) => r := Ok(1);
        case SceBgmControl(_) => r := Ok(1);
        case Unlisted(_, _) => r := Ok(1);
      }
    }
  
    /** One dispatch of thread `cur`: fetch, clear the override flag, run the handler,
        advance by the instruction's size unless the handler set the address, clear the
        flag again. */
    method Dispatch(cur: nat, data: ScriptFunction, sizes: InstructionSize, game: GameDef) returns (r: Result<int>)
      requires Valid() && cur < scriptThreads.Length
      modifies Objects(), game
      ensures DispatchReports(r, State(game), EngineSpec.Dispatch(old(State(game)), cur, data, sizes))
    {
      var thread := scriptThreads[cur];
      if thread.programCounter !in data.instructions {
        return Err(MissingInstruction);
      }
      var lineData := data.instructions[thread.programCounter];
      var size := sizes(OpcodeOf(lineData));
      ghost var e := State(game);
      ClearOverride(cur, game);
      ghost var spec := EngineSpec.Execute(lineData, State(game), cur, data, sizes);
      assert EngineSpec.Dispatch(e, cur, data, sizes) == Complete(spec, cur, size);
      r := Execute(cur, lineData, data, sizes, game);
      if r.Err? {
        return;
      }
      Advance(cur, size, game);
    }

    /** Clear thread `cur`'s override flag. */
    method ClearOverride(cur: nat, game: GameDef)
      requires Valid() && cur < scriptThreads.Length
      modifies scriptThreads[cur]
      ensures State(game) == EngineSpec.ClearOverride(old(State(game)), cur)
    {
      scriptThreads[cur].overrideProgramCounter := false;
    }

    /** Advance thread `cur` past an instruction of `size` unless its handler set the
        address, then clear the override flag. */
    method Advance(cur: nat, size: int, game: GameDef)
      requires Valid() && cur < scriptThreads.Length
      modifies scriptThreads[cur]
      ensures State(game) == EngineSpec.Advance(old(State(game)), cur, size)
    {
      var thread := scriptThreads[cur];
      if !thread.overrideProgramCounter {
        thread.IncrementProgramCounter(size);
      }
      thread.overrideProgramCounter := false;
    }

    /** The inner loop: dispatch until a handler breaks control flow, at most `fuel` times. */
    method InnerLoop(cur: nat, data: ScriptFunction, sizes: InstructionSize, game: GameDef, fuel: nat)
      returns (r: Progress)
      requires Valid() && cur < scriptThreads.Length
      modifies Objects(), game
      ensures RunReports(r, State(game), Inner(old(State(game)), cur, data, sizes, fuel))
    {
      var remaining: nat := fuel;
      ghost var goal := Inner(State(game), cur, data, sizes, fuel);
      while true
        invariant Valid()
        invariant goal == Inner(State(game), cur, data, sizes, remaining)
        decreases remaining
      {
        if remaining == 0 {
          InnerEmpty(State(game), cur, data, sizes);
          return NoFuel;
        }
        var resumed;
        r, resumed := InnerTurn(cur, data, sizes, game, remaining);
        if !resumed {
          return;
        }
        remaining := r.fuel;
      }
    }

    /** One turn of the inner loop with `fuel` > 0 dispatches left: the loop ends on a
        fault or on a signal other than 1, or goes on with one dispatch less. */
    method InnerTurn(cur: nat, data: ScriptFunction, sizes: InstructionSize, game: GameDef, fuel: nat)
      returns (r: Progress, resumed: bool)
      requires Valid() && cur < scriptThreads.Length && fuel > 0
      modifies Objects(), game
      ensures !resumed ==> RunReports(r, State(game), Inner(old(State(game)), cur, data, sizes, fuel))
      ensures resumed ==> (r.Broke? && r.fuel < fuel &&
        Inner(old(State(game)), cur, data, sizes, fuel) == Inner(State(game), cur, data, sizes, r.fuel))
    {
      ghost var before := State(game);
      var returnValue := Dispatch(cur, data, sizes, game);
      InnerStep(before, cur, data, sizes, fuel, EngineSpec.Dispatch(before, cur, data, sizes));
      if returnValue.Err? {
        return Fault(returnValue.fault), false;
      }
      return Broke(returnValue.value, fuel - 1), returnValue.value == 1;
    }

    /** The outer loop: run the inner loop; end the pass on signal 2 or when no if-block
        is open, else unwind the innermost block and go on. */
    method PassLoop(cur: nat, data: ScriptFunction, sizes: InstructionSize, game: GameDef, fuel: nat)
      returns (r: Progress)
      requires Valid() && cur < scriptThreads.Length
      modifies Objects(), game
      ensures RunReports(r, State(game), Pass(old(State(game)), cur, data, sizes, fuel))
    {
      var remaining: nat := fuel;
      ghost var goal := Pass(State(game), cur, data, sizes, fuel);
      while true
        invariant Valid()
        invariant goal == Pass(State(game), cur, data, sizes, remaining)
        decreases remaining
      {
        var resumed;
        r, resumed := PassTurn(cur, data, sizes, game, remaining);
        if !resumed {
          return;
        }
        remaining := r.fuel;
      }
    }

    /** One turn of the outer loop: the inner loop, then the pass ends or one block is
        unwound and the pass resumes with the fuel that is left. */
    method PassTurn(cur: nat, data: ScriptFunction, sizes: InstructionSize, game: GameDef, fuel: nat)
      returns (r: Progress, resumed: bool)
      requires Valid() && cur < scriptThreads.Length
      modifies Objects(), game
      ensures !resumed ==> RunReports(r, State(game), Pass(old(State(game)), cur, data, sizes, fuel))
      ensures resumed ==> (r.Broke? && r.fuel < fuel &&
        Pass(old(State(game)), cur, data, sizes, fuel) == Pass(State(game), cur, data, sizes, r.fuel))
    {
      ghost var passStart := State(game);
      var thread := scriptThreads[cur];
      r := InnerLoop(cur, data, sizes, game, fuel);
      if !r.Broke? {
        return r, false;
      }
      ghost var broken := State(game);
      assert Inner(passStart, cur, data, sizes, fuel) == Done(broken, r.signal, r.fuel);
      assert broken.threads[cur] == thread.Value();
      var unwound := thread.UnwindBlock(r.signal);
      if !unwound.Resume? {
        return if unwound.Finish? then r else Fault(unwound.fault), false;
      }
      assert State(game) == broken.(threads := broken.threads[cur := unwound.thread]);
      resumed := true;
    }

    /** One call for thread `cur`: the tick gate, then a pass if the thread is running. */
    method RunScriptThread(cur: nat, data: ScriptFunction, sizes: InstructionSize, elapsed: real,
                           game: GameDef, fuel: nat) returns (r: Outcome)
      requires Valid() && cur < scriptThreads.Length
      modifies this, Objects(), game
      ensures TickReports(r, PoolState(game), RunThread(old(PoolState(game)), cur, data, sizes, elapsed, fuel))
    {
      scriptDeltaTime := scriptDeltaTime + elapsed;
      if scriptDeltaTime > SCRIPT_TICK {
        scriptDeltaTime := 0.0;
      } else {
        return Ran;
      }
      if !scriptThreads[cur].runStatus {
        return Ran;
      }
      var pass := PassLoop(cur, data, sizes, game, fuel);
      match pass {
        case Broke(_, _) => r := Ran;
        case NoFuel => r := Exhausted;
        case Fault(f) => r := Fatal(f);
      }
    }

    /** One tick: every thread in index order. */
    method RunScript(data: ScriptFunction, sizes: InstructionSize, elapsed: real, game: GameDef, fuel: nat)
      returns (r: Outcome)
      requires Valid()
      modifies this, Objects(), game
      ensures TickReports(r, PoolState(game), EngineSpec.RunScript(old(PoolState(game)), data, sizes, elapsed, fuel))
    {
      ghost var p0 := PoolState(game);
      var i := 0;
      while i < scriptThreads.Length
        invariant Valid() && 0 <= i <= scriptThreads.Length
        invariant RunScriptFrom(p0, 0, data, sizes, elapsed, fuel) == RunScriptFrom(PoolState(game), i, data, sizes, elapsed, fuel)
      {
        r := RunScriptThread(i, data, sizes, elapsed, game, fuel);
        if r != Ran {
          return;
        }
        i := i + 1;
      }
      return Ran;
    }
  }
}
