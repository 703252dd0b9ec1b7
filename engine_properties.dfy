/** What the dispatcher and the tick loop promise: which opcodes only move the thread
    on, which touch other threads, which thread evt_exec starts, and how the shared
    tick gate spaces the threads' passes. */
module EngineProperties {
  import opened GoInt
  import opened ScriptTypes
  import opened Game
  import opened ThreadSpec
  import opened EngineSpec

  // ---------------------------------------------------------------------------------
  // One dispatch step
  // ---------------------------------------------------------------------------------

  /** The thread after a handler that left its control state alone: moved on by the
      instruction's size with the override flag clear. */
  function MovedOn(t: ThreadRec, size: int): ThreadRec
  {
    t.(programCounter := t.programCounter + size, overrideProgramCounter := false)
  }

  /** A handler that neither structures blocks nor schedules threads leaves every thread
      as it was except that the current one moves on to the next instruction; its signal
      is 1, or 0 for a failed check or compare. Only set_bit, calc, calc2 and member_set
      can fail. */
  lemma StraightLineMovesOn(e: EngineRec, cur: nat, data: ScriptFunction, sizes: InstructionSize)
    requires cur < |e.threads|
    requires e.threads[cur].programCounter in data.instructions
    requires var instr := data.instructions[e.threads[cur].programCounter];
      !StructuresBlocks(instr) && !SchedulesThreads(instr)
    ensures var instr := data.instructions[e.threads[cur].programCounter];
      var d := Dispatch(e, cur, data, sizes);
      (d.Ok? || instr.SetBit? || instr.Calc? || instr.Calc2? || instr.MemberSet?) &&
      (d.Ok? ==>
        d.value.engine.threads == e.threads[cur := MovedOn(e.threads[cur], sizes(OpcodeOf(instr)))] &&
        (d.value.signal == 1 || (d.value.signal == 0 && (instr.Check? || instr.Compare?))))
  {
    var t := e.threads[cur];
    var instr := data.instructions[t.programCounter];
    var e0 := ClearOverride(e, cur);
    var size := sizes(OpcodeOf(instr));
    var x := EngineSpec.Execute(instr, e0, cur, data, sizes);
    assert x.Ok? ==> x.value.engine.threads == e0.threads;
    assert x.Ok? ==> Advance(x.value.engine, cur, size).threads == e.threads[cur := MovedOn(t, size)];
  }

  /** The opcodes whose handlers decode their operands and do nothing else: goto (which
      the source disables), case and default met outside a scan, the handlers that are
      empty bodies, and the opcodes the dispatcher does not list. */
  predicate Inert(instr: Instr)
  {
    instr.Goto? || instr.Case? || instr.Default? || instr.MemberCmp? || instr.PlcMotion? ||
    instr.PlcDest? || instr.PlcNeck? || instr.SceEmSet? || instr.SceEsprKill? ||
    instr.SceBgmControl? || instr.Unlisted?
  }

  /** An inert instruction only moves its thread on, with signal 1; the game is
      untouched. */
  lemma InertOnlyMovesOn(e: EngineRec, cur: nat, data: ScriptFunction, sizes: InstructionSize)
    requires cur < |e.threads|
    requires e.threads[cur].programCounter in data.instructions
    requires Inert(data.instructions[e.threads[cur].programCounter])
    ensures var instr := data.instructions[e.threads[cur].programCounter];
      Dispatch(e, cur, data, sizes) ==
        Ok(Dispatched(e.(threads := e.threads[cur := MovedOn(e.threads[cur], sizes(OpcodeOf(instr)))]), 1))
  {
    var t := e.threads[cur];
    var instr := data.instructions[t.programCounter];
    var e0 := ClearOverride(e, cur);
    assert ExecuteForeign(instr, e0, cur, data, sizes) == Ok(Dispatched(e0, 1));
    assert EngineSpec.Execute(instr, e0, cur, data, sizes) == Ok(Dispatched(e0, 1));
    assert Advance(e0, cur, sizes(OpcodeOf(instr))) == e.(threads := e.threads[cur := MovedOn(t, sizes(OpcodeOf(instr)))]);
  }

  /** calc2 runs the calc handler on its bytes, so it computes exactly what a calc with
      the same leading fields would. */
  lemma Calc2RunsCalc(e: EngineRec, cur: nat, data: ScriptFunction, sizes: InstructionSize,
                      asCalc: CalcArgs, asCalc2: Calc2Args)
    requires cur < |e.threads|
    ensures EngineSpec.Execute(Calc2(asCalc, asCalc2), e, cur, data, sizes) ==
      EngineSpec.Execute(Calc(asCalc), e, cur, data, sizes)
  {
  }

  /** Only evt_exec reaches into another thread: every other instruction leaves the
      other threads as they were. */
  lemma DispatchKeepsOtherThreads(e: EngineRec, cur: nat, data: ScriptFunction, sizes: InstructionSize)
    requires cur < |e.threads|
    requires e.threads[cur].programCounter in data.instructions
    requires !data.instructions[e.threads[cur].programCounter].EvtExec?
    ensures Dispatch(e, cur, data, sizes).Ok? ==>
      forall j :: 0 <= j < |e.threads| && j != cur ==> Dispatch(e, cur, data, sizes).value.engine.threads[j] == e.threads[j]
  {
    var t := e.threads[cur];
    var instr := data.instructions[t.programCounter];
    var e0 := ClearOverride(e, cur);
    var x := EngineSpec.Execute(instr, e0, cur, data, sizes);
    if StructuresBlocks(instr) {
      assert x == ExecuteBlocks(instr, e0, cur, data, sizes);
    } else if SchedulesThreads(instr) {
      assert x == ExecuteScheduling(instr, e0, cur, data, sizes);
    } else if UsesVariables(instr) {
      assert x == ExecuteVariables(instr, e0, cur, data, sizes);
    } else if CallsCollaborator(instr) {
      assert x == ExecuteCollaborator(instr, e0, cur, data, sizes);
    } else {
      assert x == ExecuteForeign(instr, e0, cur, data, sizes);
    }
    assert x.Ok? ==> x.value.engine.threads == e0.threads[cur := x.value.engine.threads[cur]];
  }

  // ---------------------------------------------------------------------------------
  // evt_exec
  // ---------------------------------------------------------------------------------

  /** The thread evt_exec starts: the named one when the number is a pool index, else
      the lowest-numbered thread that is not running, else thread 0. */
  lemma TargetThreadChoice(threads: seq<ThreadRec>, threadNum: int)
    ensures 0 <= threadNum < |threads| ==> TargetThread(threads, threadNum) == threadNum
    ensures !(0 <= threadNum < |threads|) && (exists j :: 0 <= j < |threads| && !threads[j].runStatus) ==>
      var n := TargetThread(threads, threadNum);
      0 <= n < |threads| && !threads[n].runStatus && forall j :: 0 <= j < n ==> threads[j].runStatus
    ensures !(0 <= threadNum < |threads|) && (forall j :: 0 <= j < |threads| ==> threads[j].runStatus) ==>
      TargetThread(threads, threadNum) == 0
  {
  }

  /** evt_exec marks its target running at the entry point with a fresh top level and
      changes no other thread; it fails when the pool is empty, the entry point does not
      exist or the target has no levels. */
  lemma EvtExecStartsTarget(threads: seq<ThreadRec>, startProgramCounter: seq<int>, threadNum: int, event: int)
    ensures var n := TargetThread(threads, threadNum);
      EngineSpec.EvtExec(threads, startProgramCounter, threadNum, event).Ok? <==>
        n < |threads| && 0 <= event < |startProgramCounter| && |threads[n].levelState| > 0
    ensures EngineSpec.EvtExec(threads, startProgramCounter, threadNum, event).Ok? ==>
      var n := TargetThread(threads, threadNum);
      var r := EngineSpec.EvtExec(threads, startProgramCounter, threadNum, event).value;
      r[n].runStatus && r[n].programCounter == startProgramCounter[event] &&
      r[n].subLevel == threads[n].subLevel && r[n].stackIndex == threads[n].stackIndex &&
      |r[n].levelState| == |threads[n].levelState| &&
      r[n].levelState[0].ifElseCounter == -1 && r[n].levelState[0].loopLevel == -1 &&
      r[n].levelState[0].stack == threads[n].levelState[0].stack &&
      (forall k :: 0 < k < |threads[n].levelState| ==> r[n].levelState[k] == threads[n].levelState[k]) &&
      (forall j :: 0 <= j < |threads| && j != n ==> r[j] == threads[j])
  {
  }

  /** An evt_exec naming the running thread itself restarts it, and the dispatcher then
      moves it past the entry point's first instruction, as the source does. */
  lemma EvtExecOnItselfSkipsFirstInstruction(e: EngineRec, cur: nat, data: ScriptFunction, sizes: InstructionSize,
                                            event: int)
    requires cur < |e.threads| && |e.threads[cur].levelState| > 0
    requires 0 <= event < |data.startProgramCounter|
    requires e.threads[cur].programCounter in data.instructions
    requires data.instructions[e.threads[cur].programCounter] == EvtExec(cur, event)
    ensures Dispatch(e, cur, data, sizes).Ok?
    ensures Dispatch(e, cur, data, sizes).value.engine.threads[cur].programCounter ==
      data.startProgramCounter[event] + sizes(OpEvtExec)
  {
  }

  // ---------------------------------------------------------------------------------
  // The tick gate
  // ---------------------------------------------------------------------------------

  /** The accumulator after `n` calls through the gate, each adding `elapsed`. */
  function DeltaAfter(delta: real, elapsed: real, n: nat): real
    decreases n
  {
    if n == 0 then delta else DeltaAfter(Gate(delta, elapsed).0, elapsed, n - 1)
  }

  /** The frame time of a 60 Hz loop. */
  const FRAME: real := 1.0 / 60.0

  /** At 60 Hz the gate needs three calls to exceed 1/30 s: from k frames' worth it opens
      exactly on the call that brings it to three. */
  lemma GateOpensOnThirdFrame(k: nat)
    requires k < 3
    ensures Gate(k as real * FRAME, FRAME) ==
      (if k == 2 then (0.0, true) else ((k + 1) as real * FRAME, false))
  {
  }

  /** So, starting from k frames' worth, the accumulator after n calls holds
      (k + n) mod 3 frames' worth. */
  lemma {:induction false} GateCycles(k: nat, n: nat)
    requires k < 3
    ensures DeltaAfter(k as real * FRAME, FRAME, n) == ((k + n) % 3) as real * FRAME
    decreases n
  {
    if n > 0 {
      GateOpensOnThirdFrame(k);
      var k' := (k + 1) % 3;
      assert Gate(k as real * FRAME, FRAME).0 == k' as real * FRAME;
      GateCycles(k', n - 1);
      assert (k' + (n - 1)) % 3 == (k + n) % 3;
    }
  }

  /** From a cleared accumulator at 60 Hz, call i through the gate (counting from 0)
      opens it exactly when i mod 3 is 2. */
  lemma GateOpensEveryThirdCall(i: nat)
    ensures Gate(DeltaAfter(0.0, FRAME, i), FRAME).1 <==> i % 3 == 2
  {
    GateCycles(0, i);
    assert 0 as real * FRAME == 0.0;
    GateOpensOnThirdFrame(i % 3);
  }

  /** A thread call that finds the gate closed, or its thread not running, changes
      nothing but the accumulator. */
  lemma RunThreadBehindGate(p: Pool, cur: nat, data: ScriptFunction, sizes: InstructionSize, elapsed: real, fuel: nat)
    requires cur < |p.engine.threads|
    ensures !Gate(p.delta, elapsed).1 || !p.engine.threads[cur].runStatus ==>
      RunThread(p, cur, data, sizes, elapsed, fuel) == Ticked(p.(delta := Gate(p.delta, elapsed).0))
    ensures RunThread(p, cur, data, sizes, elapsed, fuel).Ticked? || RunThread(p, cur, data, sizes, elapsed, fuel).Stalled? ==>
      RunThread(p, cur, data, sizes, elapsed, fuel).pool.delta == Gate(p.delta, elapsed).0
  {
  }

  /** A tick over threads none of which is running only moves the accumulator on, once
      per thread. */
  lemma {:induction false} IdleTickOnlyMovesGate(p: Pool, from: nat, data: ScriptFunction, sizes: InstructionSize,
                                                 elapsed: real, fuel: nat)
    requires from <= |p.engine.threads|
    requires forall j :: from <= j < |p.engine.threads| ==> !p.engine.threads[j].runStatus
    ensures RunScriptFrom(p, from, data, sizes, elapsed, fuel) ==
      Ticked(p.(delta := DeltaAfter(p.delta, elapsed, |p.engine.threads| - from)))
    decreases |p.engine.threads| - from
  {
    if from < |p.engine.threads| {
      RunThreadBehindGate(p, from, data, sizes, elapsed, fuel);
      var p1 := p.(delta := Gate(p.delta, elapsed).0);
      IdleTickOnlyMovesGate(p1, from + 1, data, sizes, elapsed, fuel);
    }
  }
}
