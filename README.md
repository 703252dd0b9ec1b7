# Room-script interpreter

This project models the room-script interpreter of a survival-horror game engine. It also
models the table that turns a camera's field-of-view byte from a room description file into degrees.

A room ships bytecode scripts. The interpreter keeps a pool of twenty cooperative script
threads. Each thread has:

- a program counter;
- a stack of subroutine levels, each holding an if-block stack, a return address and
  loop/switch/sleep frames;
- the object context that later member and position instructions act on.

One tick runs every thread once, in index order, behind a shared 30 Hz gate. A thread's pass
dispatches instructions until a handler breaks control flow:

- signal 1 continues;
- signal 2 stops the pass;
- any other signal pops the innermost open if-block and resumes at the address the block saved.

The handlers cover several kinds of work: block structure (if/else/end_if, for/for_end,
switch/case/default/end_switch/break), threads (evt_end, evt_exec, gosub, sleep/sleeping),
flag bits, script variables with a twelve-operator calculator over Go's 64-bit `int`, and
calls into the game and render collaborators.

## Layout

| file | module | contents |
|---|---|---|
| `go_int.dfy` | `GoInt` | Go `int` arithmetic: wrap-around, truncating `/` and `%`, bitwise operators on two's complement, shifts |
| `script_types.dfy` | `ScriptTypes` | faults, opcodes, decoded instructions, the script function, collaborator effects |
| `thread_spec.dfy` | `ThreadSpec` | a thread as a value, and the control-flow handlers as functions on it |
| `thread.dfy` | `Thread` | `ScriptThread`, the mutable thread object, whose handler methods are proved against `ThreadSpec` |
| `game.dfy` | `Game` | flag bits, script variables, model-object count, effect log; the `GameDef` object |
| `calculator.dfy` | `Calculator` | the script variable calculator and its algebra |
| `state_handlers.dfy` | `StateHandlers` | the flag, variable and collaborator handlers |
| `engine_spec.dfy` | `EngineSpec` | dispatch, the inner and outer loops, a thread's call and a tick, as functions |
| `engine.dfy` | `Engine` | `ScriptDef`, the interpreter object, whose loops are proved against `EngineSpec` |
| `thread_properties.dfy`, `state_properties.dfy`, `engine_properties.dfy` | | lemmas about handlers chained the way scripts run them |
| `fov.dfy` | `RidCamera` | the field-of-view table |

A fatal `log.Fatal`, and every Go runtime panic the handlers can reach, is an `Err(Fault)`
result:

- nil map lookup;
- index out of range;
- division by zero;
- negative shift count.

The spec functions return these faults. The object methods promise the same fault, or the
same new state and signal.

## Model

| member | source | states |
|---|---|---|
| GoInt.Wrap | script/script.go:618-623 | the result is congruent to its argument modulo 2^64 and equals it when it fits in 64 bits (Go's overflowing `+ - *`) |
| GoInt.TruncDivMod | script/script.go:624-627 | Go's `/` and `%`: quotient times divisor plus remainder is the dividend; the remainder is smaller than the divisor and zero or of the dividend's sign |
| GoInt.BitwiseCommutes | script/script.go:628-633 | bitwise or, and, xor give the same bits whatever the operand order |
| GoInt.BitwiseXorSelf | script/script.go:632-633 | a number xor itself has no bit set |
| GoInt.ShiftRight | script/script.go:638-641 | an arithmetic right shift keeps the sign and never grows the magnitude |
| Calculator.ScriptVariableCalculator | script/script.go:616-647 | fails exactly for an operation outside 0-11, for `/` or `%` by zero, or for a negative shift count `right % 32`, each with its own fault |
| Calculator.ShiftCountSign | script/script.go:636-641 | Go's `right % 32` lies in (-32, 32) and is negative exactly for negative right operands that are not multiples of 32 |
| Calculator.ShiftRightOperatorsAgree | script/script.go:638-641 | operations 10 and 11 compute the same thing |
| Calculator.AddThenSubtract | script/script.go:618-621 | subtracting what was added restores the value, overflow or not |
| Calculator.DivideRemainder | script/script.go:624-627 | quotient times divisor plus remainder wraps to the dividend; the remainder is smaller than the divisor |
| Calculator.NotTwice | script/script.go:634-635 | the complement applied twice is the identity |
| Calculator.ShiftCountModulo | script/script.go:636-641 | for every non-negative count, operations 9-11 give what they give for the count's remainder by 32; so a left shift by 33 is doubling with wrap-around |
| Calculator.BitOperatorsCommute | script/script.go:628-633 | operations 5-7 do not depend on the operand order |
| Calculator.XorSelfClears | script/script.go:632-633 | xor with the variable's own value gives 0 |
| StateHandlers.CheckBit | script/script.go:478-487 | signal 1 exactly when the bit equals the tested value, else 0 |
| StateHandlers.SetBit | script/script.go:489-510 | fails exactly for operations other than 0, 1, 7; clears, sets or flips exactly that bit; all other bits, variables and effects unchanged |
| StateHandlers.FlipBit | script/script.go:503-504 | `bit ^ 1` is 1 - bit |
| StateHandlers.XorOneFlips | script/script.go:503-504 | the 64-bit xor with 1 of a bit is 1 - bit |
| StateHandlers.CompareSignal | script/script.go:520-570 | a comparison yields 0 or 1, and 1 for any unknown operation |
| StateHandlers.Compare | script/script.go:512-571 | reads the variable and yields 1 exactly when it stands in the operation's relation (==, >, >=, <, <=, !=, common set bit) to the literal, else 0; 1 for any unknown operation |
| StateHandlers.Save | script/script.go:573-580 | the variable holds the literal; every other variable and the bits are unchanged |
| StateHandlers.Copy | script/script.go:582-590 | the destination holds the source's old value; everything else unchanged |
| StateHandlers.Calc | script/script.go:592-602 | fails exactly when the calculator does, with its fault; else the variable holds the calculator's result and nothing else changes |
| StateHandlers.Calc2 | script/script.go:604-614 | with the right operand read from a second variable: fails exactly when the calculator does, with its fault; else the variable holds the calculator's result, other variables, bits and effects unchanged |
| StateHandlers.CameraChange | script/script.go:649-656 | appends one camera change; bits and variables unchanged |
| StateHandlers.ObjectModelSet | script/script.go:658-667 | appends one item-entity call; bits and variables unchanged |
| StateHandlers.PositionSet | script/script.go:679-691 | moves the player when the work object is the player, else changes nothing |
| StateHandlers.MemberSet | script/script.go:693-715 | fails exactly on an object index past the loaded model objects; sets a rotation for member 15 of the player or an object, else changes nothing |
| StateHandlers.ScaIdSet | script/script.go:717-726 | removes the collision entity for flag 0, else changes nothing |
| StateHandlers.SceEsprOn | script/script.go:728-736 | records the script sprite and the render sprite, in that order |
| StateHandlers.ForeignHandler | script/script.go:143-144 | a trigger-area handler defined outside the interpreter is recorded as one call |
| StateProperties.FlipTwiceRestores | script/script.go:501-504 | flipping a bit twice gives the game state back |
| StateProperties.SetBitIdempotent | script/script.go:494-500 | setting or clearing a bit again changes nothing more |
| StateProperties.CheckSeesSetBit | script/script.go:478-510 | a check right after set_bit passes exactly for the value written |
| StateProperties.CheckIgnoresOtherSetBit | script/script.go:478-510 | a set_bit does not change a check of another bit |
| StateProperties.CompareSeesSave | script/script.go:512-580 | after save, compare for == passes and for != fails |
| StateProperties.CompareSeesCopy | script/script.go:512-590 | after copy, the destination compares equal to the source's old value |
| StateProperties.CompareOperatorsNegate | script/script.go:512-571 | == and !=, > and <=, >= and < give opposite signals |
| StateProperties.CommonBitWithSelf | script/script.go:512-571 | testing a value for a common set bit with itself tests it for nonzero |
| StateProperties.AndItself | script/script.go:630-631 | a value and-ed with itself is itself |
| StateProperties.AndSelf | script/script.go:630-631 | and-ing a number with itself keeps its low n bits |
| ThreadProperties.IfBlockStartSavesBlockEnd | script/script.go:259-271 | if_start fails exactly without the next stack slot; it saves pc + size + blockLength there and raises both the stack index and the if-block count by one |
| ThreadProperties.BlockHandlersKeepBalance | script/script.go:204-212 | if_start, else, end_if and the dispatcher's pop keep one saved address per open if-block |
| ThreadProperties.CompletedBlockRestoresCounters | script/script.go:273-289 | an if-block closed by end_if or else has both counters back as before if_start; else also jumps over the else body |
| ThreadProperties.FailedConditionSkipsBlock | script/script.go:199-212 | a condition failing inside an if-block makes the dispatcher resume just past the block with the counters restored |
| ThreadProperties.UnwindCases | script/script.go:199-212 | signal 2 ends the pass for any thread, before the level is read; otherwise a missing level is an index fault, no open block ends the pass, an open block with nothing saved is fatal, a saved address out of range is an index fault, and otherwise the innermost block is popped |
| ThreadProperties.ForLoopBeginOpensFrame | script/script.go:324-354 | for with a nonzero count opens the next frame holding count, body start and body end; count 0 jumps past the body |
| ThreadProperties.LoopRoundsRepeat | script/script.go:356-374 | while the counter stays above the turns taken, for_end sends the thread back to the body start and counts down by one |
| ThreadProperties.ForLoopRunsBodyCountTimes | script/script.go:324-374 | a for with count >= 1 reaches its body exactly count times, then closes its frame and moves past for_end |
| ThreadProperties.SleepingEndsPass | script/script.go:308-322 | sleeping always signals 2 and fails exactly without an open frame |
| ThreadProperties.SleepRoundsStall | script/script.go:308-322 | while the counter stays above the passes taken, the thread stays on its sleeping opcode |
| ThreadProperties.SleepStallsCountPasses | script/script.go:291-322 | sleep with count >= 1 holds the thread on the sleeping opcode for count - 1 passes, and the count-th pass moves on |
| ThreadProperties.SwitchScanSound | script/script.go:394-424 | the scan enters only after a case whose value matches or after a default, and leaves only after an end_switch |
| ThreadProperties.SwitchScanStopsAtFirst | script/script.go:394-424 | along any walk of distinct non-matching cases, the scan enters the first case with the switch value, or else the first default, or leaves past the first end_switch |
| ThreadProperties.SwitchScanSkipsCase | script/script.go:409-412 | a non-matching case moves the scan past its body |
| ThreadProperties.SwitchScanScenario | script/script.go:394-424 | on two cases then a default or end_switch, each case value enters its case, and every other value enters the default or leaves past end_switch |
| ThreadProperties.SwitchBeginFrames | script/script.go:376-428 | switch opens a frame with the break address and the if-block count, goes where the scan stops, and closes the frame again when it leaves |
| ThreadProperties.SwitchThenBreak | script/script.go:467-476 | break in a case body jumps past the switch block with frame depth and if-block count as before |
| ThreadProperties.BreakFromInnerBlockUnbalances | script/script.go:467-476 | break leaves the stack index alone, so breaking out of an if-block opened inside the loop unbalances the level |
| ThreadProperties.GoSubThenEvtEndReturns | script/script.go:216-230 | after gosub the callee level starts with no block or frame open; its evt_end returns to the instruction after the gosub at the caller's level |
| ThreadProperties.GoSubInsideBlockReturnsUnbalanced | script/script.go:216-228 | evt_end takes the stack index from the callee's if-block count, so a call made inside an if-block returns unbalanced |
| ThreadProperties.EvtEndAtTopHalts | script/script.go:227-229 | evt_end at the top level stops the thread and the pass |
| EngineSpec.LowestIdle | script/script.go:240-249 | the lowest idle thread index at or after `from`, or 0 when every thread is running |
| EngineSpec.InitScript | script/script.go:48-55 | fails exactly for a thread or entry point that does not exist; else marks that thread running at the entry point, leaves every other field of it unchanged and leaves the other threads unchanged |
| EngineSpec.Dispatch | script/script.go:86-190 | a thread whose address holds no instruction faults with MissingInstruction; a successful step keeps the pool size and leaves the override flag clear |
| EngineSpec.Inner | script/script.go:86-197 | the inner loop ends only with a signal other than 1, using fuel |
| EngineProperties.StraightLineMovesOn | script/script.go:127-182 | a handler that neither structures blocks nor schedules threads moves only its thread on by the instruction size, with signal 1, or 0 for check and compare; only set_bit, calc, calc2 and member_set can fail |
| EngineProperties.InertOnlyMovesOn | script/script.go:121-184 | goto, case and default outside a scan, the empty handlers and unlisted opcodes only move the thread on, with signal 1 |
| EngineProperties.Calc2RunsCalc | script/script.go:139-140 | the calc2 opcode computes what calc computes on the same leading bytes |
| EngineProperties.DispatchKeepsOtherThreads | script/script.go:86-190 | no instruction other than evt_exec changes another thread |
| EngineProperties.TargetThreadChoice | script/script.go:236-249 | evt_exec starts the named thread, else the lowest idle one, else thread 0 |
| EngineProperties.EvtExecStartsTarget | script/script.go:232-257 | evt_exec fails exactly without the entry point or the target's top level; it starts the target at the entry point with a fresh top level and no other thread changes |
| EngineProperties.EvtExecOnItselfSkipsFirstInstruction | script/script.go:187-190 | an evt_exec naming its own thread restarts it one instruction past the entry point, since the handler sets no override |
| EngineProperties.GateOpensOnThirdFrame | script/script.go:73-78 | at 60 Hz, the gate opens on the call that brings the accumulator above 1/30 s and clears it |
| EngineProperties.GateCycles | script/script.go:73-78 | after n calls at 60 Hz, the accumulator holds (k + n) mod 3 frames' worth |
| EngineProperties.GateOpensEveryThirdCall | script/script.go:57-78 | with the accumulator shared by the threads, call i from a cleared gate opens it exactly when i mod 3 is 2 |
| EngineProperties.RunThreadBehindGate | script/script.go:73-82 | a closed gate or an idle thread changes nothing but the accumulator |
| EngineProperties.IdleTickOnlyMovesGate | script/script.go:57-64 | a tick over idle threads only moves the accumulator on, once per thread |
| Thread.ScriptThread.EvtEnd | script/script.go:216-230 | the object's new state and signal are those of `ThreadSpec.EvtEnd` |
| Thread.ScriptThread.IfBlockStart | script/script.go:259-271 | as `ThreadSpec.IfBlockStart` |
| Thread.ScriptThread.ElseCheck | script/script.go:273-283 | as `ThreadSpec.ElseCheck` |
| Thread.ScriptThread.EndIf | script/script.go:285-289 | as `ThreadSpec.EndIf` |
| Thread.ScriptThread.Sleep | script/script.go:291-306 | as `ThreadSpec.Sleep` |
| Thread.ScriptThread.Sleeping | script/script.go:308-322 | as `ThreadSpec.Sleeping` |
| Thread.ScriptThread.ForLoopBegin | script/script.go:324-354 | as `ThreadSpec.ForLoopBegin` |
| Thread.ScriptThread.ForLoopEnd | script/script.go:356-374 | as `ThreadSpec.ForLoopEnd` |
| Thread.ScriptThread.SwitchBegin | script/script.go:376-428 | as `ThreadSpec.SwitchBegin`, with the scan loop's invariant tying it to `SwitchScan` |
| Thread.ScriptThread.SwitchEnd | script/script.go:430-433 | as `ThreadSpec.SwitchEnd` |
| Thread.ScriptThread.GoSub | script/script.go:450-465 | as `ThreadSpec.GoSub` |
| Thread.ScriptThread.Break | script/script.go:467-476 | as `ThreadSpec.Break` |
| Thread.ScriptThread.WorkSet | script/script.go:669-677 | as `ThreadSpec.WorkSet` |
| Thread.ScriptThread.IncrementProgramCounter | script/script.go:187-189 | the address moves on by the instruction size and nothing else changes |
| Thread.ScriptThread.UnwindBlock | script/script.go:199-212 | returns `ThreadSpec.Unwind` and pops the block exactly when it resumes |
| Engine.ScriptDef.constructor | script/script.go:31-40 | twenty distinct stopped threads, accumulator cleared |
| Engine.ScriptDef.Reset | script/script.go:42-46 | every thread stopped, nothing else changed |
| Engine.ScriptDef.InitScript | script/script.go:48-55 | the pool becomes `EngineSpec.InitScript`'s, or the same fault |
| Engine.ScriptDef.ScriptEvtExec | script/script.go:232-257 | the search loop picks `TargetThread`; the pool becomes `EngineSpec.EvtExec`'s |
| Engine.ScriptDef.Dispatch | script/script.go:86-190 | the pool, game and signal of `EngineSpec.Dispatch`, or its fault |
| Engine.ScriptDef.InnerLoop | script/script.go:86-197 | the loop's outcome and state are those of `EngineSpec.Inner` |
| Engine.ScriptDef.PassLoop | script/script.go:84-213 | the loop's outcome and state are those of `EngineSpec.Pass` |
| Engine.ScriptDef.RunScriptThread | script/script.go:66-214 | the pool and accumulator become `EngineSpec.RunThread`'s |
| Engine.ScriptDef.RunScript | script/script.go:57-64 | the pool and accumulator become `EngineSpec.RunScript`'s |
| RidCamera.CalculateFovDegrees | fileio/rdt_rid.go:88-100 | each of the five angles comes exactly from its byte band: above 200 gives 35, 151-200 gives 45, 111-150 gives 50, 81-110 gives 60, otherwise 80 |
| RidCamera.FovNarrowsAsByteGrows | fileio/rdt_rid.go:88-100 | a larger byte never gives a wider view |
| RidCamera.FovBandEdges | fileio/rdt_rid.go:88-100 | each threshold byte belongs to the wider band, and the next byte to the narrower one |

## Left out

- Records by value: the pool's thread records and each level's records are values that the
  methods write back. The model reads `curLevelState := scriptThread.LevelState[...]`
  as a pointer to the stored record, because writes through it such as
  `curLevelState.LoopLevel++` (script/script.go:302) only take effect if it is one; the
  type definitions that would settle this are not part of this model.
  Aliasing between records is not modelled.
- The state after a fault is the source's crash and is left unspecified. The methods promise
  only which fault occurs.
- Binary decoding: instructions reach the model already decoded (`Instr`). The
  `fileio.ScriptInstr*` layouts and `fileio.InstructionSize` are not part of this model, and
  the size table is a parameter.
- fileio is not part of this model beyond `CalculateFOVDegrees`, so the operand field widths
  are not modelled; operands are unbounded integers.
- The trigger-area handlers (aot_set, door_aot_set, aot_reset, item_aot_set and their 4p
  forms) are defined outside script.go. They are not part of this model beyond one recorded
  call that signals 1.
- The render, player and room collaborators are a log of calls (`Effect`). Float angle and
  position conversions are carried as the integers the instruction holds.
- `scriptDeltaTime` is a package global in the source. It is modelled as a field of the
  interpreter object, and Go's float64 as `real`, with no rounding.
- Engine.ScriptDef.RunScriptThread: each round of the inner and outer loops is bounded by a
  fuel count, and running out is a separate outcome. The source loops unboundedly.
- ThreadSpec.SwitchScan: the source's endless scan over a malformed block is reported as a
  fault when an address repeats.
- `NewScriptThread` and `ScriptThread.Reset` live outside script.go. They are not part of
  this model beyond a constructor for stopped threads and a `Reset` that stops the thread.
- Addresses and counters are unbounded integers. A 64-bit overflow of an address or a loop
  counter is not modelled.
- ThreadProperties.ForLoopRunsBodyCountTimes: only counts >= 1 are covered. A negative count
  counts down past zero and does not end until the counter wraps.
- ThreadProperties.SleepStallsCountPasses: only counts >= 1 are covered, for the same reason.
- RidCamera.CalculateFovDegrees returns the float32 angles as the integers they are.
- Goto is modelled as the no-op the source has; the jump it would make is commented out
  there.
- The game object's own code is not part of this model. Its flag bits are a set of
  (array, bit) pairs and its script variables a map that reads 0 for a variable never written.
- gamestate, main and the room-file loader are not part of this model.
