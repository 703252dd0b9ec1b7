/** The decoded form of a room script: opcodes, decoded instruction records, the
    instruction stream with its entry-point table, the fatal errors of the interpreter,
    and the calls it makes into the game and render collaborators. */
module ScriptTypes {
  import opened GoInt

  /** Conditions under which the interpreter aborts the process (`log.Fatal`) or Go
      raises a run-time panic. */
  datatype Fault =
    | EmptyStack                  // if-block pop with StackIndex == 0
    | SwitchUnknownOpcode         // switch scan met an opcode other than case/default/end_switch
    | InvalidSetBitOperation      // set_bit operation other than 0, 1, 7
    | InvalidCalculatorOperation  // calculator operation outside 0..11
    | DivideByZero                // Go panics on integer division or remainder by zero
    | NegativeShiftAmount         // Go panics on a negative shift count
    | IndexOutOfRange             // a slice index outside its bounds
    | MissingInstruction          // no instruction at the program counter (nil slice indexed)
    | SwitchScanDiverges          // the switch scan revisits an address: the source loops forever

  datatype Result<T> = Ok(value: T) | Err(fault: Fault)

  /** The opcodes the dispatcher distinguishes; every other opcode byte is Unlisted. */
  datatype Opcode =
    | OpEvtEnd | OpEvtExec | OpIfStart | OpElseStart | OpEndIf | OpSleep | OpSleeping
    | OpFor | OpForEnd | OpSwitch | OpCase | OpDefault | OpEndSwitch | OpGoto | OpGoSub
    | OpBreak | OpCheck | OpSetBit | OpCompare | OpSave | OpCopy | OpCalc | OpCalc2
    | OpCutChg | OpAotSet | OpObjModelSet | OpWorkSet | OpPosSet | OpMemberSet
    | OpScaIdSet | OpSceEsprOn | OpDoorAotSet | OpMemberCmp | OpPlcMotion | OpPlcDest
    | OpPlcNeck | OpSceEmSet | OpAotReset | OpSceEsprKill | OpItemAotSet
    | OpSceBgmControl | OpAotSet4p | OpDoorAotSet4p | OpItemAotSet4p
    | OpUnlisted(code: int)

  /** The table of encoded instruction sizes in bytes, indexed by opcode; every entry is
      positive. */
  type InstructionSize = f: Opcode -> int | forall op: Opcode :: f(op) >= 1
    witness (op: Opcode) => 1

  /** Operands of the calc instruction layout (variable op= literal). */
  datatype CalcArgs = CalcArgs(operation: int, varId: int, value: Int64)

  /** Operands of the calc2 instruction layout (variable op= variable). */
  datatype Calc2Args = Calc2Args(operation: int, varId: int, sourceVarId: int)

  /** A decoded instruction. Handlers that only forward their record to a collaborator
      keep the decoded fields as an uninterpreted payload. A calc2 instruction carries
      both readings of its bytes: the calc layout, which is what the dispatcher hands to
      the calc handler, and the calc2 layout. */
  datatype Instr =
    | EvtEnd
    | EvtExec(threadNum: int, event: int)
    | IfStart(blockLength: int)
    | ElseStart(blockLength: int)
    | EndIf
    | Sleep(count: int)
    | Sleeping
    | For(blockLength: int, count: int)
    | ForEnd
    | Switch(varId: int, blockLength: int)
    | Case(blockLength: int, caseValue: Int64)
    | Default
    | EndSwitch
    | Goto(payload: seq<int>)
    | GoSub(event: int)
    | Break
    | Check(bitArray: int, number: int, bitValue: int)
    | SetBit(bitArray: int, bitNumber: int, operation: int)
    | Compare(varId: int, operation: int, compareValue: Int64)
    | Save(varId: int, saveValue: Int64)
    | Copy(destVarId: int, sourceVarId: int)
    | Calc(args: CalcArgs)
    | Calc2(asCalc: CalcArgs, asCalc2: Calc2Args)
    | CutChg(cameraId: int)
    | AotSet(payload: seq<int>)
    | ObjModelSet(payload: seq<int>)
    | WorkSet(component: int, index: int)
    | PosSet(x: int, y: int, z: int)
    | MemberSet(memberIndex: int, memberValue: int)
    | ScaIdSet(id: int, flag: int)
    | SceEsprOn(payload: seq<int>)
    | DoorAotSet(payload: seq<int>)
    | MemberCmp(payload: seq<int>)
    | PlcMotion(payload: seq<int>)
    | PlcDest(payload: seq<int>)
    | PlcNeck(payload: seq<int>)
    | SceEmSet(payload: seq<int>)
    | AotReset(payload: seq<int>)
    | SceEsprKill(payload: seq<int>)
    | ItemAotSet(payload: seq<int>)
    | SceBgmControl(payload: seq<int>)
    | AotSet4p(payload: seq<int>)
    | DoorAotSet4p(payload: seq<int>)
    | ItemAotSet4p(payload: seq<int>)
    | Unlisted(code: int, payload: seq<int>)

  function OpcodeOf(i: Instr): Opcode
  {
    match i
    case EvtEnd => OpEvtEnd
    case EvtExec(_, _) => OpEvtExec
    case IfStart(_) => OpIfStart
    case ElseStart(_) => OpElseStart
    case EndIf => OpEndIf
    case Sleep(_) => OpSleep
    case Sleeping => OpSleeping
    case For(_, _) => OpFor
    case ForEnd => OpForEnd
    case Switch(_, _) => OpSwitch
    case Case(_, _) => OpCase
    case Default => OpDefault
    case EndSwitch => OpEndSwitch
    case Goto(_) => OpGoto
    case GoSub(_) => OpGoSub
    case Break => OpBreak
    case Check(_, _, _) => OpCheck
    case SetBit(_, _, _) => OpSetBit
    case Compare(_, _, _) => OpCompare
    case Save(_, _) => OpSave
    case Copy(_, _) => OpCopy
    case Calc(_) => OpCalc
    case Calc2(_, _) => OpCalc2
    case CutChg(_) => OpCutChg
    case AotSet(_) => OpAotSet
    case ObjModelSet(_) => OpObjModelSet
    case WorkSet(_, _) => OpWorkSet
    case PosSet(_, _, _) => OpPosSet
    case MemberSet(_, _) => OpMemberSet
    case ScaIdSet(_, _) => OpScaIdSet
    case SceEsprOn(_) => OpSceEsprOn
    case DoorAotSet(_) => OpDoorAotSet
    case MemberCmp(_) => OpMemberCmp
    case PlcMotion(_) => OpPlcMotion
    case PlcDest(_) => OpPlcDest
    case PlcNeck(_) => OpPlcNeck
    case SceEmSet(_) => OpSceEmSet
    case AotReset(_) => OpAotReset
    case SceEsprKill(_) => OpSceEsprKill
    case ItemAotSet(_) => OpItemAotSet
    case SceBgmControl(_) => OpSceBgmControl
    case AotSet4p(_) => OpAotSet4p
    case DoorAotSet4p(_) => OpDoorAotSet4p
    case ItemAotSet4p(_) => OpItemAotSet4p
    case Unlisted(code, _) => OpUnlisted(code)
  }

  /** One compiled script: the instruction at each byte offset and the start offset of
      each entry point (function). */
  datatype ScriptFunction = ScriptFunction(instructions: map<int, Instr>, startProgramCounter: seq<int>)

  /** A call into the game or render collaborator, recorded in the order made. */
  datatype Effect =
    | ChangeCamera(cameraId: int)
    | SetItemEntity(instr: Instr)
    | SetPlayerPosition(x: int, y: int, z: int)
    | SetPlayerRotation(angle: int)
    | SetObjectRotation(index: int, angle: int)
    | RemoveCollisionEntity(id: int)
    | AddScriptSprite(instr: Instr)
    | AddSprite(instr: Instr)
    | ForeignHandler(instr: Instr)
}
