/** The handlers that work on the game state rather than on the thread's control state:
    flag bits, script variables, and the calls into the game and render collaborators. */
module StateHandlers {
  import opened GoInt
  import opened ScriptTypes
  import opened Game
  import opened Calculator

  const WORKSET_PLAYER: int := 1
  const WORKSET_ENEMY: int := 3
  const WORKSET_OBJECT: int := 4

  /** check: signal 1 when the bit has the expected value, else 0 (pop the if-block). */
  function CheckBit(g: GameRec, bitArray: int, number: int, value: int): (r: int)
    ensures r == 0 || r == 1
    ensures r == 1 <==> ((bitArray, number) in g.bits <==> value == 1) && (value == 0 || value == 1)
  {
    if g.GetBitArray(bitArray, number) == value then 1 else 0
  }

  /** set_bit: operation 0 clears, 1 sets and 7 flips the bit; any other operation is fatal. */
  function SetBit(g: GameRec, bitArray: int, bitNumber: int, operation: int): (r: Result<GameRec>)
    ensures r.Ok? <==> operation == 0 || operation == 1 || operation == 7
    ensures r.Err? ==> r.fault == InvalidSetBitOperation
    ensures r.Ok? ==> (r.value.GetBitArray(bitArray, bitNumber) ==
      if operation == 0 then 0 else if operation == 1 then 1 else 1 - g.GetBitArray(bitArray, bitNumber))
    ensures r.Ok? ==> forall a, n :: (a, n) != (bitArray, bitNumber) ==> r.value.GetBitArray(a, n) == g.GetBitArray(a, n)
    ensures r.Ok? ==> (r.value.vars == g.vars && r.value.effects == g.effects &&
      r.value.modelObjectCount == g.modelObjectCount)
  {
    if operation == 0 then Ok(g.SetBitArray(bitArray, bitNumber, 0))
    else if operation == 1 then Ok(g.SetBitArray(bitArray, bitNumber, 1))
    else if operation == 7 then
      var currentBit := g.GetBitArray(bitArray, bitNumber);
      Ok(g.SetBitArray(bitArray, bitNumber, FlipBit(currentBit)))
    else Err(InvalidSetBitOperation)
  }

  /** Go's `b ^ 1`, which flips a bit. */
  function FlipBit(b: int): (r: int)
    requires b == 0 || b == 1
    ensures r == 1 - b
  {
    XorOneFlips(b);
    Xor(b, 1)
  }

  lemma XorOneFlips(b: Int64)
    requires b == 0 || b == 1
    ensures Xor(b, 1) == 1 - b
  {
    assert Unsigned(b) == b && Unsigned(1) == 1;
    BitwiseOneBit(XorBits, b, 1, 64);
  }

  /** The comparison signal: operations 0-5 are ==, >, >=, <, <=, !=; operation 6 tests
      for a common set bit; any other operation yields 1. */
  function CompareSignal(variableValue: Int64, operation: int, otherValue: Int64): (r: int)
    ensures r == 0 || r == 1
    ensures (operation < 0 || operation > 6) ==> r == 1
  {
    match operation
    case 0 => if variableValue == otherValue then 1 else 0
    case 1 => if variableValue > otherValue then 1 else 0
    case 2 => if variableValue >= otherValue then 1 else 0
    case 3 => if variableValue < otherValue then 1 else 0
    case 4 => if variableValue <= otherValue then 1 else 0
    case 5 => if variableValue != otherValue then 1 else 0
    case 6 => if And(variableValue, otherValue) != 0 then 1 else 0
    case _ => 1
  }

  /** compare: the variable against the literal. The signal is 1 exactly when the
      stored value stands in the operation's relation to the literal. */
  function Compare(g: GameRec, varId: int, operation: int, value: Int64): (r: int)
    ensures r == 0 || r == 1
    ensures var v := g.GetScriptVariable(varId);
      (operation == 0 ==> (r == 1 <==> v == value)) &&
      (operation == 1 ==> (r == 1 <==> v > value)) &&
      (operation == 2 ==> (r == 1 <==> v >= value)) &&
      (operation == 3 ==> (r == 1 <==> v < value)) &&
      (operation == 4 ==> (r == 1 <==> v <= value)) &&
      (operation == 5 ==> (r == 1 <==> v != value)) &&
      (operation == 6 ==> (r == 1 <==> And(v, value) != 0))
    ensures (operation < 0 || operation > 6) ==> r == 1
  {
    CompareSignal(g.GetScriptVariable(varId), operation, value)
  }

  /** save: store the literal in the variable. */
  function Save(g: GameRec, varId: int, value: Int64): (r: GameRec)
    ensures r.GetScriptVariable(varId) == value
    ensures forall id :: id != varId ==> r.GetScriptVariable(id) == g.GetScriptVariable(id)
    ensures r.bits == g.bits && r.effects == g.effects && r.modelObjectCount == g.modelObjectCount
  {
    g.SetScriptVariable(varId, value)
  }

  /** copy: store one variable's value in another. */
  function Copy(g: GameRec, destVarId: int, sourceVarId: int): (r: GameRec)
    ensures r.GetScriptVariable(destVarId) == g.GetScriptVariable(sourceVarId)
    ensures forall id :: id != destVarId ==> r.GetScriptVariable(id) == g.GetScriptVariable(id)
    ensures r.bits == g.bits && r.effects == g.effects && r.modelObjectCount == g.modelObjectCount
  {
    g.SetScriptVariable(destVarId, g.GetScriptVariable(sourceVarId))
  }

  /** calc: combine the variable with the literal and store the result back. */
  function Calc(g: GameRec, args: CalcArgs): (r: Result<GameRec>)
    ensures r.Ok? <==> ScriptVariableCalculator(args.operation, g.GetScriptVariable(args.varId), args.value).Ok?
    ensures r.Err? ==> r.fault == ScriptVariableCalculator(args.operation, g.GetScriptVariable(args.varId), args.value).fault
    ensures r.Ok? ==> (r.value.GetScriptVariable(args.varId) ==
      ScriptVariableCalculator(args.operation, g.GetScriptVariable(args.varId), args.value).value)
    ensures r.Ok? ==> forall id :: id != args.varId ==> r.value.GetScriptVariable(id) == g.GetScriptVariable(id)
    ensures r.Ok? ==> r.value.bits == g.bits && r.value.effects == g.effects
  {
    match ScriptVariableCalculator(args.operation, g.GetScriptVariable(args.varId), args.value)
    case Ok(v) => Ok(g.SetScriptVariable(args.varId, v))
    case Err(f) => Err(f)
  }

  /** calc2: combine the variable with a second variable and store the result back. */
  function Calc2(g: GameRec, args: Calc2Args): (r: Result<GameRec>)
    ensures r.Ok? <==> ScriptVariableCalculator(args.operation, g.GetScriptVariable(args.varId),
                                                g.GetScriptVariable(args.sourceVarId)).Ok?
    ensures r.Err? ==> r.fault == ScriptVariableCalculator(args.operation, g.GetScriptVariable(args.varId),
                                                           g.GetScriptVariable(args.sourceVarId)).fault
    ensures r.Ok? ==> (r.value.GetScriptVariable(args.varId) ==
      ScriptVariableCalculator(args.operation, g.GetScriptVariable(args.varId), g.GetScriptVariable(args.sourceVarId)).value)
    ensures r.Ok? ==> forall id :: id != args.varId ==> r.value.GetScriptVariable(id) == g.GetScriptVariable(id)
    ensures r.Ok? ==> r.value.bits == g.bits && r.value.effects == g.effects
  {
    var left := g.GetScriptVariable(args.varId);
    var right := g.GetScriptVariable(args.sourceVarId);
    match ScriptVariableCalculator(args.operation, left, right)
    case Ok(v) => Ok(g.SetScriptVariable(args.varId, v))
    case Err(f) => Err(f)
  }

  /** cut_chg: switch to another camera. */
  function CameraChange(g: GameRec, cameraId: int): (r: GameRec)
    ensures r.effects == g.effects + [ChangeCamera(cameraId)]
    ensures r.bits == g.bits && r.vars == g.vars
  {
    g.Record(ChangeCamera(cameraId))
  }

  /** obj_model_set: hand the instruction to the renderer as an item entity. */
  function ObjectModelSet(g: GameRec, instr: Instr): (r: GameRec)
    ensures r.effects == g.effects + [SetItemEntity(instr)]
    ensures r.bits == g.bits && r.vars == g.vars
  {
    g.Record(SetItemEntity(instr))
  }

  /** pos_set: move the player when the work set selects the player; otherwise nothing. */
  function PositionSet(g: GameRec, workSetComponent: int, x: int, y: int, z: int): (r: GameRec)
    ensures workSetComponent == WORKSET_PLAYER ==> r.effects == g.effects + [SetPlayerPosition(x, y, z)]
    ensures workSetComponent != WORKSET_PLAYER ==> r == g
    ensures r.bits == g.bits && r.vars == g.vars
  {
    if workSetComponent == WORKSET_PLAYER then g.Record(SetPlayerPosition(x, y, z)) else g
  }

  /** member_set: only member 15, the rotation, is written, on the player or on the model
      object the work set selects; an object index outside the loaded models is fatal
      whatever the member. */
  function MemberSet(g: GameRec, workSetComponent: int, workSetIndex: int,
                     memberIndex: int, value: int): (r: Result<GameRec>)
    ensures r.Err? <==> workSetComponent == WORKSET_OBJECT && !(0 <= workSetIndex < g.modelObjectCount)
    ensures r.Err? ==> r.fault == IndexOutOfRange
    ensures r.Ok? && memberIndex == 15 && workSetComponent == WORKSET_PLAYER ==>
      r.value.effects == g.effects + [SetPlayerRotation(value)]
    ensures r.Ok? && memberIndex == 15 && workSetComponent == WORKSET_OBJECT ==>
      r.value.effects == g.effects + [SetObjectRotation(workSetIndex, value)]
    ensures r.Ok? && (memberIndex != 15 || (workSetComponent != WORKSET_PLAYER && workSetComponent != WORKSET_OBJECT)) ==>
      r.value == g
    ensures r.Ok? ==> r.value.bits == g.bits && r.value.vars == g.vars
  {
    if workSetComponent == WORKSET_PLAYER then
      if memberIndex == 15 then Ok(g.Record(SetPlayerRotation(value))) else Ok(g)
    else if workSetComponent == WORKSET_OBJECT then
      if !(0 <= workSetIndex < g.modelObjectCount) then Err(IndexOutOfRange)
      else if memberIndex == 15 then Ok(g.Record(SetObjectRotation(workSetIndex, value)))
      else Ok(g)
    else Ok(g)
  }

  /** sca_id_set: flag 0 removes the collision entity; any other flag does nothing. */
  function ScaIdSet(g: GameRec, id: int, flag: int): (r: GameRec)
    ensures flag == 0 ==> r.effects == g.effects + [RemoveCollisionEntity(id)]
    ensures flag != 0 ==> r == g
    ensures r.bits == g.bits && r.vars == g.vars
  {
    if flag == 0 then g.Record(RemoveCollisionEntity(id)) else g
  }

  /** sce_espr_on: register the sprite with the trigger manager, then with the renderer. */
  function SceEsprOn(g: GameRec, instr: Instr): (r: GameRec)
    ensures r.effects == g.effects + [AddScriptSprite(instr), AddSprite(instr)]
    ensures r.bits == g.bits && r.vars == g.vars
  {
    g.Record(AddScriptSprite(instr)).Record(AddSprite(instr))
  }

  /** The trigger-area handlers declared outside the interpreter: the call is recorded. */
  function ForeignHandler(g: GameRec, instr: Instr): (r: GameRec)
    ensures r.effects == g.effects + [Effect.ForeignHandler(instr)]
    ensures r.bits == g.bits && r.vars == g.vars
  {
    g.Record(Effect.ForeignHandler(instr))
  }
}
