/** The game state the script handlers read and write: the flag bit arrays, the script
    variables, the number of loaded model objects, and the log of calls made into the
    game and render collaborators. */
module Game {
  import opened GoInt
  import opened ScriptTypes

  datatype GameRec = GameRec(
    bits: set<(int, int)>,
    vars: map<int, Int64>,
    modelObjectCount: nat,
    effects: seq<Effect>)
  {
    /** Bit `number` of flag array `bitArray`, as 0 or 1. */
    function GetBitArray(bitArray: int, number: int): (r: int)
      ensures r == 0 || r == 1
    {
      if (bitArray, number) in bits then 1 else 0
    }

    /** Clear the bit for value 0, set it for any other value. */
    function SetBitArray(bitArray: int, number: int, value: int): GameRec
    {
      if value == 0 then this.(bits := bits - {(bitArray, number)})
      else this.(bits := bits + {(bitArray, number)})
    }

    /** A script variable; one never written reads as 0. */
    function GetScriptVariable(id: int): Int64
    {
      if id in vars then vars[id] else 0
    }

    function SetScriptVariable(id: int, value: Int64): GameRec
    {
      this.(vars := vars[id := value])
    }

    function Record(e: Effect): GameRec
    {
      this.(effects := effects + [e])
    }
  }

  /** The mutable game object the interpreter is handed on every pass. */
  class GameDef {
    var bits: set<(int, int)>
    var vars: map<int, Int64>
    var modelObjectCount: nat
    var effects: seq<Effect>

    function Value(): GameRec
      reads this
    {
      GameRec(bits, vars, modelObjectCount, effects)
    }

    constructor (initial: GameRec)
      ensures Value() == initial
    {
      bits := initial.bits;
      vars := initial.vars;
      modelObjectCount := initial.modelObjectCount;
      effects := initial.effects;
    }

    function GetBitArray(bitArray: int, number: int): int
      reads this
    {
      Value().GetBitArray(bitArray, number)
    }

    method SetBitArray(bitArray: int, number: int, value: int)
      modifies this
      ensures Value() == old(Value()).SetBitArray(bitArray, number, value)
    {
      if value == 0 {
        bits := bits - {(bitArray, number)};
      } else {
        bits := bits + {(bitArray, number)};
      }
    }

    function GetScriptVariable(id: int): Int64
      reads this
    {
      Value().GetScriptVariable(id)
    }

    method SetScriptVariable(id: int, value: Int64)
      modifies this
      ensures Value() == old(Value()).SetScriptVariable(id, value)
    {
      vars := vars[id := value];
    }

    method Record(e: Effect)
      modifies this
      ensures Value() == old(Value()).Record(e)
    {
      effects := effects + [e];
    }
  }
}
