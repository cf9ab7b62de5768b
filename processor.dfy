/** The lc4 `Processor`: a register bank of `u8` values, a register
    pointer, an accumulating comparison flag and a run state, updated in
    place one symbol at a time. */
module Lc4 {
  import opened Semantics
  import opened Rendering

  class Processor {
    var registerPointer: nat
    var flagEqual: bool
    var registers: seq<U8>
    var state: ProcessorState

    /** The processor's fields as one value. */
    function Snapshot(): Machine
      reads this
    {
      Machine(registerPointer, flagEqual, registers, state)
    }

    /** `Processor::new`. */
    constructor (registerCount: nat)
      ensures Snapshot() == Init(registerCount)
      ensures |registers| == registerCount
      ensures forall i :: 0 <= i < registerCount ==> registers[i] == 0
      ensures registerPointer == 0 && flagEqual && state == Ok
    {
      registerPointer := 0;
      flagEqual := true;
      registers := seq(registerCount, _ => 0);
      state := Ok;
    }

    /** `get_state`: a copy of the run state; reading it changes nothing. */
    function GetState(): (s: ProcessorState)
      reads this
      ensures s == Snapshot().state
    {
      state
    }

    /** `register_values_to_string`: each value followed by a comma except
        the last, the whole between brackets. */
    method RegisterValuesToString() returns (s: string)
      ensures s == Render(registers)
    {
      var values := registers;
      var buf := "";
      var i := 0;
      while i < |values|
        invariant 0 <= i <= |values|
        invariant buf + Join(values[i..]) == Join(values)
      {
        JoinFrom(values, i);
        buf := buf + DecimalString(values[i] as nat) + (if i < |values| - 1 then "," else "");
        i := i + 1;
      }
      s := "[" + buf + "]";
    }

    /** `execute_symbol`: the new fields are `Step` of the old ones. */
    method ExecuteSymbol(symbol: char)
      requires CanExecute(Snapshot(), symbol)
      modifies this
      ensures Snapshot() == Step(old(Snapshot()), symbol)
    {
      match symbol
      case '-' | ' ' =>
      case '>' | '[' | ']' => registerPointer := 0;
      case ',' => registerPointer := registerPointer + 1;
      case '0' => registers := registers[registerPointer := 0];
      case '1' => registers := registers[registerPointer := 1];
      case '+' =>
        registers := registers[registerPointer := if registers[registerPointer] == 0 then 1 else 0];
      case '&' =>
        flagEqual := flagEqual && registers[registerPointer] == 1;
      case '=' =>
        registers := registers[registerPointer := if flagEqual then 1 else 0];
        flagEqual := true;
      case '!' =>
        if registers[registerPointer] == 1 {
          state := Halt;
        } else {
          state := Ok;
        }
      case _ =>
        state := Err(InvalidSymbolMessage(symbol));
    }
  }

  /** The loop of the tests and of the driver: every character of `line`,
      left to right, through `execute_symbol`. */
  method ExecuteLine(p: Processor, line: string)
    requires InBounds(p.Snapshot(), line)
    modifies p
    ensures p.Snapshot() == Run(old(p.Snapshot()), line)
  {
    for i := 0 to |line|
      invariant InBoundsFrom(p.Snapshot(), line, i)
      invariant RunFrom(p.Snapshot(), line, i) == Run(old(p.Snapshot()), line)
    {
      p.ExecuteSymbol(line[i]);
    }
  }
}
