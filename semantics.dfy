/** Value semantics of the lc4 symbol processor: every field of a processor
    gathered into one value, and the effect of one symbol, or of a line of
    symbols, on that value.  The class `Lc4.Processor` is proved against
    these functions. */
module Semantics {

  /** Rust's `u8`, the element type of the register bank (`Vec<u8>`). */
  newtype U8 = x: int | 0 <= x < 0x100

  /** The run state that `get_state` reports. */
  datatype ProcessorState = Ok | Err(message: string) | Halt

  /** A snapshot of the four fields of a processor.  The pointer is a
      `usize` in the source; here it is unbounded (see README). */
  datatype Machine = Machine(pointer: nat, flag: bool, registers: seq<U8>, state: ProcessorState)

  /** The symbols that index the register bank at the pointer. */
  predicate Addresses(c: char) {
    c == '0' || c == '1' || c == '+' || c == '&' || c == '=' || c == '!'
  }

  /** The symbols `execute_symbol` recognises; every other character
      puts the processor into the error state. */
  predicate InAlphabet(c: char) {
    c == '-' || c == ' ' || c == '>' || c == '[' || c == ']' || c == ',' || Addresses(c)
  }

  /** The source indexes `registers[register_pointer]` without a check and
      panics when it is out of range; executing an addressing symbol there
      is a caller error, so it is excluded here.  The one exception is `&`
      with the flag cleared: the conjunction short-circuits before the
      register is read, so it runs at any pointer. */
  predicate CanExecute(m: Machine, c: char) {
    Addresses(c) && !(c == '&' && !m.flag) ==> m.pointer < |m.registers|
  }

  /** Every register holds 0 or 1. */
  predicate AllBits(registers: seq<U8>) {
    forall i :: 0 <= i < |registers| ==> registers[i] == 0 || registers[i] == 1
  }

  /** The message of the error state: `invalid symbol "c"`. */
  function InvalidSymbolMessage(c: char): (s: string)
    ensures |s| == 18 && s[..16] == "invalid symbol \"" && s[16] == c && s[17] == '"'
  {
    "invalid symbol \"" + [c] + "\""
  }

  /** `Processor::new`: `registerCount` zero registers, pointer 0,
      flag set, state Ok. */
  function Init(registerCount: nat): (m: Machine)
    ensures |m.registers| == registerCount
    ensures forall i :: 0 <= i < registerCount ==> m.registers[i] == 0
    ensures m.pointer == 0 && m.flag && m.state == Ok
  {
    Machine(0, true, seq(registerCount, _ => 0), Ok)
  }

  /** `execute_symbol`: the effect of one symbol. */
  function Step(m: Machine, c: char): (r: Machine)
    requires CanExecute(m, c)
    ensures |r.registers| == |m.registers|
  {
    match c
    case '-' | ' ' => m
    case '>' | '[' | ']' => m.(pointer := 0)
    case ',' => m.(pointer := m.pointer + 1)
    case '0' => m.(registers := m.registers[m.pointer := 0])
    case '1' => m.(registers := m.registers[m.pointer := 1])
    case '+' => m.(registers := m.registers[m.pointer := if m.registers[m.pointer] == 0 then 1 else 0])
    case '&' => m.(flag := m.flag && m.registers[m.pointer] == 1)
    case '=' => m.(registers := m.registers[m.pointer := if m.flag then 1 else 0], flag := true)
    case '!' => m.(state := if m.registers[m.pointer] == 1 then Halt else Ok)
    case _ => m.(state := Err(InvalidSymbolMessage(c)))
  }

  /** Every symbol of `line` from position `i` on, executed left to right
      from `m`, stays within the register bank. */
  predicate InBoundsFrom(m: Machine, line: string, i: nat)
    requires i <= |line|
    decreases |line| - i
  {
    i == |line| || (CanExecute(m, line[i]) && InBoundsFrom(Step(m, line[i]), line, i + 1))
  }

  /** The state after feeding the characters of `line` from position `i`
      on to `execute_symbol`, in order. */
  function RunFrom(m: Machine, line: string, i: nat): (r: Machine)
    requires i <= |line| && InBoundsFrom(m, line, i)
    ensures |r.registers| == |m.registers|
    decreases |line| - i
  {
    if i == |line| then m else RunFrom(Step(m, line[i]), line, i + 1)
  }

  /** No symbol of `line` indexes past the register bank. */
  predicate InBounds(m: Machine, line: string) {
    InBoundsFrom(m, line, 0)
  }

  /** The state after feeding every character of `line` to `execute_symbol`
      in order, as the tests and the driver loop do. */
  function Run(m: Machine, line: string): (r: Machine)
    requires InBounds(m, line)
    ensures |r.registers| == |m.registers|
  {
    RunFrom(m, line, 0)
  }
}
