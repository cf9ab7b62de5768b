/** What each symbol does to a processor, stated arm by arm against the
    value semantics, and what holds across a whole line of symbols. */
module Properties {
  import opened Semantics

  /** `r` differs from `m` at most in the register under `m`'s pointer. */
  predicate OnlyAddressedRegisterChanged(m: Machine, r: Machine)
    requires m.pointer < |m.registers|
  {
    r.pointer == m.pointer && r.flag == m.flag && r.state == m.state &&
    |r.registers| == |m.registers| &&
    forall i :: 0 <= i < |m.registers| && i != m.pointer ==> r.registers[i] == m.registers[i]
  }

  /** `new(n)` holds only bits. */
  lemma InitBits(registerCount: nat)
    ensures AllBits(Init(registerCount).registers)
  {
  }

  /** No symbol writes anything but 0 or 1, so a bank of bits stays one. */
  lemma StepKeepsBits(m: Machine, c: char)
    requires CanExecute(m, c) && AllBits(m.registers)
    ensures AllBits(Step(m, c).registers)
  {
  }

  /** Executing the symbol at position `i` and then the rest of the line
      is executing the line from `i`. */
  lemma RunFromStep(m: Machine, line: string, i: nat)
    requires i < |line| && CanExecute(m, line[i])
    ensures InBoundsFrom(m, line, i) <==> InBoundsFrom(Step(m, line[i]), line, i + 1)
    ensures InBoundsFrom(m, line, i) ==> RunFrom(m, line, i) == RunFrom(Step(m, line[i]), line, i + 1)
  {
  }

  /** The bank stays a bank of bits across the rest of a line. */
  lemma {:induction false} RunFromKeepsBits(m: Machine, line: string, i: nat)
    requires i <= |line| && InBoundsFrom(m, line, i) && AllBits(m.registers)
    ensures AllBits(RunFrom(m, line, i).registers)
    decreases |line| - i
  {
    if i < |line| {
      StepKeepsBits(m, line[i]);
      RunFromKeepsBits(Step(m, line[i]), line, i + 1);
    }
  }

  /** The bank stays a bank of bits across a whole line. */
  lemma RunKeepsBits(m: Machine, line: string)
    requires InBounds(m, line) && AllBits(m.registers)
    ensures AllBits(Run(m, line).registers)
  {
    RunFromKeepsBits(m, line, 0);
  }

  /** Where a line starts inside a longer one makes no difference. */
  lemma {:induction false} RunFromShift(m: Machine, s: string, t: string, j: nat)
    requires j <= |t|
    ensures InBoundsFrom(m, s + t, |s| + j) <==> InBoundsFrom(m, t, j)
    ensures InBoundsFrom(m, t, j) ==> RunFrom(m, s + t, |s| + j) == RunFrom(m, t, j)
    decreases |t| - j
  {
    if j < |t| {
      assert (s + t)[|s| + j] == t[j];
      if CanExecute(m, t[j]) {
        RunFromShift(Step(m, t[j]), s, t, j + 1);
      }
    }
  }

  /** Executing `s` from position `i` and then `t` is executing `s + t`
      from position `i`. */
  lemma {:induction false} RunFromAppend(m: Machine, s: string, t: string, i: nat)
    requires i <= |s|
    ensures InBoundsFrom(m, s + t, i) <==> InBoundsFrom(m, s, i) && InBoundsFrom(RunFrom(m, s, i), t, 0)
    ensures InBoundsFrom(m, s + t, i) ==> RunFrom(m, s + t, i) == RunFrom(RunFrom(m, s, i), t, 0)
    decreases |s| - i
  {
    if i == |s| {
      RunFromShift(m, s, t, 0);
    } else {
      assert (s + t)[i] == s[i];
      if CanExecute(m, s[i]) {
        RunFromAppend(Step(m, s[i]), s, t, i + 1);
      }
    }
  }

  /** Running two lines one after the other, as the driver does, is running
      their concatenation, and the concatenation stays in bounds exactly
      when both parts do: where one line ends and the next begins makes no
      difference. */
  lemma RunAppend(m: Machine, s: string, t: string)
    ensures InBounds(m, s + t) <==> InBounds(m, s) && InBounds(Run(m, s), t)
    ensures InBounds(m, s + t) ==> Run(m, s + t) == Run(Run(m, s), t)
  {
    RunFromAppend(m, s, t, 0);
  }

  /** `-` and space change nothing. */
  lemma NoOp(m: Machine, c: char)
    requires c == '-' || c == ' '
    ensures Step(m, c) == m
  {
  }

  /** `>`, `[` and `]` move the pointer back to the first register and
      change nothing else. */
  lemma ResetPointer(m: Machine, c: char)
    requires c == '>' || c == '[' || c == ']'
    ensures Step(m, c).pointer == 0
    ensures Step(m, c) == m.(pointer := 0)
  {
  }

  /** `,` advances the pointer by exactly one and changes nothing else. */
  lemma NextRegister(m: Machine)
    ensures Step(m, ',').pointer == m.pointer + 1
    ensures Step(m, ',') == m.(pointer := m.pointer + 1)
  {
  }

  /** `0` and `1` write that bit into the addressed register and nothing
      else. */
  lemma SetRegister(m: Machine, c: char)
    requires c == '0' || c == '1'
    requires m.pointer < |m.registers|
    ensures Step(m, c).registers[m.pointer] == if c == '0' then 0 else 1
    ensures OnlyAddressedRegisterChanged(m, Step(m, c))
  {
  }

  /** `+` turns a 0 into a 1 and anything else into a 0, in the addressed
      register only; on a bit it is the complement. */
  lemma Invert(m: Machine)
    requires m.pointer < |m.registers|
    ensures Step(m, '+').registers[m.pointer] == if m.registers[m.pointer] == 0 then 1 else 0
    ensures m.registers[m.pointer] <= 1 ==>
              Step(m, '+').registers[m.pointer] == 1 - m.registers[m.pointer]
    ensures OnlyAddressedRegisterChanged(m, Step(m, '+'))
  {
  }

  /** `+` is its own inverse on a bit register.  On a register that holds
      neither 0 nor 1 it is not: two inversions leave a 1. */
  lemma InvertTwice(m: Machine)
    requires m.pointer < |m.registers|
    ensures Step(Step(m, '+'), '+') == m <==> m.registers[m.pointer] <= 1
  {
    var r := Step(Step(m, '+'), '+');
    if m.registers[m.pointer] <= 1 {
      assert r.registers == m.registers;
    } else {
      assert r.registers[m.pointer] != m.registers[m.pointer];
    }
  }

  /** `&` conjoins "the addressed register is 1" into the flag, so the flag
      can only go from true to false; nothing else changes.  The register is
      read only when the flag is set. */
  lemma Conjoin(m: Machine)
    requires m.flag ==> m.pointer < |m.registers|
    ensures Step(m, '&').flag <==> m.flag && m.registers[m.pointer] == 1
    ensures Step(m, '&').flag ==> m.flag
    ensures Step(m, '&') == m.(flag := Step(m, '&').flag)
  {
  }

  /** With the flag cleared, `&` can run with the pointer anywhere, even
      past the bank, and changes nothing. */
  lemma ConjoinShortCircuit(m: Machine)
    requires !m.flag
    ensures CanExecute(m, '&')
    ensures Step(m, '&') == m
  {
  }

  /** Only `=` can set the flag: across a stretch of a line without `=`
      the flag never goes from false to true. */
  lemma {:induction false} FlagNarrowsFrom(m: Machine, line: string, i: nat)
    requires i <= |line| && InBoundsFrom(m, line, i)
    requires forall j :: i <= j < |line| ==> line[j] != '='
    ensures RunFrom(m, line, i).flag ==> m.flag
    decreases |line| - i
  {
    if i < |line| {
      FlagNarrowsFrom(Step(m, line[i]), line, i + 1);
    }
  }

  /** Across a line without `=`, the flag ends true only if it started
      true. */
  lemma FlagNarrowsUntilEquals(m: Machine, line: string)
    requires InBounds(m, line)
    requires '=' !in line
    ensures Run(m, line).flag ==> m.flag
  {
    FlagNarrowsFrom(m, line, 0);
  }

  /** `=` writes 1 into the addressed register when the flag is set and 0
      otherwise, then sets the flag again; nothing else changes. */
  lemma Consume(m: Machine)
    requires m.pointer < |m.registers|
    ensures Step(m, '=').registers[m.pointer] == if m.flag then 1 else 0
    ensures Step(m, '=').flag
    ensures Step(m, '=').pointer == m.pointer && Step(m, '=').state == m.state
    ensures forall i :: 0 <= i < |m.registers| && i != m.pointer ==>
              Step(m, '=').registers[i] == m.registers[i]
  {
  }

  /** `!` sets the state to Halt when the addressed register is 1 and to
      Ok otherwise, whatever the state was before; nothing else changes. */
  lemma CheckHalt(m: Machine)
    requires m.pointer < |m.registers|
    ensures Step(m, '!').state == Halt <==> m.registers[m.pointer] == 1
    ensures Step(m, '!').state == Ok <==> m.registers[m.pointer] != 1
    ensures Step(m, '!') == m.(state := Step(m, '!').state)
  {
  }

  /** Repeating `!` gives the state the first `!` gave. */
  lemma CheckHaltIdempotent(m: Machine)
    requires m.pointer < |m.registers|
    ensures Step(Step(m, '!'), '!') == Step(m, '!')
  {
  }

  /** The state `!` leads to depends only on the addressed register. */
  lemma CheckHaltDeterministic(m: Machine, n: Machine)
    requires m.pointer < |m.registers| && n.pointer < |n.registers|
    requires m.registers[m.pointer] == n.registers[n.pointer]
    ensures Step(m, '!').state == Step(n, '!').state
  {
  }

  /** A symbol outside the alphabet records an error that names it and
      changes nothing else. */
  lemma InvalidSymbol(m: Machine, c: char)
    requires !InAlphabet(c)
    ensures Step(m, c).state == Err("invalid symbol \"" + [c] + "\"")
    ensures Step(m, c) == m.(state := Step(m, c).state)
  {
  }

  /** The run-state machine: `!` decides between Halt and Ok, an unknown
      symbol gives Err, and every other symbol leaves the state as it was,
      so neither Err nor Halt ends processing. */
  lemma StateTransition(m: Machine, c: char)
    requires CanExecute(m, c)
    ensures Step(m, c).state ==
              if c == '!' then (if m.registers[m.pointer] == 1 then Halt else Ok)
              else if !InAlphabet(c) then Err(InvalidSymbolMessage(c))
              else m.state
  {
  }

  /** Symbols other than `,` never move the pointer forward. */
  lemma PointerMoves(m: Machine, c: char)
    requires CanExecute(m, c)
    ensures Step(m, c).pointer ==
              if c == ',' then m.pointer + 1
              else if c == '>' || c == '[' || c == ']' then 0
              else m.pointer
  {
  }
}
