/** Instruction groups.  Lines are written as bracketed groups such as
    `[1,0,1,0]`, separated by ` > `: the bracket moves the pointer to the
    first register and each comma to the next one, so the k-th operand of a
    group acts on register k.  These lemmas state that for a bank of four
    registers, the size the tests use. */
module Groups {
  import opened Semantics
  import opened Properties

  /** A symbol that leaves the pointer where it is. */
  predicate KeepsPointer(c: char) {
    c != ',' && c != '>' && c != '[' && c != ']'
  }

  /** Symbol `c` executed with the pointer at register `k`. */
  function ApplyAt(m: Machine, k: nat, c: char): (r: Machine)
    requires k < |m.registers|
    ensures |r.registers| == |m.registers|
    ensures KeepsPointer(c) ==> r.pointer == k
  {
    Step(m.(pointer := k), c)
  }

  /** `line` holds a group `[a,b,c,d]` at position `i` whose operands do
      not move the pointer. */
  predicate IsGroupAt(line: string, i: nat) {
    i + 9 <= |line| &&
    line[i] == '[' && line[i + 2] == ',' && line[i + 4] == ',' && line[i + 6] == ',' && line[i + 8] == ']' &&
    KeepsPointer(line[i + 1]) && KeepsPointer(line[i + 3]) &&
    KeepsPointer(line[i + 5]) && KeepsPointer(line[i + 7])
  }

  /** The group at position `i`: operand k applied to register k, in order,
      and the pointer back at the first register. */
  function GroupEffect(m: Machine, line: string, i: nat): (r: Machine)
    requires IsGroupAt(line, i) && |m.registers| == 4
    ensures |r.registers| == 4 && r.pointer == 0
  {
    ApplyAt(ApplyAt(ApplyAt(ApplyAt(m, 0, line[i + 1]), 1, line[i + 3]), 2, line[i + 5]), 3, line[i + 7]).(pointer := 0)
  }

  /** One operand at register `k` followed by the symbol `next`, which
      `,` moves to register `k + 1` and `]` back to the first one. */
  lemma RunOperandAt(m: Machine, line: string, i: nat, k: nat)
    requires i + 1 < |line| && k < |m.registers| && m.pointer == k
    requires KeepsPointer(line[i]) && (line[i + 1] == ',' || line[i + 1] == ']')
    ensures var r := ApplyAt(m, k, line[i]).(pointer := if line[i + 1] == ',' then k + 1 else 0);
            InBoundsFrom(r, line, i + 2) ==>
              InBoundsFrom(m, line, i) && RunFrom(m, line, i) == RunFrom(r, line, i + 2)
  {
    assert m.(pointer := k) == m;
    RunFromStep(m, line, i);
    RunFromStep(Step(m, line[i]), line, i + 1);
  }

  /** Executing a group is applying its operands to the registers one by
      one, and it stays within the bank. */
  lemma RunGroupAt(m: Machine, line: string, i: nat)
    requires IsGroupAt(line, i) && |m.registers| == 4
    ensures InBoundsFrom(GroupEffect(m, line, i), line, i + 9) ==>
              InBoundsFrom(m, line, i) && RunFrom(m, line, i) == RunFrom(GroupEffect(m, line, i), line, i + 9)
  {
    var m0 := Step(m, '[');
    var m1 := ApplyAt(m0, 0, line[i + 1]).(pointer := 1);
    var m2 := ApplyAt(m1, 1, line[i + 3]).(pointer := 2);
    var m3 := ApplyAt(m2, 2, line[i + 5]).(pointer := 3);
    assert m0.(pointer := 0) == m.(pointer := 0);
    RunOperandAt(m3, line, i + 7, 3);
    RunOperandAt(m2, line, i + 5, 2);
    RunOperandAt(m1, line, i + 3, 1);
    RunOperandAt(m0, line, i + 1, 0);
    RunFromStep(m, line, i);
  }

  /** ` > ` between two groups only moves the pointer to the first
      register. */
  lemma RunSeparatorAt(m: Machine, line: string, i: nat)
    requires i + 3 <= |line| && line[i] == ' ' && line[i + 1] == '>' && line[i + 2] == ' '
    ensures InBoundsFrom(m.(pointer := 0), line, i + 3) ==>
              InBoundsFrom(m, line, i) && RunFrom(m, line, i) == RunFrom(m.(pointer := 0), line, i + 3)
  {
    RunFromStep(m.(pointer := 0), line, i + 2);
    RunFromStep(m, line, i + 1);
    RunFromStep(m, line, i);
  }

  /** A line made of one group, whose effect is `g`. */
  lemma RunOneGroup(m: Machine, line: string, g: Machine)
    requires |line| == 9 && IsGroupAt(line, 0) && |m.registers| == 4
    requires g == GroupEffect(m, line, 0)
    ensures InBounds(m, line) && Run(m, line) == g
  {
    RunGroupAt(m, line, 0);
  }

  /** A line `G > H` of two groups, whose effects are `g` and then `h`. */
  lemma RunTwoGroups(m: Machine, line: string, g: Machine, h: Machine)
    requires |line| == 21 && IsGroupAt(line, 0) && IsGroupAt(line, 12) && |m.registers| == 4
    requires line[9] == ' ' && line[10] == '>' && line[11] == ' '
    requires g == GroupEffect(m, line, 0) && h == GroupEffect(g, line, 12)
    ensures InBounds(m, line) && Run(m, line) == h
  {
    RunGroupAt(g, line, 12);
    assert g.(pointer := 0) == g;
    RunSeparatorAt(g, line, 9);
    RunGroupAt(m, line, 0);
  }

  /** A line `G > H > K` of three groups, whose effects are `g`, `h` and
      then `k`. */
  lemma RunThreeGroups(m: Machine, line: string, g: Machine, h: Machine, k: Machine)
    requires |line| == 33 && IsGroupAt(line, 0) && IsGroupAt(line, 12) && IsGroupAt(line, 24)
    requires |m.registers| == 4
    requires line[9] == ' ' && line[10] == '>' && line[11] == ' '
    requires line[21] == ' ' && line[22] == '>' && line[23] == ' '
    requires g == GroupEffect(m, line, 0) && h == GroupEffect(g, line, 12) && k == GroupEffect(h, line, 24)
    ensures InBounds(m, line) && Run(m, line) == k
  {
    RunGroupAt(h, line, 24);
    assert h.(pointer := 0) == h;
    RunSeparatorAt(h, line, 21);
    RunGroupAt(g, line, 12);
    assert g.(pointer := 0) == g;
    RunSeparatorAt(g, line, 9);
    RunGroupAt(m, line, 0);
  }
}
