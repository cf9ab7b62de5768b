/** The unit tests that construct, set, invert and leave registers alone,
    restated as lemmas about the value semantics: each starts from `new(n)`,
    feeds one line and states the register dump the test expects. */
module RegisterTests {
  import opened Semantics
  import opened Rendering
  import opened Groups

  /** `create_processor_with_4_registers`. */
  lemma CreateProcessorWith4Registers()
    ensures Render(Init(4).registers) == "[0,0,0,0]"
  {
    assert Init(4).registers == [0, 0, 0, 0];
    RenderBits([0, 0, 0, 0]);
  }

  /** `create_processor_with_5_registers`. */
  lemma CreateProcessorWith5Registers()
    ensures Render(Init(5).registers) == "[0,0,0,0,0]"
  {
    assert Init(5).registers == [0, 0, 0, 0, 0];
    RenderBits([0, 0, 0, 0, 0]);
  }

  /** `create_processor_with_6_registers`. */
  lemma CreateProcessorWith6Registers()
    ensures Render(Init(6).registers) == "[0,0,0,0,0,0]"
  {
    assert Init(6).registers == [0, 0, 0, 0, 0, 0];
    RenderBits([0, 0, 0, 0, 0, 0]);
  }

  /** `invert_all`. */
  lemma InvertAll(m: Machine)
    requires m == Init(4)
    ensures InBounds(m, "[+,+,+,+]")
    ensures Render(Run(m, "[+,+,+,+]").registers) == "[1,1,1,1]"
  {
    RunOneGroup(m, "[+,+,+,+]", Machine(0, true, [1, 1, 1, 1], Ok));
    RenderFourBits([1, 1, 1, 1]);
  }

  /** `invert_first`. */
  lemma InvertFirst(m: Machine)
    requires m == Init(4)
    ensures InBounds(m, "[+,-,-,-]")
    ensures Render(Run(m, "[+,-,-,-]").registers) == "[1,0,0,0]"
  {
    RunOneGroup(m, "[+,-,-,-]", Machine(0, true, [1, 0, 0, 0], Ok));
    RenderFourBits([1, 0, 0, 0]);
  }

  /** `invert_second`. */
  lemma InvertSecond(m: Machine)
    requires m == Init(4)
    ensures InBounds(m, "[-,+,-,-]")
    ensures Render(Run(m, "[-,+,-,-]").registers) == "[0,1,0,0]"
  {
    RunOneGroup(m, "[-,+,-,-]", Machine(0, true, [0, 1, 0, 0], Ok));
    RenderFourBits([0, 1, 0, 0]);
  }

  /** `invert_third`. */
  lemma InvertThird(m: Machine)
    requires m == Init(4)
    ensures InBounds(m, "[-,-,+,-]")
    ensures Render(Run(m, "[-,-,+,-]").registers) == "[0,0,1,0]"
  {
    RunOneGroup(m, "[-,-,+,-]", Machine(0, true, [0, 0, 1, 0], Ok));
    RenderFourBits([0, 0, 1, 0]);
  }

  /** `invert_fourth`. */
  lemma InvertFourth(m: Machine)
    requires m == Init(4)
    ensures InBounds(m, "[-,-,-,+]")
    ensures Render(Run(m, "[-,-,-,+]").registers) == "[0,0,0,1]"
  {
    RunOneGroup(m, "[-,-,-,+]", Machine(0, true, [0, 0, 0, 1], Ok));
    RenderFourBits([0, 0, 0, 1]);
  }

  /** `invert_first_pair`. */
  lemma InvertFirstPair(m: Machine)
    requires m == Init(4)
    ensures InBounds(m, "[+,-,+,-]")
    ensures Render(Run(m, "[+,-,+,-]").registers) == "[1,0,1,0]"
  {
    RunOneGroup(m, "[+,-,+,-]", Machine(0, true, [1, 0, 1, 0], Ok));
    RenderFourBits([1, 0, 1, 0]);
  }

  /** `invert_second_pair`. */
  lemma InvertSecondPair(m: Machine)
    requires m == Init(4)
    ensures InBounds(m, "[-,+,-,+]")
    ensures Render(Run(m, "[-,+,-,+]").registers) == "[0,1,0,1]"
  {
    RunOneGroup(m, "[-,+,-,+]", Machine(0, true, [0, 1, 0, 1], Ok));
    RenderFourBits([0, 1, 0, 1]);
  }

  /** `invert_revert_first_pair`. */
  lemma InvertRevertFirstPair(m: Machine)
    requires m == Init(4)
    ensures InBounds(m, "[1,1,1,1] > [+,-,+,-]")
    ensures Render(Run(m, "[1,1,1,1] > [+,-,+,-]").registers) == "[0,1,0,1]"
  {
    RunTwoGroups(m, "[1,1,1,1] > [+,-,+,-]", Machine(0, true, [1, 1, 1, 1], Ok), Machine(0, true, [0, 1, 0, 1], Ok));
    RenderFourBits([0, 1, 0, 1]);
  }

  /** `invert_revert_second_pair`. */
  lemma InvertRevertSecondPair(m: Machine)
    requires m == Init(4)
    ensures InBounds(m, "[1,1,1,1] > [-,+,-,+]")
    ensures Render(Run(m, "[1,1,1,1] > [-,+,-,+]").registers) == "[1,0,1,0]"
  {
    RunTwoGroups(m, "[1,1,1,1] > [-,+,-,+]", Machine(0, true, [1, 1, 1, 1], Ok), Machine(0, true, [1, 0, 1, 0], Ok));
    RenderFourBits([1, 0, 1, 0]);
  }

  /** `set_first_literal`. */
  lemma SetFirstLiteral(m: Machine)
    requires m == Init(4)
    ensures InBounds(m, "[1,-,-,-]")
    ensures Render(Run(m, "[1,-,-,-]").registers) == "[1,0,0,0]"
  {
    RunOneGroup(m, "[1,-,-,-]", Machine(0, true, [1, 0, 0, 0], Ok));
    RenderFourBits([1, 0, 0, 0]);
  }

  /** `set_second_literal`. */
  lemma SetSecondLiteral(m: Machine)
    requires m == Init(4)
    ensures InBounds(m, "[-,1,-,-]")
    ensures Render(Run(m, "[-,1,-,-]").registers) == "[0,1,0,0]"
  {
    RunOneGroup(m, "[-,1,-,-]", Machine(0, true, [0, 1, 0, 0], Ok));
    RenderFourBits([0, 1, 0, 0]);
  }

  /** `set_third_literal`. */
  lemma SetThirdLiteral(m: Machine)
    requires m == Init(4)
    ensures InBounds(m, "[-,-,1,-]")
    ensures Render(Run(m, "[-,-,1,-]").registers) == "[0,0,1,0]"
  {
    RunOneGroup(m, "[-,-,1,-]", Machine(0, true, [0, 0, 1, 0], Ok));
    RenderFourBits([0, 0, 1, 0]);
  }

  /** `set_fourth_literal`. */
  lemma SetFourthLiteral(m: Machine)
    requires m == Init(4)
    ensures InBounds(m, "[-,-,-,1]")
    ensures Render(Run(m, "[-,-,-,1]").registers) == "[0,0,0,1]"
  {
    RunOneGroup(m, "[-,-,-,1]", Machine(0, true, [0, 0, 0, 1], Ok));
    RenderFourBits([0, 0, 0, 1]);
  }

  /** `set_first_literal_inverted`. */
  lemma SetFirstLiteralInverted(m: Machine)
    requires m == Init(4)
    ensures InBounds(m, "[1,1,1,1] > [0,-,-,-]")
    ensures Render(Run(m, "[1,1,1,1] > [0,-,-,-]").registers) == "[0,1,1,1]"
  {
    RunTwoGroups(m, "[1,1,1,1] > [0,-,-,-]", Machine(0, true, [1, 1, 1, 1], Ok), Machine(0, true, [0, 1, 1, 1], Ok));
    RenderFourBits([0, 1, 1, 1]);
  }

  /** `set_second_literal_inverted`. */
  lemma SetSecondLiteralInverted(m: Machine)
    requires m == Init(4)
    ensures InBounds(m, "[1,1,1,1] > [-,0,-,-]")
    ensures Render(Run(m, "[1,1,1,1] > [-,0,-,-]").registers) == "[1,0,1,1]"
  {
    RunTwoGroups(m, "[1,1,1,1] > [-,0,-,-]", Machine(0, true, [1, 1, 1, 1], Ok), Machine(0, true, [1, 0, 1, 1], Ok));
    RenderFourBits([1, 0, 1, 1]);
  }

  /** `set_third_literal_inverted`. */
  lemma SetThirdLiteralInverted(m: Machine)
    requires m == Init(4)
    ensures InBounds(m, "[1,1,1,1] > [-,-,0,-]")
    ensures Render(Run(m, "[1,1,1,1] > [-,-,0,-]").registers) == "[1,1,0,1]"
  {
    RunTwoGroups(m, "[1,1,1,1] > [-,-,0,-]", Machine(0, true, [1, 1, 1, 1], Ok), Machine(0, true, [1, 1, 0, 1], Ok));
    RenderFourBits([1, 1, 0, 1]);
  }

  /** `set_fourth_literal_inverted`. */
  lemma SetFourthLiteralInverted(m: Machine)
    requires m == Init(4)
    ensures InBounds(m, "[1,1,1,1] > [-,-,-,0]")
    ensures Render(Run(m, "[1,1,1,1] > [-,-,-,0]").registers) == "[1,1,1,0]"
  {
    RunTwoGroups(m, "[1,1,1,1] > [-,-,-,0]", Machine(0, true, [1, 1, 1, 1], Ok), Machine(0, true, [1, 1, 1, 0], Ok));
    RenderFourBits([1, 1, 1, 0]);
  }

  /** `set_literal_all`. */
  lemma SetLiteralAll(m: Machine)
    requires m == Init(4)
    ensures InBounds(m, "[1,1,1,1]")
    ensures Render(Run(m, "[1,1,1,1]").registers) == "[1,1,1,1]"
  {
    RunOneGroup(m, "[1,1,1,1]", Machine(0, true, [1, 1, 1, 1], Ok));
    RenderFourBits([1, 1, 1, 1]);
  }

  /** `set_literal_all_inverted`. */
  lemma SetLiteralAllInverted(m: Machine)
    requires m == Init(4)
    ensures InBounds(m, "[1,1,1,1] > [0,0,0,0]")
    ensures Render(Run(m, "[1,1,1,1] > [0,0,0,0]").registers) == "[0,0,0,0]"
  {
    RunTwoGroups(m, "[1,1,1,1] > [0,0,0,0]", Machine(0, true, [1, 1, 1, 1], Ok), Machine(0, true, [0, 0, 0, 0], Ok));
    RenderFourBits([0, 0, 0, 0]);
  }

  /** `no_op_all`. */
  lemma NoOpAll(m: Machine)
    requires m == Init(4)
    ensures InBounds(m, "[-,-,-,-]")
    ensures Render(Run(m, "[-,-,-,-]").registers) == "[0,0,0,0]"
  {
    RunOneGroup(m, "[-,-,-,-]", Machine(0, true, [0, 0, 0, 0], Ok));
    RenderFourBits([0, 0, 0, 0]);
  }

  /** `no_op_all_inverted`. */
  lemma NoOpAllInverted(m: Machine)
    requires m == Init(4)
    ensures InBounds(m, "[1,1,1,1] > [-,-,-,-]")
    ensures Render(Run(m, "[1,1,1,1] > [-,-,-,-]").registers) == "[1,1,1,1]"
  {
    RunTwoGroups(m, "[1,1,1,1] > [-,-,-,-]", Machine(0, true, [1, 1, 1, 1], Ok), Machine(0, true, [1, 1, 1, 1], Ok));
    RenderFourBits([1, 1, 1, 1]);
  }
}
