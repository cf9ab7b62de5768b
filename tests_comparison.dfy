/** The unit tests of the comparison flag (`&` then `=`), restated as
    lemmas: each starts from `new(4)`, feeds one line and states the register
    dump the test expects. */
module ComparisonTests {
  import opened Semantics
  import opened Rendering
  import opened Properties
  import opened Groups

  /** `comparison_first_set`. */
  lemma ComparisonFirstSet(m: Machine)
    requires m == Init(4)
    ensures InBounds(m, "[1,0,1,0] > [&,-,&,-] > [-,-,-,=]")
    ensures Render(Run(m, "[1,0,1,0] > [&,-,&,-] > [-,-,-,=]").registers) == "[1,0,1,1]"
  {
    RunThreeGroups(m, "[1,0,1,0] > [&,-,&,-] > [-,-,-,=]", Machine(0, true, [1, 0, 1, 0], Ok), Machine(0, true, [1, 0, 1, 0], Ok), Machine(0, true, [1, 0, 1, 1], Ok));
    RenderFourBits([1, 0, 1, 1]);
  }

  /** `comparison_second_set`. */
  lemma ComparisonSecondSet(m: Machine)
    requires m == Init(4)
    ensures InBounds(m, "[0,1,0,1] > [-,&,-,&] > [=,-,-,-]")
    ensures Render(Run(m, "[0,1,0,1] > [-,&,-,&] > [=,-,-,-]").registers) == "[1,1,0,1]"
  {
    RunThreeGroups(m, "[0,1,0,1] > [-,&,-,&] > [=,-,-,-]", Machine(0, true, [0, 1, 0, 1], Ok), Machine(0, true, [0, 1, 0, 1], Ok), Machine(0, true, [1, 1, 0, 1], Ok));
    RenderFourBits([1, 1, 0, 1]);
  }

  /** Not one of the unit tests: once `&` has cleared the flag, a further
      `&` runs even with the pointer past the bank, because the register is
      not read. */
  lemma ConjoinPastBank(m: Machine)
    requires m == Init(4)
    ensures InBounds(m, "[&,,,,&")
    ensures Run(m, "[&,,,,&") == Machine(4, false, [0, 0, 0, 0], Ok)
  {
    var line := "[&,,,,&";
    var m1 := m.(flag := false);
    RunFromStep(m1.(pointer := 4), line, 6);
    RunFromStep(m1.(pointer := 3), line, 5);
    RunFromStep(m1.(pointer := 2), line, 4);
    RunFromStep(m1.(pointer := 1), line, 3);
    RunFromStep(m1, line, 2);
    RunFromStep(m, line, 1);
    RunFromStep(m, line, 0);
  }
}
