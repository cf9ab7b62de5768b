/** The unit tests of `!`, restated as lemmas: each starts from `new(4)`,
    feeds one line and states the run state the test expects. */
module HaltTests {
  import opened Semantics
  import opened Groups

  /** `halt_on_first`. */
  lemma HaltOnFirst(m: Machine)
    requires m == Init(4)
    ensures InBounds(m, "[1,0,0,0] > [!,-,-,-]")
    ensures Run(m, "[1,0,0,0] > [!,-,-,-]").state == Halt
  {
    RunTwoGroups(m, "[1,0,0,0] > [!,-,-,-]", Machine(0, true, [1, 0, 0, 0], Ok), Machine(0, true, [1, 0, 0, 0], Halt));
  }

  /** `halt_on_second`. */
  lemma HaltOnSecond(m: Machine)
    requires m == Init(4)
    ensures InBounds(m, "[0,1,0,0] > [-,!,-,-]")
    ensures Run(m, "[0,1,0,0] > [-,!,-,-]").state == Halt
  {
    RunTwoGroups(m, "[0,1,0,0] > [-,!,-,-]", Machine(0, true, [0, 1, 0, 0], Ok), Machine(0, true, [0, 1, 0, 0], Halt));
  }

  /** `halt_on_third`. */
  lemma HaltOnThird(m: Machine)
    requires m == Init(4)
    ensures InBounds(m, "[0,0,1,0] > [-,-,!,-]")
    ensures Run(m, "[0,0,1,0] > [-,-,!,-]").state == Halt
  {
    RunTwoGroups(m, "[0,0,1,0] > [-,-,!,-]", Machine(0, true, [0, 0, 1, 0], Ok), Machine(0, true, [0, 0, 1, 0], Halt));
  }

  /** `halt_on_fourth`. */
  lemma HaltOnFourth(m: Machine)
    requires m == Init(4)
    ensures InBounds(m, "[0,0,0,1] > [-,-,-,!]")
    ensures Run(m, "[0,0,0,1] > [-,-,-,!]").state == Halt
  {
    RunTwoGroups(m, "[0,0,0,1] > [-,-,-,!]", Machine(0, true, [0, 0, 0, 1], Ok), Machine(0, true, [0, 0, 0, 1], Halt));
  }

  /** `dont_halt_on_first`. */
  lemma DontHaltOnFirst(m: Machine)
    requires m == Init(4)
    ensures InBounds(m, "[0,0,0,0] > [!,-,-,-]")
    ensures Run(m, "[0,0,0,0] > [!,-,-,-]").state == Ok
  {
    RunTwoGroups(m, "[0,0,0,0] > [!,-,-,-]", Machine(0, true, [0, 0, 0, 0], Ok), Machine(0, true, [0, 0, 0, 0], Ok));
  }

  /** `dont_halt_on_second`. */
  lemma DontHaltOnSecond(m: Machine)
    requires m == Init(4)
    ensures InBounds(m, "[0,0,0,0] > [-,!,-,-]")
    ensures Run(m, "[0,0,0,0] > [-,!,-,-]").state == Ok
  {
    RunTwoGroups(m, "[0,0,0,0] > [-,!,-,-]", Machine(0, true, [0, 0, 0, 0], Ok), Machine(0, true, [0, 0, 0, 0], Ok));
  }

  /** `dont_halt_on_third`. */
  lemma DontHaltOnThird(m: Machine)
    requires m == Init(4)
    ensures InBounds(m, "[0,0,0,0] > [-,-,!,-]")
    ensures Run(m, "[0,0,0,0] > [-,-,!,-]").state == Ok
  {
    RunTwoGroups(m, "[0,0,0,0] > [-,-,!,-]", Machine(0, true, [0, 0, 0, 0], Ok), Machine(0, true, [0, 0, 0, 0], Ok));
  }

  /** `dont_halt_on_fourth`. */
  lemma DontHaltOnFourth(m: Machine)
    requires m == Init(4)
    ensures InBounds(m, "[0,0,0,0] > [-,-,-,!]")
    ensures Run(m, "[0,0,0,0] > [-,-,-,!]").state == Ok
  {
    RunTwoGroups(m, "[0,0,0,0] > [-,-,-,!]", Machine(0, true, [0, 0, 0, 0], Ok), Machine(0, true, [0, 0, 0, 0], Ok));
  }
}
