/** Two of the unit tests driven through the `Processor` class itself:
    construct it, feed it a line symbol by symbol, read the result back. */
module ProcessorTests {
  import opened Semantics
  import opened RegisterTests
  import opened HaltTests
  import opened ComparisonTests
  import opened Lc4

  /** `invert_all`: the dump after `[+,+,+,+]` on four registers. */
  method InvertAllOnProcessor() returns (s: string)
    ensures s == "[1,1,1,1]"
  {
    var p := new Processor(4);
    InvertAll(p.Snapshot());
    ExecuteLine(p, "[+,+,+,+]");
    s := p.RegisterValuesToString();
  }

  /** `halt_on_first`: the state after `[1,0,0,0] > [!,-,-,-]`. */
  method HaltOnFirstOnProcessor() returns (state: ProcessorState)
    ensures state == Halt
  {
    var p := new Processor(4);
    HaltOnFirst(p.Snapshot());
    ExecuteLine(p, "[1,0,0,0] > [!,-,-,-]");
    state := p.GetState();
  }

  /** `[&,,,,&` runs to the end on a four-register `Processor`: the second
      `&` finds the flag cleared and does not read the register. */
  method ConjoinPastBankOnProcessor() returns (pointer: nat, flag: bool)
    ensures pointer == 4 && !flag
  {
    var p := new Processor(4);
    ConjoinPastBank(p.Snapshot());
    ExecuteLine(p, "[&,,,,&");
    pointer, flag := p.registerPointer, p.flagEqual;
  }
}
