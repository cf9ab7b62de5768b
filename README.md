# lc4 symbol processor, modelled in Dafny

lc4 is a tiny interpreter for a "processor" with a bank of `u8` registers. It has a register pointer, an accumulating comparison flag (`flag_equal`) and a run state (`Ok`, `Err(message)` or `Halt`). The driver reads instruction lines and feeds each character to `execute_symbol`:

- `-` and space do nothing.
- `>`, `[` and `]` move the pointer back to register 0.
- `,` moves it to the next register.
- `0` and `1` write that bit into the addressed register.
- `+` inverts the addressed register.
- `&` conjoins "the register is 1" into the flag.
- `=` writes the flag into the register, then sets the flag again.
- `!` sets the state to `Halt` when the register is 1 and to `Ok` otherwise.
- Any other character sets the state to `Err("invalid symbol \"c\"")`.

After each line the register bank is shown as `[v0,v1,...]`.

The project has three layers:

- **Value semantics** (`semantics.dfy`, module `Semantics`):
  - `Machine` holds all four fields of a processor as one value.
  - `Init` is `Processor::new`.
  - `Step` is `execute_symbol`.
  - `Run` feeds a line through `Step`, which is how the tests and the driver loop use the processor.
  - `CanExecute` and `InBounds` state the precondition that replaces the source's panic on an out-of-range pointer: a symbol that indexes the bank needs the pointer inside it. The exception is `&` with the flag cleared: its conjunction short-circuits before the register is read, so it runs at any pointer.
- **Rendering** (`rendering.dfy`, module `Rendering`):
  - `DecimalString` models Rust's `{}` for an integer; `DecimalRoundTrip` proves it reads back.
  - `Render` is the recursive reference definition of the dump.
  - Lemmas describe the dump when every register holds a bit.
- **The processor** (`processor.dfy`, module `Lc4`):
  - `Processor` is a class with the source's four fields.
  - Its constructor, `ExecuteSymbol`, `GetState` and `RegisterValuesToString` are proved against `Init`, `Step` and `Render`.
  - `RegisterValuesToString` keeps the source's loop over the values and proves a loop invariant against `Join`.
  - `ExecuteLine` is the loop of the tests and of the driver, proved against `Run`.

On top of the three layers:

- `properties.dfy` (module `Properties`) states each arm of `execute_symbol`, with what it changes and what it leaves alone, plus properties across lines:
  - the registers stay bits;
  - `+` twice restores a bit register;
  - `&` can only lower the flag;
  - `!` is idempotent;
  - running two lines in sequence is running their concatenation.
- `groups.dfy` (module `Groups`) proves what a bracketed group `[a,b,c,d]` and the separator ` > ` do.
- The unit tests of `src/lib.rs` are restated as lemmas in three files:
  - `tests_registers.dfy` (module `RegisterTests`);
  - `tests_comparison.dfy` (module `ComparisonTests`);
  - `tests_halt.dfy` (module `HaltTests`).
- `processor_tests.dfy` (module `ProcessorTests`) drives two of those tests through the class itself.

## Model

| member | source | states |
|---|---|---|
| Semantics.Init | src/lib.rs:42-48 | `new(n)` has exactly `n` registers, all 0, the pointer at 0, the flag set and the state `Ok` |
| Semantics.Step | src/lib.rs:94-134 | no symbol changes the number of registers; the effect of each arm is stated by the `Properties` lemmas |
| Semantics.Run | src/lib.rs:162-164 | the `for symbol in line.chars()` loop of the tests: every character through `Step`, left to right; the bank keeps its size |
| Semantics.RunFrom | src/lib.rs:94-134 | executing the rest of a line symbol by symbol keeps the number of registers; defined for every line the source runs without a panic, including `&` past the bank with the flag cleared |
| Semantics.InvalidSymbolMessage | src/lib.rs:131 | the error message is `invalid symbol "`, the offending symbol, then a closing `"`: 18 characters |
| Lc4.Processor.constructor | src/lib.rs:42-48 | the new processor's fields are `Init(registerCount)`: that many zero registers, pointer 0, flag set, state `Ok` |
| Lc4.Processor.GetState | src/lib.rs:90-92 | returns the current run state and changes nothing |
| Lc4.Processor.RegisterValuesToString | src/lib.rs:70-88 | the result is `Render(registers)`: `[`, the decimal values separated by commas with no trailing comma, `]` |
| Lc4.Processor.ExecuteSymbol | src/lib.rs:94-134 | the new fields are exactly `Step` of the old ones, given that an addressing symbol finds the pointer inside the bank |
| Lc4.ExecuteLine | src/main.rs:13-15 | feeding every character of a line in order leaves the processor in `Run` of its old state, for every line that does not index past the bank |
| Rendering.DigitChar | src/lib.rs:75-77 | the character of digit `d` is the one `d` places after `0` |
| Rendering.DecimalString | src/lib.rs:75-77 | `{}` of a number is a non-empty string of digits with no leading zero; a number below 10 is its single digit |
| Rendering.DecimalRoundTrip | src/lib.rs:75-77 | reading the decimal digits back gives the number: formatting loses nothing |
| Rendering.Join | src/lib.rs:73-85 | the values separated by commas: empty exactly for an empty bank, otherwise at least `2n-1` characters |
| Rendering.Render | src/lib.rs:70-88 | the reference dump: `[`, the joined values, `]`; at least `2n+1` characters, or `[]` for an empty bank |
| Rendering.JoinFrom | src/lib.rs:73-85 | the joined values from position `i` are the value at `i`, a comma exactly when `i` is not the last index, then the rest |
| Rendering.BitChar | src/lib.rs:75-77 | a bit register prints as `1` exactly when it holds 1 and as `0` otherwise |
| Rendering.JoinBits | src/lib.rs:73-85 | for bit registers the joined text has `2n-1` characters, value `k` at position `2k` and commas at odd positions |
| Rendering.RenderBits | src/lib.rs:70-88 | for bit registers the dump has `2n+1` characters (2 when empty), brackets at both ends, value `k` at `2k+1`, commas between |
| Rendering.RenderFourBits | src/lib.rs:70-88 | the dump of four bit registers, character by character |
| Properties.InitBits | src/lib.rs:46 | a new processor's registers are all bits |
| Properties.StepKeepsBits | src/lib.rs:103-122 | no symbol writes anything but 0 or 1, so a bank of bits stays one |
| Properties.RunFromKeepsBits | src/lib.rs:94-134 | a bank of bits stays one for the rest of a line |
| Properties.RunKeepsBits | src/lib.rs:94-134 | a bank of bits stays one across a whole line |
| Properties.RunFromStep | src/lib.rs:94-134 | executing the symbol at `i` and then the rest is executing the line from `i`, in bounds exactly when the rest is |
| Properties.RunFromShift | src/main.rs:10-15 | where a line sits inside a longer one makes no difference to what it does |
| Properties.RunFromAppend | src/main.rs:10-15 | executing `s` from `i` and then `t` is executing `s + t` from `i`, and it stays in bounds exactly when both parts do |
| Properties.RunAppend | src/main.rs:10-15 | two lines executed one after the other are their concatenation executed at once; state carries over between lines |
| Properties.NoOp | src/lib.rs:97 | `-` and space leave the processor exactly as it was |
| Properties.ResetPointer | src/lib.rs:99 | `>`, `[` and `]` set the pointer to 0 and change nothing else |
| Properties.NextRegister | src/lib.rs:101 | `,` increments the pointer by one and changes nothing else |
| Properties.SetRegister | src/lib.rs:103-105 | `0` and `1` write that value at the pointer and change no other register, the pointer, the flag or the state |
| Properties.Invert | src/lib.rs:107-113 | `+` writes 1 over a 0 and 0 over anything else, at the pointer only; on a bit it is the complement |
| Properties.InvertTwice | src/lib.rs:107-113 | `+` twice restores the processor exactly when the addressed register holds 0 or 1 |
| Properties.Conjoin | src/lib.rs:115-117 | after `&` the flag holds exactly when it held before and the register is 1; the flag only narrows; nothing else changes; the pointer must be in the bank only when the flag is set |
| Properties.ConjoinShortCircuit | src/lib.rs:115-117 | with the flag cleared, `&` is executable at any pointer, even past the bank, and changes nothing |
| Properties.FlagNarrowsFrom | src/lib.rs:115-122 | over a stretch without `=`, the flag can end true only if it started true |
| Properties.FlagNarrowsUntilEquals | src/lib.rs:115-122 | over a line without `=`, the flag can end true only if it started true |
| Properties.Consume | src/lib.rs:119-122 | `=` writes 1 when the flag is set and 0 when not, then sets the flag; other registers, the pointer and the state are unchanged |
| Properties.CheckHalt | src/lib.rs:124-128 | `!` gives `Halt` exactly when the register is 1 and `Ok` exactly when it is not, whatever the previous state; nothing else changes |
| Properties.CheckHaltIdempotent | src/lib.rs:124-128 | a second `!` changes nothing |
| Properties.CheckHaltDeterministic | src/lib.rs:124-128 | the state after `!` depends only on the addressed register's value |
| Properties.InvalidSymbol | src/lib.rs:130-132 | a symbol outside the alphabet sets the state to `Err("invalid symbol \"c\"")` and changes nothing else |
| Properties.StateTransition | src/lib.rs:94-134 | only `!` and unknown symbols change the state, so `Err` and `Halt` do not stop later symbols |
| Properties.PointerMoves | src/lib.rs:99-101 | only `,` moves the pointer forward, by one; `>`, `[` and `]` reset it; every other symbol keeps it |
| Groups.RunOperandAt | src/lib.rs:94-134 | an operand followed by `,` or `]` acts on register `k` and moves the pointer to `k+1` or back to 0 |
| Groups.RunGroupAt | src/lib.rs:94-134 | a group `[a,b,c,d]` applies operand `k` to register `k`, in order, and returns the pointer to 0 |
| Groups.RunSeparatorAt | src/lib.rs:97-99 | ` > ` only resets the pointer |
| Groups.RunOneGroup | src/lib.rs:94-134 | a one-group line stays in the bank and ends in the group's effect |
| Groups.RunTwoGroups | src/lib.rs:94-134 | a line `G > H` stays in the bank and ends in the effect of `G` then `H` |
| Groups.RunThreeGroups | src/lib.rs:94-134 | a line `G > H > K` stays in the bank and ends in the effect of `G`, then `H`, then `K` |
| RegisterTests.CreateProcessorWith4Registers | src/lib.rs:142-145 | `new(4)` dumps as `[0,0,0,0]` |
| RegisterTests.CreateProcessorWith5Registers | src/lib.rs:148-151 | `new(5)` dumps as `[0,0,0,0,0]` |
| RegisterTests.CreateProcessorWith6Registers | src/lib.rs:154-157 | `new(6)` dumps as `[0,0,0,0,0,0]` |
| RegisterTests.InvertAll | src/lib.rs:160-168 | from `new(4)`, `[+,+,+,+]` stays within the bank and the dump is `[1,1,1,1]` |
| RegisterTests.InvertFirst | src/lib.rs:171-179 | from `new(4)`, `[+,-,-,-]` stays within the bank and the dump is `[1,0,0,0]` |
| RegisterTests.InvertSecond | src/lib.rs:182-190 | from `new(4)`, `[-,+,-,-]` stays within the bank and the dump is `[0,1,0,0]` |
| RegisterTests.InvertThird | src/lib.rs:193-201 | from `new(4)`, `[-,-,+,-]` stays within the bank and the dump is `[0,0,1,0]` |
| RegisterTests.InvertFourth | src/lib.rs:204-212 | from `new(4)`, `[-,-,-,+]` stays within the bank and the dump is `[0,0,0,1]` |
| RegisterTests.InvertFirstPair | src/lib.rs:215-223 | from `new(4)`, `[+,-,+,-]` stays within the bank and the dump is `[1,0,1,0]` |
| RegisterTests.InvertSecondPair | src/lib.rs:226-234 | from `new(4)`, `[-,+,-,+]` stays within the bank and the dump is `[0,1,0,1]` |
| RegisterTests.InvertRevertFirstPair | src/lib.rs:237-245 | from `new(4)`, `[1,1,1,1] > [+,-,+,-]` stays within the bank and the dump is `[0,1,0,1]` |
| RegisterTests.InvertRevertSecondPair | src/lib.rs:248-256 | from `new(4)`, `[1,1,1,1] > [-,+,-,+]` stays within the bank and the dump is `[1,0,1,0]` |
| RegisterTests.SetFirstLiteral | src/lib.rs:281-289 | from `new(4)`, `[1,-,-,-]` stays within the bank and the dump is `[1,0,0,0]` |
| RegisterTests.SetSecondLiteral | src/lib.rs:292-300 | from `new(4)`, `[-,1,-,-]` stays within the bank and the dump is `[0,1,0,0]` |
| RegisterTests.SetThirdLiteral | src/lib.rs:303-311 | from `new(4)`, `[-,-,1,-]` stays within the bank and the dump is `[0,0,1,0]` |
| RegisterTests.SetFourthLiteral | src/lib.rs:314-322 | from `new(4)`, `[-,-,-,1]` stays within the bank and the dump is `[0,0,0,1]` |
| RegisterTests.SetFirstLiteralInverted | src/lib.rs:325-333 | from `new(4)`, `[1,1,1,1] > [0,-,-,-]` stays within the bank and the dump is `[0,1,1,1]` |
| RegisterTests.SetSecondLiteralInverted | src/lib.rs:336-344 | from `new(4)`, `[1,1,1,1] > [-,0,-,-]` stays within the bank and the dump is `[1,0,1,1]` |
| RegisterTests.SetThirdLiteralInverted | src/lib.rs:347-355 | from `new(4)`, `[1,1,1,1] > [-,-,0,-]` stays within the bank and the dump is `[1,1,0,1]` |
| RegisterTests.SetFourthLiteralInverted | src/lib.rs:358-366 | from `new(4)`, `[1,1,1,1] > [-,-,-,0]` stays within the bank and the dump is `[1,1,1,0]` |
| RegisterTests.SetLiteralAll | src/lib.rs:369-377 | from `new(4)`, `[1,1,1,1]` stays within the bank and the dump is `[1,1,1,1]` |
| RegisterTests.SetLiteralAllInverted | src/lib.rs:380-388 | from `new(4)`, `[1,1,1,1] > [0,0,0,0]` stays within the bank and the dump is `[0,0,0,0]` |
| RegisterTests.NoOpAll | src/lib.rs:391-399 | from `new(4)`, `[-,-,-,-]` stays within the bank and the dump is `[0,0,0,0]` |
| RegisterTests.NoOpAllInverted | src/lib.rs:402-410 | from `new(4)`, `[1,1,1,1] > [-,-,-,-]` stays within the bank and the dump is `[1,1,1,1]` |
| ComparisonTests.ComparisonFirstSet | src/lib.rs:259-267 | from `new(4)`, `[1,0,1,0] > [&,-,&,-] > [-,-,-,=]` stays within the bank and the dump is `[1,0,1,1]` |
| ComparisonTests.ComparisonSecondSet | src/lib.rs:270-278 | from `new(4)`, `[0,1,0,1] > [-,&,-,&] > [=,-,-,-]` stays within the bank and the dump is `[1,1,0,1]` |
| HaltTests.HaltOnFirst | src/lib.rs:413-421 | from `new(4)`, `[1,0,0,0] > [!,-,-,-]` stays within the bank and leaves the state `Halt` |
| HaltTests.HaltOnSecond | src/lib.rs:424-432 | from `new(4)`, `[0,1,0,0] > [-,!,-,-]` stays within the bank and leaves the state `Halt` |
| HaltTests.HaltOnThird | src/lib.rs:435-443 | from `new(4)`, `[0,0,1,0] > [-,-,!,-]` stays within the bank and leaves the state `Halt` |
| HaltTests.HaltOnFourth | src/lib.rs:446-454 | from `new(4)`, `[0,0,0,1] > [-,-,-,!]` stays within the bank and leaves the state `Halt` |
| HaltTests.DontHaltOnFirst | src/lib.rs:457-465 | from `new(4)`, `[0,0,0,0] > [!,-,-,-]` stays within the bank and leaves the state `Ok` |
| HaltTests.DontHaltOnSecond | src/lib.rs:468-476 | from `new(4)`, `[0,0,0,0] > [-,!,-,-]` stays within the bank and leaves the state `Ok` |
| HaltTests.DontHaltOnThird | src/lib.rs:479-487 | from `new(4)`, `[0,0,0,0] > [-,-,!,-]` stays within the bank and leaves the state `Ok` |
| HaltTests.DontHaltOnFourth | src/lib.rs:490-498 | from `new(4)`, `[0,0,0,0] > [-,-,-,!]` stays within the bank and leaves the state `Ok` |
| ComparisonTests.ConjoinPastBank | src/lib.rs:115-117 | from `new(4)`, `[&,,,,&` runs to the end: the first `&` clears the flag, the second finds the pointer at 4 and does not read the bank |
| ProcessorTests.InvertAllOnProcessor | src/lib.rs:160-168 | a `Processor` built with 4 registers and fed `[+,+,+,+]` through `ExecuteSymbol` dumps `[1,1,1,1]` |
| ProcessorTests.HaltOnFirstOnProcessor | src/lib.rs:413-421 | a `Processor` built with 4 registers and fed `[1,0,0,0] > [!,-,-,-]` reports `Halt` |
| ProcessorTests.ConjoinPastBankOnProcessor | src/lib.rs:115-117 | a `Processor` built with 4 registers runs `[&,,,,&` to the end, leaving the pointer at 4 and the flag cleared |

## Left out

- The driver in `src/main.rs` is left out. It reads the register count from the command line, loops reading lines until `Halt` and prints the bank. Only its inner loop over the characters of a line is modelled, as `ExecuteLine`, `Run` and `RunAppend`.
- `get_register_count_parmeter` is left out. It reads the process arguments and panics on a non-number; that is I/O.
- `read_instruction` is left out. It prints a prompt and reads and trims a line from standard input.
- `print_register_values` is left out. It writes the same dump as `register_values_to_string` to standard output, prefixed by an upper-cased tag; that is I/O. `register_values_to_string` is modelled.
- Lc4.Processor.ExecuteSymbol: the source panics when `0`, `1`, `+`, `=`, `!`, or `&` with the flag set, runs with the pointer past the bank (`&` with the flag cleared short-circuits and is modelled). Here that is a precondition (`CanExecute`, and `InBounds` for a line), so the panic case has no model. `Semantics.Step` has the same precondition.
- Properties.NextRegister: the pointer is a `usize` in the source and `,` adds one to it. Here the pointer is an unbounded `nat`, so the overflow at `usize::MAX` is not modelled.
- Semantics.Step: its own `ensures` states only that the bank keeps its length. The effect of each arm is stated by the lemmas in `Properties`.
- The registers are a `seq<U8>` that each write replaces, not a `Vec<u8>` updated in place. No other reference to the bank exists, so nothing aliases it.
- Lc4.Processor.RegisterValuesToString: the source iterates over a clone of the registers. The model reads them into a local value, which is the same thing for a value type.
- Groups lemmas cover banks of exactly four registers, the size every multi-symbol test uses. `Run`, `RunAppend` and the `Properties` lemmas hold for any size.
