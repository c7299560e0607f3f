# Triador in Dafny

A model of the Triador, a balanced-ternary virtual machine. The machine has:

- thirteen tryte registers R1..R13, each in [-13, 13];
- a carry flag C;
- a program counter PC in [-364, 364], which addresses the program at index PC + 364;
- a halt flag;
- a program of (opcode, argument) pairs with nine opcode classes: EX, JP, SK, OP, RR and R1..R4.

The C++ class `Triador` becomes a Dafny class of the same name. Its register file is an `array<int>`. `cycle` and `run` change R, C, PC and fHalt in place. `load_program` changes only the program. `assert_memory_state` changes nothing and only reads. Each method is proved against a function on machine values:

- `Semantics.Next` is one cycle;
- `Execution.RunSpec` and `Execution.Loop` are the run loop;
- `Loader.ParseProgram` is the program loader.

The lemmas in `Properties`, `Execution` and `Loader` state what those functions promise. The helper `binary_to_ternary` is an array-filling method. Its ensures say that the array holds trits whose `Ternary.Decode` is the value. That the array then equals the reference `Ternary.Encode` of the value follows from `Ternary.EncodeDecode` (or `Ternary.DecodeInjective`).

The modules, in dependency order:

- `Ternary`: the trit codec (`Decode`, the reference `Encode`, and `BinaryToTernary`).
- `Isa`: opcode numbers, the mnemonic table `allowed_opcodes`, and well-formed instructions.
- `Semantics`: the machine as a value, the ranges of `assert_memory_state` (`MemoryOk`) and one cycle (`Next`). It also holds the parts of a cycle:
  - `SkipTaken` (SK);
  - `Tritwise` and `ApplyTable` (OP);
  - `Increment` and `RegisterOp` (RR);
  - `Effect`, the switch before the common PC advance.
- `Properties`: what each opcode does, and the ranges a cycle keeps.
- `Execution`: the run loop with its stop reasons, bounded by fuel.
- `Loader`: line validation and program accumulation over tokenised lines.
- `Triador`: the class, and the OP computation `TritwiseOp` with its three digit arrays.

The environment call `do_ex` is an oracle:

- `Cycle` takes `doEx: int -> bool`;
- `Run` takes `env: nat -> int -> bool`, where `env(k)` is what `do_ex` answers during cycle k.

Where the C++ `assert` in `assert_memory_state` would abort the process, the model returns a verdict instead. `AssertMemoryState` returns `ok`, and `Run` ends with `Stop.Aborted`.

### Program length: the PC check fires before the end-of-program check

`assert_memory_state` admits PC in [-364, 364] (triador.cpp:35). `run` tests at triador.cpp:202 whether PC left the program, and there it is meant to stop with a warning (triador.cpp:203). For a program of 728 instructions, a taken SK in the last slot never reaches that test:

- The last slot is PC = 363.
- A taken SK there moves PC to 365 (triador.cpp:143-154 and the advance at triador.cpp:191).
- `run` calls `assert_memory_state` at triador.cpp:200, before the end-of-program test at line 202, so the assertion `abs(PC) <= 364` aborts the process.

The model follows the code. `Properties.PcEscapesAt728` and `Execution.RunAbortsAt728` show this input. `Properties.NextKeepsRanges` and `Execution.LoopNeverAborts` prove that programs of at most 727 instructions never trip the assertion. The loader places no bound on program length.

## Model

| member | source | states |
|---|---|---|
| Ternary.Decode | triador.cpp:165 | The value of three trits lies in [-13, 13]. |
| Ternary.Encode | triador.cpp:97-118 | Reference encoding: for every value in [-13, 13], three trits whose decode is the value. |
| Ternary.EncodeDecode | triador.cpp:97-118 | Encoding the value of any trit triple gives that triple back, so the digit representation is unique. |
| Ternary.DecodeInjective | triador.cpp:97-118 | Two trit triples with the same value are equal. |
| Ternary.BinaryToTernary | triador.cpp:97-118 | For a value with magnitude at most 13, the array receives three digits in {-1, 0, 1} with value == t[0] + 3*t[1] + 9*t[2]. Zero gives [0, 0, 0]. The loop works on the magnitude with the remainder-2 carry and then negates. |
| Isa.MnemonicsDistinct | triador.cpp:18 | The nine entries of allowed_opcodes are pairwise distinct. |
| Semantics.ApplyTable | triador.cpp:163-164 | Looking up a[1 - d[i]] for trits d[i] in a trit table gives trits. |
| Semantics.Tritwise | triador.cpp:157-166 | The OP result is a tryte in [-13, 13]. |
| Semantics.Increment | triador.cpp:169-173 | RR +1/-1 yields a tryte and a carry in [-1, 1] with R1' + 27*C' == R1 + arg. |
| Semantics.Next | triador.cpp:120-192 | One cycle keeps thirteen registers. What it does per opcode is stated by the lemmas below. |
| Semantics.MemoryOk | triador.cpp:31-36 | The three checks of assert_memory_state: all registers in [-13, 13], C in [-1, 1], PC in [-364, 364]. It carries no contract of its own. `Triador.Triador.AssertMemoryState` returns exactly it, and `Properties.NextKeepsRanges` proves that a cycle keeps it while the program has at most 727 instructions. |
| Semantics.SkipTaken | triador.cpp:139-155 | Whether SK skips: for abs(arg) > 1 the comparison (abs(arg)-2) % 3 of register (abs(arg)-2) / 3 against zero, negated for arg < 0; for abs(arg) <= 1 whether C == arg. It carries no contract of its own. `Properties.NextSkip` and `Triador.Triador.Skip` state the PC advance it causes, and `Properties.SkipComplement` that SK arg and SK -arg skip on complementary conditions for abs(arg) > 1. |
| Semantics.RegisterOp | triador.cpp:167-176 | The RR class keeps thirteen registers, PC and the halt flag. C changes only for RR +1/-1. The copy and increment cases are stated by `Properties.NextCopy` and `Properties.NextIncrement`. |
| Semantics.Effect | triador.cpp:126-189 | The switch for every opcode except EX and JP, before the common PC advance: SK moves PC by SkipTaken, OP writes Tritwise into R1, RR is RegisterOp, and R1..R4 write the argument to their register. It carries no contract of its own. `Triador.Triador.Execute` changes the class state exactly as it says, and `Properties.NextSkip`, `Properties.NextOp`, `Properties.NextIncrement`, `Properties.NextCopy` and `Properties.NextLoad` state each case through `Semantics.Next`. |
| Properties.NextKeepsRanges | triador.cpp:31-36 | Every opcode keeps registers in [-13, 13], C in [-1, 1] and PC + 364 >= 0. PC <= 364 also holds when the program has at most 727 instructions. |
| Properties.PcEscapesAt728 | triador.cpp:35 | With 728 instructions, SK 0 at PC = 363 with C = 0 moves PC to 365, outside the checked range. |
| Properties.HaltFlag | triador.cpp:127-133 | After a cycle the halt flag is set iff it was set before or the instruction was EX and do_ex refused. |
| Properties.NextEx | triador.cpp:127-133 | EX: when do_ex refuses, fHalt is set and PC is unchanged. When it accepts, PC advances by 1. Registers and C are untouched. |
| Properties.NextJump | triador.cpp:134-136 | JP: PC == R13*27 + arg with no further increment. The target is in [-364, 364]. Nothing else changes. |
| Properties.JumpTargetsCover | triador.cpp:134-136 | Every address in [-364, 364] is R13*27 + arg for some tryte R13 and some tryte arg. |
| Properties.NextSkip | triador.cpp:138-156 | SK: the register index (abs(arg)-2)/3 is in 0..3. PC advances by exactly 2 iff the condition holds (the test for arg > 0, its negation for arg < -1, C == arg for abs(arg) <= 1), and by 1 otherwise. Nothing else changes. |
| Properties.SkipComplement | triador.cpp:142-150 | SK a and SK -a (1 < a) skip under complementary conditions. |
| Properties.TritwiseDigits | triador.cpp:157-166 | The digits of the OP result are the table digits selected by the digits of R1. |
| Properties.TritwiseOfDigits | triador.cpp:161-165 | Whichever digit triples of table and R1 are used, the OP result is the decode of the selected digits. |
| Properties.TritwiseIdentity | triador.cpp:163-165 | OP -8 (table digits 1, 0, -1) leaves R1 unchanged. |
| Properties.TritwiseNegate | triador.cpp:163-165 | OP 8 (table digits -1, 0, 1) negates R1. |
| Properties.ApplyTableCompose | triador.cpp:163-164 | Applying two truth tables in turn is applying their composition. |
| Properties.TritwiseCompose | triador.cpp:157-166 | Two OPs in a row equal one OP whose table is the second table applied to the first. |
| Properties.NextOp | triador.cpp:157-166 | OP: R1' is a tryte whose digits are the table applied to the digits of R1. The other registers, C and fHalt are unchanged, and PC advances by 1. |
| Properties.NextIncrement | triador.cpp:169-173 | RR +1/-1: a sum inside [-13, 13] is stored with C = 0. Above 13 it is stored minus 27 with C = 1; below -13, plus 27 with C = -1. R1' + 27*C' == R1 + arg. The other registers and fHalt are unchanged, and PC advances by 1. |
| Properties.IncrementModular | triador.cpp:169-173 | The incremented R1 is (R1 + arg + 13) mod 27 - 13. |
| Properties.IncrementWraps | triador.cpp:172-173 | 13 + 1 wraps to -13 with C = 1, and -13 - 1 wraps to 13 with C = -1. |
| Properties.NextCopy | triador.cpp:167-176 | RR 0 changes only PC. RR arg > 1 sets R1 := R[arg-1]; RR arg < -1 sets R[-arg-1] := R1. C and fHalt are unchanged, and PC advances by 1. |
| Properties.NextLoad | triador.cpp:177-188 | R1..R4 arg: register opcode-1 becomes arg and no other register changes. C and fHalt are unchanged, and PC advances by 1. |
| Properties.NextEmpty | triador.cpp:121 | A cycle on an empty program changes nothing. |
| Properties.CopyScenario | triador.cpp:175-182 | R2 7 followed by RR 2 leaves 7 in R1. |
| Execution.Loop | triador.cpp:198-208 | The run loop executes between k and k + fuel cycles. |
| Execution.RunSpec | triador.cpp:194-208 | run executes at most fuel cycles. |
| Execution.LoopStep | triador.cpp:198-206 | One turn of the loop: the cycle, then the memory check, the end-of-program check and the halt check, in that order. |
| Execution.LoopContinues | triador.cpp:198-206 | When no exit check fires, the loop goes on from the next machine. |
| Execution.LoopExits | triador.cpp:198-206 | When an exit check fires, the outcome does not depend on the remaining fuel. |
| Execution.LoopStops | triador.cpp:198-208 | The loop ends only when the memory check fails, when PC + 364 reaches the program length, or when fHalt is set with PC inside. Otherwise exactly fuel cycles ran without any check firing. |
| Execution.LoopNeverAborts | triador.cpp:198-201 | For programs of at most 727 instructions, the memory check after a cycle never fails. |
| Execution.LoopMoreFuel | triador.cpp:198-208 | A run that stopped for its own reason ends identically with more fuel. |
| Execution.RunEmpty | triador.cpp:197 | run on an empty program executes no cycle and changes nothing. |
| Execution.RunSafe | triador.cpp:194-208 | From a state in range, with 1..727 instructions, run ends by halting, by leaving the program or by running out of fuel, in a state in range. |
| Execution.RunAbortsAt728 | triador.cpp:194-202 | The 728-instruction input ends at PC = 365 with the memory check failing after one cycle. |
| Loader.FindFrom | triador.cpp:82-86 | The search returns -1 or an index of the table. |
| Loader.FindFromFinds | triador.cpp:82-86 | The search returns -1 iff the token is not in the table from i on. Otherwise it returns the first position that holds it. |
| Loader.OpcodeOf | triador.cpp:81-86 | The opcode class of a token is in [-5, 4]. |
| Loader.OpcodeOfFinds | triador.cpp:81-86 | The class is -5 iff the token is not a mnemonic. Otherwise it is the class whose mnemonic the token is. |
| Loader.LookupOpcode | triador.cpp:81-86 | The lookup loop returns -5 iff the token is not in allowed_opcodes. Otherwise it returns i - 4 for the entry i that holds it. |
| Loader.OpcodeOfMnemonic | triador.cpp:18 | Mnemonic i names opcode class i - 4. |
| Loader.Classify | triador.cpp:74-91 | Every accepted line has abs(opcode) <= 4 and abs(arg) <= 13. |
| Loader.ReadLine | triador.cpp:74-91 | The loop body classifies a line as the validation rules do: blank ends, failed extraction, unknown opcode or out-of-range argument is malformed. |
| Loader.ParseProgram | triador.cpp:72-94 | The program that load_program accumulates: never longer than the input, and every instruction well-formed. `Loader.ParsePrefix` states that it is the longest prefix of accepted lines, and `Triador.Triador.LoadProgram` sets the program to exactly it. |
| Loader.EndsMalformed | triador.cpp:88-89 | Whether the load stops at a malformed line, which is when load_program warns. It carries no contract of its own. `Loader.ParseAt` proves it holds exactly when the line after the loaded prefix is malformed, and `Triador.Triador.LoadProgram` returns exactly it as its warning flag. |
| Loader.ParsePrefix | triador.cpp:67-94 | The loaded program is the longest prefix of accepted lines. It is well-formed, each instruction comes from the line at the same position, and the next line, if any, is blank or malformed. |
| Loader.ParseAt | triador.cpp:72-94 | At line k inside the loaded prefix, an accepted line is instruction k, and any other line ends the program there. A malformed line there means a warning. |
| Loader.ParseIgnoresRest | triador.cpp:88-91 | Lines after the first blank or malformed line do not affect the program. |
| Loader.TruncatesAtMalformedLine | triador.cpp:88-93 | Three valid lines and then R1 14 load as the three instructions, with the warning. |
| Triador.TritwiseOp | triador.cpp:157-166 | The three-array OP computation equals Tritwise(arg, R1). All array indices, including 1 - ttt_mem[i], are in 0..2. |
| Triador.Triador.constructor | triador.cpp:20-29 | R[i] := noise[i] % 27 - 13, C := noise[13] % 2 - 1 (so C is -1 or 0), PC := -364, fHalt unset. The class invariant holds. |
| Triador.Triador.AssertMemoryState | triador.cpp:31-36 | ok holds iff every register is in [-13, 13], C in [-1, 1] and PC in [-364, 364]. |
| Triador.Triador.Cycle | triador.cpp:120-192 | The new state is Next of the old state. The program is unchanged. The class invariant is kept for programs of at most 727 instructions. |
| Triador.Triador.Execute | triador.cpp:126-189 | The SK, OP, RR and R1..R4 cases of the switch produce Effect of the old state. |
| Triador.Triador.Skip | triador.cpp:138-156 | SK adds 1 to PC exactly when the skip condition holds. |
| Triador.Triador.Run | triador.cpp:194-208 | The final state, stop reason and cycle count are those of RunSpec from the initial state. The program is unchanged. |
| Triador.Triador.LoadProgram | triador.cpp:67-94 | The program becomes ParseProgram(lines), and the warning flag is EndsMalformed(lines). The program is well-formed; C, PC and fHalt are unchanged. |

## Left out

- `display_memory_state` (triador.cpp:38-50) and the `verbose` flag of `run`: console output only.
- File and stream handling in `load_program` (triador.cpp:68-79): opening the file, `getline`, `eof` and `istringstream` extraction are library I/O. A line arrives as `Blank` or as `Tokens(opcode, arg)`, where `arg` is `None` when extraction failed. A file that fails to open returns at triador.cpp:70 after the program was cleared at triador.cpp:67, with no warning. The model covers that case as the empty input `lines == []`: `ParseProgram([]) == []` and `LoadProgram` sets the program to `[]` and warns nothing.
- The warnings written to `cerr` (triador.cpp:89, 203): the model returns `warned` from `LoadProgram` and the stop reason `LeftProgram` from `Run` instead.
- `srand(time)`/`rand()` in the constructor (triador.cpp:23-26): the rand() results are the constructor's `noise` parameter.
- The body of `do_ex`: its definition is not in triador.cpp, which only calls it (triador.cpp:128). triador.h, included at triador.cpp:14, is not part of this model. It is an oracle, and the model assumes it is pure: it only answers, and leaves R, C, PC, fHalt and the program unchanged. The results that depend on this are `Properties.NextEx` (registers and C unchanged), the EX case of `Properties.NextKeepsRanges` and of `Properties.HaltFlag`, `Execution.RunSafe`'s range guarantee, and the equalities `Triador.Triador.Cycle` == `Semantics.Next` and `Triador.Triador.Run` == `Execution.RunSpec`.
- Triador.Triador.Run: bounded by `fuel` cycles (returning `OutOfFuel`), because the C++ `while(1)` loop need not terminate. `Execution.LoopMoreFuel` shows that fuel never changes a run that ended on its own.
- Triador.Triador.Run: an abort is a returned `Stop.Aborted`, not the end of the process.
- Triador.Triador.Cycle, Triador.Triador.Run and Execution.RunSpec: their requires exclude a PC outside a non-empty program (`PC + 364 < |program|`). The source can reach that state. `run`'s first `cycle` (triador.cpp:199) comes before any bounds test, since the test at line 202 only follows a cycle. `load_program` (triador.cpp:67-94) never resets PC. So a second `run` after one that ended at line 202, or a `run` after loading a shorter program on a used machine, reads `program[PC+364]` out of range at triador.cpp:122. That is undefined behaviour in C++, and the model does not describe it.
- C++ `int` overflow: every value the machine computes stays within a few hundred, so unbounded integers model it exactly.
