/** The Triador instruction set: nine opcode classes numbered -4..4 and
    their two-letter mnemonics. */
module Isa {

  const EX := -4  // environment call
  const JP := -3  // jump to R13*27 + arg
  const SK := -2  // conditional skip of the next instruction
  const OP := -1  // tritwise unary operation on R1
  const RR := 0   // increment/decrement or register copy
  const R1 := 1   // immediate loads into R1..R4
  const R2 := 2
  const R3 := 3
  const R4 := 4

  /** allowed_opcodes: mnemonic i names opcode class i - 4. */
  const Mnemonics: seq<string> := ["EX", "JP", "SK", "OP", "RR", "R1", "R2", "R3", "R4"]

  /** One program line: an opcode class and its argument. */
  datatype Instruction = Instruction(opcode: int, arg: int)

  predicate WellFormedInstruction(ins: Instruction) {
    -4 <= ins.opcode <= 4 && -13 <= ins.arg <= 13
  }

  /** What the loader guarantees and every cycle asserts of the program. */
  predicate WellFormed(prog: seq<Instruction>) {
    forall i :: 0 <= i < |prog| ==> WellFormedInstruction(prog[i])
  }

  /** The mnemonics are pairwise distinct, so a mnemonic names one opcode. */
  lemma MnemonicsDistinct(i: int, j: int)
    requires 0 <= i < |Mnemonics| && 0 <= j < |Mnemonics|
    requires Mnemonics[i] == Mnemonics[j]
    ensures i == j
  {
  }
}
