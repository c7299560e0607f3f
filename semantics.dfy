/** One fetch-decode-execute cycle of the Triador, as a function on machine
    values. The class in the Triador module is proved to do exactly this. */
module Semantics {
  import opened Ternary
  import opened Isa

  /** A snapshot of the machine: 13 registers (regs[0] is R1), the carry
      flag, the program counter and the halt flag. */
  datatype Machine = Machine(regs: seq<int>, c: int, pc: int, halted: bool)

  /** Registers hold trytes: 13 of them, each in [-13, 13]. */
  predicate RegistersOk(m: Machine) {
    |m.regs| == 13 && forall i :: 0 <= i < 13 ==> Abs(m.regs[i]) <= 13
  }

  /** The ranges that assert_memory_state checks. */
  predicate MemoryOk(m: Machine) {
    RegistersOk(m) && Abs(m.c) <= 1 && Abs(m.pc) <= 364
  }

  /** PC + 364 indexes the program. */
  predicate Fetchable(m: Machine, prog: seq<Instruction>) {
    0 <= m.pc + 364 < |prog|
  }

  /** The instruction at PC. */
  function Fetch(m: Machine, prog: seq<Instruction>): Instruction
    requires Fetchable(m, prog)
  {
    prog[m.pc + 364]
  }

  /** The address JP jumps to: page R13 of 27 instructions, offset arg. */
  function JumpTarget(page: int, arg: int): int {
    page * 27 + arg
  }

  /** The three tests of SK: 0 is "negative", 1 is "zero", 2 is "positive". */
  predicate Test(cmp: int, reg: int) {
    (cmp == 0 && reg < 0) || (cmp == 1 && reg == 0) || (cmp == 2 && reg > 0)
  }

  /** Whether SK arg skips the next instruction: for |arg| > 1 a test on one
      of R1..R4 (negated for a negative arg); otherwise C == arg. */
  predicate SkipTaken(m: Machine, arg: int)
    requires |m.regs| == 13 && -13 <= arg <= 13
  {
    if Abs(arg) > 1 then
      var holds := Test((Abs(arg) - 2) % 3, m.regs[(Abs(arg) - 2) / 3]);
      if arg > 0 then holds else !holds
    else
      m.c == arg
  }

  /** A truth table on trits, given as digits [t(1), t(0), t(-1)], applied
      to each of the digits d: digit d[i] selects a[1 - d[i]]. */
  function ApplyTable(a: seq<int>, d: seq<int>): (r: seq<int>)
    requires IsTrits(a) && IsTrits(d)
    ensures IsTrits(r)
  {
    [a[1 - d[0]], a[1 - d[1]], a[1 - d[2]]]
  }

  /** OP: the digits of table, as a truth table, applied to every digit of x. */
  function Tritwise(table: int, x: int): (y: int)
    requires -13 <= table <= 13 && -13 <= x <= 13
    ensures -13 <= y <= 13
  {
    Decode(ApplyTable(Encode(table), Encode(x)))
  }

  /** RR +1 / RR -1: add delta to x, wrapping into [-13, 13]; the second
      component is the carry that records the wrap. */
  function Increment(x: int, delta: int): (r: (int, int))
    requires -13 <= x <= 13 && (delta == 1 || delta == -1)
    ensures -13 <= r.0 <= 13 && -1 <= r.1 <= 1
    ensures r.0 + 27 * r.1 == x + delta
  {
    var s := x + delta;
    if Abs(s) <= 13 then (s, 0)
    else if s > 13 then (s - 27, 1)
    else (s + 27, -1)
  }

  /** RR before the common PC advance: no-op, increment/decrement, or copy
      between R1 and any register. */
  function RegisterOp(m: Machine, arg: int): (r: Machine)
    requires RegistersOk(m) && -13 <= arg <= 13
    ensures |r.regs| == 13 && r.pc == m.pc && r.halted == m.halted
    ensures Abs(arg) != 1 ==> r.c == m.c
  {
    if arg == 0 then m
    else if Abs(arg) == 1 then
      var (v, carry) := Increment(m.regs[0], arg);
      m.(regs := m.regs[0 := v], c := carry)
    else if arg < 0 then m.(regs := m.regs[-arg - 1 := m.regs[0]])
    else m.(regs := m.regs[0 := m.regs[arg - 1]])
  }

  /** The switch of cycle for SK, OP, RR and R1..R4, before the common PC
      advance: SK adds the extra step of a taken skip, OP and R1..R4 write
      a register, RR is RegisterOp. */
  function Effect(m: Machine, ins: Instruction): (r: Machine)
    requires RegistersOk(m) && WellFormedInstruction(ins) && ins.opcode >= SK
  {
    var arg := ins.arg;
    if ins.opcode == SK then
      m.(pc := m.pc + (if SkipTaken(m, arg) then 1 else 0))
    else if ins.opcode == OP then
      m.(regs := m.regs[0 := Tritwise(arg, m.regs[0])])
    else if ins.opcode == RR then
      RegisterOp(m, arg)
    else
      m.(regs := m.regs[ins.opcode - 1 := arg])
  }

  /** One cycle. An empty program changes nothing; otherwise the instruction
      at PC + 364 executes and PC advances by one, except for JP, which sets
      PC to R13*27 + arg, and for EX when the environment refuses, which sets
      the halt flag and leaves PC where it is. */
  function Next(m: Machine, prog: seq<Instruction>, doEx: int -> bool): (m': Machine)
    requires RegistersOk(m) && WellFormed(prog)
    requires |prog| == 0 || Fetchable(m, prog)
    ensures |m'.regs| == 13
  {
    if |prog| == 0 then m
    else
      var ins := Fetch(m, prog);
      if ins.opcode == EX then
        if doEx(ins.arg) then m.(pc := m.pc + 1) else m.(halted := true)
      else if ins.opcode == JP then
        m.(pc := JumpTarget(m.regs[12], ins.arg))
      else
        var e := Effect(m, ins);
        e.(pc := e.pc + 1)
  }
}
