/** What one cycle does, opcode by opcode, and the ranges it keeps. */
module Properties {
  import opened Ternary
  import opened Isa
  import opened Semantics

  /** Registers stay in [-13, 13], C in [-1, 1] and PC + 364 nonnegative
      for every opcode. PC stays at most 364 when the program has at most
      727 instructions (see PcEscapesAt728 for why not 728). */
  lemma NextKeepsRanges(m: Machine, prog: seq<Instruction>, doEx: int -> bool)
    requires MemoryOk(m) && WellFormed(prog)
    requires |prog| == 0 || Fetchable(m, prog)
    ensures RegistersOk(Next(m, prog, doEx))
    ensures Abs(Next(m, prog, doEx).c) <= 1
    ensures Next(m, prog, doEx).pc >= -364
    ensures |prog| <= 727 ==> MemoryOk(Next(m, prog, doEx))
  {
    if |prog| > 0 {
      var ins := Fetch(m, prog);
      assert WellFormedInstruction(ins);
      var m' := Next(m, prog, doEx);
      forall i | 0 <= i < 13
        ensures Abs(m'.regs[i]) <= 13
      {
        if ins.opcode == RR && Abs(ins.arg) > 1 && ins.arg > 0 {
          assert m'.regs[i] == (if i == 0 then m.regs[ins.arg - 1] else m.regs[i]);
        }
      }
    }
  }

  /** With 728 instructions the last one sits at PC = 363; a satisfied SK
      there moves PC to 365, outside the range assert_memory_state checks. */
  lemma PcEscapesAt728(doEx: int -> bool)
    ensures var m := Machine(seq(13, i => 0), 0, 363, false);
            var prog := seq(728, i => Instruction(SK, 0));
            MemoryOk(m) && WellFormed(prog) && Fetchable(m, prog)
            && Next(m, prog, doEx).pc == 365 && !MemoryOk(Next(m, prog, doEx))
  {
    var m := Machine(seq(13, i => 0), 0, 363, false);
    var prog := seq(728, i => Instruction(SK, 0));
    assert Fetch(m, prog) == Instruction(SK, 0);
  }

  /** The halt flag is never cleared, and only a refused EX sets it. */
  lemma HaltFlag(m: Machine, prog: seq<Instruction>, doEx: int -> bool)
    requires RegistersOk(m) && WellFormed(prog)
    requires |prog| == 0 || Fetchable(m, prog)
    ensures Next(m, prog, doEx).halted <==>
              m.halted || (|prog| > 0 && Fetch(m, prog).opcode == EX && !doEx(Fetch(m, prog).arg))
  {
  }

  /** EX: a refusing environment halts the machine with PC unchanged; an
      accepting one lets PC advance. Registers and C are untouched. */
  lemma NextEx(m: Machine, prog: seq<Instruction>, doEx: int -> bool)
    requires RegistersOk(m) && WellFormed(prog) && Fetchable(m, prog)
    requires Fetch(m, prog).opcode == EX
    ensures var m' := Next(m, prog, doEx);
            var arg := Fetch(m, prog).arg;
            m'.regs == m.regs && m'.c == m.c
            && (m'.halted <==> m.halted || !doEx(arg))
            && m'.pc == (if doEx(arg) then m.pc + 1 else m.pc)
  {
  }

  /** JP: PC becomes R13*27 + arg with no further advance, and the target
      is inside [-364, 364], so PC + 364 is never negative after a jump. */
  lemma NextJump(m: Machine, prog: seq<Instruction>, doEx: int -> bool)
    requires RegistersOk(m) && WellFormed(prog) && Fetchable(m, prog)
    requires Fetch(m, prog).opcode == JP
    ensures var m' := Next(m, prog, doEx);
            m'.pc == m.regs[12] * 27 + Fetch(m, prog).arg
            && -364 <= m'.pc <= 364
            && m'.regs == m.regs && m'.c == m.c && m'.halted == m.halted
  {
    assert -13 <= m.regs[12] <= 13;
    assert WellFormedInstruction(Fetch(m, prog));
  }

  /** Every address in [-364, 364] is the target of some JP: some R13 and
      some argument, both trytes, give it. */
  lemma JumpTargetsCover(t: int)
    requires -364 <= t <= 364
    ensures exists page, arg :: -13 <= page <= 13 && -13 <= arg <= 13 && JumpTarget(page, arg) == t
  {
    var arg := (t + 13) % 27 - 13;
    var page := (t - arg) / 27;
    assert JumpTarget(page, arg) == t;
  }

  /** SK: PC advances by 2 exactly when the skip condition holds and by 1
      otherwise. For |arg| > 1 the condition tests one of R1..R4 (the test
      holds for a positive arg, fails for a negative one); otherwise it is
      C == arg. Nothing else changes. */
  lemma NextSkip(m: Machine, prog: seq<Instruction>, doEx: int -> bool)
    requires RegistersOk(m) && WellFormed(prog) && Fetchable(m, prog)
    requires Fetch(m, prog).opcode == SK
    ensures var m' := Next(m, prog, doEx);
            var arg := Fetch(m, prog).arg;
            (Abs(arg) > 1 ==> 0 <= (Abs(arg) - 2) / 3 <= 3)
            && (m'.pc == m.pc + 1 || m'.pc == m.pc + 2)
            && (m'.pc == m.pc + 2 <==>
                  if Abs(arg) > 1
                  then (arg > 0 <==> Test((Abs(arg) - 2) % 3, m.regs[(Abs(arg) - 2) / 3]))
                  else m.c == arg)
            && m'.regs == m.regs && m'.c == m.c && m'.halted == m.halted
  {
    assert WellFormedInstruction(Fetch(m, prog));
  }

  /** SK a and SK -a (|a| > 1) skip under complementary conditions. */
  lemma SkipComplement(m: Machine, arg: int)
    requires |m.regs| == 13 && 1 < arg <= 13
    ensures SkipTaken(m, arg) != SkipTaken(m, -arg)
  {
  }

  /** The digits of Tritwise(table, x) are the table applied to each digit
      of x: digit d of x selects digit 1 - d of table. */
  lemma TritwiseDigits(table: int, x: int)
    requires -13 <= table <= 13 && -13 <= x <= 13
    ensures Encode(Tritwise(table, x)) == ApplyTable(Encode(table), Encode(x))
  {
    EncodeDecode(ApplyTable(Encode(table), Encode(x)));
  }

  /** Tritwise computed from any digit triples of table and x (there is
      only one triple per value). */
  lemma TritwiseOfDigits(table: int, x: int, a: seq<int>, d: seq<int>)
    requires IsTrits(a) && IsTrits(d)
    requires -13 <= table <= 13 && -13 <= x <= 13
    requires Decode(a) == table && Decode(d) == x
    ensures Tritwise(table, x) == Decode(ApplyTable(a, d))
  {
    EncodeDecode(a);
    EncodeDecode(d);
  }

  /** Table -8 has digits [1, 0, -1]: the identity. */
  lemma TritwiseIdentity(x: int)
    requires -13 <= x <= 13
    ensures Tritwise(-8, x) == x
  {
    assert Encode(-8) == [1, 0, -1];
  }

  /** Table 8 has digits [-1, 0, 1]: negation of every digit, so of the value. */
  lemma TritwiseNegate(x: int)
    requires -13 <= x <= 13
    ensures Tritwise(8, x) == -x
  {
    assert Encode(8) == [-1, 0, 1];
  }

  /** Tables compose digit by digit. */
  lemma ApplyTableCompose(a2: seq<int>, a1: seq<int>, d: seq<int>)
    requires IsTrits(a2) && IsTrits(a1) && IsTrits(d)
    ensures ApplyTable(a2, ApplyTable(a1, d)) == ApplyTable(ApplyTable(a2, a1), d)
  {
  }

  /** Applying table t1 and then table t2 is applying one table: t2 applied
      to the digits of t1. */
  lemma TritwiseCompose(t2: int, t1: int, x: int)
    requires -13 <= t2 <= 13 && -13 <= t1 <= 13 && -13 <= x <= 13
    ensures Tritwise(t2, Tritwise(t1, x)) == Tritwise(Tritwise(t2, t1), x)
  {
    var a1, a2, d := Encode(t1), Encode(t2), Encode(x);
    TritwiseDigits(t1, x);
    TritwiseDigits(t2, t1);
    ApplyTableCompose(a2, a1, d);
  }

  /** OP: R1 becomes the table arg applied digit by digit to the old R1;
      no other register, C or the halt flag changes, and PC advances by 1. */
  lemma NextOp(m: Machine, prog: seq<Instruction>, doEx: int -> bool)
    requires RegistersOk(m) && WellFormed(prog) && Fetchable(m, prog)
    requires Fetch(m, prog).opcode == OP
    ensures var m' := Next(m, prog, doEx);
            var arg := Fetch(m, prog).arg;
            -13 <= m'.regs[0] <= 13
            && Encode(m'.regs[0]) == ApplyTable(Encode(arg), Encode(m.regs[0]))
            && (forall i :: 1 <= i < 13 ==> m'.regs[i] == m.regs[i])
            && m'.c == m.c && m'.halted == m.halted && m'.pc == m.pc + 1
  {
    assert WellFormedInstruction(Fetch(m, prog));
    TritwiseDigits(Fetch(m, prog).arg, m.regs[0]);
  }

  /** RR +1 / RR -1: the sum is stored with C = 0 when it stays in
      [-13, 13]; above 13 it wraps down by 27 with C = 1, below -13 it wraps
      up by 27 with C = -1. R1 + 27*C is always old R1 + arg. */
  lemma NextIncrement(m: Machine, prog: seq<Instruction>, doEx: int -> bool)
    requires RegistersOk(m) && WellFormed(prog) && Fetchable(m, prog)
    requires Fetch(m, prog).opcode == RR && Abs(Fetch(m, prog).arg) == 1
    ensures var m' := Next(m, prog, doEx);
            var s := m.regs[0] + Fetch(m, prog).arg;
            (-13 <= s <= 13 ==> m'.regs[0] == s && m'.c == 0)
            && (s > 13 ==> m'.regs[0] == s - 27 && m'.c == 1)
            && (s < -13 ==> m'.regs[0] == s + 27 && m'.c == -1)
            && m'.regs[0] + 27 * m'.c == s
            && (forall i :: 1 <= i < 13 ==> m'.regs[i] == m.regs[i])
            && m'.halted == m.halted && m'.pc == m.pc + 1
  {
  }

  /** Increment is addition modulo 27 on the balanced range [-13, 13]. */
  lemma IncrementModular(x: int, delta: int)
    requires -13 <= x <= 13 && (delta == 1 || delta == -1)
    ensures Increment(x, delta).0 == (x + delta + 13) % 27 - 13
  {
    var (v, carry) := Increment(x, delta);
    assert x + delta + 13 == 27 * carry + (v + 13);
  }

  /** RR 1 wraps R1 = 13 to -13 with carry 1; RR -1 wraps -13 to 13 with
      borrow -1. */
  lemma IncrementWraps()
    ensures Increment(13, 1) == (-13, 1)
    ensures Increment(-13, -1) == (13, -1)
  {
  }

  /** RR 0 only advances PC; RR arg (arg > 1) copies register arg - 1 into
      R1; RR arg (arg < -1) copies R1 into register -arg - 1. C and the halt
      flag are unchanged and PC advances by 1. */
  lemma NextCopy(m: Machine, prog: seq<Instruction>, doEx: int -> bool)
    requires RegistersOk(m) && WellFormed(prog) && Fetchable(m, prog)
    requires Fetch(m, prog).opcode == RR && Abs(Fetch(m, prog).arg) != 1
    ensures var m' := Next(m, prog, doEx);
            var arg := Fetch(m, prog).arg;
            (arg == 0 ==> m' == m.(pc := m.pc + 1))
            && (arg > 1 ==> m'.regs == m.regs[0 := m.regs[arg - 1]])
            && (arg < -1 ==> m'.regs == m.regs[-arg - 1 := m.regs[0]])
            && m'.c == m.c && m'.halted == m.halted && m'.pc == m.pc + 1
  {
  }

  /** R1..R4 arg: register opcode - 1 becomes arg; nothing else changes
      except PC, which advances by 1. */
  lemma NextLoad(m: Machine, prog: seq<Instruction>, doEx: int -> bool)
    requires RegistersOk(m) && WellFormed(prog) && Fetchable(m, prog)
    requires 1 <= Fetch(m, prog).opcode <= 4
    ensures var m' := Next(m, prog, doEx);
            var ins := Fetch(m, prog);
            m'.regs == m.regs[ins.opcode - 1 := ins.arg]
            && m'.c == m.c && m'.halted == m.halted && m'.pc == m.pc + 1
  {
  }

  /** An empty program makes a cycle a no-op. */
  lemma NextEmpty(m: Machine, doEx: int -> bool)
    requires RegistersOk(m)
    ensures Next(m, [], doEx) == m
  {
  }

  /** Loading R2 with 7 and then RR 2 leaves 7 in R1. */
  lemma CopyScenario(m: Machine, doEx: int -> bool)
    requires RegistersOk(m) && m.pc == -364
    ensures var prog := [Instruction(R2, 7), Instruction(RR, 2)];
            var m1 := Next(m, prog, doEx);
            RegistersOk(m1) && Fetchable(m1, prog) && Next(m1, prog, doEx).regs[0] == 7
  {
    var prog := [Instruction(R2, 7), Instruction(RR, 2)];
    var m1 := Next(m, prog, doEx);
    assert m1.regs == m.regs[1 := 7];
  }
}
