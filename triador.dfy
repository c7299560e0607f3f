/** The Triador machine object: its registers, carry flag, program counter,
    halt flag and loaded program, updated in place by cycle, run and
    load_program. */
module Triador {
  import opened Ternary
  import opened Isa
  import opened Semantics
  import opened Execution
  import opened Loader
  import Properties

  /** The OP case of cycle: split value and table into digits with
      binary_to_ternary, let each digit d of value select digit 1 - d of
      the table, and put the digits back together. */
  method TritwiseOp(table: int, value: int) returns (result: int)
    requires -13 <= table <= 13 && -13 <= value <= 13
    ensures result == Tritwise(table, value)
  {
    var tttMem := new int[3];
    var tttArg := new int[3];
    var tttRes := new int[3];
    BinaryToTernary(value, tttMem);
    BinaryToTernary(table, tttArg);
    ghost var d := tttMem[..];
    ghost var a := tttArg[..];
    for i := 0 to 3
      modifies tttRes
      invariant forall j :: 0 <= j < i ==> tttRes[j] == a[1 - d[j]]
    {
      tttRes[i] := tttArg[1 - tttMem[i]];
    }
    assert tttRes[..] == ApplyTable(a, d);
    Properties.TritwiseOfDigits(table, value, a, d);
    result := tttRes[0] + 3 * tttRes[1] + 9 * tttRes[2];
  }

  class Triador {
    /** R1..R13 are R[0]..R[12]. */
    const R: array<int>
    var C: int
    var PC: int
    var fHalt: bool
    var program: seq<Instruction>

    /** The machine as a value, for the specifications in Semantics. */
    ghost function State(): Machine
      reads this, R
    {
      Machine(R[..], C, PC, fHalt)
    }

    /** Thirteen registers and a program that passed the loader's checks. */
    ghost predicate Layout()
      reads this
    {
      R.Length == 13 && WellFormed(program)
    }

    /** The class invariant: the layout and the ranges of assert_memory_state. */
    ghost predicate Valid()
      reads this, R
    {
      Layout() && MemoryOk(State())
    }

    /** Power-on: noise[i] stands for the i-th rand() result after seeding.
        R[i] := noise[i] % 27 - 13, C := noise[13] % 2 - 1, PC := -364. */
    constructor (noise: seq<int>)
      requires |noise| == 14 && forall i :: 0 <= i < 14 ==> noise[i] >= 0
      ensures Valid() && fresh(R) && program == []
      ensures R[..] == seq(13, i requires 0 <= i < 13 => noise[i] % 27 - 13)
      ensures C == noise[13] % 2 - 1 && (C == -1 || C == 0)
      ensures PC == -364 && !fHalt
    {
      PC := -364;
      var regs := new int[13];
      for i := 0 to 13
        invariant forall j :: 0 <= j < i ==> regs[j] == noise[j] % 27 - 13
      {
        regs[i] := noise[i] % 27 - 13;
      }
      R := regs;
      C := noise[13] % 2 - 1;
      fHalt := false;
      program := [];
    }

    /** assert_memory_state, returning whether every assertion holds. */
    method AssertMemoryState() returns (ok: bool)
      requires R.Length == 13
      ensures ok == MemoryOk(State())
    {
      ok := true;
      for i := 0 to 13
        invariant ok == forall j :: 0 <= j < i ==> Abs(R[j]) <= 13
      {
        if Abs(R[i]) > 13 {
          ok := false;
        }
      }
      ok := ok && Abs(C) <= 1 && Abs(PC) <= 364;
    }

    /** Triador::cycle: fetch the instruction at PC + 364, execute it and
        advance PC. doEx is the environment call handler do_ex. */
    method Cycle(doEx: int -> bool)
      requires Valid()
      requires |program| == 0 || PC + 364 < |program|
      modifies this, R
      ensures program == old(program)
      ensures State() == Next(old(State()), program, doEx)
      ensures |program| <= 727 ==> Valid()
    {
      Properties.NextKeepsRanges(State(), program, doEx);
      if |program| == 0 {
        return;
      }
      ghost var m := State();
      var opcode := program[PC + 364].opcode;
      var arg := program[PC + 364].arg;
      assert Fetch(m, program) == Instruction(opcode, arg);
      assert Abs(opcode) <= 4 && Abs(arg) <= 13;
      if opcode == EX {
        if !doEx(arg) {
          fHalt := true;
          return;
        }
      } else if opcode == JP {
        PC := R[12] * 27 + arg;
        return;
      } else {
        ghost var e := Effect(m, Instruction(opcode, arg));
        Execute(opcode, arg);
        PC := PC + 1;
        assert State() == e.(pc := e.pc + 1);
        return;
      }
      PC := PC + 1;
    }

    /** The cases SK, OP, RR and R1..R4 of the switch in cycle. */
    method Execute(opcode: int, arg: int)
      requires Valid() && SK <= opcode <= 4 && -13 <= arg <= 13
      modifies this`PC, this`C, R
      ensures State() == Effect(old(State()), Instruction(opcode, arg))
    {
      ghost var m := State();
      if opcode == SK {
        Skip(arg);
      } else if opcode == OP {
        var y := TritwiseOp(arg, R[0]);
        R[0] := y;
      } else if opcode == RR {
        if arg != 0 {
          if Abs(arg) == 1 {
            R[0] := R[0] + arg;
            if Abs(R[0]) <= 13 {
              C := 0;
            } else if R[0] > 13 {
              C := 1;
              R[0] := R[0] - 27;
            } else if R[0] < -13 {
              C := -1;
              R[0] := R[0] + 27;
            }
            assert (R[0], C) == Increment(m.regs[0], arg);
          } else {
            R[if arg < 0 then -arg - 1 else 0] := R[if arg < 0 then 0 else arg - 1];
          }
        }
      } else if opcode == R1 {
        R[0] := arg;
      } else if opcode == R2 {
        R[1] := arg;
      } else if opcode == R3 {
        R[2] := arg;
      } else {
        R[3] := arg;
      }
    }

    /** SK arg, before the common PC advance: one extra step exactly when
        the skip condition holds (the three tests are exclusive, so at most
        one of them fires). */
    method Skip(arg: int)
      requires R.Length == 13 && -13 <= arg <= 13
      modifies this`PC
      ensures PC == old(PC) + (if SkipTaken(State(), arg) then 1 else 0)
    {
      if Abs(arg) > 1 {
        var reg := R[(Abs(arg) - 2) / 3];
        var cmp := (Abs(arg) - 2) % 3;
        if arg > 0 {
          if cmp == 0 && reg < 0 { PC := PC + 1; }
          if cmp == 1 && reg == 0 { PC := PC + 1; }
          if cmp == 2 && reg > 0 { PC := PC + 1; }
        } else {
          if cmp == 0 && reg >= 0 { PC := PC + 1; }
          if cmp == 1 && reg != 0 { PC := PC + 1; }
          if cmp == 2 && reg <= 0 { PC := PC + 1; }
        }
      } else {
        if arg == -1 && C == -1 { PC := PC + 1; }
        if arg == 0 && C == 0 { PC := PC + 1; }
        if arg == 1 && C == 1 { PC := PC + 1; }
      }
    }

    /** Triador::run without the display: check memory, return on an empty
        program, then cycle until the memory check fails, PC + 364 leaves
        the program or the halt flag is set. env(k) is do_ex during cycle
        k; fuel bounds the number of cycles. */
    method Run(env: nat -> int -> bool, fuel: nat) returns (stop: Stop, steps: nat)
      requires Layout()
      requires MemoryOk(State()) && |program| > 0 ==> PC + 364 < |program|
      modifies this, R
      ensures program == old(program)
      ensures Outcome(State(), stop, steps) == RunSpec(old(State()), program, env, fuel)
    {
      steps := 0;
      ghost var goal := RunSpec(State(), program, env, fuel);
      var ok := AssertMemoryState();
      if !ok {
        stop := Aborted;
        return;
      }
      if |program| == 0 {
        stop := EmptyProgram;
        return;
      }
      while steps < fuel
        invariant Valid() && program == old(program)
        invariant Fetchable(State(), program)
        invariant steps <= fuel
        invariant Loop(State(), program, env, fuel - steps, steps) == goal
      {
        ghost var m := State();
        ghost var k := steps;
        Cycle(env(steps));
        ghost var m' := State();
        assert m' == Next(m, program, env(k));
        steps := steps + 1;
        ok := AssertMemoryState();
        if !ok {
          LoopStep(m, program, env, fuel - k, k);
          stop := Aborted;
          return;
        }
        if PC + 364 >= |program| {
          LoopStep(m, program, env, fuel - k, k);
          stop := LeftProgram;
          return;
        }
        if fHalt {
          LoopStep(m, program, env, fuel - k, k);
          stop := Halted;
          return;
        }
        LoopStep(m, program, env, fuel - k, k);
      }
      stop := OutOfFuel;
    }

    /** load_program over tokenised lines: start from an empty program and
        append each accepted line, stopping at the end of the input, at a
        blank line, or at a malformed line (which also sets warned, where
        the C++ writes its warning). Nothing else changes. */
    method LoadProgram(lines: seq<Line>) returns (warned: bool)
      modifies this
      ensures program == ParseProgram(lines)
      ensures warned == EndsMalformed(lines)
      ensures WellFormed(program)
      ensures C == old(C) && PC == old(PC) && fHalt == old(fHalt)
    {
      ghost var p := ParseProgram(lines);
      ParseAt(lines, 0);
      var loaded: seq<Instruction> := [];
      warned := false;
      var k := 0;
      while k < |lines|
        invariant 0 <= k <= |p| <= |lines|
        invariant loaded == p[..k]
        invariant C == old(C) && PC == old(PC) && fHalt == old(fHalt)
        invariant !warned
      {
        ParseAt(lines, k);
        var v := ReadLine(lines[k]);
        if !v.Accept? {
          warned := v.Malformed?;
          break;
        }
        assert p[..k + 1] == loaded + [v.ins];
        loaded := loaded + [v.ins];
        k := k + 1;
      }
      assert loaded == p;
      program := loaded;
    }
  }
}
