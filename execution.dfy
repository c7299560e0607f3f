/** The run loop as a function: cycles repeat until the memory check fails,
    PC leaves the program or the halt flag is set. A fuel bound stands for
    the unbounded while(1) loop. */
module Execution {
  import opened Isa
  import opened Semantics
  import Properties

  /** Why a run ended. Aborted is where the C++ assertion in
      assert_memory_state would abort the process. */
  datatype Stop = Aborted | EmptyProgram | LeftProgram | Halted | OutOfFuel

  /** Final machine, stop reason and number of cycles executed. */
  datatype Outcome = Outcome(last: Machine, stop: Stop, steps: nat)

  /** The loop body repeated at most fuel times; k is the number of cycles
      already executed, and env(k) is what do_ex answers in cycle k. */
  function Loop(m: Machine, prog: seq<Instruction>, env: nat -> int -> bool, fuel: nat, k: nat): (o: Outcome)
    requires MemoryOk(m) && WellFormed(prog) && Fetchable(m, prog)
    ensures k <= o.steps <= k + fuel
    decreases fuel
  {
    if fuel == 0 then Outcome(m, OutOfFuel, k)
    else
      var m' := Next(m, prog, env(k));
      if !MemoryOk(m') then Outcome(m', Aborted, k + 1)
      else if m'.pc + 364 >= |prog| then Outcome(m', LeftProgram, k + 1)
      else if m'.halted then Outcome(m', Halted, k + 1)
      else Loop(m', prog, env, fuel - 1, k + 1)
  }

  /** Triador::run: check memory, return at once on an empty program, and
      otherwise run the loop (which executes at least one cycle). */
  function RunSpec(m: Machine, prog: seq<Instruction>, env: nat -> int -> bool, fuel: nat): (o: Outcome)
    requires |m.regs| == 13 && WellFormed(prog)
    requires MemoryOk(m) && |prog| > 0 ==> Fetchable(m, prog)
    ensures o.steps <= fuel
  {
    if !MemoryOk(m) then Outcome(m, Aborted, 0)
    else if |prog| == 0 then Outcome(m, EmptyProgram, 0)
    else Loop(m, prog, env, fuel, 0)
  }

  /** One turn of the loop: the cycle, then the three exit checks in the
      order Triador::run makes them. */
  lemma LoopStep(m: Machine, prog: seq<Instruction>, env: nat -> int -> bool, fuel: nat, k: nat)
    requires MemoryOk(m) && WellFormed(prog) && Fetchable(m, prog) && fuel > 0
    ensures var m' := Next(m, prog, env(k));
            var o := Loop(m, prog, env, fuel, k);
            (!MemoryOk(m') ==> o == Outcome(m', Aborted, k + 1))
            && (MemoryOk(m') && m'.pc + 364 >= |prog| ==> o == Outcome(m', LeftProgram, k + 1))
            && (MemoryOk(m') && m'.pc + 364 < |prog| && m'.halted ==> o == Outcome(m', Halted, k + 1))
            && (MemoryOk(m') && m'.pc + 364 < |prog| && !m'.halted ==>
                  o == Loop(m', prog, env, fuel - 1, k + 1))
  {
  }

  /** How a loop started at cycle k with the given fuel can have ended:
      each stop reason comes with the exit check that fired on the last
      machine, in the order Triador::run makes them, and running out of fuel
      means that exactly fuel cycles ran and no check fired. */
  predicate Stopped(o: Outcome, prog: seq<Instruction>, fuel: nat, k: nat) {
    o.stop != EmptyProgram
    && (o.stop != OutOfFuel ==> k < o.steps)
    && (o.stop == Aborted ==> !MemoryOk(o.last))
    && (o.stop == LeftProgram ==> MemoryOk(o.last) && o.last.pc + 364 >= |prog|)
    && (o.stop == Halted ==> MemoryOk(o.last) && Fetchable(o.last, prog) && o.last.halted)
    && (o.stop == OutOfFuel ==>
          o.steps == k + fuel && MemoryOk(o.last) && Fetchable(o.last, prog)
          && (fuel > 0 ==> !o.last.halted))
  }

  /** None of the three exit checks of the loop fires on m. */
  predicate Continues(m: Machine, prog: seq<Instruction>) {
    MemoryOk(m) && m.pc + 364 < |prog| && !m.halted
  }

  /** A turn after which the loop goes on: the rest is the loop from the
      next machine, one cycle later, with one unit of fuel less. */
  lemma LoopContinues(m: Machine, prog: seq<Instruction>, env: nat -> int -> bool, fuel: nat, k: nat, m': Machine)
    requires MemoryOk(m) && WellFormed(prog) && Fetchable(m, prog) && fuel > 0
    requires m' == Next(m, prog, env(k)) && Continues(m', prog)
    ensures Fetchable(m', prog)
    ensures Loop(m, prog, env, fuel, k) == Loop(m', prog, env, fuel - 1, k + 1)
  {
  }

  /** A turn after which the loop stops ends it whatever fuel remains. */
  lemma LoopExits(m: Machine, prog: seq<Instruction>, env: nat -> int -> bool, fuel: nat, fuel': nat, k: nat)
    requires MemoryOk(m) && WellFormed(prog) && Fetchable(m, prog) && fuel > 0 && fuel' > 0
    requires !Continues(Next(m, prog, env(k)), prog)
    ensures Loop(m, prog, env, fuel, k) == Loop(m, prog, env, fuel', k)
  {
  }

  /** The loop stops for exactly the reasons the C++ loop breaks: the
      memory check failed, PC + 364 reached the end of the program, or the
      halt flag is set with PC still inside; otherwise the fuel ran out
      after exactly fuel cycles. */
  lemma {:induction false} LoopStops(m: Machine, prog: seq<Instruction>, env: nat -> int -> bool, fuel: nat, k: nat)
    requires MemoryOk(m) && WellFormed(prog) && Fetchable(m, prog)
    ensures Stopped(Loop(m, prog, env, fuel, k), prog, fuel, k)
    decreases fuel
  {
    if fuel > 0 {
      var m' := Next(m, prog, env(k));
      LoopStep(m, prog, env, fuel, k);
      if MemoryOk(m') && m'.pc + 364 < |prog| && !m'.halted {
        LoopStops(m', prog, env, fuel - 1, k + 1);
      }
    }
  }

  /** Programs of at most 727 instructions never trip assert_memory_state. */
  lemma {:induction false} LoopNeverAborts(m: Machine, prog: seq<Instruction>, env: nat -> int -> bool, fuel: nat, k: nat)
    requires MemoryOk(m) && WellFormed(prog) && Fetchable(m, prog)
    requires |prog| <= 727
    ensures Loop(m, prog, env, fuel, k).stop != Aborted
    decreases fuel
  {
    if fuel > 0 {
      Properties.NextKeepsRanges(m, prog, env(k));
      LoopStep(m, prog, env, fuel, k);
      var m' := Next(m, prog, env(k));
      if m'.pc + 364 < |prog| && !m'.halted {
        LoopNeverAborts(m', prog, env, fuel - 1, k + 1);
      }
    }
  }

  /** The fuel only bounds the run: a run that stopped for a reason of its
      own ends the same way with more fuel. */
  lemma {:induction false} LoopMoreFuel(m: Machine, prog: seq<Instruction>, env: nat -> int -> bool, fuel: nat, extra: nat, k: nat)
    requires MemoryOk(m) && WellFormed(prog) && Fetchable(m, prog)
    requires Loop(m, prog, env, fuel, k).stop != OutOfFuel
    ensures Loop(m, prog, env, fuel + extra, k) == Loop(m, prog, env, fuel, k)
    decreases fuel
  {
    assert fuel > 0;
    var m' := Next(m, prog, env(k));
    if Continues(m', prog) {
      LoopContinues(m, prog, env, fuel, k, m');
      LoopContinues(m, prog, env, fuel + extra, k, m');
      LoopMoreFuel(m', prog, env, fuel - 1, extra, k + 1);
    } else {
      LoopExits(m, prog, env, fuel, fuel + extra, k);
    }
  }

  /** Triador::run on an empty program executes no cycle. */
  lemma RunEmpty(m: Machine, env: nat -> int -> bool, fuel: nat)
    requires MemoryOk(m)
    ensures RunSpec(m, [], env, fuel) == Outcome(m, EmptyProgram, 0)
  {
  }

  /** Triador::run from a state inside the ranges, with a program of at most
      727 instructions, ends only by halting, by leaving the program, or by
      running out of fuel, and ends in a state inside the ranges. */
  lemma RunSafe(m: Machine, prog: seq<Instruction>, env: nat -> int -> bool, fuel: nat)
    requires MemoryOk(m) && WellFormed(prog) && 0 < |prog| <= 727 && Fetchable(m, prog)
    ensures var o := RunSpec(m, prog, env, fuel);
            MemoryOk(o.last)
            && (o.stop == Halted || o.stop == LeftProgram || o.stop == OutOfFuel)
            && (o.stop == Halted ==> o.last.halted)
            && (o.stop == LeftProgram ==> o.last.pc + 364 >= |prog|)
  {
    LoopStops(m, prog, env, fuel, 0);
    LoopNeverAborts(m, prog, env, fuel, 0);
  }

  /** With 728 instructions, a taken SK in the last slot ends the run in
      the memory check instead of in the check that PC left the program. */
  lemma RunAbortsAt728(env: nat -> int -> bool, fuel: nat)
    requires fuel > 0
    ensures var m := Machine(seq(13, i => 0), 0, 363, false);
            var prog := seq(728, i => Instruction(SK, 0));
            RunSpec(m, prog, env, fuel) == Outcome(m.(pc := 365), Aborted, 1)
  {
    var m := Machine(seq(13, i => 0), 0, 363, false);
    var prog := seq(728, i => Instruction(SK, 0));
    Properties.PcEscapesAt728(env(0));
    LoopStep(m, prog, env, fuel, 0);
  }
}
