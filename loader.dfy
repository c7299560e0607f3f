/** Validation of program lines, as load_program does it once a line has
    been split into an opcode token and an integer. */
module Loader {
  import opened Ternary
  import opened Isa

  datatype Option<T> = None | Some(value: T)

  /** A line of the program file after tokenisation. Blank is a line of
      length zero. Tokens carries the first whitespace-separated token and
      the integer read after it; arg is None when the stream extraction
      failed (no token, no integer, or an integer out of the int range). */
  datatype Line = Blank | Tokens(opcode: string, arg: Option<int>)

  /** What the loader does with one line. */
  datatype Verdict = Accept(ins: Instruction) | End | Malformed

  /** Position of s in table at or after i, or -1. */
  function FindFrom(table: seq<string>, s: string, i: nat): (r: int)
    requires i <= |table|
    ensures -1 <= r < |table|
    decreases |table| - i
  {
    if i == |table| then -1
    else if table[i] == s then i
    else FindFrom(table, s, i + 1)
  }

  /** FindFrom is a left-to-right search: -1 exactly when no entry from i
      on is s, otherwise the first position from i on that holds s. */
  lemma {:induction false} FindFromFinds(table: seq<string>, s: string, i: nat)
    requires i <= |table|
    ensures FindFrom(table, s, i) == -1 <==> forall j :: i <= j < |table| ==> table[j] != s
    ensures FindFrom(table, s, i) != -1 ==>
              i <= FindFrom(table, s, i) && table[FindFrom(table, s, i)] == s
              && forall j :: i <= j < FindFrom(table, s, i) ==> table[j] != s
    decreases |table| - i
  {
    if i < |table| && table[i] != s {
      FindFromFinds(table, s, i + 1);
    }
  }

  /** Opcode class of a mnemonic, or -5 (out of bounds) when s is none. */
  function OpcodeOf(s: string): (r: int)
    ensures -5 <= r <= 4
  {
    var i := FindFrom(Mnemonics, s, 0);
    if i == -1 then -5 else i - 4
  }

  /** OpcodeOf finds the mnemonic when there is one: -5 exactly for a token
      that is no mnemonic, and otherwise the class whose mnemonic it is. */
  lemma OpcodeOfFinds(s: string)
    ensures OpcodeOf(s) == -5 <==> s !in Mnemonics
    ensures OpcodeOf(s) != -5 ==> Mnemonics[OpcodeOf(s) + 4] == s
  {
    FindFromFinds(Mnemonics, s, 0);
    if FindFrom(Mnemonics, s, 0) == -1 {
      assert forall j :: 0 <= j < |Mnemonics| ==> Mnemonics[j] != s;
    }
  }

  /** The lookup loop of load_program over allowed_opcodes. */
  method LookupOpcode(opcode: string) returns (instruction: int)
    ensures instruction == -5 <==> opcode !in Mnemonics
    ensures instruction != -5 ==> -4 <= instruction <= 4 && Mnemonics[instruction + 4] == opcode
  {
    instruction := -5;
    for i := 0 to 9
      invariant forall j :: 0 <= j < i ==> Mnemonics[j] != opcode
      invariant instruction == -5
    {
      if opcode != Mnemonics[i] {
        continue;
      }
      instruction := i - 4;
      break;
    }
  }

  /** Each mnemonic names its own opcode class. */
  lemma OpcodeOfMnemonic(i: int)
    requires 0 <= i < |Mnemonics|
    ensures OpcodeOf(Mnemonics[i]) == i - 4
  {
    OpcodeOfFinds(Mnemonics[i]);
    MnemonicsDistinct(OpcodeOf(Mnemonics[i]) + 4, i);
  }

  /** A blank line ends the program; a line whose extraction failed, whose
      opcode is unknown or whose argument is out of [-13, 13] is malformed. */
  function Classify(line: Line): (v: Verdict)
    ensures v.Accept? ==> WellFormedInstruction(v.ins)
  {
    match line
    case Blank => End
    case Tokens(opcode, arg) =>
      var instruction := OpcodeOf(opcode);
      if arg.None? || Abs(instruction) > 4 || Abs(arg.value) > 13 then Malformed
      else Accept(Instruction(instruction, arg.value))
  }

  /** The body of load_program's loop for one line: the blank-line test,
      the opcode lookup and the two range checks. */
  method ReadLine(line: Line) returns (v: Verdict)
    ensures v == Classify(line)
  {
    if line.Blank? {
      return End;
    }
    var instruction := LookupOpcode(line.opcode);
    assert instruction == OpcodeOf(line.opcode) by {
      OpcodeOfFinds(line.opcode);
      if instruction != -5 {
        MnemonicsDistinct(instruction + 4, OpcodeOf(line.opcode) + 4);
      }
    }
    if line.arg.None? || Abs(instruction) > 4 || Abs(line.arg.value) > 13 {
      return Malformed;
    }
    v := Accept(Instruction(instruction, line.arg.value));
  }

  /** The program load_program builds: the instructions of the lines before
      the first blank or malformed line. */
  function ParseProgram(lines: seq<Line>): (p: seq<Instruction>)
    ensures |p| <= |lines| && WellFormed(p)
  {
    if lines == [] then []
    else
      match Classify(lines[0])
      case Accept(ins) => [ins] + ParseProgram(lines[1..])
      case _ => []
  }

  /** Loading ended on a malformed line (load_program writes its warning). */
  predicate EndsMalformed(lines: seq<Line>) {
    var n := |ParseProgram(lines)|;
    n < |lines| && Classify(lines[n]).Malformed?
  }

  /** The loaded program is the longest prefix of accepted lines: each of
      its instructions comes from the line at the same position, and the
      line after it, if any, is blank or malformed. */
  lemma {:induction false} ParsePrefix(lines: seq<Line>)
    ensures |ParseProgram(lines)| <= |lines|
    ensures WellFormed(ParseProgram(lines))
    ensures forall i :: 0 <= i < |ParseProgram(lines)| ==>
              Classify(lines[i]) == Accept(ParseProgram(lines)[i])
    ensures |ParseProgram(lines)| < |lines| ==> !Classify(lines[|ParseProgram(lines)|]).Accept?
  {
    if lines != [] && Classify(lines[0]).Accept? {
      ParsePrefix(lines[1..]);
      var p := ParseProgram(lines);
      assert p == [Classify(lines[0]).ins] + ParseProgram(lines[1..]);
      forall i | 0 <= i < |p|
        ensures Classify(lines[i]) == Accept(p[i])
      {
        if i > 0 {
          assert lines[i] == lines[1..][i - 1];
        }
      }
    }
  }

  /** What load_program finds at line k while it is still inside the loaded
      program: an accepted line is the k-th instruction, any other line ends
      the program there; and the program is no longer than the input. */
  lemma ParseAt(lines: seq<Line>, k: nat)
    requires k <= |ParseProgram(lines)|
    ensures |ParseProgram(lines)| <= |lines| && WellFormed(ParseProgram(lines))
    ensures k < |lines| && Classify(lines[k]).Accept? ==>
              k < |ParseProgram(lines)| && ParseProgram(lines)[k] == Classify(lines[k]).ins
    ensures k < |lines| && !Classify(lines[k]).Accept? ==>
              k == |ParseProgram(lines)| && (EndsMalformed(lines) <==> Classify(lines[k]).Malformed?)
  {
    ParsePrefix(lines);
  }

  /** Lines after the first blank or malformed one are never read. */
  lemma {:induction false} ParseIgnoresRest(lines: seq<Line>, rest: seq<Line>)
    requires |ParseProgram(lines)| < |lines|
    ensures ParseProgram(lines + rest) == ParseProgram(lines)
  {
    assert (lines + rest)[0] == lines[0];
    if Classify(lines[0]).Accept? {
      assert (lines + rest)[1..] == lines[1..] + rest;
      ParseIgnoresRest(lines[1..], rest);
    }
  }

  /** Three well-formed lines followed by one whose argument is out of
      range load as exactly those three instructions, and loading ends with
      the warning. */
  lemma TruncatesAtMalformedLine()
    ensures var lines := [Tokens("R2", Some(7)), Tokens("RR", Some(2)), Tokens("EX", Some(0)),
                          Tokens("R1", Some(14))];
            ParseProgram(lines) == [Instruction(R2, 7), Instruction(RR, 2), Instruction(EX, 0)]
            && EndsMalformed(lines)
  {
    var lines := [Tokens("R2", Some(7)), Tokens("RR", Some(2)), Tokens("EX", Some(0)),
                  Tokens("R1", Some(14))];
    OpcodeOfMnemonic(6);
    OpcodeOfMnemonic(4);
    OpcodeOfMnemonic(0);
    OpcodeOfMnemonic(5);
    assert Classify(lines[0]) == Accept(Instruction(R2, 7));
    assert Classify(lines[1]) == Accept(Instruction(RR, 2));
    assert Classify(lines[2]) == Accept(Instruction(EX, 0));
    assert Classify(lines[3]) == Malformed;
    assert ParseProgram(lines[3..]) == [];
    assert ParseProgram(lines[2..]) == [Instruction(EX, 0)] + ParseProgram(lines[3..]);
    assert ParseProgram(lines[1..]) == [Instruction(RR, 2)] + ParseProgram(lines[2..]);
  }
}
