/** Balanced-ternary codec for tryte-bounded values: three digits (trits)
    in {-1, 0, 1}, least significant first, covering [-13, 13]. */
module Ternary {

  function Abs(x: int): (r: nat)
    ensures r == x || r == -x
  {
    if x < 0 then -x else x
  }

  predicate IsTrit(d: int) {
    -1 <= d <= 1
  }

  /** Three balanced-ternary digits, least significant first. */
  predicate IsTrits(t: seq<int>) {
    |t| == 3 && IsTrit(t[0]) && IsTrit(t[1]) && IsTrit(t[2])
  }

  /** The value of a digit triple: t[0] + 3*t[1] + 9*t[2]. */
  function Decode(t: seq<int>): (v: int)
    requires |t| == 3
    ensures IsTrits(t) ==> -13 <= v <= 13
  {
    t[0] + 3 * t[1] + 9 * t[2]
  }

  /** The leading digit of v when the lower places can hold at most
      bound in magnitude: round v / (2*bound + 1) to the nearest integer. */
  function Lead(v: int, bound: int): (d: int)
    ensures IsTrit(d)
  {
    if v > bound then 1 else if v < -bound then -1 else 0
  }

  /** Reference encoding, most significant digit first (the C++ code works
      from the least significant digit of the magnitude with a carry). */
  function Encode(v: int): (t: seq<int>)
    requires -13 <= v <= 13
    ensures IsTrits(t)
    ensures Decode(t) == v
  {
    var d2 := Lead(v, 4);
    var low := v - 9 * d2;
    var d1 := Lead(low, 1);
    [low - 3 * d1, d1, d2]
  }

  /** Digit triples are unique: encoding the value of any triple gives it back. */
  lemma EncodeDecode(t: seq<int>)
    requires IsTrits(t)
    ensures Encode(Decode(t)) == t
  {
    var low := t[0] + 3 * t[1];
    assert -4 <= low <= 4;
    assert Lead(Decode(t), 4) == t[2];
    assert Lead(low, 1) == t[1];
    assert Encode(Decode(t)) == [t[0], t[1], t[2]];
  }

  /** Two triples with the same value are the same triple. */
  lemma DecodeInjective(s: seq<int>, t: seq<int>)
    requires IsTrits(s) && IsTrits(t)
    requires Decode(s) == Decode(t)
    ensures s == t
  {
    EncodeDecode(s);
    EncodeDecode(t);
  }

  /** binary_to_ternary: fills ttt with the digits of value, working on the
      magnitude, turning a remainder of 2 into digit -1 with a carry into
      the quotient, and negating every digit of a negative value. */
  method BinaryToTernary(value: int, ttt: array<int>)
    requires -13 <= value <= 13
    requires ttt.Length == 3
    modifies ttt
    ensures IsTrits(ttt[..]) && Decode(ttt[..]) == value
    ensures value == 0 ==> ttt[..] == [0, 0, 0]
  {
    var n := value;
    var neg := n < 0;
    if neg {
      n := -n;
    }
    ghost var magnitude := n;
    ghost var weight := 1;
    ghost var acc := 0;
    var i := 0;
    while i < 3
      invariant 0 <= i <= 3
      invariant 0 <= n <= (if i == 0 then 13 else if i == 1 then 4 else if i == 2 then 1 else 0)
      invariant weight == (if i == 0 then 1 else if i == 1 then 3 else if i == 2 then 9 else 27)
      invariant forall j :: 0 <= j < i ==> IsTrit(ttt[j])
      invariant acc == (if i == 0 then 0 else if i == 1 then ttt[0]
                        else if i == 2 then ttt[0] + 3 * ttt[1]
                        else ttt[0] + 3 * ttt[1] + 9 * ttt[2])
      invariant magnitude == acc + weight * n
    {
      var r := n % 3;
      if r == 0 {
        ttt[i] := 0;
      } else if r == 1 {
        ttt[i] := 1;
      } else {
        ttt[i] := -1;
        n := n + 1;
      }
      acc := acc + weight * ttt[i];
      n := n / 3;
      weight := 3 * weight;
      i := i + 1;
    }
    assert IsTrits(ttt[..]) && Decode(ttt[..]) == magnitude;
    ghost var digits := ttt[..];
    if neg {
      for k := 0 to 3
        invariant forall j :: 0 <= j < k ==> ttt[j] == -digits[j]
        invariant forall j :: k <= j < 3 ==> ttt[j] == digits[j]
      {
        ttt[k] := -ttt[k];
      }
    }
    assert IsTrits(ttt[..]) && Decode(ttt[..]) == value;
    if value == 0 {
      DecodeInjective(ttt[..], [0, 0, 0]);
    }
  }
}
