/**
 * Complexity ranks and the ceiling predicate `check` of xenon/core.py.
 *
 * A rank is one of the letters A (best) to F (worst). The ceiling a caller
 * configures is a string; `check` upper-cases it and compares the one-letter
 * rank name to it with Python's string `>`.
 */
module Ranks {
  import opened Wrappers

  datatype Rank = A | B | C | D | E | F {

    /** Position in the order A < B < C < D < E < F. */
    function Ord(): nat {
      match this
      case A => 0
      case B => 1
      case C => 2
      case D => 3
      case E => 4
      case F => 5
    }

    /** The letter that names the rank; letter codes follow the rank order. */
    function Letter(): (c: char)
      ensures c as int == 'A' as int + Ord()
    {
      match this
      case A => 'A'
      case B => 'B'
      case C => 'C'
      case D => 'D'
      case E => 'E'
      case F => 'F'
    }
  }

  /** `c.upper()` on one ASCII character. */
  function UpperChar(c: char): char {
    if 'a' <= c <= 'z' then (c as int - 32) as char else c
  }

  /** `s.upper()`, character by character. */
  function Upper(s: string): (u: string)
    ensures |u| == |s|
    ensures forall i :: 0 <= i < |s| ==> u[i] == UpperChar(s[i])
  {
    if |s| == 0 then [] else [UpperChar(s[0])] + Upper(s[1..])
  }

  /** Python's `x > y` on strings: lexicographic by code point, a proper prefix is smaller. */
  predicate StrGreater(x: string, y: string) {
    if |x| == 0 then false
    else if |y| == 0 then true
    else if x[0] != y[0] then x[0] > y[0]
    else StrGreater(x[1..], y[1..])
  }

  /** No string is greater than itself, and `>` is asymmetric. */
  lemma {:induction false} StrGreaterStrict(x: string, y: string)
    ensures !StrGreater(x, x)
    ensures StrGreater(x, y) ==> !StrGreater(y, x)
  {
    if |x| > 0 && |y| > 0 {
      StrGreaterStrict(x[1..], y[1..]);
      StrGreaterStrict(x[1..], x[1..]);
    } else if |x| > 0 {
      StrGreaterStrict(x[1..], x[1..]);
    }
  }

  /**
   * `check(rank, default)`: false when no ceiling is set, otherwise
   * `rank > default.upper()`. Against a one-letter rank name this is true
   * exactly when the upper-cased ceiling is empty or starts with a smaller
   * character than the rank's letter.
   */
  function Check(rank: Rank, ceiling: Option<string>): (exceeds: bool)
    ensures ceiling.None? ==> !exceeds
    ensures ceiling.Some? ==>
      (exceeds <==> |ceiling.value| == 0 || Upper(ceiling.value)[0] < rank.Letter())
  {
    match ceiling
    case None => false
    case Some(s) =>
      var name := [rank.Letter()];
      var u := Upper(s);
      assert |u| > 0 ==> !StrGreater(name[1..], u[1..]);
      StrGreater(name, u)
  }

  /** The ceiling strings that name rank `c`: its letter in upper or lower case. */
  predicate Names(s: string, c: Rank) {
    s == [c.Letter()] || s == [(c.Letter() as int + 32) as char]
  }

  /** With a ceiling that names a rank, `check` is the strict rank order; so no rank exceeds itself. */
  lemma CheckAgainstRank(r: Rank, c: Rank, s: string)
    requires Names(s, c)
    ensures Check(r, Some(s)) <==> r.Ord() > c.Ord()
    ensures !Check(c, Some(s))
  {
    assert Upper(s) == [c.Letter()];
    StrGreaterStrict(Upper(s), Upper(s));
  }

  /** `check` is monotonic: whatever exceeds a ceiling, every worse rank exceeds it too. */
  lemma CheckMonotone(r: Rank, worse: Rank, ceiling: Option<string>)
    requires r.Ord() <= worse.Ord()
    ensures Check(r, ceiling) ==> Check(worse, ceiling)
  {
  }
}
