/**
  The messages the services build: reason strings, recommendations, prompts
  and insight lines. A message is a sequence of pieces; literal text is kept
  exactly, numbers are kept as the value and the Python format they are
  written with, so that contracts can speak about the values embedded in a
  message without modelling how digits are printed.
 */
module Texts {
  import opened Numeric

  datatype Piece =
    | Lit(s: string)                 // literal text
    | Int(n: int)                    // str(n) of an int
    | Repr(x: Float)                 // str(x) of a float, e.g. f"{round(x, 2)}"
    | Fixed(x: Float, places: nat)   // f"{x:.Nf}"
    | Signed(x: Float, places: nat)  // f"{x:+.Nf}"

  type Text = seq<Piece>

  function Say(s: string): Text { [Lit(s)] }

  /** `sep.join(parts)`. */
  function Join(parts: seq<Text>, sep: string): (r: Text)
    ensures |parts| == 1 ==> r == parts[0]
  {
    if |parts| == 0 then []
    else if |parts| == 1 then parts[0]
    else Join(parts[..|parts| - 1], sep) + [Lit(sep)] + parts[|parts| - 1]
  }

  /** `"".join(parts)`. */
  function Concat(parts: seq<Text>): Text
  {
    if |parts| == 0 then [] else Concat(parts[..|parts| - 1]) + parts[|parts| - 1]
  }

  function LowerChar(c: char): char
  {
    if 'A' <= c <= 'Z' then (c as int + 32) as char else c
  }

  function UpperChar(c: char): char
  {
    if 'a' <= c <= 'z' then (c as int - 32) as char else c
  }

  function Lower(s: string): (r: string)
    ensures |r| == |s|
  {
    if |s| == 0 then [] else Lower(s[..|s| - 1]) + [LowerChar(s[|s| - 1])]
  }

  /** Lower-cases every literal; numbers are written with digits, signs and points only. */
  function LowerAll(t: Text): Text
  {
    if |t| == 0 then []
    else LowerAll(t[..|t| - 1]) + [if t[|t| - 1].Lit? then Lit(Lower(t[|t| - 1].s)) else t[|t| - 1]]
  }

  /**
    Python's `str.capitalize()`: the first character upper-cased, every other one
    lower-cased. Case is changed for ASCII letters only; the messages it is
    applied to are ASCII.
   */
  function Capitalize(t: Text): Text
  {
    if |t| == 0 then []
    else match t[0]
      case Lit(s) =>
        if |s| == 0 then [t[0]] + Capitalize(t[1..])
        else [Lit([UpperChar(s[0])] + Lower(s[1..]))] + LowerAll(t[1..])
      case _ => [t[0]] + LowerAll(t[1..])
  }

  predicate NoUpper(s: string)
  {
    forall i :: 0 <= i < |s| ==> !('A' <= s[i] <= 'Z')
  }

  /** Every literal of t is free of upper-case letters. */
  predicate LowerText(t: Text)
  {
    forall i :: 0 <= i < |t| ==> t[i].Lit? ==> NoUpper(t[i].s)
  }

  lemma {:induction false} LowerFixes(s: string)
    requires NoUpper(s)
    ensures Lower(s) == s
  {
    if |s| > 0 {
      LowerFixes(s[..|s| - 1]);
    }
  }

  lemma {:induction false} LowerAllFixes(t: Text)
    requires LowerText(t)
    ensures LowerAll(t) == t
  {
    if |t| > 0 {
      LowerAllFixes(t[..|t| - 1]);
      if t[|t| - 1].Lit? {
        LowerFixes(t[|t| - 1].s);
      }
    }
  }

  /**
    `capitalize()` leaves a message alone when it already starts with an
    upper-case letter and has no other upper-case letter.
   */
  lemma CapitalizeFixes(t: Text)
    requires |t| > 0 && t[0].Lit? && |t[0].s| > 0 && 'A' <= t[0].s[0] <= 'Z'
    requires NoUpper(t[0].s[1..]) && LowerText(t[1..])
    ensures Capitalize(t) == t
  {
    LowerFixes(t[0].s[1..]);
    LowerAllFixes(t[1..]);
    assert [t[0].s[0]] + t[0].s[1..] == t[0].s;
    assert [t[0]] + t[1..] == t;
  }

  lemma {:induction false} JoinFirst(parts: seq<Text>, sep: string)
    requires |parts| > 0 && |parts[0]| > 0
    ensures |Join(parts, sep)| > 0 && Join(parts, sep)[0] == parts[0][0]
  {
    if |parts| > 1 {
      JoinFirst(parts[..|parts| - 1], sep);
    }
  }
}
