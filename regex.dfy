/**
 * A small regular-expression language, enough to write the anchored
 * patterns the validation rules hand to PCRE, with a set-of-end-positions
 * semantics: `Ends(r, s, i)` is every `j` such that `r` matches `s[i..j]`.
 * For patterns without look-around or back-references this is exactly the
 * set of matches a backtracking matcher can find.
 */
module Regex {
  import opened PhpValues

  datatype Re =
    | Class(cs: set<char>)          // one character from `cs`
    | Lit(t: string)                // the literal string `t`
    | Cat(a: Re, b: Re)             // `a` followed by `b`
    | Alt(a: Re, b: Re)             // `a|b`
    | Opt(a: Re)                    // `(?:a)?`
    | Star(cs: set<char>)           // `[cs]*`
    | Plus(cs: set<char>)           // `[cs]+`
    | Times(cs: set<char>, n: nat)  // `[cs]{n}`

  /** The end of the longest run of characters from `cs` starting at `i`. */
  function RunEnd(cs: set<char>, s: string, i: nat): (j: nat)
    requires i <= |s|
    ensures i <= j <= |s|
    ensures forall k :: i <= k < j ==> s[k] in cs
    ensures j < |s| ==> s[j] !in cs
    decreases |s| - i
  {
    if i < |s| && s[i] in cs then RunEnd(cs, s, i + 1) else i
  }

  /** The positions `lo` to `hi`, both included. */
  function Span(lo: nat, hi: nat): (r: set<nat>)
    ensures forall j :: j in r <==> lo <= j <= hi
    decreases hi - lo
  {
    if lo > hi then {} else {lo} + Span(lo + 1, hi)
  }

  function Ends(r: Re, s: string, i: nat): (ends: set<nat>)
    requires i <= |s|
    ensures forall j :: j in ends ==> i <= j <= |s|
  {
    match r
    case Class(cs) => if i < |s| && s[i] in cs then {i + 1} else {}
    case Lit(t) => if i + |t| <= |s| && s[i..i + |t|] == t then {i + |t|} else {}
    case Cat(a, b) =>
      var first := Ends(a, s, i);
      set j, k | j in first && k in Ends(b, s, j) :: k
    case Alt(a, b) => Ends(a, s, i) + Ends(b, s, i)
    case Opt(a) => {i} + Ends(a, s, i)
    case Star(cs) => Span(i, RunEnd(cs, s, i))
    case Plus(cs) => Span(i + 1, RunEnd(cs, s, i))
    case Times(cs, n) =>
      if i + n <= |s| && forall k :: i <= k < i + n ==> s[k] in cs then {i + n} else {}
  }

  /**
   * `/^r$/` without modifiers: PCRE's `$` matches at the very end and also
   * just before a final newline.
   */
  predicate FullMatch(r: Re, s: string) {
    |s| in Ends(r, s, 0)
    || (|s| > 0 && s[|s| - 1] == '\n' && |s| - 1 in Ends(r, s, 0))
  }

  /** Matching is sequential: an end of `a` followed by an end of `b` is an end of `Cat(a, b)`. */
  lemma CatEnds(a: Re, b: Re, s: string, i: nat, j: nat, k: nat)
    requires i <= |s| && j in Ends(a, s, i) && k in Ends(b, s, j)
    ensures k in Ends(Cat(a, b), s, i)
  {
  }

  /** A full match is a match of `r` from the start that leaves nothing, or only one final newline. */
  lemma FullMatchMeaning(r: Re, s: string)
    ensures FullMatch(r, s) <==> exists e :: e in Ends(r, s, 0) && (s[e..] == "" || s[e..] == "\n")
  {
    if FullMatch(r, s) {
      if |s| in Ends(r, s, 0) {
        assert s[|s|..] == "";
      } else {
        assert s[|s| - 1..] == "\n";
      }
    }
    if e :| e in Ends(r, s, 0) && (s[e..] == "" || s[e..] == "\n") {
      assert |s[e..]| == |s| - e;
      if s[e..] == "\n" {
        assert s[|s| - 1] == s[e..][0];
      }
    }
  }
}
