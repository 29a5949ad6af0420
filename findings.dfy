/**
 * Two places where `php-forms.php` does not do what its comments say: the
 * select/radio flag that leaks from one field to the next, and the loose
 * comparison of the submit link. Each is written here as the code has it,
 * next to an input that shows the difference; the rest of the model uses
 * the corrected behaviour.
 */
module Findings {
  import opened PhpValues
  import opened Rules
  import opened PhpForms
  import opened PhpNumeric

  // ---------------------------------------------------------------------
  // The select/radio flag

  /**
   * As written: `$equalsPosValue` after the loop over `posValues`. It is set
   * true on a match and false after each miss, but never reset before the
   * loop, so with no `posValues` it keeps whatever the previous select or
   * radio field left (`None`: still undefined, which is falsy).
   */
  function PosValueFlagAsWritten(value: Value, posValues: seq<Value>, carried: Option<bool>): (flag: Option<bool>)
    ensures |posValues| > 0 ==> flag == Some(value in posValues)
    ensures |posValues| == 0 ==> flag == carried
  {
    if posValues == [] then carried
    else if value == posValues[0] then Some(true)
    else PosValueFlagAsWritten(value, posValues[1..], Some(false))
  }

  /**
   * As written, a select or radio field passes when the flag it reads is
   * true: membership when it has allowed values, the carried flag when not.
   */
  function SelectPassesAsWritten(f: Field, carried: Option<bool>): (r: bool)
    ensures |f.posValues| > 0 ==> (r <==> f.value in f.posValues)
    ensures f.posValues == [] ==> (r <==> carried == Some(true))
  {
    PosValueFlagAsWritten(f.value, f.posValues, carried) == Some(true)
  }

  /**
   * With a non-empty list of allowed values the code as written agrees with
   * the corrected check, whatever flag is carried in.
   */
  lemma SelectAsWrittenAgrees(f: Field, carried: Option<bool>, turing: Option<Key>, env: Env)
    requires f.fieldType == "select" || f.fieldType == "radio"
    requires |f.posValues| > 0
    ensures SelectPassesAsWritten(f, carried) <==> CheckField(f, turing, env).Passed?
  {
  }

  /**
   * The input that shows it: a select `a` whose value is allowed, then a
   * select `b` with no allowed values at all. As written `b` passes on the
   * flag `a` left; the corrected check fails it with `selectnovalue`.
   */
  lemma CarriedFlagPassesEmptySelect(turing: Option<Key>, env: Env)
    ensures var a := Field(Text("x"), "select", [], [Text("x")], false, "");
      var b := Field(Text("y"), "select", [], [], false, "");
      var flagA := PosValueFlagAsWritten(a.value, a.posValues, None);
      && SelectPassesAsWritten(a, None) && CheckField(a, turing, env).Passed?
      && SelectPassesAsWritten(b, flagA)
      && CheckField(b, turing, env) == Failed(Text("y"), "selectnovalue")
  {
  }

  // ---------------------------------------------------------------------
  // The submit link

  /**
   * As written, `SubmitSession` accepts when a link is presented, the
   * session has one, it is not `== 'fail'`, and the presented link `==` it,
   * both comparisons loose.
   */
  function SubmitAcceptedAsWritten(presented: Option<string>, submitLink: Option<string>): (r: bool)
    ensures r ==> presented.Some? && submitLink.Some?
    ensures submitLink == Some("fail") ==> !r
    ensures presented.Some? && presented == submitLink && submitLink != Some("fail") ==> r
  {
    FailIsNotNumeric();
    presented.Some? && submitLink.Some?
    && !LooseEquals(submitLink.value, "fail") && LooseEquals(presented.value, submitLink.value)
  }

  /**
   * The input that shows it: a submit link of the form `0e` and thirty
   * digits is a possible md5 digest, and as written presenting `"0"` is
   * accepted for it, since both strings are the number zero; the corrected
   * test (strict equality, as ValSession uses for the validation link) rejects it.
   */
  lemma ZeroMatchesMagicLink(d: string)
    requires |d| == 30 && forall i :: 0 <= i < |d| ==> d[i] in Digit
    ensures IsLinkUid("0e" + d)
    ensures SubmitAcceptedAsWritten(Some("0"), Some("0e" + d))
    ensures !SubmitAccepted(Some("0"), Some("0e" + d))
  {
    var link := "0e" + d;
    forall i | 0 <= i < |link|
      ensures link[i] in "0123456789abcdef"
    {
      if i >= 2 {
        assert link[i] == d[i - 2];
      }
    }
    ZeroIsNumeric();
    ZeroExponentIsZero(d);
    FailIsNotNumeric();
  }

  /**
   * Where it matters not: for a link that is not a numeric string, the code
   * as written accepts exactly what the corrected test accepts.
   */
  lemma SubmitAsWrittenAgrees(presented: Option<string>, submitLink: Option<string>)
    requires submitLink.Some? ==> NumericValue(submitLink.value).None?
    ensures SubmitAcceptedAsWritten(presented, submitLink) <==> SubmitAccepted(presented, submitLink)
  {
    FailIsNotNumeric();
  }

  /** The corrected test accepts only the session's own link, and never the sentinel. */
  lemma SubmitAcceptsOnlyTheLink(presented: Option<string>, submitLink: Option<string>)
    requires SubmitAccepted(presented, submitLink)
    ensures presented == submitLink && submitLink != Some("fail")
  {
  }
}
