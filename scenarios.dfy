/**
 * The three stages of `controller.php` as request sequences over one
 * session entry: each request builds its own `phpForm` object, as the
 * controller does, and calls the stage's operations in the controller's order.
 */
module Scenarios {
  import opened PhpValues
  import opened Rules
  import opened PhpForms
  import SessionProperties

  /**
   * A visitor who loads the form at `t0`, posts it at `t1` inside the timing
   * window with the validation link they were given, and follows the submit
   * link at `t2`: validation passes exactly when the posted data does, and
   * then the submission is accepted.
   */
  method HonestVisit(fmData: FormData, posted: map<string, string>, env: Env, t0: int, t1: int, t2: int,
                     valUid: string, submitUid: string, spareUid: string)
    returns (valCode: nat, submitCode: nat, ghost challenge: Option<Key>)
    requires IsLinkUid(valUid) && IsLinkUid(submitUid) && IsLinkUid(spareUid)
    requires t0 + DefaultMinTime <= t1 <= t0 + DefaultMaxTime
    ensures DrawnFrom(challenge, DefaultTuringText)
    ensures valCode == Success <==> FormPasses(Merged(ErrorsCleared(fmData.form), posted), challenge, env)
    ensures valCode != Success ==> valCode == DataInvalid
    ensures submitCode == if valCode == Success then Success else BadSubmissionLink
  {
    var session := new FormSession();
    // Stage 1: show the form.
    var page1 := new PhpForm(session, fmData, t0);
    var _ := page1.InitSession(t0, valUid);
    page1.ClearFieldErrors();
    SessionProperties.ErrorsClearedIdempotent(fmData.form);
    challenge := session.turingText;
    assert DrawnFrom(challenge, DefaultTuringText);
    // Stage 2: ?validate=valUid with the posted data.
    var page2 := new PhpForm(session, fmData, t1);
    valCode := page2.ValSession(posted, Some(valUid), env, t1, submitUid);
    // Stage 3: ?submit=submitUid.
    var page3 := new PhpForm(session, fmData, t2);
    submitCode := page3.SubmitSession(Some(submitUid), t2, spareUid);
  }

  /**
   * A post one second after loading is rejected as automated, and the
   * validation link it used is spent: posting it again later is rejected too.
   */
  method ReplayAfterTooFast(fmData: FormData, posted: map<string, string>, env: Env, t0: int,
                            valUid: string, nextUid: string, submitUid: string)
    returns (first: nat, second: nat)
    requires IsLinkUid(valUid) && IsLinkUid(nextUid) && IsLinkUid(submitUid) && nextUid != valUid
    ensures first == TooFast && second == BadValidationLink
  {
    var session := new FormSession();
    var page1 := new PhpForm(session, fmData, t0);
    var _ := page1.InitSession(t0, valUid);
    var page2 := new PhpForm(session, fmData, t0 + 1);
    first := page2.ValSession(posted, Some(valUid), env, t0 + 1, nextUid);
    var page3 := new PhpForm(session, fmData, t0 + 10);
    second := page3.ValSession(posted, Some(valUid), env, t0 + 10, submitUid);
  }

  /** Following a submit link without having validated is rejected, whatever link is presented. */
  method SubmitWithoutValidating(fmData: FormData, presented: Option<string>, t0: int, valUid: string, nextUid: string)
    returns (code: nat)
    requires IsLinkUid(valUid) && IsLinkUid(nextUid)
    ensures code == BadSubmissionLink
  {
    var session := new FormSession();
    var page1 := new PhpForm(session, fmData, t0);
    var _ := page1.InitSession(t0, valUid);
    var page2 := new PhpForm(session, fmData, t0 + 5);
    code := page2.SubmitSession(presented, t0 + 5, nextUid);
  }

  /**
   * Validating before the form was ever initialised (no start time), or
   * after the session entry was deleted, is reported as a cookie or order error.
   */
  method ValidateOutOfOrder(fmData: FormData, posted: map<string, string>, presented: Option<string>, env: Env,
                            t0: int, uid: string, nextUid: string)
    returns (beforeInit: nat, afterDelete: nat)
    requires IsLinkUid(uid) && IsLinkUid(nextUid)
    ensures beforeInit == CookiesOrOrderError && afterDelete == CookiesOrOrderError
  {
    var session := new FormSession();
    var page1 := new PhpForm(session, fmData, t0);
    beforeInit := page1.ValSession(posted, presented, env, t0, uid);
    page1.DelSession();
    afterDelete := page1.ValSession(posted, presented, env, t0, nextUid);
  }
}
