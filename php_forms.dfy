/**
 * The `phpForm` class: the per-form session entry `$_SESSION[$fmName]` and
 * the three-stage protocol over it (InitSession, ValSession, SubmitSession),
 * with the field validation pass `_ValidateData` run in place.
 */
module PhpForms {
  import opened PhpValues
  import opened Rules

  /** `_LinkUID()`: an md5 digest printed as 32 lower-case hexadecimal digits. */
  predicate IsLinkUid(s: string) {
    |s| == 32 && forall i :: 0 <= i < |s| ==> s[i] in "0123456789abcdef"
  }

  const DefaultMinTime: int := 4
  const DefaultMaxTime: int := 1800

  const DefaultTuringText: seq<string> := [
    "I am a human", "This is not spam", "No spam here", "Human", "I hate spam",
    "Not a spammer", "Humans only", "No bots", "Humans rule", "Anti-spam box"]

  /** The form error messages, indexed by the result codes 0 to 6 of ValSession and SubmitSession. */
  const DefaultFormErrorMsgs: seq<string> := [
    "",
    "The form contains errors. Please correct these errors and submit again.",
    "Your form has expired. Please try again.",
    "The submission of this form appeared to be automated. Please wait a few seconds and try again.",
    "There was an error processing your form. Please try again.",
    "Your browser must support cookies and have them enabled in order to submit this form.",
    "ERROR: There was an error processing your form. Please try again."]

  /** Result codes. */
  const Success: nat := 0
  const DataInvalid: nat := 1
  const Expired: nat := 2
  const TooFast: nat := 3
  const BadValidationLink: nat := 4
  const CookiesOrOrderError: nat := 5
  const BadSubmissionLink: nat := 6

  /**
   * What the constructor is given: the field definitions, and optional
   * custom form messages (a list indexed 0 to 6) and field messages (by key).
   */
  datatype FormData = FormData(
    form: map<string, Field>,
    formErrorMsg: Option<seq<string>>,
    fieldErrorMsg: Option<map<string, string>>)

  /**
   * The custom form message at index `j` as the constructor installs it: a
   * non-empty custom entry wins, an empty one keeps the default, and an index
   * past the end of the custom list reads as `null` (which is `!== ''`).
   */
  function FormMsgAt(custom: Option<seq<string>>, j: nat): (m: Option<string>)
    requires j < |DefaultFormErrorMsgs|
    ensures custom.None? ==> m == Some(DefaultFormErrorMsgs[j])
    ensures custom.Some? && j < |custom.value| && custom.value[j] != "" ==> m == Some(custom.value[j])
    ensures custom.Some? && j < |custom.value| && custom.value[j] == "" ==> m == Some(DefaultFormErrorMsgs[j])
    ensures custom.Some? && j >= |custom.value| ==> m.None?
  {
    match custom
    case None => Some(DefaultFormErrorMsgs[j])
    case Some(c) => if j < |c| then (if c[j] != "" then Some(c[j]) else Some(DefaultFormErrorMsgs[j])) else None
  }

  /**
   * The turing text InitSession leaves: the array key of one entry of the
   * pool (`array_rand` of `array_flip`), or unset (`array_rand` of nothing)
   * for an empty pool.
   */
  predicate DrawnFrom(t: Option<Key>, pool: seq<string>) {
    if |pool| == 0 then t.None? else t.Some? && exists x :: x in pool && t.value == ArrayKey(x)
  }

  /** Every field with its error flag and message reset, nothing else touched. */
  function ErrorsCleared(form: map<string, Field>): (r: map<string, Field>)
    ensures r.Keys == form.Keys
    ensures forall k :: k in r ==>
      && !r[k].error && r[k].errorMsg == ""
      && r[k].value == form[k].value && r[k].fieldType == form[k].fieldType
      && r[k].valTypes == form[k].valTypes && r[k].posValues == form[k].posValues
  {
    map k | k in form :: form[k].(error := false, errorMsg := "")
  }

  /** Every value set to `''`, nothing else touched. */
  function FieldsCleared(form: map<string, Field>): (r: map<string, Field>)
    ensures r.Keys == form.Keys
    ensures forall k :: k in r ==>
      && r[k].value == Text("")
      && r[k].error == form[k].error && r[k].errorMsg == form[k].errorMsg && r[k].fieldType == form[k].fieldType
      && r[k].valTypes == form[k].valTypes && r[k].posValues == form[k].posValues
  {
    map k | k in form :: form[k].(value := Text(""))
  }

  /** One field after the posted data has been copied in. */
  function MergedField(f: Field, posted: Option<string>): (g: Field)
    ensures g.fieldType == f.fieldType && g.valTypes == f.valTypes && g.posValues == f.posValues
    ensures g.error == f.error && g.errorMsg == f.errorMsg
    ensures posted.Some? ==> g.value == Text(posted.value)
    ensures posted.None? ==> g.value == if f.fieldType == "checkbox" then Flag(false) else f.value
  {
    match posted
    case Some(p) => f.(value := Text(p))
    case None => if f.fieldType == "checkbox" then f.(value := Flag(false)) else f
  }

  /**
   * The posted data merged into the session fields: a posted field takes the
   * posted string, an unposted checkbox becomes `false`, every other field
   * keeps its value, and posted names that are not fields are ignored.
   */
  function Merged(form: map<string, Field>, posted: map<string, string>): (r: map<string, Field>)
    ensures r.Keys == form.Keys
    ensures forall k :: k in form && k in posted ==> r[k] == form[k].(value := Text(posted[k]))
    ensures forall k :: k in form && k !in posted && form[k].fieldType == "checkbox" ==> r[k] == form[k].(value := Flag(false))
    ensures forall k :: k in form && k !in posted && form[k].fieldType != "checkbox" ==> r[k] == form[k]
  {
    map k | k in form :: MergedField(form[k], if k in posted then Some(posted[k]) else None)
  }

  /**
   * The code ValSession returns, in the order it checks: session attributes
   * present, validation link, too fast, expired, field data.
   */
  function ValCode(attrsSet: bool, presented: Option<string>, valLink: string, start: int,
                   curTime: int, minTime: int, maxTime: int, dataValid: bool): (code: nat)
    ensures code <= CookiesOrOrderError
    ensures code == Success <==>
      attrsSet && presented == Some(valLink) && valLink != "fail"
      && start + minTime <= curTime <= start + maxTime && dataValid
    ensures code == CookiesOrOrderError <==> !attrsSet
    ensures code == BadValidationLink <==> attrsSet && !(presented == Some(valLink) && valLink != "fail")
  {
    if !attrsSet then CookiesOrOrderError
    else if !(presented == Some(valLink) && valLink != "fail") then BadValidationLink
    else if curTime < start + minTime then TooFast
    else if curTime > start + maxTime then Expired
    else if !dataValid then DataInvalid
    else Success
  }

  /** SubmitSession's test: a link was presented, the session has one, it is not `'fail'`, and they agree. */
  function SubmitAccepted(presented: Option<string>, submitLink: Option<string>): (r: bool)
    ensures presented.None? || submitLink.None? ==> !r
    ensures r <==> presented.Some? && presented == submitLink && presented != Some("fail")
  {
    presented.Some? && submitLink.Some? && submitLink.value != "fail" && presented.value == submitLink.value
  }

  /** The constructor's loop over the seven form messages. */
  method InstallFormMsgs(custom: Option<seq<string>>) returns (msgs: seq<Option<string>>)
    ensures |msgs| == |DefaultFormErrorMsgs|
    ensures forall j :: 0 <= j < |DefaultFormErrorMsgs| ==> msgs[j] == FormMsgAt(custom, j)
  {
    msgs := seq(|DefaultFormErrorMsgs|, j requires 0 <= j < |DefaultFormErrorMsgs| => Some(DefaultFormErrorMsgs[j]));
    if custom.None? {
      return;
    }
    var c := custom.value;
    var j := 0;
    while j < |msgs|
      invariant 0 <= j <= |msgs| == |DefaultFormErrorMsgs|
      invariant forall i :: 0 <= i < j ==> msgs[i] == FormMsgAt(custom, i)
      invariant forall i :: j <= i < |msgs| ==> msgs[i] == Some(DefaultFormErrorMsgs[i])
    {
      var entry: Option<string> := if j < |c| then Some(c[j]) else None;
      if entry != Some("") {
        msgs := msgs[j := entry];
      }
      j := j + 1;
    }
  }

  /** The constructor's loop over the custom field messages: each replaces the default of its key, or adds a key. */
  method InstallFieldMsgs(custom: Option<map<string, string>>) returns (msgs: map<string, string>)
    ensures msgs == DefaultFieldErrorMsgs + custom.GetOr(map[])
  {
    msgs := DefaultFieldErrorMsgs;
    if custom.None? {
      return;
    }
    var c := custom.value;
    var keys := c.Keys;
    while keys != {}
      invariant keys <= c.Keys
      invariant msgs.Keys == DefaultFieldErrorMsgs.Keys + (c.Keys - keys)
      invariant forall k :: k in msgs ==> msgs[k] == if k in c && k !in keys then c[k] else DefaultFieldErrorMsgs[k]
      decreases keys
    {
      var k :| k in keys;
      msgs := msgs[k := c[k]];
      keys := keys - {k};
    }
    assert msgs == DefaultFieldErrorMsgs + c;
  }

  /**
   * The rule loop of `_ValidateData`: each rule in turn on the current value,
   * until one fails (`break 2`).
   */
  method RunRuleLoop(rules: seq<string>, v: Value, turing: Option<Key>, env: Env) returns (o: Outcome)
    ensures o == RunRules(rules, v, turing, env)
  {
    var cur := v;
    var i := 0;
    while i < |rules|
      invariant 0 <= i <= |rules|
      invariant RunRules(rules, v, turing, env) == RunRules(rules[i..], cur, turing, env)
    {
      assert rules[i..][1..] == rules[i + 1..];
      var step := ApplyRule(rules[i], cur, turing, env);
      if step.Stop? {
        return Failed(step.value, step.msgKey);
      }
      cur := step.value;
      i := i + 1;
    }
    assert rules[i..] == [];
    o := Passed(cur);
  }

  /** The loop over `posValues` of a select or radio field: whether the value is one of them. */
  method HasPosValue(f: Field) returns (found: bool)
    ensures found <==> f.value in f.posValues
  {
    found := false;
    var j := 0;
    while j < |f.posValues|
      invariant 0 <= j <= |f.posValues| && !found
      invariant f.value !in f.posValues[..j]
    {
      if f.value == f.posValues[j] {
        found := true;
        break;
      }
      found := false;
      assert f.posValues[..j + 1] == f.posValues[..j] + [f.posValues[j]];
      j := j + 1;
    }
    assert !found ==> f.posValues[..j] == f.posValues;
  }

  /**
   * The session entry `$_SESSION[$fmName]` of one form. `None` is an unset
   * attribute; the entry outlives each request's PhpForm object.
   */
  class FormSession {
    var form: Option<map<string, Field>>
    var valLink: Option<string>
    var submitLink: Option<string>
    var time: Option<int>
    var turingText: Option<Key>
    var formErrorMsg: Option<string>
    var sessionCalls: Option<int>

    /** An entry nothing has been written to yet. */
    constructor ()
      ensures form.None? && valLink.None? && submitLink.None? && time.None?
      ensures turingText.None? && formErrorMsg.None? && sessionCalls.None?
    {
      form, valLink, submitLink, time := None, None, None, None;
      turingText, formErrorMsg, sessionCalls := None, None, None;
    }
  }

  /** One request's `phpForm` object over the session entry of its form. */
  class PhpForm {
    const session: FormSession
    /** `time()` when the object was constructed. */
    const curTime: int
    const formErrorMsgs: seq<Option<string>>
    const fieldErrorMsgs: map<string, string>
    var minTime: int
    var maxTime: int
    var turingPool: seq<string>

    ghost predicate Valid() {
      |formErrorMsgs| == |DefaultFormErrorMsgs| && CoversKeys(fieldErrorMsgs)
    }

    /**
     * `__construct`: capture the time, default the session entry where it is
     * unset, count the call, and install the custom messages.
     */
    constructor (session: FormSession, fmData: FormData, now: int)
      modifies session`form, session`valLink, session`submitLink, session`formErrorMsg, session`sessionCalls
      ensures Valid()
      ensures this.session == session && curTime == now
      ensures minTime == DefaultMinTime && maxTime == DefaultMaxTime && turingPool == DefaultTuringText
      ensures forall j :: 0 <= j < |DefaultFormErrorMsgs| ==> formErrorMsgs[j] == FormMsgAt(fmData.formErrorMsg, j)
      ensures fieldErrorMsgs == DefaultFieldErrorMsgs + fmData.fieldErrorMsg.GetOr(map[])
      ensures session.form == if old(session.form).None? then Some(ErrorsCleared(fmData.form)) else old(session.form)
      ensures session.valLink == if old(session.valLink).None? then Some("fail") else old(session.valLink)
      ensures session.submitLink == if old(session.submitLink).None? then Some("fail") else old(session.submitLink)
      ensures session.formErrorMsg == Some("")
      ensures session.sessionCalls == Some(old(session.sessionCalls).GetOr(0) + 1)
    {
      var formMsgs := InstallFormMsgs(fmData.formErrorMsg);
      var fieldMsgs := InstallFieldMsgs(fmData.fieldErrorMsg);
      this.session := session;
      curTime := now;
      minTime, maxTime, turingPool := DefaultMinTime, DefaultMaxTime, DefaultTuringText;
      formErrorMsgs := formMsgs;
      fieldErrorMsgs := fieldMsgs;
      new;
      if session.form.None? {
        session.form := Some(fmData.form);
        ClearFieldErrors();
      }
      if session.valLink.None? {
        session.valLink := Some("fail");
      }
      if session.submitLink.None? {
        session.submitLink := Some("fail");
      }
      session.formErrorMsg := Some("");
      if session.sessionCalls.Some? {
        session.sessionCalls := Some(session.sessionCalls.value + 1);
      } else {
        session.sessionCalls := Some(1);
      }
    }

    method SetMaxTime(t: int)
      modifies this`maxTime
      ensures maxTime == t
    {
      maxTime := t;
    }

    method SetMinTime(t: int)
      modifies this`minTime
      ensures minTime == t
    {
      minTime := t;
    }

    method SetTuringText(pool: seq<string>)
      modifies this`turingPool
      ensures turingPool == pool
    {
      turingPool := pool;
    }

    /** `Clear_fieldErrors`: no field has an error or an error message; values stay. */
    method ClearFieldErrors()
      requires session.form.Some?
      modifies session`form
      ensures session.form == Some(ErrorsCleared(old(session.form).value))
    {
      ghost var form0 := session.form.value;
      var fields := session.form.value.Keys;
      while fields != {}
        invariant session.form.Some? && session.form.value.Keys == form0.Keys && fields <= form0.Keys
        invariant forall k :: k in form0 ==>
          session.form.value[k] == if k in fields then form0[k] else form0[k].(error := false, errorMsg := "")
        decreases fields
      {
        var k :| k in fields;
        var f := session.form.value[k];
        session.form := Some(session.form.value[k := f.(errorMsg := "", error := false)]);
        fields := fields - {k};
      }
      assert session.form.value == ErrorsCleared(form0);
    }

    /** `ClearFields`: every value becomes `''`; flags and messages stay. */
    method ClearFields()
      requires session.form.Some?
      modifies session`form
      ensures session.form == Some(FieldsCleared(old(session.form).value))
    {
      ghost var form0 := session.form.value;
      var fields := session.form.value.Keys;
      while fields != {}
        invariant session.form.Some? && session.form.value.Keys == form0.Keys && fields <= form0.Keys
        invariant forall k :: k in form0 ==>
          session.form.value[k] == if k in fields then form0[k] else form0[k].(value := Text(""))
        decreases fields
      {
        var k :| k in fields;
        var f := session.form.value[k];
        session.form := Some(session.form.value[k := f.(value := Text(""))]);
        fields := fields - {k};
      }
      assert session.form.value == FieldsCleared(form0);
    }

    /** `DelSession`: the whole entry is unset. */
    method DelSession()
      modifies session
      ensures session.form.None? && session.valLink.None? && session.submitLink.None? && session.time.None?
      ensures session.turingText.None? && session.formErrorMsg.None? && session.sessionCalls.None?
    {
      session.form, session.valLink, session.submitLink, session.time := None, None, None, None;
      session.turingText, session.formErrorMsg, session.sessionCalls := None, None, None;
    }

    /**
     * `InitSession`: a new start time, a new validation link `uid` (what
     * `_LinkUID` returned), a turing text drawn from the pool, and the submit
     * link forced back to `'fail'`.
     */
    method InitSession(now: int, uid: string) returns (ok: bool)
      requires IsLinkUid(uid)
      modifies session`time, session`valLink, session`turingText, session`submitLink
      ensures ok
      ensures session.time == Some(now) && session.valLink == Some(uid) && session.submitLink == Some("fail")
      ensures session.valLink.value != "fail"
      ensures DrawnFrom(session.turingText, turingPool)
    {
      session.time := Some(now);
      session.valLink := Some(uid);
      if |turingPool| > 0 {
        assert turingPool[0] in turingPool;
        var t :| t in turingPool;
        session.turingText := Some(ArrayKey(t));
      } else {
        session.turingText := None;
      }
      session.submitLink := Some("fail");
      ok := true;
    }

    /** `$_SESSION[$fmName]['form'][$k] = f` */
    method PutField(k: string, f: Field)
      requires session.form.Some?
      modifies session`form
      ensures session.form == Some(old(session.form).value[k := f])
    {
      session.form := Some(session.form.value[k := f]);
    }

    /** `_SetFieldError`: flag field `k` and give it the message of `valType`. */
    method SetFieldError(k: string, valType: string)
      requires Valid() && valType in FieldErrorKeys
      requires session.form.Some? && k in session.form.value
      modifies session`form
      ensures session.form == Some(old(session.form).value[k := old(session.form).value[k].(error := true, errorMsg := fieldErrorMsgs[valType])])
    {
      var f := session.form.value[k];
      PutField(k, f.(error := true, errorMsg := fieldErrorMsgs[valType]));
    }

    /** The body of `_ValidateData`'s loop for one field `k`. */
    method ValidateField(k: string, env: Env) returns (ok: bool)
      requires Valid() && session.form.Some? && k in session.form.value
      modifies session`form
      ensures session.form == Some(old(session.form).value[k := ValidatedField(old(session.form).value[k], session.turingText, env, fieldErrorMsgs)])
      ensures ok <==> CheckField(old(session.form).value[k], session.turingText, env).Passed?
    {
      ghost var form0 := session.form.value;
      ghost var expected := ValidatedField(form0[k], session.turingText, env, fieldErrorMsgs);
      PutField(k, session.form.value[k].(errorMsg := "", error := false));
      var f := session.form.value[k];
      if f.fieldType == "password" && f.value == Text("") {
        SetFieldError(k, "nopassword");
        ok := false;
        assert session.form.value[k] == expected;
      } else if f.fieldType == "select" || f.fieldType == "radio" {
        var equalsPosValue := HasPosValue(f);
        if !equalsPosValue {
          PutField(k, f.(errorMsg := fieldErrorMsgs["selectnovalue"], error := true));
        }
        ok := equalsPosValue;
        assert session.form.value[k] == expected;
      } else {
        var o := RunRuleLoop(f.valTypes, f.value, session.turingText, env);
        if o.Failed? {
          SetFieldError(k, o.msgKey);
        }
        PutField(k, session.form.value[k].(value := o.value));
        ok := o.Passed?;
        assert session.form.value[k] == expected;
      }
      assert session.form.value == form0[k := expected];
    }

    /**
     * `_ValidateData`: every field is reset and checked, none is skipped
     * because another failed, and the result says whether all passed.
     */
    method ValidateData(env: Env) returns (passed: bool)
      requires Valid() && session.form.Some?
      modifies session`form
      ensures session.form == Some(ValidatedForm(old(session.form).value, session.turingText, env, fieldErrorMsgs))
      ensures passed <==> FormPasses(old(session.form).value, session.turingText, env)
    {
      ghost var form0 := session.form.value;
      passed := true;
      var fields := session.form.value.Keys;
      while fields != {}
        invariant session.form.Some? && session.form.value.Keys == form0.Keys && fields <= form0.Keys
        invariant forall k :: k in form0 ==>
          session.form.value[k] == if k in fields then form0[k] else ValidatedField(form0[k], session.turingText, env, fieldErrorMsgs)
        invariant passed <==> forall k :: k in form0 && k !in fields ==> CheckField(form0[k], session.turingText, env).Passed?
        decreases fields
      {
        var k :| k in fields;
        var ok := ValidateField(k, env);
        if !ok {
          passed := false;
        }
        fields := fields - {k};
      }
      assert session.form.value == ValidatedForm(form0, session.turingText, env, fieldErrorMsgs);
    }

    /** InitSession after a failed check, with the message of the failure code. */
    method Reject(code: nat, now: int, uid: string)
      requires Valid() && IsLinkUid(uid) && 0 < code < |DefaultFormErrorMsgs|
      modifies session`time, session`valLink, session`turingText, session`submitLink, session`formErrorMsg
      ensures session.time == Some(now) && session.valLink == Some(uid) && session.submitLink == Some("fail")
      ensures DrawnFrom(session.turingText, turingPool)
      ensures session.formErrorMsg == formErrorMsgs[code]
    {
      var _ := InitSession(now, uid);
      session.formErrorMsg := formErrorMsgs[code];
    }

    /**
     * `ValSession($debug = true)`: merge the posted data, then check, in
     * order, the session attributes, the presented validation link, the
     * minimum and maximum time, and the field data. On success a submit link
     * `uid` is issued; on failure the session is reinitialised (with `uid` as
     * the new validation link) and the failure's message is set. The result
     * without `$debug` is `code == 0`.
     */
    method ValSession(posted: map<string, string>, presented: Option<string>, env: Env, now: int, uid: string)
      returns (code: nat)
      requires Valid() && IsLinkUid(uid)
      modifies session`form, session`valLink, session`submitLink, session`time, session`turingText, session`formErrorMsg
      ensures var attrsSet := old(session.form).Some? && old(session.valLink).Some? && old(session.time).Some?;
        var merged := if attrsSet then Merged(old(session.form).value, posted) else map[];
        code == ValCode(attrsSet, presented, old(session.valLink).GetOr(""), old(session.time).GetOr(0),
                        curTime, minTime, maxTime, FormPasses(merged, old(session.turingText), env))
      ensures code == CookiesOrOrderError ==> session.form == old(session.form)
      ensures code in {BadValidationLink, TooFast, Expired} ==> session.form == Some(Merged(old(session.form).value, posted))
      ensures code in {Success, DataInvalid} ==>
        session.form == Some(ValidatedForm(Merged(old(session.form).value, posted), old(session.turingText), env, fieldErrorMsgs))
      ensures code == Success ==>
        && session.submitLink == Some(uid) && uid != "fail"
        && session.valLink == old(session.valLink) && session.time == old(session.time)
        && session.turingText == old(session.turingText) && session.formErrorMsg == old(session.formErrorMsg)
      ensures code != Success ==>
        && session.time == Some(now) && session.valLink == Some(uid) && session.submitLink == Some("fail")
        && DrawnFrom(session.turingText, turingPool)
        && session.formErrorMsg == formErrorMsgs[code]
    {
      if session.form.Some? && session.valLink.Some? && session.time.Some? {
        MergePosted(posted);
        code := ValidateMerged(presented, env, now, uid);
      } else {
        code := CookiesOrOrderError;
        Reject(code, now, uid);
      }
    }

    /** ValSession once the session attributes are known to be set and the posted data is merged. */
    method ValidateMerged(presented: Option<string>, env: Env, now: int, uid: string) returns (code: nat)
      requires Valid() && IsLinkUid(uid) && session.form.Some? && session.valLink.Some? && session.time.Some?
      modifies session`form, session`valLink, session`submitLink, session`time, session`turingText, session`formErrorMsg
      ensures code == ValCode(true, presented, old(session.valLink).value, old(session.time).value, curTime, minTime, maxTime,
                              FormPasses(old(session.form).value, old(session.turingText), env))
      ensures code in {BadValidationLink, TooFast, Expired} ==> session.form == old(session.form)
      ensures code in {Success, DataInvalid} ==>
        session.form == Some(ValidatedForm(old(session.form).value, old(session.turingText), env, fieldErrorMsgs))
      ensures code == Success ==>
        && session.submitLink == Some(uid)
        && session.valLink == old(session.valLink) && session.time == old(session.time)
        && session.turingText == old(session.turingText) && session.formErrorMsg == old(session.formErrorMsg)
      ensures code != Success ==>
        && session.time == Some(now) && session.valLink == Some(uid) && session.submitLink == Some("fail")
        && DrawnFrom(session.turingText, turingPool)
        && session.formErrorMsg == formErrorMsgs[code]
    {
      code := CheckMerged(presented, env, uid);
      if code != Success {
        Reject(code, now, uid);
      }
    }

    /**
     * The checks of ValSession once the posted data is merged: the
     * validation link, the minimum and the maximum time, then the field data;
     * on success the submit link becomes `uid`.
     */
    method CheckMerged(presented: Option<string>, env: Env, uid: string) returns (code: nat)
      requires Valid() && session.form.Some? && session.valLink.Some? && session.time.Some?
      modifies session`form, session`submitLink
      ensures code == ValCode(true, presented, session.valLink.value, session.time.value, curTime, minTime, maxTime,
                              FormPasses(old(session.form).value, session.turingText, env))
      ensures code in {BadValidationLink, TooFast, Expired} ==> session.form == old(session.form)
      ensures code in {Success, DataInvalid} ==>
        session.form == Some(ValidatedForm(old(session.form).value, session.turingText, env, fieldErrorMsgs))
      ensures session.submitLink == if code == Success then Some(uid) else old(session.submitLink)
    {
      if !(presented == session.valLink && session.valLink != Some("fail")) {
        return BadValidationLink;
      }
      if curTime < session.time.value + minTime {
        return TooFast;
      }
      if curTime > session.time.value + maxTime {
        return Expired;
      }
      var ok := ValidateData(env);
      if !ok {
        return DataInvalid;
      }
      session.submitLink := Some(uid);
      code := Success;
    }

    /** The merge loop at the head of ValSession. */
    method MergePosted(posted: map<string, string>)
      requires session.form.Some?
      modifies session`form
      ensures session.form == Some(Merged(old(session.form).value, posted))
    {
      ghost var form0 := session.form.value;
      var fields := session.form.value.Keys;
      while fields != {}
        invariant session.form.Some? && session.form.value.Keys == form0.Keys && fields <= form0.Keys
        invariant forall k :: k in form0 ==>
          session.form.value[k] == if k in fields then form0[k] else MergedField(form0[k], if k in posted then Some(posted[k]) else None)
        decreases fields
      {
        var k :| k in fields;
        if k in posted {
          PutField(k, session.form.value[k].(value := Text(posted[k])));
        } else if session.form.value[k].fieldType == "checkbox" {
          PutField(k, session.form.value[k].(value := Flag(false)));
        }
        fields := fields - {k};
      }
      assert session.form.value == Merged(form0, posted);
    }

    /**
     * `SubmitSession($debug = true)`: 0 when the presented submit link is the
     * session's and not `'fail'`, changing nothing; otherwise the session is
     * reinitialised, message 6 is set and the result is 6.
     */
    method SubmitSession(presented: Option<string>, now: int, uid: string) returns (code: nat)
      requires Valid() && IsLinkUid(uid)
      modifies session`time, session`valLink, session`turingText, session`submitLink, session`formErrorMsg
      ensures code == Success <==> SubmitAccepted(presented, old(session.submitLink))
      ensures code != Success ==> code == BadSubmissionLink
      ensures code == Success ==>
        && session.submitLink == old(session.submitLink) && session.valLink == old(session.valLink)
        && session.time == old(session.time) && session.turingText == old(session.turingText)
        && session.formErrorMsg == old(session.formErrorMsg)
      ensures code != Success ==>
        && session.time == Some(now) && session.valLink == Some(uid) && session.submitLink == Some("fail")
        && DrawnFrom(session.turingText, turingPool)
        && session.formErrorMsg == formErrorMsgs[BadSubmissionLink]
    {
      if presented.Some? && session.submitLink.Some? && session.submitLink.value != "fail"
         && presented.value == session.submitLink.value {
        return Success;
      }
      code := BadSubmissionLink;
      Reject(code, now, uid);
    }
  }
}
