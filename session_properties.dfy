/**
 * What the session functions promise across calls: the timing window, the
 * `'fail'` sentinel, the merge of posted data, and the effect of the
 * honeypot (`empty`) and challenge (`turing`) fields on a whole form.
 */
module SessionProperties {
  import opened PhpValues
  import opened Rules
  import opened PhpForms

  /** A token `_LinkUID` can return is never the sentinel. */
  lemma LinkUidIsNeverFail(s: string)
    requires IsLinkUid(s)
    ensures s != "fail"
  {
  }

  /**
   * Once the link is right, the timing window decides: too fast strictly
   * below `start + minTime`, expired strictly above `start + maxTime`, and
   * inside the window, both ends included, only the data decides.
   */
  lemma TimingWindow(presented: Option<string>, valLink: string, start: int, curTime: int,
                     minTime: int, maxTime: int, dataValid: bool)
    requires presented == Some(valLink) && valLink != "fail"
    ensures ValCode(true, presented, valLink, start, curTime, minTime, maxTime, dataValid) == TooFast
      <==> curTime < start + minTime
    ensures ValCode(true, presented, valLink, start, curTime, minTime, maxTime, dataValid) == Expired
      <==> start + minTime <= curTime && curTime > start + maxTime
    ensures start + minTime <= curTime <= start + maxTime ==>
      ValCode(true, presented, valLink, start, curTime, minTime, maxTime, dataValid) == if dataValid then Success else DataInvalid
  {
  }

  /** A validation link still at its `'fail'` default never validates, whatever is presented. */
  lemma SentinelNeverValidates(attrsSet: bool, presented: Option<string>, start: int, curTime: int,
                               minTime: int, maxTime: int, dataValid: bool)
    ensures ValCode(attrsSet, presented, "fail", start, curTime, minTime, maxTime, dataValid)
      in {BadValidationLink, CookiesOrOrderError}
  {
  }

  /** A submit link still at its `'fail'` default is never accepted. */
  lemma SubmitSentinelNeverAccepted(presented: Option<string>)
    ensures !SubmitAccepted(presented, Some("fail"))
  {
  }

  lemma ErrorsClearedIdempotent(form: map<string, Field>)
    ensures ErrorsCleared(ErrorsCleared(form)) == ErrorsCleared(form)
  {
  }

  /** Clearing values and clearing errors touch different components, so their order does not matter. */
  lemma ClearingsCommute(form: map<string, Field>)
    ensures ErrorsCleared(FieldsCleared(form)) == FieldsCleared(ErrorsCleared(form))
  {
  }

  /** Merging the same posted data twice is merging it once. */
  lemma MergedIdempotent(form: map<string, Field>, posted: map<string, string>)
    ensures Merged(Merged(form, posted), posted) == Merged(form, posted)
  {
  }

  /** Posted names that are not fields of the form have no effect. */
  lemma MergeIgnoresUnknownNames(form: map<string, Field>, posted: map<string, string>, extra: map<string, string>)
    requires forall k :: k in extra ==> k !in form
    ensures Merged(form, posted + extra) == Merged(form, posted)
  {
    var a := Merged(form, posted + extra);
    var b := Merged(form, posted);
    forall k | k in form
      ensures a[k] == b[k]
    {
      assert k !in extra;
    }
  }

  /** The checks read a field's value, type, rules and allowed values, never its error state. */
  lemma CheckIgnoresErrorState(f: Field, turing: Option<Key>, env: Env, msgs: map<string, string>)
    requires CoversKeys(msgs)
    ensures CheckField(f.(error := false, errorMsg := ""), turing, env) == CheckField(f, turing, env)
    ensures ValidatedField(f.(error := false, errorMsg := ""), turing, env, msgs) == ValidatedField(f, turing, env, msgs)
  {
    var g := f.(error := false, errorMsg := "");
    assert g.value == f.value && g.fieldType == f.fieldType && g.valTypes == f.valTypes && g.posValues == f.posValues;
    assert CheckField(g, turing, env) == CheckField(f, turing, env);
  }

  /** Validation resets every error first, so errors left from an earlier pass do not matter. */
  lemma ValidationIgnoresOldErrors(form: map<string, Field>, turing: Option<Key>, env: Env, msgs: map<string, string>)
    requires CoversKeys(msgs)
    ensures ValidatedForm(ErrorsCleared(form), turing, env, msgs) == ValidatedForm(form, turing, env, msgs)
  {
    var cleared := ErrorsCleared(form);
    var a := ValidatedForm(cleared, turing, env, msgs);
    var b := ValidatedForm(form, turing, env, msgs);
    forall k | k in form
      ensures a[k] == b[k]
    {
      assert cleared[k] == form[k].(error := false, errorMsg := "");
      CheckIgnoresErrorState(form[k], turing, env, msgs);
    }
  }

  /** Whether a form passes does not depend on errors left from an earlier pass. */
  lemma PassingIgnoresOldErrors(form: map<string, Field>, turing: Option<Key>, env: Env)
    ensures FormPasses(ErrorsCleared(form), turing, env) == FormPasses(form, turing, env)
  {
    var cleared := ErrorsCleared(form);
    forall k | k in form
      ensures CheckField(cleared[k], turing, env) == CheckField(form[k], turing, env)
    {
      assert cleared[k] == form[k].(error := false, errorMsg := "");
      CheckIgnoresErrorState(form[k], turing, env, DefaultFieldErrorMsgs);
    }
  }

  /** What `_ValidateData` returns is whether no field is left flagged. */
  lemma PassesIffNoFieldFlagged(form: map<string, Field>, turing: Option<Key>, env: Env, msgs: map<string, string>)
    requires CoversKeys(msgs)
    ensures FormPasses(form, turing, env) <==> forall k :: k in form ==> !ValidatedForm(form, turing, env, msgs)[k].error
  {
    var r := ValidatedForm(form, turing, env, msgs);
    forall k | k in form
      ensures !r[k].error <==> CheckField(form[k], turing, env).Passed?
    {
      assert r[k] == ValidatedField(form[k], turing, env, msgs);
    }
  }

  /** A field that is neither a select, a radio button nor a password field. */
  predicate RuleField(f: Field) {
    f.fieldType != "select" && f.fieldType != "radio" && f.fieldType != "password"
  }

  /**
   * A honeypot field (first rule `empty`) that was posted non-empty fails
   * the whole form and has its value cleared.
   */
  lemma HoneypotBlocks(form: map<string, Field>, posted: map<string, string>, turing: Option<Key>,
                       env: Env, msgs: map<string, string>, k: string)
    requires CoversKeys(msgs)
    requires k in form && RuleField(form[k]) && |form[k].valTypes| > 0 && form[k].valTypes[0] == "empty"
    requires k in posted && posted[k] != ""
    ensures !FormPasses(Merged(form, posted), turing, env)
    ensures var g := ValidatedForm(Merged(form, posted), turing, env, msgs)[k];
      g.error && g.value == Text("") && g.errorMsg == msgs["empty"]
  {
    var f := Merged(form, posted)[k];
    assert f.value == Text(posted[k]);
    assert CheckField(f, turing, env) == Failed(Text(""), "empty");
  }

  /**
   * A challenge field (first rule `turing`) passes only with exactly the
   * session's turing text; otherwise the form fails and the value is cleared.
   */
  lemma ChallengeBlocks(form: map<string, Field>, posted: map<string, string>, turing: Option<Key>,
                        env: Env, msgs: map<string, string>, k: string)
    requires CoversKeys(msgs)
    requires k in form && RuleField(form[k]) && |form[k].valTypes| > 0 && form[k].valTypes[0] == "turing"
    requires k in posted && turing != Some(StrKey(posted[k]))
    ensures !FormPasses(Merged(form, posted), turing, env)
    ensures var g := ValidatedForm(Merged(form, posted), turing, env, msgs)[k];
      g.error && g.value == Text("") && g.errorMsg == msgs["turing"]
  {
    var f := Merged(form, posted)[k];
    assert f.value == Text(posted[k]);
    assert CheckField(f, turing, env) == Failed(Text(""), "turing");
  }

  /**
   * With an empty turing pool InitSession leaves no turing text, and then a
   * challenge field fails whatever is posted.
   */
  lemma EmptyPoolBlocksChallenge(form: map<string, Field>, posted: map<string, string>, turing: Option<Key>,
                                 env: Env, k: string)
    requires DrawnFrom(turing, [])
    requires k in form && RuleField(form[k]) && |form[k].valTypes| > 0 && form[k].valTypes[0] == "turing"
    ensures !FormPasses(Merged(form, posted), turing, env)
  {
    var f := Merged(form, posted)[k];
    assert CheckField(f, turing, env) == Failed(Text(""), "turing");
  }
  /**
   * A pool entry that is a whole number becomes an integer key, and then a
   * challenge field fails whatever is posted: no posted string is identical
   * to an `int`.
   */
  lemma WholeNumberBlocksChallenge(form: map<string, Field>, posted: map<string, string>, pool: seq<string>,
                                   turing: Option<Key>, env: Env, k: string)
    requires DrawnFrom(turing, pool) && turing.Some? && turing.value.IntKey?
    requires k in form && RuleField(form[k]) && |form[k].valTypes| > 0 && form[k].valTypes[0] == "turing"
    ensures !FormPasses(Merged(form, posted), turing, env)
    ensures exists x :: x in pool && IsDecimalInt(x)
  {
    var f := Merged(form, posted)[k];
    assert CheckField(f, turing, env) == Failed(Text(""), "turing");
    var x :| x in pool && turing.value == ArrayKey(x);
    IntegerKeysAreDecimal(x);
  }

  /** `"42"` is such an entry: `array_flip` makes it the key `42`. */
  lemma FortyTwoIsAnIntegerKey()
    ensures ArrayKey("42") == IntKey(42)
  {
    assert Magnitude("42") == "42";
    assert DigitsValue("42"[..1]) == 4;
  }

  /**
   * The default pool has no whole numbers: the turing text it leaves is one
   * of its strings, and posting exactly that string answers the challenge.
   */
  lemma DefaultPoolIsAnswerable(turing: Option<Key>)
    requires DrawnFrom(turing, DefaultTuringText)
    ensures turing.Some? && turing.value.StrKey? && turing.value.s in DefaultTuringText
    ensures Answers(Text(turing.value.s), turing)
  {
    var x :| x in DefaultTuringText && turing.value == ArrayKey(x);
    DefaultPoolStartsWithCapitals();
    CapitalFirstStaysString(x);
  }

  lemma DefaultPoolStartsWithCapitals()
    ensures forall x :: x in DefaultTuringText ==> |x| > 0 && 'A' <= x[0] <= 'Z'
  {
  }

  /** A string that starts with a capital letter stays a string key. */
  lemma CapitalFirstStaysString(x: string)
    requires |x| > 0 && 'A' <= x[0] <= 'Z'
    ensures ArrayKey(x) == StrKey(x)
  {
    assert Magnitude(x) == x;
  }
}
