/**
 * What the validation engine promises: the condition under which each rule
 * fails, the first-failure-wins discipline of the rule loop, unknown rule
 * names, which rules may change a value, and the password and select/radio
 * checks.
 */
module RuleProperties {
  import opened PhpValues
  import opened Regex
  import opened Rules

  /**
   * The length rules bound `strlen`, the byte length: `max25`, `max5000`
   * (reported as `max25`) and `min2`.
   */
  lemma LengthRules(v: Value, turing: Option<Key>, env: Env)
    ensures ApplyRule("max25", v, turing, env) == if ByteLength(PhpString(v)) >= 26 then Stop(v, "max25") else Continue(v)
    ensures ApplyRule("max5000", v, turing, env) == if ByteLength(PhpString(v)) >= 5000 then Stop(v, "max25") else Continue(v)
    ensures ApplyRule("min2", v, turing, env) == if ByteLength(PhpString(v)) < 2 then Stop(v, "min2") else Continue(v)
  {
  }

  /**
   * A text field whose only rule is `max25` is flagged, with the `max25`
   * message, exactly when its value is 26 bytes or more; its value is kept.
   */
  lemma Max25Field(f: Field, turing: Option<Key>, env: Env, msgs: map<string, string>)
    requires CoversKeys(msgs) && f.fieldType == "text" && f.valTypes == ["max25"]
    ensures var g := ValidatedField(f, turing, env, msgs);
      && (g.error <==> ByteLength(PhpString(f.value)) >= 26)
      && (g.error ==> g.errorMsg == msgs["max25"])
      && g.value == f.value
  {
    LengthRules(f.value, turing, env);
    assert f.valTypes[1..] == [];
    assert RunRules([], f.value, turing, env) == Passed(f.value);
    assert CheckField(f, turing, env) == RunRules(f.valTypes, f.value, turing, env);
  }

  /**
   * Bytes, not characters: thirteen `é` are 26 bytes, so a `max25` field
   * holding them is flagged although it has only thirteen characters.
   */
  lemma AccentedValueOverMax25(f: Field, turing: Option<Key>, env: Env, msgs: map<string, string>)
    requires CoversKeys(msgs) && f.fieldType == "text" && f.valTypes == ["max25"]
    requires f.value == Text(seq(13, _ => '\U{00E9}'))
    ensures |f.value.s| == 13 && ByteLength(f.value.s) == 26
    ensures ValidatedField(f, turing, env, msgs) == f.(error := true, errorMsg := msgs["max25"])
  {
    ByteLengthOfRun('\U{00E9}', 13);
  }

  /** `message` replaces the value by its sanitised form and then bounds its length. */
  lemma MessageRule(v: Value, turing: Option<Key>, env: Env)
    ensures var clean := env.sanitize(PhpString(v));
      ApplyRule("message", v, turing, env) == if ByteLength(clean) >= 5000 then Stop(Text(clean), "message") else Continue(Text(clean))
  {
  }

  /**
   * `turing` and `empty` compare strictly (`!==`) and clear the value when
   * they fail; `turing` passes only a posted string equal to a string key.
   */
  lemma ClearingRules(v: Value, turing: Option<Key>, env: Env)
    ensures ApplyRule("turing", v, turing, env) ==
      if v.Text? && turing == Some(StrKey(v.s)) then Continue(v) else Stop(Text(""), "turing")
    ensures ApplyRule("empty", v, turing, env) == if v == Text("") then Continue(v) else Stop(Text(""), "empty")
  {
  }

  /**
   * `required` uses the loose `== ''`, so `false` (an unchecked checkbox)
   * fails it too; e-mail needs the syntax check and both an MX and an A
   * record for the domain.
   */
  lemma RequiredAndEmailRules(v: Value, turing: Option<Key>, env: Env)
    ensures ApplyRule("required", v, turing, env) == if LooselyEmpty(v) then Stop(v, "required") else Continue(v)
    ensures var s := PhpString(v);
      ApplyRule("email", v, turing, env) ==
        if env.validEmail(s) && Truthy(s) && env.dnsRecord(Domain(s), "MX") && env.dnsRecord(Domain(s), "A")
        then Continue(v) else Stop(v, "email")
  {
  }

  /** The pattern rules pass only when `filter_var`'s result is a truthy match. */
  lemma PatternRules(v: Value, turing: Option<Key>, env: Env)
    ensures var s := PhpString(v);
      ApplyRule("name", v, turing, env) == if FullMatch(NamePattern, s) && Truthy(s) then Continue(v) else Stop(v, "name")
    ensures var s := PhpString(v);
      ApplyRule("usTelephone", v, turing, env) ==
        if FullMatch(UsTelephone, s) && Truthy(s) then Continue(v) else Stop(v, "usTelephone")
  {
  }

  /**
   * `filter_var` returns the matched string and the rule tests it for
   * truthiness, so `"0"` fails the `name` rule although it matches
   * `[A-Za-z0-9 _]*`, and `""` fails both `name` and `usTelephone`.
   */
  lemma FalsyStringsFail(turing: Option<Key>, env: Env)
    ensures FullMatch(NamePattern, "0") && FullMatch(NamePattern, "")
    ensures ApplyRule("name", Text("0"), turing, env) == Stop(Text("0"), "name")
    ensures ApplyRule("name", Text(""), turing, env) == Stop(Text(""), "name")
    ensures ApplyRule("usTelephone", Text(""), turing, env) == Stop(Text(""), "usTelephone")
    ensures ApplyRule("name", Flag(false), turing, env).Stop?
  {
    assert '0' in NameChars;
    assert RunEnd(NameChars, "0", 0) == 1;
    assert 1 in Ends(NamePattern, "0", 0);
    assert 0 in Ends(NamePattern, "", 0);
  }

  /**
   * The `name` pattern read as a character class: every character is a
   * letter, a digit, a space or `_`, except that PCRE's `$` lets one final
   * newline through.
   */
  lemma NamePatternMeaning(s: string)
    ensures FullMatch(NamePattern, s) <==>
      (forall i :: 0 <= i < |s| ==> IsNameChar(s[i]))
      || (|s| > 0 && s[|s| - 1] == '\n' && forall i :: 0 <= i < |s| - 1 ==> IsNameChar(s[i]))
  {
    var e := RunEnd(NameChars, s, 0);
    assert Ends(NamePattern, s, 0) == Span(0, e);
    forall c: char ensures c in NameChars <==> IsNameChar(c) {
      if IsNameChar(c) { assert c as int < 128; }
    }
  }

  /** The telephone example, `555-0123`, piece by piece: the exchange `555`, */
  lemma TelephoneExchange(s: string)
    requires s == "555-0123"
    ensures 3 in Ends(Exchange, s, 0)
  {
    assert 1 in Ends(Class(TwoToNine), s, 0);
    assert s[1] in NotOne && s[2] in NotOne;
    assert 3 in Ends(Times(NotOne, 2), s, 1);
    CatEnds(Class(TwoToNine), Times(NotOne, 2), s, 0, 1, 3);
  }

  /** the separator `-`, */
  lemma TelephoneSeparator(s: string)
    requires s == "555-0123"
    ensures 4 in Ends(SepTail, s, 3)
  {
    assert RunEnd(Space, s, 3) == 3;
    assert 3 in Ends(Star(Space), s, 3);
    assert RunEnd(Space, s, 4) == 4;
    assert 4 in Ends(Class({'.', '-'}), s, 3);
    assert 4 in Ends(Star(Space), s, 4);
    CatEnds(Class({'.', '-'}), Star(Space), s, 3, 4, 4);
    assert 4 in Ends(Opt(Cat(Class({'.', '-'}), Star(Space))), s, 3);
    CatEnds(Star(Space), Opt(Cat(Class({'.', '-'}), Star(Space))), s, 3, 3, 4);
  }

  /** and the line number `0123` with no extension. */
  lemma TelephoneLine(s: string)
    requires s == "555-0123"
    ensures 8 in Ends(Cat(Times(Digit, 4), ExtensionPart), s, 4)
  {
    assert forall k :: 4 <= k < 8 ==> s[k] in Digit;
    assert 8 in Ends(Times(Digit, 4), s, 4);
    assert 8 in Ends(ExtensionPart, s, 8);
    CatEnds(Times(Digit, 4), ExtensionPart, s, 4, 8, 8);
  }

  /** A seven-digit local number with a dash matches the telephone pattern, */
  lemma TelephoneMatches(s: string)
    requires s == "555-0123"
    ensures |s| in Ends(UsTelephone, s, 0)
  {
    TelephoneExchange(s);
    TelephoneSeparator(s);
    TelephoneLine(s);
    assert 0 in Ends(AreaPart, s, 0);
    CatEnds(SepTail, Cat(Times(Digit, 4), ExtensionPart), s, 3, 4, 8);
    CatEnds(Exchange, Cat(SepTail, Cat(Times(Digit, 4), ExtensionPart)), s, 0, 3, 8);
    CatEnds(AreaPart, Cat(Exchange, Cat(SepTail, Cat(Times(Digit, 4), ExtensionPart))), s, 0, 0, 8);
  }

  /** so the rule passes it. */
  lemma TelephoneExample(turing: Option<Key>, env: Env)
    ensures FullMatch(UsTelephone, "555-0123")
    ensures ApplyRule("usTelephone", Text("555-0123"), turing, env) == Continue(Text("555-0123"))
  {
    TelephoneMatches("555-0123");
  }

  /** Once a rule has failed, whatever rules follow it are never looked at. */
  lemma {:induction false} FailureSkipsLaterRules(rules: seq<string>, later: seq<string>, v: Value, turing: Option<Key>, env: Env)
    requires RunRules(rules, v, turing, env).Failed?
    ensures RunRules(rules + later, v, turing, env) == RunRules(rules, v, turing, env)
  {
    assert rules != [];
    assert (rules + later)[0] == rules[0];
    assert (rules + later)[1..] == rules[1..] + later;
    match ApplyRule(rules[0], v, turing, env)
    case Stop(_, _) =>
    case Continue(w) => FailureSkipsLaterRules(rules[1..], later, w, turing, env);
  }

  /** A rule list that passes hands its final value on to the rules after it. */
  lemma {:induction false} PassingRulesCompose(rules: seq<string>, later: seq<string>, v: Value, turing: Option<Key>, env: Env)
    requires RunRules(rules, v, turing, env).Passed?
    ensures RunRules(rules + later, v, turing, env) == RunRules(later, RunRules(rules, v, turing, env).value, turing, env)
  {
    if rules == [] {
      assert rules + later == later;
    } else {
      assert (rules + later)[0] == rules[0];
      assert (rules + later)[1..] == rules[1..] + later;
      match ApplyRule(rules[0], v, turing, env)
      case Stop(_, _) =>
      case Continue(w) => PassingRulesCompose(rules[1..], later, w, turing, env);
    }
  }

  /** Rule `i` is the one that fails: every rule before it passed, and it does not. */
  predicate FailsAt(rules: seq<string>, v: Value, turing: Option<Key>, env: Env, i: nat)
    requires i < |rules|
  {
    var before := RunRules(rules[..i], v, turing, env);
    before.Passed? && ApplyRule(rules[i], before.value, turing, env).Stop?
  }

  /**
   * The rule loop fails exactly when some rule is the first to fail, and its
   * outcome is that rule's: the value it leaves and the message key it names.
   */
  lemma {:induction false} FirstFailingRuleDecides(rules: seq<string>, v: Value, turing: Option<Key>, env: Env)
    ensures RunRules(rules, v, turing, env).Failed? <==> exists i: nat :: i < |rules| && FailsAt(rules, v, turing, env, i)
    ensures forall i: nat :: i < |rules| && FailsAt(rules, v, turing, env, i) ==>
      var stop := ApplyRule(rules[i], RunRules(rules[..i], v, turing, env).value, turing, env);
      RunRules(rules, v, turing, env) == Failed(stop.value, MsgKey(rules[i]))
  {
    if rules != [] {
      assert rules[..0] == [];
      match ApplyRule(rules[0], v, turing, env)
      case Stop(_, _) =>
        assert FailsAt(rules, v, turing, env, 0);
        forall i: nat | 0 < i < |rules| ensures !FailsAt(rules, v, turing, env, i) {
          assert rules[..i][0] == rules[0];
        }
      case Continue(w) =>
        FirstFailingRuleDecides(rules[1..], w, turing, env);
        forall i: nat | 0 < i < |rules|
          ensures RunRules(rules[..i], v, turing, env) == RunRules(rules[1..][..i - 1], w, turing, env)
          ensures FailsAt(rules, v, turing, env, i) <==> FailsAt(rules[1..], w, turing, env, i - 1)
        {
          assert rules[..i][0] == rules[0];
          assert rules[..i][1..] == rules[1..][..i - 1];
          assert rules[i] == rules[1..][i - 1];
        }
        assert !FailsAt(rules, v, turing, env, 0);
        if RunRules(rules, v, turing, env).Failed? {
          var j: nat :| j < |rules[1..]| && FailsAt(rules[1..], w, turing, env, j);
          assert FailsAt(rules, v, turing, env, j + 1);
        }
    }
  }

  /** Keeps the rule names the `switch` recognises, in order. */
  function KnownOnly(rules: seq<string>): (r: seq<string>)
    ensures forall i :: 0 <= i < |r| ==> r[i] in KnownRules
    ensures |r| <= |rules|
  {
    if rules == [] then []
    else (if rules[0] in KnownRules then [rules[0]] else []) + KnownOnly(rules[1..])
  }

  /** Unknown rule names fall through the `switch`: dropping them changes nothing. */
  lemma {:induction false} UnknownRulesNeverFail(rules: seq<string>, v: Value, turing: Option<Key>, env: Env)
    ensures RunRules(KnownOnly(rules), v, turing, env) == RunRules(rules, v, turing, env)
  {
    if rules != [] {
      var rest := KnownOnly(rules[1..]);
      if rules[0] in KnownRules {
        assert KnownOnly(rules) == [rules[0]] + rest;
        assert ([rules[0]] + rest)[1..] == rest;
        match ApplyRule(rules[0], v, turing, env)
        case Stop(_, _) =>
        case Continue(w) => UnknownRulesNeverFail(rules[1..], w, turing, env);
      } else {
        assert KnownOnly(rules) == rest;
        UnknownRulesNeverFail(rules[1..], v, turing, env);
      }
    }
  }

  /** Only `message` (sanitising), `turing` and `empty` (clearing) ever change a value. */
  lemma {:induction false} ValueKeptWithoutMutatingRules(rules: seq<string>, v: Value, turing: Option<Key>, env: Env)
    requires forall i :: 0 <= i < |rules| ==> rules[i] != "message" && rules[i] != "turing" && rules[i] != "empty"
    ensures RunRules(rules, v, turing, env).value == v
  {
    if rules != [] {
      match ApplyRule(rules[0], v, turing, env)
      case Stop(_, _) =>
      case Continue(w) => ValueKeptWithoutMutatingRules(rules[1..], w, turing, env);
    }
  }

  /** An empty password fails with `nopassword`; any other password goes through its rule list. */
  lemma PasswordCheck(f: Field, turing: Option<Key>, env: Env)
    requires f.fieldType == "password"
    ensures f.value == Text("") ==> CheckField(f, turing, env) == Failed(f.value, "nopassword")
    ensures f.value != Text("") ==> CheckField(f, turing, env) == RunRules(f.valTypes, f.value, turing, env)
  {
  }

  /**
   * A select or radio field passes exactly when its value is one of its
   * possible values; its rule list is not consulted, and an empty list of
   * possible values always fails.
   */
  lemma SelectMembership(f: Field, turing: Option<Key>, env: Env)
    requires f.fieldType == "select" || f.fieldType == "radio"
    ensures CheckField(f, turing, env).Passed? <==> exists j :: 0 <= j < |f.posValues| && f.value == f.posValues[j]
    ensures CheckField(f, turing, env).Failed? ==> CheckField(f, turing, env).msgKey == "selectnovalue"
    ensures f.posValues == [] ==> CheckField(f, turing, env).Failed?
  {
  }

  /** A honeypot field (first rule `empty`) with any content fails and is cleared. */
  lemma HoneypotField(f: Field, turing: Option<Key>, env: Env, msgs: map<string, string>)
    requires CoversKeys(msgs)
    requires f.fieldType != "select" && f.fieldType != "radio"
    requires |f.valTypes| > 0 && f.valTypes[0] == "empty" && f.value != Text("")
    ensures ValidatedField(f, turing, env, msgs) == f.(value := Text(""), error := true, errorMsg := msgs["empty"])
  {
  }

  /** A challenge field (first rule `turing`) with the wrong answer fails and is cleared. */
  lemma ChallengeField(f: Field, turing: Option<Key>, env: Env, msgs: map<string, string>)
    requires CoversKeys(msgs)
    requires f.fieldType != "select" && f.fieldType != "radio" && f.fieldType != "password"
    requires |f.valTypes| > 0 && f.valTypes[0] == "turing"
    requires !Answers(f.value, turing)
    ensures ValidatedField(f, turing, env, msgs) == f.(value := Text(""), error := true, errorMsg := msgs["turing"])
  {
  }
}
