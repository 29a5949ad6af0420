/**
 * The field validation engine of `phpForm::_ValidateData`: the per-field
 * checks (password, select/radio membership, the ordered list of named
 * rules) as pure functions, and what they promise.
 */
module Rules {
  import opened PhpValues
  import opened Regex

  /** One entry of the session's `form` array. */
  datatype Field = Field(
    value: Value,
    fieldType: string,      // 'text', 'password', 'select', 'radio', 'checkbox', ...
    valTypes: seq<string>,  // rule names, checked in this order
    posValues: seq<Value>,  // the allowed values of a select or radio field
    error: bool,
    errorMsg: string)

  /**
   * The library calls the rules depend on and whose behaviour is not part of
   * this model: `filter_var($s, FILTER_VALIDATE_EMAIL)` accepting `s`,
   * `checkdnsrr($domain, $type)`, and `filter_var($s, FILTER_SANITIZE_STRING)`.
   */
  datatype Env = Env(
    validEmail: string -> bool,
    dnsRecord: (string, string) -> bool,
    sanitize: string -> string)

  /** The rule names the `switch` of `_ValidateData` recognises. */
  const KnownRules: set<string> :=
    {"required", "email", "name", "max25", "max5000", "message", "min2", "usTelephone", "turing", "empty"}

  /** The default field error messages, indexed by message key. */
  const DefaultFieldErrorMsgs: map<string, string> := map[
    "email" := "Please enter a valid email address",
    "empty" := "Please leave this field empty",
    "max25" := "This field can have no more than 25 characters",
    "message" := "Please enter 1000 characters or less",
    "min2" := "This field must have at least 2 characters",
    "name" := "Please only use letters, spaces, and numbers",
    "nopassword" := "Please enter your password",
    "required" := "This field is required",
    "selectnovalue" := "ERROR!",
    "turing" := "This field is not correct",
    "usTelephone" := "Please enter a valid US telephone number"]

  /** Every message key a failing check can report. */
  const FieldErrorKeys: set<string> := DefaultFieldErrorMsgs.Keys

  // ---------------------------------------------------------------------
  // Patterns

  const TwoToNine: set<char> := {'2', '3', '4', '5', '6', '7', '8', '9'}
  const NotOne: set<char> := {'0', '2', '3', '4', '5', '6', '7', '8', '9'}             // [02-9]
  const NotOneOrNine: set<char> := {'0', '2', '3', '4', '5', '6', '7', '8'}            // [02-8]

  predicate IsNameChar(c: char) {
    ('A' <= c <= 'Z') || ('a' <= c <= 'z') || ('0' <= c <= '9') || c == ' ' || c == '_'
  }

  /** `[A-Za-z0-9 _]` */
  const NameChars: set<char> := set c: char | 0 <= c as int < 128 && IsNameChar(c)

  /** `/^[A-Za-z0-9 _]*$/` */
  const NamePattern: Re := Star(NameChars)

  /** `\s*(?:[.-]\s*)?` */
  const SepTail: Re := Cat(Star(Space), Opt(Cat(Class({'.', '-'}), Star(Space))))

  /** `[2-9]1[02-9]|[2-9][02-8]1|[2-9][02-8][02-9]` */
  const AreaCode: Re :=
    Alt(Cat(Class(TwoToNine), Cat(Lit("1"), Class(NotOne))),
    Alt(Cat(Class(TwoToNine), Cat(Class(NotOneOrNine), Lit("1"))),
        Cat(Class(TwoToNine), Cat(Class(NotOneOrNine), Class(NotOne)))))

  /** `[2-9]1[02-9]|[2-9][02-9]1|[2-9][02-9]{2}` */
  const Exchange: Re :=
    Alt(Cat(Class(TwoToNine), Cat(Lit("1"), Class(NotOne))),
    Alt(Cat(Class(TwoToNine), Cat(Class(NotOne), Lit("1"))),
        Cat(Class(TwoToNine), Times(NotOne, 2))))

  /** `(?:(?:\+?1\s*(?:[.-]\s*)?)?(?:\(\s*AREA\s*\)|AREA)\s*(?:[.-]\s*)?)?` */
  const AreaPart: Re :=
    Opt(Cat(Opt(Cat(Opt(Lit("+")), Cat(Lit("1"), SepTail))),
        Cat(Alt(Cat(Lit("("), Cat(Star(Space), Cat(AreaCode, Cat(Star(Space), Lit(")"))))), AreaCode),
            SepTail)))

  /** `(?:\s*(?:#|x\.?|ext\.?|extension)\s*(\d+))?` */
  const ExtensionPart: Re :=
    Opt(Cat(Star(Space),
        Cat(Alt(Lit("#"), Alt(Cat(Lit("x"), Opt(Lit("."))), Alt(Cat(Lit("ext"), Opt(Lit("."))), Lit("extension")))),
            Cat(Star(Space), Plus(Digit)))))

  /** The North American telephone number pattern of the `usTelephone` rule. */
  const UsTelephone: Re :=
    Cat(AreaPart, Cat(Exchange, Cat(SepTail, Cat(Times(Digit, 4), ExtensionPart))))

  // ---------------------------------------------------------------------
  // E-mail domain

  /** The index of the last occurrence of `c` in `s` (`strrpos`). */
  function LastIndexOf(s: string, c: char): (r: Option<nat>)
    ensures r.None? <==> c !in s
    ensures r.Some? ==> r.value < |s| && s[r.value] == c && c !in s[r.value + 1..]
  {
    if s == [] then None
    else if s[|s| - 1] == c then Some(|s| - 1)
    else
      var r := LastIndexOf(s[..|s| - 1], c);
      assert s[..|s| - 1] + [s[|s| - 1]] == s;
      if r.Some? then
        assert s[r.value + 1..] == s[..|s| - 1][r.value + 1..] + [s[|s| - 1]];
        r
      else r
  }

  /**
   * `substr($email, strrpos($email, "@") + 1)`: what follows the last `@`;
   * without an `@`, `strrpos` is `false`, `false + 1` is 1 and the domain is
   * everything but the first character.
   */
  function Domain(email: string): (d: string)
    ensures '@' in email ==> '@' !in d && exists i :: 0 <= i < |email| && email[i] == '@' && d == email[i + 1..]
    ensures '@' !in email ==> d == if email == "" then "" else email[1..]
  {
    match LastIndexOf(email, '@')
    case Some(i) => email[i + 1..]
    case None => if email == "" then "" else email[1..]
  }

  // ---------------------------------------------------------------------
  // One rule

  /** What one `case` of the rule `switch` does: go on with a (possibly new) value, or stop with a message key. */
  datatype Step = Continue(value: Value) | Stop(value: Value, msgKey: string)

  /**
   * `$value === $turingText`: the value is a string and the turing text is
   * that same string as a string key. An integer key is never identical to a
   * posted string, and an unset turing text is `null`.
   */
  predicate Answers(v: Value, turing: Option<Key>) {
    v.Text? && turing == Some(StrKey(v.s))
  }

  /** The message key `_SetFieldError` is called with when `rule` fails (`max5000` reports `max25`). */
  function MsgKey(rule: string): (k: string)
    ensures rule in KnownRules ==> k in FieldErrorKeys
    ensures k == "max25" <==> rule == "max25" || rule == "max5000"
  {
    if rule == "max5000" then "max25" else rule
  }

  function ApplyRule(rule: string, v: Value, turing: Option<Key>, env: Env): (r: Step)
    ensures rule !in KnownRules ==> r == Continue(v)
    ensures r.Stop? ==> r.msgKey == MsgKey(rule) && r.msgKey in FieldErrorKeys
    ensures rule != "message" && rule != "turing" && rule != "empty" ==> r.value == v
  {
    var s := PhpString(v);
    if rule == "required" then
      if LooselyEmpty(v) then Stop(v, "required") else Continue(v)
    else if rule == "email" then
      if !(env.validEmail(s) && Truthy(s)) then Stop(v, "email")
      else if !(env.dnsRecord(Domain(s), "MX") && env.dnsRecord(Domain(s), "A")) then Stop(v, "email")
      else Continue(v)
    else if rule == "name" then
      if !(FullMatch(NamePattern, s) && Truthy(s)) then Stop(v, "name") else Continue(v)
    else if rule == "max25" then
      if ByteLength(s) >= 26 then Stop(v, "max25") else Continue(v)
    else if rule == "max5000" then
      if ByteLength(s) >= 5000 then Stop(v, "max25") else Continue(v)
    else if rule == "message" then
      var clean := Text(env.sanitize(s));
      if ByteLength(clean.s) >= 5000 then Stop(clean, "message") else Continue(clean)
    else if rule == "min2" then
      if ByteLength(s) < 2 then Stop(v, "min2") else Continue(v)
    else if rule == "usTelephone" then
      if !(FullMatch(UsTelephone, s) && Truthy(s)) then Stop(v, "usTelephone") else Continue(v)
    else if rule == "turing" then
      if !Answers(v, turing) then Stop(Text(""), "turing") else Continue(v)
    else if rule == "empty" then
      if v != Text("") then Stop(Text(""), "empty") else Continue(v)
    else
      Continue(v)
  }

  // ---------------------------------------------------------------------
  // The rule list and the whole field

  /** The outcome of checking one field: its value afterwards and, on failure, the message key. */
  datatype Outcome = Passed(value: Value) | Failed(value: Value, msgKey: string)

  /** The rule loop: rules in order, the first failing one ends the loop (`break 2`). */
  function RunRules(rules: seq<string>, v: Value, turing: Option<Key>, env: Env): (o: Outcome)
    ensures o.Failed? ==> o.msgKey in FieldErrorKeys
    decreases |rules|
  {
    if rules == [] then Passed(v)
    else
      match ApplyRule(rules[0], v, turing, env)
      case Stop(w, key) => Failed(w, key)
      case Continue(w) => RunRules(rules[1..], w, turing, env)
  }

  /** The checks `_ValidateData` runs on one field, chosen by its type. */
  function CheckField(f: Field, turing: Option<Key>, env: Env): (o: Outcome)
    ensures o.Failed? ==> o.msgKey in FieldErrorKeys
    ensures f.fieldType == "select" || f.fieldType == "radio" ==> o.value == f.value
  {
    if f.fieldType == "password" && f.value == Text("") then Failed(f.value, "nopassword")
    else if f.fieldType == "select" || f.fieldType == "radio" then
      if f.value in f.posValues then Passed(f.value) else Failed(f.value, "selectnovalue")
    else RunRules(f.valTypes, f.value, turing, env)
  }

  /** Whether the field table has a message for every key a check can report. */
  predicate CoversKeys(msgs: map<string, string>) {
    FieldErrorKeys <= msgs.Keys
  }

  /** Field `f` with outcome `o` written back: the value, the error flag and the message. */
  function Recorded(f: Field, o: Outcome, msgs: map<string, string>): (g: Field)
    requires o.Failed? ==> o.msgKey in msgs
    ensures g.fieldType == f.fieldType && g.valTypes == f.valTypes && g.posValues == f.posValues
    ensures g.value == o.value && (g.error <==> o.Failed?)
    ensures g.errorMsg == if o.Failed? then msgs[o.msgKey] else ""
  {
    match o
    case Passed(w) => f.(value := w, error := false, errorMsg := "")
    case Failed(w, key) => f.(value := w, error := true, errorMsg := msgs[key])
  }

  /** A field after `_ValidateData` has visited it. */
  function ValidatedField(f: Field, turing: Option<Key>, env: Env, msgs: map<string, string>): (g: Field)
    requires CoversKeys(msgs)
    ensures g.fieldType == f.fieldType && g.valTypes == f.valTypes && g.posValues == f.posValues
    ensures g.value == CheckField(f, turing, env).value
    ensures g.error <==> CheckField(f, turing, env).Failed?
    ensures !g.error ==> g.errorMsg == ""
    ensures g.error ==> g.errorMsg == msgs[CheckField(f, turing, env).msgKey]
  {
    Recorded(f, CheckField(f, turing, env), msgs)
  }

  function ValidatedForm(form: map<string, Field>, turing: Option<Key>, env: Env, msgs: map<string, string>): (r: map<string, Field>)
    requires CoversKeys(msgs)
    ensures r.Keys == form.Keys
    ensures forall k :: k in form ==> r[k] == ValidatedField(form[k], turing, env, msgs)
  {
    map k | k in form :: ValidatedField(form[k], turing, env, msgs)
  }

  /** What `_ValidateData` returns: no field failed. */
  predicate FormPasses(form: map<string, Field>, turing: Option<Key>, env: Env) {
    forall k :: k in form ==> CheckField(form[k], turing, env).Passed?
  }
}
