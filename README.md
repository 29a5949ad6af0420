# php-forms in Dafny

A model of the `phpForm` class of php-forms (`php-forms.php`), a server-side
form library that protects a contact form against spam with a three-stage
protocol kept in the PHP session:

1. **Init.** `InitSession` records the start time, issues a validation link
   (an md5 token), draws a turing text for a challenge field, and resets the
   submit link to the sentinel `'fail'`. The turing text is drawn with
   `array_rand(array_flip(pool))`, so it is an array key: an entry that is a
   decimal integer such as `"42"` becomes the `int` 42.
2. **Validate.** `ValSession` checks that the session attributes are
   present (5). If they are, it copies the posted data into the session and
   then checks, in this order: the validation link is the one issued (4),
   the post is not too fast (3), the form has not expired (2), and every
   field passes its checks (1). On
   success (0) it issues a submit link. On any failure it re-initialises the
   session and records the message of the failure code.
3. **Submit.** `SubmitSession` accepts the presented link when it `==` the
   issued submit link (0). Otherwise it re-initialises and returns 6. The
   comparison is PHP's loose `==`, under which `"0"` equals a link of the
   form `0e` and digits. The main model uses strict equality, and the code
   as written is modelled in `Findings`.

The field checks of `_ValidateData` are:

- an empty password fails;
- a select or radio value is checked against the field's `posValues`. As
  written, the flag of that check carries over from the previous select or
  radio field when a field has no `posValues`. The main model uses a check
  in which an empty `posValues` always fails, and the code as written is
  modelled in `Findings`;
- any other field runs its ordered rule list: `required`, `email`, `name`,
  `max25`, `max5000`, `message`, `min2`, `usTelephone`, `turing` and `empty`.
  The first failing rule wins. The length rules bound `strlen`, which counts
  bytes. `turing` compares with `!==`, so it never passes when the turing
  text is an integer key.

Layout:

- `php_values.dfy` (`PhpValues`): PHP field values. A field value is a
  posted string or the `false` of an unchecked checkbox. The module also
  holds string conversion, truthiness, the loose `== ''`, the byte length
  `strlen` gives, and the conversion of a string to an array key.
- `regex.dfy` (`Regex`): a small regular-expression language. It is matched
  by sets of end positions and follows PCRE's `$`, which also matches before
  a final newline.
- `rules.dfy` (`Rules`): the rules, the rule list and the per-field check,
  as pure functions.
- `rule_properties.dfy` (`RuleProperties`): lemmas about the rules.
- `php_forms.dfy` (`PhpForms`): the session entry `$_SESSION[$fmName]`,
  modelled as class `FormSession`, and the `phpForm` object, modelled as
  class `PhpForm`, with the operations as methods that update the session
  in place.
- `session_properties.dfy` (`SessionProperties`): lemmas about the session
  functions.
- `scenarios.dfy` (`Scenarios`): request sequences in the stage order of
  `controller.php`.
- `php_numeric.dfy` (`PhpNumeric`): PHP 7's loose `==` on two strings.
- `findings.dfy` (`Findings`): two places where the code does not do what
  its comments say.

The environment is turned into parameters:

- Strings are sequences of Unicode characters. The posted text is taken to
  arrive as UTF-8, so `strlen` is `ByteLength`, the UTF-8 length.
- The clock is a parameter. `now` is given to the constructor, which stores
  it as `curTime`, and to every operation that calls `InitSession`.
- The md5 token of `_LinkUID` is a parameter `uid`. It must satisfy
  `IsLinkUid`: 32 lower-case hexadecimal digits.
- The turing text is the array key of any member of the pool, chosen with `:|`.
- Posted data (`$_POST`) is a parameter, a map from field names to strings.
- The link given in `$_GET` is a parameter, an `Option<string>`.
- `filter_var` e-mail syntax, `checkdnsrr` and `FILTER_SANITIZE_STRING` are
  the uninterpreted functions of `Rules.Env`.

The `name` and `usTelephone` patterns are written out in `Rules`.

Every `for` loop over `array_keys` is modelled as a loop that picks the
remaining keys in any order. The fields do not depend on one another, so
order is unobservable. The one exception is the carried select flag, which
is covered under Findings.

`ValSession` and `SubmitSession` return the `$debug` result code. The
boolean the source returns without `$debug` is `code == 0`.

## Model

| member | source | states |
|---|---|---|
| PhpValues.PhpString | php-forms.php:556-585 | a string value is used as itself; `false` reads as `""` and `true` as a non-empty string, as `strlen` sees them |
| PhpValues.CharBytes | php-forms.php:557 | a character takes 1 to 4 bytes in UTF-8, and exactly 1 iff it is ASCII |
| PhpValues.ByteLength | php-forms.php:557 | `strlen` of a UTF-8 string is at least its character count and at most four times it, and equals it for ASCII text |
| PhpValues.ByteLengthOfRun | php-forms.php:557 | a character repeated `n` times takes `n` times its byte count |
| PhpValues.ArrayKey | php-forms.php:408 | a string used as an array key stays itself when it is a string key; an integer key lies in the 64-bit `int` range |
| PhpValues.IntegerKeysAreDecimal | php-forms.php:408 | only a decimal integer (`0`, or an optional `-` and digits without a leading zero) becomes an integer key; every other string stays a string key |
| Regex.Ends | php-forms.php:549 | the end positions of a match starting at `i` all lie between `i` and the end of the string |
| Regex.CatEnds | php-forms.php:590 | a match of `a` followed by a match of `b` is a match of `a` then `b` |
| Regex.FullMatch | php-forms.php:549 | the anchored match `/^r$/`, whose `$` also matches before one final newline |
| Regex.FullMatchMeaning | php-forms.php:549 | a full match is a match from the start that leaves nothing, or only a final newline |
| PhpValues.LooselyEmptyMeansEmptyString | php-forms.php:525 | the loose `== ''` of `required` holds exactly for the values whose string form is empty, so an unchecked checkbox fails `required` |
| Rules.NameChars | php-forms.php:549 | a constant with no contract: the class `[A-Za-z0-9 _]` as a set of characters |
| Rules.NamePattern | php-forms.php:549 | a constant with no contract: `/^[A-Za-z0-9 _]*$/` as `Star(NameChars)`; `RuleProperties.NamePatternMeaning` gives its meaning |
| Rules.SepTail | php-forms.php:590 | a constant with no contract: the separator `\s*(?:[.-]\s*)?` |
| Rules.AreaCode | php-forms.php:590 | a constant with no contract: the area-code alternatives `[2-9]1[02-9]`, `[2-9][02-8]1`, `[2-9][02-8][02-9]` |
| Rules.Exchange | php-forms.php:590 | a constant with no contract: the exchange alternatives `[2-9]1[02-9]`, `[2-9][02-9]1`, `[2-9][02-9]{2}` |
| Rules.AreaPart | php-forms.php:590 | a constant with no contract: the optional country code `+1` and the area code, bare or in parentheses, each followed by a separator |
| Rules.ExtensionPart | php-forms.php:590 | a constant with no contract: the optional extension `#`, `x`, `x.`, `ext`, `ext.` or `extension` followed by digits |
| Rules.UsTelephone | php-forms.php:590 | a constant with no contract: area part, exchange, separator, four digits and extension, in that order; the capture groups are not needed because only the match matters; `RuleProperties.TelephoneMatches` is a derivation through it |
| Rules.Answers | php-forms.php:598 | a predicate with no contract: `===` of a value and the turing text holds iff the value is a string and the turing text is that string as a string key; `RuleProperties.ClearingRules` and `SessionProperties.WholeNumberBlocksChallenge` use it |
| Rules.LastIndexOf | php-forms.php:539 | `strrpos`: no result iff the character is absent; otherwise an index holding it with no later occurrence |
| Rules.Domain | php-forms.php:538-539 | the e-mail domain is what follows the last `@` and contains no `@`; with no `@` it is everything but the first character |
| Rules.MsgKey | php-forms.php:564-566 | every rule the `switch` knows reports a key that has a message, and `max25` is reported exactly by `max25` and `max5000` |
| Rules.ApplyRule | php-forms.php:524-616 | an unknown rule name passes with the value unchanged; a failing rule reports its own message key (`max25` for `max5000`), which always has a message; only `message`, `turing` and `empty` can change the value |
| Rules.RunRules | php-forms.php:520-618 | a failing rule list always reports a key that has a default message |
| Rules.CheckField | php-forms.php:498-618 | failures always carry a known key; a select or radio check never changes the value |
| Rules.Recorded | php-forms.php:631-634 | writing an outcome back sets the value, sets the error flag iff it failed and sets the message of its key (or `''`), and keeps type, rules and allowed values |
| Rules.ValidatedField | php-forms.php:493-618 | after validation a field keeps its type, rules and allowed values; its value is the one its check leaves (sanitised by `message`, cleared by `turing` or `empty`); its error flag is set iff its check failed, with the message of the failing key, and otherwise the message is `''` |
| Rules.ValidatedForm | php-forms.php:493-621 | validation keeps the set of fields and validates each one independently |
| Rules.FormPasses | php-forms.php:490-622 | `_ValidateData` returns true iff no field's check fails |
| RuleProperties.LengthRules | php-forms.php:556-586 | `max25` fails iff the byte length is ≥ 26; `max5000` fails iff it is ≥ 5000 and reports `max25`; `min2` fails iff it is < 2; none changes the value |
| RuleProperties.Max25Field | php-forms.php:556-561 | a text field whose only rule is `max25` is flagged, with the `max25` message, iff its value is 26 bytes or more, and its value is kept |
| RuleProperties.AccentedValueOverMax25 | php-forms.php:556-561 | a `max25` field holding thirteen `é` (13 characters, 26 bytes) is flagged with the `max25` message |
| RuleProperties.MessageRule | php-forms.php:572-579 | `message` replaces the value with its sanitised form and fails iff that has a byte length ≥ 5000 |
| RuleProperties.ClearingRules | php-forms.php:597-612 | `turing` fails iff the value is not a string identical to the turing text as a string key (an integer key never matches), and `empty` fails iff the value is not strictly `''`; both clear the value when they fail |
| RuleProperties.RequiredAndEmailRules | php-forms.php:524-546 | `required` fails iff the value is loosely `''`; `email` passes iff the syntax check gives a truthy result and the domain has both an MX and an A record |
| RuleProperties.PatternRules | php-forms.php:548-595 | `name` and `usTelephone` pass iff the value matches their anchored pattern and the matched string is truthy |
| RuleProperties.FalsyStringsFail | php-forms.php:548-595 | `""` and `"0"` match the `name` pattern yet fail `name`, and `""` fails `usTelephone` |
| RuleProperties.NamePatternMeaning | php-forms.php:549 | the `name` pattern matches iff every character is a letter, digit, space or `_`, except possibly a single final newline |
| RuleProperties.TelephoneMatches | php-forms.php:590 | `555-0123` matches the telephone pattern |
| RuleProperties.TelephoneExample | php-forms.php:589-595 | `usTelephone` passes `555-0123` and keeps it |
| RuleProperties.FailureSkipsLaterRules | php-forms.php:520-618 | once a prefix of the rule list fails, later rules are never evaluated (`break 2`) |
| RuleProperties.PassingRulesCompose | php-forms.php:520-618 | a passing prefix hands its final value to the rest of the list |
| RuleProperties.FirstFailingRuleDecides | php-forms.php:520-618 | the list fails iff some rule is the first to fail, and the outcome is that rule's value and message key |
| RuleProperties.UnknownRulesNeverFail | php-forms.php:614-615 | removing the rule names the `switch` does not know leaves the outcome unchanged |
| RuleProperties.ValueKeptWithoutMutatingRules | php-forms.php:572-612 | a rule list without `message`, `turing` or `empty` never changes the value |
| RuleProperties.PasswordCheck | php-forms.php:498-520 | an empty password fails with `nopassword`; a non-empty password runs its rule list |
| RuleProperties.SelectMembership | php-forms.php:503-516 | a select or radio field passes iff its value is strictly one of `posValues`, else fails with `selectnovalue`; an empty `posValues` always fails |
| RuleProperties.HoneypotField | php-forms.php:606-612 | a field whose first rule is `empty` and that holds anything fails with the `empty` message and is cleared |
| RuleProperties.ChallengeField | php-forms.php:597-603 | a field whose first rule is `turing` and that holds a wrong answer fails with the `turing` message and is cleared |
| PhpForms.IsLinkUid | php-forms.php:680-682 | a predicate with no contract: the format of an md5 digest, 32 lower-case hexadecimal digits; `SessionProperties.LinkUidIsNeverFail` follows from it |
| PhpForms.DrawnFrom | php-forms.php:405-408 | a predicate with no contract: the turing text is unset for an empty pool and otherwise the array key of some pool entry; `InitSession` establishes it and `WholeNumberBlocksChallenge` and `DefaultPoolIsAnswerable` use it |
| PhpForms.FormMsgAt | php-forms.php:207-211 | a non-empty custom message replaces the default; an empty one keeps it; an index past the custom list becomes unset (null) |
| PhpForms.ErrorsCleared | php-forms.php:384-389 | every field loses its error flag and message; value, type, rules and allowed values stay |
| PhpForms.FieldsCleared | php-forms.php:658-662 | every value becomes `''`; error flag, message, type, rules and allowed values stay |
| PhpForms.MergedField | php-forms.php:437-443 | a posted field takes the posted string; an unposted checkbox becomes `false`; otherwise the value stays; type, rules, allowed values and error state stay |
| PhpForms.Merged | php-forms.php:437-443 | a posted field takes the posted string; an unposted checkbox becomes `false`; any other unposted field keeps its value; the field set is unchanged |
| PhpForms.ValCode | php-forms.php:434-476 | the result is 0 iff the attributes are set, the presented link is strictly the validation link and not `'fail'`, the time is inside the window (both ends included) and the data is valid; 5 iff attributes are missing; 4 iff they are present but the link is wrong |
| PhpForms.SubmitAccepted | php-forms.php:643 | the corrected submit test: nothing is accepted without both links, and a link is accepted iff it is the session's link and that is not `'fail'` |
| PhpForms.InstallFormMsgs | php-forms.php:207-211 | the constructor's loop yields the seven form messages as the custom-message rule states |
| PhpForms.InstallFieldMsgs | php-forms.php:212-214 | the field messages are the defaults with every custom key overriding or added |
| PhpForms.RunRuleLoop | php-forms.php:520-618 | the rule loop with its early exit computes the rule-list outcome |
| PhpForms.HasPosValue | php-forms.php:505-512 | the loop over `posValues` finds a match iff the value is one of them (a flag that starts false each time) |
| PhpForms.PhpForm.constructor | php-forms.php:177-215 | `curTime` is the given time and the defaults are installed; an unset form is set from the definitions with errors cleared; unset links become `'fail'`; the message is reset to `''`; the call counter is incremented or starts at 1; custom messages as above |
| PhpForms.PhpForm.SetMaxTime | php-forms.php:235-237 | sets the maximum time |
| PhpForms.PhpForm.SetMinTime | php-forms.php:245-247 | sets the minimum time |
| PhpForms.PhpForm.SetTuringText | php-forms.php:255-257 | sets the turing pool |
| PhpForms.PhpForm.ClearFieldErrors | php-forms.php:384-389 | the session form becomes `ErrorsCleared` of what it was; nothing else changes |
| PhpForms.PhpForm.ClearFields | php-forms.php:658-662 | the session form becomes `FieldsCleared` of what it was; nothing else changes |
| PhpForms.PhpForm.DelSession | php-forms.php:670-672 | every attribute of the session entry is unset |
| PhpForms.PhpForm.InitSession | php-forms.php:404-412 | the start time is the given time; the validation link is the new token, never `'fail'`; the submit link is `'fail'`; the turing text is the array key of an entry of the pool, unset for an empty pool; fields, message and counter are untouched |
| PhpForms.PhpForm.PutField | php-forms.php:494-495 | one field of the session form is replaced; the others stay |
| PhpForms.PhpForm.SetFieldError | php-forms.php:631-634 | the one field gets its error flag and the message of the given key; nothing else changes |
| PhpForms.PhpForm.ValidateField | php-forms.php:493-618 | one field is replaced by its validated form, and the result says whether its check passed |
| PhpForms.PhpForm.ValidateData | php-forms.php:489-622 | the session form becomes its validated form, every field visited; the result is true iff no field failed |
| PhpForms.PhpForm.Reject | php-forms.php:452-476 | a failing path re-initialises the session and sets the message of its code |
| PhpForms.PhpForm.MergePosted | php-forms.php:437-443 | the session form becomes the merge of the posted data |
| PhpForms.PhpForm.CheckMerged | php-forms.php:446-476 | link, then minimum time, then maximum time, then data, with the code `ValCode` gives; data is validated only on the 0 and 1 paths; the submit link is set only on success |
| PhpForms.PhpForm.ValidateMerged | php-forms.php:446-477 | once the attributes are set and the post is merged: the code is `ValCode` of the old link, time and the validation result. The fields stay merged (4, 3, 2) or are validated (1, 0). On 0 a link is issued and the rest stays; on any other code the session is rejected with the code's message |
| PhpForms.PhpForm.ValSession | php-forms.php:433-477 | the code is `ValCode` of the old state and of the data merged before any check. The fields are unchanged (5), merged (4, 3, 2) or merged and validated (1, 0). On 0 a submit link that is not `'fail'` is issued and the validation link, time, turing text and message stay. On any other code the session is re-initialised with `submitLink == 'fail'` and the code's message |
| PhpForms.PhpForm.SubmitSession | php-forms.php:642-650 | 0 iff a link is presented, the session's submit link is set, is not `'fail'`, and they are equal; then nothing changes; otherwise 6, re-initialisation and message 6 |
| SessionProperties.LinkUidIsNeverFail | php-forms.php:680-682 | a 32-character token is never `'fail'` |
| SessionProperties.TimingWindow | php-forms.php:447-448 | with the right link: too fast iff strictly before `time + minTime`; expired iff strictly after `time + maxTime`; inside the closed window only the data decides |
| SessionProperties.SentinelNeverValidates | php-forms.php:446 | a validation link still at `'fail'` gives 4 or 5, whatever is presented |
| SessionProperties.SubmitSentinelNeverAccepted | php-forms.php:643 | a submit link still at `'fail'` is never accepted |
| SessionProperties.ErrorsClearedIdempotent | php-forms.php:384-389 | clearing errors twice is clearing them once |
| SessionProperties.ClearingsCommute | php-forms.php:658-662 | clearing values and clearing errors commute |
| SessionProperties.MergedIdempotent | php-forms.php:437-443 | merging the same post twice is merging it once |
| SessionProperties.MergeIgnoresUnknownNames | php-forms.php:437-443 | posted names that are not fields have no effect |
| SessionProperties.CheckIgnoresErrorState | php-forms.php:493-495 | a field's check and validated form do not depend on its previous error state |
| SessionProperties.ValidationIgnoresOldErrors | php-forms.php:493-495 | validating a form with errors cleared gives the same result as validating it with old errors |
| SessionProperties.PassingIgnoresOldErrors | php-forms.php:493-495 | whether a form passes does not depend on old errors |
| SessionProperties.HoneypotBlocks | php-forms.php:606-612 | a honeypot field posted non-empty fails the whole form, and after validation it is flagged and cleared |
| SessionProperties.PassesIffNoFieldFlagged | php-forms.php:490-622 | the form passes iff no field is flagged after validation |
| SessionProperties.ChallengeBlocks | php-forms.php:597-603 | a challenge field posted with anything but the turing text as a string key fails the whole form, and after validation it is flagged and cleared |
| SessionProperties.EmptyPoolBlocksChallenge | php-forms.php:408 | with an empty turing pool no challenge field can pass |
| SessionProperties.WholeNumberBlocksChallenge | php-forms.php:408 | when the drawn turing text is an integer key, which happens only for a pool entry that is a decimal integer, no challenge field can pass |
| SessionProperties.FortyTwoIsAnIntegerKey | php-forms.php:408 | the pool entry `"42"` becomes the integer key 42 |
| SessionProperties.DefaultPoolIsAnswerable | php-forms.php:114-116 | with the default pool the turing text is one of its strings, and posting exactly that string answers the challenge |
| Scenarios.HonestVisit | controller.php:13-33 | init, then validate inside the window with the issued link, then submit with the issued submit link: validation passes iff the merged data passes (else 1), and submission succeeds iff validation did (else 6) |
| Scenarios.ReplayAfterTooFast | php-forms.php:447-465 | a post one second after init gives 3, and re-presenting the same validation link later gives 4 |
| Scenarios.SubmitWithoutValidating | php-forms.php:643-648 | submitting after init without validating gives 6 for any presented link |
| Scenarios.ValidateOutOfOrder | php-forms.php:472-475 | validating before init, or after `DelSession`, gives 5 |
| PhpNumeric.NumericValue | php-forms.php:643 | a string is numeric only if it contains a digit |
| PhpNumeric.LooseEquals | php-forms.php:643 | PHP's loose `==` on strings: equal strings are loosely equal, and when one side is not numeric it is string equality |
| PhpNumeric.IntegerKeyIsItsNumber | php-forms.php:408 | an integer array key has the value its string has as a numeric string |
| PhpNumeric.ZeroExponentIsZero | php-forms.php:643 | `"0e"` followed by digits is the number 0 |
| PhpNumeric.FailIsNotNumeric | php-forms.php:643 | `'fail'` is not numeric, so `== 'fail'` is plain equality |
| Findings.PosValueFlagAsWritten | php-forms.php:505-512 | as written: with allowed values the flag is whether the value is among them; with none, it is whatever was carried in |
| Findings.SelectPassesAsWritten | php-forms.php:505-516 | as written, a select or radio field with allowed values passes iff its value is among them, and one without passes iff the carried flag is true |
| Findings.SelectAsWrittenAgrees | php-forms.php:505-516 | with a non-empty `posValues` the code as written agrees with `CheckField` whatever flag is carried |
| Findings.CarriedFlagPassesEmptySelect | php-forms.php:505-516 | a select with no allowed values passes as written after a matching select, and fails in the corrected check |
| Findings.SubmitAcceptedAsWritten | php-forms.php:643 | the submit test as written: nothing is accepted without both links, a `'fail'` link is never accepted, and the session's own link is always accepted |
| Findings.ZeroMatchesMagicLink | php-forms.php:643 | a submit link `0e` plus 30 digits is a valid token, and as written `"0"` is accepted for it; the corrected test rejects it |
| Findings.SubmitAsWrittenAgrees | php-forms.php:643 | for a submit link that is not numeric, the code as written accepts exactly what the corrected test does |
| Findings.SubmitAcceptsOnlyTheLink | php-forms.php:643 | the corrected test accepts only the session's own link, never `'fail'` |

## Left out

- `session_start`, the `IP` attribute (`$_SERVER['REMOTE_ADDR']`) and the `counter` attribute (`$_COOKIE`): environment values that are stored and read only by `StrExtraData`, which is left out.
- `StrExtraData` and the `Pr_*`/`Str_*` printers and getters: output formatting only.
- `_LinkUID`'s md5 of the address, salt and `microtime()`: it is a parameter with only its format (32 lower-case hexadecimal digits) assumed. Freshness between calls is not assumed; scenarios that need two different tokens require it.
- `filter_var` e-mail syntax (`FILTER_VALIDATE_EMAIL`), `checkdnsrr` and `FILTER_SANITIZE_STRING`: foreign library calls, modelled as uninterpreted functions.
- The form name `_fmName`: the model has one session entry per form object.
- `js/php-forms.js`, `defaultForm.inc.php`, `views/submit.inc.php`: client-side checks, HTML rendering with JSON loading, and mail delivery are not part of this model. `controller.php` is used only for the stage order of `Scenarios.HonestVisit`.
- `array_rand` over an empty pool: PHP 7 returns null with a warning and PHP 8 throws. The model leaves the turing text unset, as in PHP 7.
- PhpForms.PhpForm.ClearFieldErrors, PhpForms.PhpForm.ClearFields: they require the session form to be set. The source calls `array_keys` on an unset form, which warns (PHP 7) or throws (PHP 8). The model does not describe that error.
- PhpForms.PhpForm.InitSession: `time()` inside `InitSession` is the `now` parameter. Nothing forces it to relate to `curTime`, which the constructor captured.
- PhpNumeric.NumericValue: numbers are compared exactly, as reals. PHP's conversion to `int` or `float`, float rounding and overflow of long digit strings are not modelled. The grammar is PHP 7's: leading but not trailing white space.
- PhpValues.PhpString: strings are Unicode character sequences and `strlen` is their UTF-8 length (`ByteLength`). Byte strings that are not valid UTF-8, and posts in other encodings, are not represented.
- PhpValues.ArrayKey: the integer range is that of 64-bit PHP; 32-bit builds are not modelled.
- PhpForms.PhpForm.InitSession: `array_rand` is modelled as a choice of any entry of the pool, made with `:|`. Duplicate entries, which `array_flip` merges, and the uniformity of the draw are not modelled.
- PhpForms.PhpForm.SubmitSession: the main model uses strict equality for the submit link. The loose `==` of the source is `Findings.SubmitAcceptedAsWritten`, and where the two differ is `Findings.ZeroMatchesMagicLink`.
- Rules.CheckField: an empty `posValues` always fails in the main model (`PhpForms.HasPosValue` resets the flag). The source instead reads the flag left by the previous select or radio field. That is `Findings.PosValueFlagAsWritten`, and where the two differ is `Findings.CarriedFlagPassesEmptySelect`.
- Field values other than strings and `false` (arrays posted as `name[]`, integers in the field definitions): not modelled.

## Findings

| source | as written | input that shows it | evidently intended | confidence | as-written member | corrected member |
|---|---|---|---|---|---|---|
| php-forms.php:505-512 | `$equalsPosValue` is only assigned inside the loop over `posValues`, so a select or radio field with no allowed values reads the flag left by the previous such field | a select with value `x` and `posValues` `[x]`, followed by a select with value `y` and no `posValues`: the second passes | a value passes only if it is one of the field's `posValues`; an empty list always fails | not executed; confirmed by the proof of the counterexample lemma | Findings.CarriedFlagPassesEmptySelect | PhpForms.HasPosValue |
| php-forms.php:643 | the presented submit link is compared with loose `==`, which compares two numeric strings as numbers | the submit link `0e` followed by 30 digits (a possible md5 digest) and the presented link `0`: accepted | strict equality of the two strings, as `ValSession` uses for the validation link (php-forms.php:446) | not executed; confirmed by the proof of the counterexample lemma; only reachable after validation has passed | Findings.ZeroMatchesMagicLink | PhpForms.PhpForm.SubmitSession |
