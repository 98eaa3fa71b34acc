/**
 * The field validation of js/forms.js: a first-failure chain per field
 * (required, then the e-mail pattern, then the Norwegian phone pattern) and
 * a form check that validates every required field. The two regular
 * expressions are written out as string predicates.
 */
module Forms {
  import opened Wrappers
  import opened Strings
  import Language

  /** The `type` attribute of an input, as far as validation looks at it. */
  datatype InputType = EmailInput | TelInput | OtherInput

  /** What validation reads of a form control and its surroundings. */
  datatype Field = Field(inFormGroup: bool, required: bool, kind: InputType, value: string)

  datatype Failure = Required | InvalidEmail | InvalidPhone

  datatype Verdict = Valid | Invalid(reason: Failure)

  // ---------------------------------------------------------------------------
  // Trimming and whitespace

  predicate AllWhitespace(s: string) {
    forall i :: 0 <= i < |s| ==> IsWhitespace(s[i])
  }

  predicate NoWhitespace(s: string) {
    forall i :: 0 <= i < |s| ==> !IsWhitespace(s[i])
  }

  /** How many white-space characters `s` starts with. */
  function LeadingSpace(s: string): (n: nat)
    ensures n <= |s| && AllWhitespace(s[..n])
    ensures n < |s| ==> !IsWhitespace(s[n])
  {
    if s != [] && IsWhitespace(s[0]) then
      var m := LeadingSpace(s[1..]);
      assert s[..1 + m] == [s[0]] + s[1..][..m];
      1 + m
    else 0
  }

  /** Where the white space that `s` ends with begins. */
  function TrailingSpace(s: string): (j: nat)
    ensures j <= |s| && AllWhitespace(s[j..])
    ensures j > 0 ==> !IsWhitespace(s[j - 1])
  {
    if s != [] && IsWhitespace(s[|s| - 1]) then
      var init := s[..|s| - 1];
      var j := TrailingSpace(init);
      assert s[j..] == init[j..] + [s[|s| - 1]];
      j
    else |s|
  }

  /** Leading whitespace dropped. */
  function TrimStart(s: string): string {
    s[LeadingSpace(s)..]
  }

  /** Trailing whitespace dropped. */
  function TrimEnd(s: string): string {
    s[..TrailingSpace(s)]
  }

  /** `trimStart` drops a run of white space and stops at the first other character. */
  lemma TrimStartShape(s: string)
    ensures exists i :: 0 <= i <= |s| && TrimStart(s) == s[i..] && AllWhitespace(s[..i])
    ensures TrimStart(s) != [] ==> !IsWhitespace(TrimStart(s)[0])
  {
    assert TrimStart(s) == s[LeadingSpace(s)..];
  }

  /** `trimEnd` drops a run of white space and stops at the last other character. */
  lemma TrimEndShape(s: string)
    ensures exists j :: 0 <= j <= |s| && TrimEnd(s) == s[..j] && AllWhitespace(s[j..])
    ensures TrimEnd(s) != [] ==> !IsWhitespace(TrimEnd(s)[|TrimEnd(s)| - 1])
  {
    assert TrimEnd(s) == s[..TrailingSpace(s)];
  }

  /** `String.prototype.trim`. */
  function Trim(s: string): string {
    TrimEnd(TrimStart(s))
  }

  /** `!value.trim()` holds exactly when the value is all whitespace (or empty). */
  lemma TrimEmptyIff(s: string)
    ensures Trim(s) == "" <==> AllWhitespace(s)
  {
    var t := TrimStart(s);
    var i := LeadingSpace(s);
    var j := TrailingSpace(t);
    if Trim(s) == "" {
      assert j == 0 && t[j..] == t;
      assert |t| == 0;
      assert s[..i] == s;
    } else {
      assert !IsWhitespace(TrimEnd(t)[0]);
      assert TrimEnd(t)[0] == s[i];
    }
  }

  /** `value.replace(/\s/g, '')`. */
  function StripWhitespace(s: string): (r: string)
    ensures NoWhitespace(r)
    ensures |r| <= |s|
    ensures NoWhitespace(s) ==> r == s
    ensures |s| == 1 ==> r == (if IsWhitespace(s[0]) then [] else s)
  {
    if s == [] then []
    else if IsWhitespace(s[0]) then StripWhitespace(s[1..])
    else
      assert NoWhitespace(s) ==> NoWhitespace(s[1..]);
      [s[0]] + StripWhitespace(s[1..])
  }

  lemma StripWhitespaceIdempotent(s: string)
    ensures StripWhitespace(StripWhitespace(s)) == StripWhitespace(s)
  {
  }

  // ---------------------------------------------------------------------------
  // The e-mail pattern /^[^\s@]+@[^\s@]+\.[^\s@]+$/

  /** A character of the class `[^\s@]`. */
  predicate EmailChar(c: char) {
    !IsWhitespace(c) && c != '@'
  }

  /**
   * The pattern as a string predicate: an '@' at `a` and a '.' at `d`, with at
   * least one character before the '@', between the two, and after the '.',
   * and every other character in `[^\s@]`.
   */
  predicate MatchesEmailPattern(s: string) {
    exists a, d | 0 < a && a + 1 < d && d + 1 < |s| ::
      s[a] == '@' && s[d] == '.' && forall i | 0 <= i < |s| && i != a :: EmailChar(s[i])
  }

  /** How many times a character occurs. */
  function CountOf(s: string, c: char): nat {
    if s == [] then 0 else (if s[0] == c then 1 else 0) + CountOf(s[1..], c)
  }

  lemma {:induction false} CountOfOne(s: string, c: char, a: int)
    requires 0 <= a < |s| && s[a] == c
    ensures CountOf(s, c) == 1 <==> forall i :: 0 <= i < |s| && i != a ==> s[i] != c
  {
    if a == 0 {
      CountOfZero(s[1..], c);
      assert forall i :: 0 < i < |s| ==> s[i] == s[1..][i - 1];
    } else {
      CountOfOne(s[1..], c, a - 1);
      CountOfZero(s[1..], c);
      assert s[1..][a - 1] == c;
      assert forall i :: 0 < i < |s| ==> s[i] == s[1..][i - 1];
    }
  }

  lemma {:induction false} CountOfZero(s: string, c: char)
    ensures CountOf(s, c) == 0 <==> forall i :: 0 <= i < |s| ==> s[i] != c
  {
    if s != [] {
      CountOfZero(s[1..], c);
      assert forall i :: 0 < i < |s| ==> s[i] == s[1..][i - 1];
    }
  }

  /**
   * The pattern accepts a value exactly when it has one '@', no whitespace, a
   * non-empty part before the '@', and after the '@' a '.' with at least one
   * character on each side of it.
   */
  lemma EmailPatternIff(s: string)
    ensures MatchesEmailPattern(s) <==>
      CountOf(s, '@') == 1 && NoWhitespace(s) &&
      exists a, d :: 0 < a && a + 1 < d && d + 1 < |s| && s[a] == '@' && s[d] == '.'
  {
    if MatchesEmailPattern(s) {
      var a, d :| 0 < a && a + 1 < d && d + 1 < |s| &&
        s[a] == '@' && s[d] == '.' && forall i | 0 <= i < |s| && i != a :: EmailChar(s[i]);
      CountOfOne(s, '@', a);
    }
    if CountOf(s, '@') == 1 && NoWhitespace(s) &&
      exists a, d :: 0 < a && a + 1 < d && d + 1 < |s| && s[a] == '@' && s[d] == '.'
    {
      var a, d :| 0 < a && a + 1 < d && d + 1 < |s| && s[a] == '@' && s[d] == '.';
      CountOfOne(s, '@', a);
      assert forall i | 0 <= i < |s| && i != a :: EmailChar(s[i]);
    }
  }

  /** Lower-case letters and '.' are in `[^\s@]`. */
  lemma PlainEmailChar(c: char)
    requires 'a' <= c <= 'z' || c == '.'
    ensures EmailChar(c)
  {
  }

  lemma EmailAccepted()
    ensures MatchesEmailPattern("kari@example.com")
  {
    var s := "kari@example.com";
    assert s[4] == '@' && s[12] == '.';
    forall i | 0 <= i < |s| && i != 4
      ensures EmailChar(s[i])
    {
      assert 'a' <= s[i] <= 'z' || s[i] == '.';
      PlainEmailChar(s[i]);
    }
  }

  /** Two '@' characters anywhere are never accepted: only one position may hold '@'. */
  lemma TwoAtsRejected(s: string, p: int, q: int)
    requires 0 <= p < q < |s| && s[p] == '@' && s[q] == '@'
    ensures !MatchesEmailPattern(s)
  {
    forall a | 0 < a < |s| && s[a] == '@'
      ensures exists i | 0 <= i < |s| && i != a :: !EmailChar(s[i])
    {
      var j := if a == p then q else p;
      assert !EmailChar(s[j]);
    }
  }

  lemma EmailTwoAtsRejected()
    ensures !MatchesEmailPattern("kari@@example.com")
  {
    var s := "kari@@example.com";
    assert s[4] == '@' && s[5] == '@';
    TwoAtsRejected(s, 4, 5);
  }

  // ---------------------------------------------------------------------------
  // The phone pattern /^(\+47)?[0-9]{8}$/

  predicate MatchesPhonePattern(s: string) {
    || (|s| == 8 && AllDecimalDigits(s))
    || (|s| == 11 && s[..3] == "+47" && AllDecimalDigits(s[3..]))
  }

  lemma {:induction false} StripWhitespaceAppend(a: string, b: string)
    ensures StripWhitespace(a + b) == StripWhitespace(a) + StripWhitespace(b)
    decreases |a|
  {
    if a == [] {
      assert a + b == b;
    } else {
      var ab := a + b;
      assert ab != [] && ab[0] == a[0] && ab[1..] == a[1..] + b;
      if IsWhitespace(a[0]) {
        calc {
          StripWhitespace(ab);
          StripWhitespace(a[1..] + b);
          { StripWhitespaceAppend(a[1..], b); }
          StripWhitespace(a[1..]) + StripWhitespace(b);
        }
      } else {
        calc {
          StripWhitespace(ab);
          [a[0]] + StripWhitespace(a[1..] + b);
          { StripWhitespaceAppend(a[1..], b); }
          [a[0]] + (StripWhitespace(a[1..]) + StripWhitespace(b));
          ([a[0]] + StripWhitespace(a[1..])) + StripWhitespace(b);
        }
      }
    }
  }

  /** "+47" and eight digits match the pattern's second alternative. */
  lemma PhonePrefixed(digits: string)
    requires |digits| == 8 && AllDecimalDigits(digits)
    ensures MatchesPhonePattern("+47" + digits)
  {
    var c := "+47" + digits;
    assert c[..3] == "+47" && c[3..] == digits;
  }

  /** "+47", a space and eight digits: the space is stripped and the number accepted. */
  lemma PhoneWithPrefixAccepted(digits: string)
    requires |digits| == 8 && AllDecimalDigits(digits)
    ensures MatchesPhonePattern(StripWhitespace("+47 " + digits))
  {
    StripWhitespaceAppend("+47 ", digits);
    StripPrefix();
    assert NoWhitespace(digits);
    PhonePrefixed(digits);
  }

  lemma StripPrefix()
    ensures StripWhitespace("+47 ") == "+47"
  {
    var prefix := "+47 ";
    assert prefix[1..][1..][1..] == " ";
    assert StripWhitespace(" ") == [];
  }

  lemma PhoneWrongPrefixRejected()
    ensures !MatchesPhonePattern("+4612345678")
  {
    var s := "+4612345678";
    assert s[..3] != "+47" by { assert s[..3][2] == '6'; }
    assert !IsDecimalDigit(s[0]);
  }

  // ---------------------------------------------------------------------------
  // validateField and validateForm

  /** `validateField` without the class toggling: the first check that fails, or Valid. */
  function ValidateField(f: Field): Verdict {
    if !f.inFormGroup then Valid
    else if f.required && Trim(f.value) == "" then Invalid(Required)
    else if f.kind == EmailInput && f.value != "" && !MatchesEmailPattern(f.value) then Invalid(InvalidEmail)
    else if f.kind == TelInput && f.value != "" && !MatchesPhonePattern(StripWhitespace(f.value)) then Invalid(InvalidPhone)
    else Valid
  }

  /**
   * What each verdict means: outside a form group everything passes; "required"
   * is reported exactly for a required all-white-space value; an e-mail or phone
   * failure means that pattern rejected the value; an empty optional value passes.
   */
  lemma VerdictMeaning(f: Field)
    ensures !f.inFormGroup ==> ValidateField(f) == Valid
    ensures ValidateField(f) == Invalid(Required) <==> f.inFormGroup && f.required && AllWhitespace(f.value)
    ensures ValidateField(f) == Invalid(InvalidEmail) ==> f.kind == EmailInput && !MatchesEmailPattern(f.value)
    ensures ValidateField(f) == Invalid(InvalidPhone) ==>
      f.kind == TelInput && !MatchesPhonePattern(StripWhitespace(f.value))
    ensures f.value == "" && !f.required ==> ValidateField(f) == Valid
  {
    TrimEmptyIff(f.value);
  }

  /** A field inside a form group passes exactly when each check that applies to it passes. */
  lemma ValidIff(f: Field)
    requires f.inFormGroup
    ensures ValidateField(f) == Valid <==>
      && !(f.required && AllWhitespace(f.value))
      && (f.kind == EmailInput && f.value != "" ==> MatchesEmailPattern(f.value))
      && (f.kind == TelInput && f.value != "" ==> MatchesPhonePattern(StripWhitespace(f.value)))
  {
    TrimEmptyIff(f.value);
  }

  /**
   * A non-required e-mail field holding only a no-break space still fails:
   * the value is not empty, and white space is not in `[^\s@]`. (A browser
   * strips ASCII white space from an e-mail input's value, but keeps U+00A0.)
   */
  lemma BlankOptionalEmailFails()
    ensures ValidateField(Field(true, false, EmailInput, "\U{A0}")) == Invalid(InvalidEmail)
  {
    TrimEmptyIff("\U{A0}");
    assert IsWhitespace("\U{A0}"[0]);
  }

  /** A required blank e-mail field reports "required", not "invalid e-mail". */
  lemma RequiredComesFirst(value: string)
    requires AllWhitespace(value)
    ensures ValidateField(Field(true, true, EmailInput, value)) == Invalid(Required)
    ensures ValidateField(Field(true, true, TelInput, value)) == Invalid(Required)
  {
  }

  /** The key the error message is translated from. */
  function MessageKey(reason: Failure): string {
    match reason
    case Required => "form.required"
    case InvalidEmail => "form.invalidEmail"
    case InvalidPhone => "form.invalidPhone"
  }

  /** The message shown when no translation manager is present. */
  function FallbackMessage(reason: Failure): string {
    match reason
    case Required => "This field is required"
    case InvalidEmail => "Invalid email address"
    case InvalidPhone => "Invalid phone number"
  }

  /**
   * The text written into the error element:
   * `window.languageManager?.t(key) || fallback`, where `translations` is
   * None when the page has no language manager.
   */
  function ErrorMessage(reason: Failure, translations: Option<Language.Node>): (m: Language.Node)
    ensures Language.Truthy(m)
    ensures translations.None? ==> m == Language.Text(FallbackMessage(reason))
  {
    match translations
    case None => Language.Text(FallbackMessage(reason))
    case Some(tree) =>
      var r := Language.Translate(tree, MessageKey(reason));
      if Language.Truthy(r) then r else Language.Text(FallbackMessage(reason))
  }

  /**
   * With a language manager the English fallback is never shown: `t` answers
   * the translation, or the key itself when the translation is missing or
   * empty, and either is truthy.
   */
  lemma ManagerNeverFallsBack(reason: Failure, tree: Language.Node)
    ensures ErrorMessage(reason, Some(tree)) == Language.Translate(tree, MessageKey(reason))
    ensures Language.Nested(tree, MessageKey(reason)).None? ==>
      ErrorMessage(reason, Some(tree)) == Language.Text(MessageKey(reason))
  {
    var r := Language.Translate(tree, MessageKey(reason));
    assert MessageKey(reason) != "";
    assert Language.Truthy(r);
  }

  /** The message `validateField` shows for a field, or None when it passes. */
  function ShownMessage(f: Field, translations: Option<Language.Node>): (m: Option<Language.Node>)
    ensures m.None? <==> ValidateField(f) == Valid
    ensures m.Some? ==> m.value == ErrorMessage(ValidateField(f).reason, translations)
  {
    match ValidateField(f)
    case Valid => None
    case Invalid(reason) => Some(ErrorMessage(reason, translations))
  }

  /** The controls `validateForm` selects: those with the `required` attribute, in order. */
  function RequiredFields(fields: seq<Field>): (r: seq<Field>)
    ensures forall f :: f in r <==> f in fields && f.required
  {
    if fields == [] then []
    else if fields[0].required then [fields[0]] + RequiredFields(fields[1..])
    else RequiredFields(fields[1..])
  }

  /**
   * `validateForm`: every required control is validated, with no early exit;
   * the form is valid exactly when all of them are.
   */
  method ValidateForm(fields: seq<Field>) returns (isValid: bool, verdicts: seq<Verdict>)
    ensures var req := RequiredFields(fields);
      |verdicts| == |req| && forall i :: 0 <= i < |req| ==> verdicts[i] == ValidateField(req[i])
    ensures isValid <==> forall f :: f in fields && f.required ==> ValidateField(f) == Valid
  {
    var inputs := RequiredFields(fields);
    isValid := true;
    verdicts := [];
    var i := 0;
    while i < |inputs|
      invariant 0 <= i <= |inputs|
      invariant |verdicts| == i
      invariant forall k :: 0 <= k < i ==> verdicts[k] == ValidateField(inputs[k])
      invariant isValid <==> forall k :: 0 <= k < i ==> verdicts[k] == Valid
    {
      var v := ValidateField(inputs[i]);
      verdicts := verdicts + [v];
      if v != Valid {
        isValid := false;
      }
      i := i + 1;
    }
    RequiredAll(fields, f => ValidateField(f) == Valid);
  }

  /** Every selected control passes a test exactly when every required control of the form does. */
  lemma RequiredAll(fields: seq<Field>, ok: Field -> bool)
    ensures (forall k :: 0 <= k < |RequiredFields(fields)| ==> ok(RequiredFields(fields)[k]))
      ==> (forall f :: f in fields && f.required ==> ok(f))
    ensures (forall f :: f in fields && f.required ==> ok(f))
      ==> (forall k :: 0 <= k < |RequiredFields(fields)| ==> ok(RequiredFields(fields)[k]))
  {
    var req := RequiredFields(fields);
    if forall k :: 0 <= k < |req| ==> ok(req[k]) {
      forall f | f in fields && f.required
        ensures ok(f)
      {
        assert f in req;
        var k :| 0 <= k < |req| && req[k] == f;
      }
    }
    if forall f :: f in fields && f.required ==> ok(f) {
      forall k | 0 <= k < |req|
        ensures ok(req[k])
      {
        assert req[k] in req;
      }
    }
  }
}
