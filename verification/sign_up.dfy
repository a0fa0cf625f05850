/** The sign-up widget: the password strength evaluator, the validator, the
    payload it sends and the state its handlers update. */
module SignUp {
  import opened Text
  import opened FormState

  const MinPasswordLength := 8

  /** The field values the widget starts with. */
  const InitialFields: Record :=
    map[FirstName := "", LastName := "", Email := "", Password := "", ConfirmPassword := ""]

  /* ---------------- Password strength ---------------- */

  /** What `getStrength` returns: a score, the label shown and the CSS tag. */
  datatype Strength = Strength(score: nat, labelText: string, level: string)

  /** The five criteria `getStrength` awards a point for. */
  datatype Criteria = Criteria(atLeast8: bool, atLeast12: bool, upper: bool, digit: bool, symbol: bool)

  /** The criteria `password` meets.  Twelve characters imply eight, the
      empty password meets none, and any white space inside it earns the
      symbol point. */
  function CriteriaOf(password: string): (c: Criteria)
    ensures c.atLeast12 ==> c.atLeast8
    ensures password == "" ==> c == Criteria(false, false, false, false, false)
    ensures (exists i :: 0 <= i < |password| && IsWhitespace(password[i])) ==> c.symbol
  {
    Criteria(|password| >= 8, |password| >= 12,
             ContainsWhere(password, IsAsciiUpper),
             ContainsWhere(password, IsAsciiDigit),
             ContainsWhere(password, IsSymbol))
  }

  function Points(b: bool): nat {
    if b then 1 else 0
  }

  /** The raw count `score` reaches after the five `if`s. */
  function Count(c: Criteria): (n: nat)
    ensures n <= 5
    ensures n == 0 <==> c == Criteria(false, false, false, false, false)
  {
    Points(c.atLeast8) + Points(c.atLeast12) + Points(c.upper) + Points(c.digit) + Points(c.symbol)
  }

  /** `c` satisfies every criterion `d` satisfies, and maybe more. */
  predicate AtLeastAsStrong(c: Criteria, d: Criteria) {
    && (d.atLeast8 ==> c.atLeast8) && (d.atLeast12 ==> c.atLeast12)
    && (d.upper ==> c.upper) && (d.digit ==> c.digit) && (d.symbol ==> c.symbol)
  }

  /** Labels and levels indexed by score; index 0 is the empty password. */
  const Labels: seq<string> := ["", "Weak", "Fair", "Good", "Strong"]
  const Levels: seq<string> := ["", "weak", "fair", "good", "strong"]

  /** `getStrength(password)`: the empty password scores 0 with no label;
      any other password scores its criteria count clamped to 1..4, and the
      label and level are those of that score. */
  function GetStrength(password: string): (s: Strength)
    ensures password == "" <==> s.score == 0
    ensures s.score <= 4
    ensures password != "" ==>
              s.score == (var n := Count(CriteriaOf(password)); if n <= 1 then 1 else if n >= 4 then 4 else n)
    ensures s.labelText == Labels[s.score] && s.level == Levels[s.score]
  {
    if password == "" then Strength(0, "", "")
    else
      var score := Count(CriteriaOf(password));
      if score <= 1 then Strength(1, "Weak", "weak")
      else if score <= 2 then Strength(2, "Fair", "fair")
      else if score <= 3 then Strength(3, "Good", "good")
      else Strength(4, "Strong", "strong")
  }

  /** A non-empty password that meets every criterion another password
      meets never scores lower than it.  `stronger` must be non-empty: "a"
      meets the same criteria as "" (none) yet scores 1 against 0. */
  lemma StrengthMonotone(weaker: string, stronger: string)
    requires stronger != ""
    requires AtLeastAsStrong(CriteriaOf(stronger), CriteriaOf(weaker))
    ensures GetStrength(weaker).score <= GetStrength(stronger).score
  {
  }

  /** Typing more characters never lowers the strength shown. */
  lemma {:induction false} StrengthGrowsWithAppend(password: string, more: string)
    ensures GetStrength(password).score <= GetStrength(password + more).score
  {
    if password != "" {
      var c, d := CriteriaOf(password), CriteriaOf(password + more);
      if c.upper { ContainsWhereExtends(password, more, IsAsciiUpper); }
      if c.digit { ContainsWhereExtends(password, more, IsAsciiDigit); }
      if c.symbol { ContainsWhereExtends(password, more, IsSymbol); }
      StrengthMonotone(password, password + more);
    }
  }

  /** Three sample passwords: "" scores 0, "abcdefgh" is Weak (length only),
      "Abcdefgh1!" is Strong (length, capital, digit and symbol). */
  lemma StrengthExamples()
    ensures GetStrength("") == Strength(0, "", "")
    ensures GetStrength("abcdefgh") == Strength(1, "Weak", "weak")
    ensures GetStrength("Abcdefgh1!") == Strength(4, "Strong", "strong")
  {
    var weak := "abcdefgh";
    assert !ContainsWhere(weak, IsAsciiUpper) by {
      forall i | 0 <= i < |weak| ensures !IsAsciiUpper(weak[i]) {}
    }
    assert !ContainsWhere(weak, IsAsciiDigit) by {
      forall i | 0 <= i < |weak| ensures !IsAsciiDigit(weak[i]) {}
    }
    assert !ContainsWhere(weak, IsSymbol) by {
      forall i | 0 <= i < |weak| ensures !IsSymbol(weak[i]) {}
    }
    var strong := "Abcdefgh1!";
    assert IsAsciiUpper(strong[0]) && IsAsciiDigit(strong[8]) && IsSymbol(strong[9]);
  }

  /* ---------------- Validation ---------------- */

  /** The name check: "required" exactly when the trimmed name is empty,
      that is, when the name is blank. */
  function RequiredName(name: string, required: Message): (message: Option<Message>)
    ensures message.Some? <==> AllWhitespace(name)
    ensures message.Some? ==> message == Some(required)
  {
    if Trim(name) == "" then Some(required) else None
  }

  /** What `validate(fields, showLastName)` returns.  A field whose key is
      absent stands for an `undefined` property; only `confirmPassword` is
      ever passed that way.  Each property gets at most one message:
      - firstName: an error exactly when the name is blank (trims to "");
      - lastName: an error exactly when `showLastName` and the name is blank;
      - email: an error exactly when the pattern fails, "required" when empty;
      - password: an error exactly when it is shorter than 8 characters,
        "required" when empty;
      - confirmPassword: an error exactly when it is defined and differs
        from the password;
      - terms: never set by the validator. */
  function ValidationErrors(fields: Record, showLastName: bool): (errors: Errors)
    requires FirstName in fields && Email in fields && Password in fields
    requires showLastName ==> LastName in fields
    ensures errors.terms.None?
    ensures errors.firstName.Some? <==> AllWhitespace(fields[FirstName])
    ensures errors.firstName.Some? ==> errors.firstName == Some(FirstNameRequired)
    ensures errors.lastName.Some? <==> showLastName && AllWhitespace(fields[LastName])
    ensures errors.lastName.Some? ==> errors.lastName == Some(LastNameRequired)
    ensures errors.email.Some? <==> !EmailPattern(fields[Email])
    ensures fields[Email] == "" ==> errors.email == Some(EmailRequired)
    ensures fields[Email] != "" && !EmailPattern(fields[Email]) ==> errors.email == Some(EmailInvalid)
    ensures errors.password.Some? <==> |fields[Password]| < MinPasswordLength
    ensures fields[Password] == "" ==> errors.password == Some(PasswordRequired)
    ensures 0 < |fields[Password]| < MinPasswordLength ==> errors.password == Some(PasswordUnder8)
    ensures errors.confirmPassword.Some? <==>
              ConfirmPassword in fields && fields[ConfirmPassword] != fields[Password]
    ensures errors.confirmPassword.Some? ==> errors.confirmPassword == Some(PasswordsDiffer)
  {
    Errors(firstName := RequiredName(fields[FirstName], FirstNameRequired),
           lastName := if showLastName then RequiredName(fields[LastName], LastNameRequired) else None,
           email := EmailMessage(fields[Email]),
           password := PasswordMessage(fields[Password], MinPasswordLength, PasswordUnder8),
           confirmPassword :=
             if ConfirmPassword in fields && fields[Password] != fields[ConfirmPassword] then
               Some(PasswordsDiffer)
             else None,
           terms := None)
  }

  /** `validate(fields, showLastName)`: the checks in the source's order,
      each setting its property on the object being built. */
  method Validate(fields: Record, showLastName: bool) returns (errors: Errors)
    requires FirstName in fields && Email in fields && Password in fields
    requires showLastName ==> LastName in fields
    ensures errors == ValidationErrors(fields, showLastName)
  {
    errors := NoErrors;
    if Trim(fields[FirstName]) == "" {
      errors := errors.(firstName := Some(FirstNameRequired));
    }
    if showLastName && Trim(fields[LastName]) == "" {
      errors := errors.(lastName := Some(LastNameRequired));
    }
    if fields[Email] == "" {
      errors := errors.(email := Some(EmailRequired));
    } else if !EmailPattern(fields[Email]) {
      errors := errors.(email := Some(EmailInvalid));
    }
    if fields[Password] == "" {
      errors := errors.(password := Some(PasswordRequired));
    } else if |fields[Password]| < MinPasswordLength {
      errors := errors.(password := Some(PasswordUnder8));
    }
    if ConfirmPassword in fields && fields[Password] != fields[ConfirmPassword] {
      errors := errors.(confirmPassword := Some(PasswordsDiffer));
    }
  }

  /** The fields `handleSubmit` validates: `confirmPassword` becomes
      `undefined` (absent) when the confirmation input is hidden. */
  function ValidationFields(fields: Record, showConfirmPassword: bool): (checked: Record)
    ensures ConfirmPassword in checked <==> showConfirmPassword && ConfirmPassword in fields
    ensures ConfirmPassword in checked ==> checked[ConfirmPassword] == fields[ConfirmPassword]
    ensures FirstName in fields ==> FirstName in checked && checked[FirstName] == fields[FirstName]
    ensures LastName in fields ==> LastName in checked && checked[LastName] == fields[LastName]
    ensures Email in fields ==> Email in checked && checked[Email] == fields[Email]
    ensures Password in fields ==> Password in checked && checked[Password] == fields[Password]
  {
    if showConfirmPassword then fields else fields - {ConfirmPassword}
  }

  /** The errors `handleSubmit` gates on: the validator's object over the
      validated fields, plus the terms property, which is present exactly
      when the terms are shown and not agreed to.  In particular the
      passwords are compared only when the confirmation input is shown. */
  function SubmitErrors(fields: Record, showLastName: bool, showConfirmPassword: bool,
                        showTerms: bool, agreed: bool): (errors: Errors)
    requires FirstName in fields && Email in fields && Password in fields
    requires showLastName ==> LastName in fields
    ensures errors.terms.Some? <==> showTerms && !agreed
    ensures errors.terms.Some? ==> errors.terms == Some(TermsRequired)
    ensures errors.confirmPassword.Some? <==>
              showConfirmPassword && ConfirmPassword in fields
              && fields[ConfirmPassword] != fields[Password]
    ensures errors.(terms := None)
              == ValidationErrors(ValidationFields(fields, showConfirmPassword), showLastName)
    ensures !errors.NonEmpty() <==>
              && !(showTerms && !agreed)
              && !ValidationErrors(ValidationFields(fields, showConfirmPassword), showLastName).NonEmpty()
  {
    var validationErrors := ValidationErrors(ValidationFields(fields, showConfirmPassword), showLastName);
    if showTerms && !agreed then validationErrors.(terms := Some(TermsRequired)) else validationErrors
  }

  /** The object `onSignUp` receives: first name, email and password, the
      last name exactly when its input is shown, and never the password
      confirmation; every value is the field's current value. */
  function Payload(fields: Record, showLastName: bool): (values: Record)
    requires FirstName in fields && Email in fields && Password in fields
    requires showLastName ==> LastName in fields
    ensures FirstName in values && values[FirstName] == fields[FirstName]
    ensures Email in values && values[Email] == fields[Email]
    ensures Password in values && values[Password] == fields[Password]
    ensures LastName in values <==> showLastName
    ensures LastName in values ==> values[LastName] == fields[LastName]
    ensures ConfirmPassword !in values && Terms !in values
  {
    var values := map[FirstName := fields[FirstName], Email := fields[Email],
                      Password := fields[Password]];
    if showLastName then values[LastName := fields[LastName]] else values
  }

  /* ---------------- The widget ---------------- */

  class SignUpForm {
    const showLastName: bool
    const showConfirmPassword: bool
    const showTerms: bool
    const showStrength: bool
    var fields: Record
    var agreed: bool
    var errors: Errors
    var internalLoading: bool
    var success: bool

    ghost predicate Valid()
      reads this
    {
      && FirstName in fields && LastName in fields && Email in fields
      && Password in fields && ConfirmPassword in fields
    }

    /** A freshly mounted widget; each display flag defaults to true. */
    constructor (showLastName: Option<bool>, showConfirmPassword: Option<bool>,
                 showTerms: Option<bool>, showStrength: Option<bool>)
      ensures Valid()
      ensures this.showLastName == (showLastName != Some(false))
      ensures this.showConfirmPassword == (showConfirmPassword != Some(false))
      ensures this.showTerms == (showTerms != Some(false))
      ensures this.showStrength == (showStrength != Some(false))
      ensures fields == InitialFields && errors == NoErrors
      ensures !agreed && !internalLoading && !success
    {
      this.showLastName := showLastName.GetOr(true);
      this.showConfirmPassword := showConfirmPassword.GetOr(true);
      this.showTerms := showTerms.GetOr(true);
      this.showStrength := showStrength.GetOr(true);
      fields := InitialFields;
      agreed := false;
      errors := NoErrors;
      internalLoading := false;
      success := false;
    }

    /** The `loading` value the widget renders with, given its `loading` prop:
        the prop when it is defined, the internal flag otherwise. */
    function Loading(externalLoading: Option<bool>): (loading: bool)
      reads this
      ensures externalLoading.Some? ==> loading == externalLoading.value
      ensures externalLoading.None? ==> loading == internalLoading
    {
      EffectiveLoading(externalLoading, internalLoading)
    }

    /** The strength recomputed from the current password on every render:
        0 with no label exactly while the password is empty, otherwise a
        score from 1 to 4 with that score's label. */
    function CurrentStrength(): (s: Strength)
      reads this
      requires Valid()
      ensures s.score == 0 <==> fields[Password] == ""
      ensures s.score <= 4 && s.labelText == Labels[s.score]
    {
      GetStrength(fields[Password])
    }

    /** `handleChange`: store the edited value under the input's name and,
        if that field shows an error, blank it.  The inputs rendered are the
        first name, the email, the password, and the last name and the
        confirmation when they are shown; the checkbox has its own handler. */
    method HandleChange(name: Field, value: string)
      requires Valid()
      requires name != Terms
      requires name == LastName ==> showLastName
      requires name == ConfirmPassword ==> showConfirmPassword
      modifies this
      ensures Valid()
      ensures fields == old(fields)[name := value]
      ensures errors == ClearFieldError(old(errors), name)
      ensures agreed == old(agreed)
      ensures internalLoading == old(internalLoading) && success == old(success)
    {
      fields := fields[name := value];
      if HasError(errors, name) {
        errors := errors.Set(name, Blank);
      }
    }

    /** The terms checkbox: store its state and blank a shown terms error. */
    method HandleTermsChange(checked: bool)
      requires Valid()
      modifies this
      ensures Valid()
      ensures agreed == checked
      ensures errors == ClearFieldError(old(errors), Terms)
      ensures fields == old(fields)
      ensures internalLoading == old(internalLoading) && success == old(success)
    {
      agreed := checked;
      if HasError(errors, Terms) {
        errors := errors.Set(Terms, Blank);
      }
    }

    /** `handleSubmit`, with the awaited call taken as one step.  `onSignUp`
        is None when the prop is not supplied, otherwise the way the call
        ends; `sent` is the object the callback received (None when it was
        not called).  Any validation or terms error: that map replaces the
        errors and nothing else happens.  Otherwise the payload goes through
        `Deliver`. */
    method HandleSubmit(onSignUp: Option<Outcome>) returns (sent: Option<Record>)
      requires Valid()
      modifies this`errors, this`internalLoading, this`success
      ensures Valid() && unchanged(this`fields, this`agreed)
      ensures var v := SubmitErrors(fields, showLastName, showConfirmPassword, showTerms, agreed);
              if v.NonEmpty() then
                && errors == v && sent == None
                && success == old(success) && internalLoading == old(internalLoading)
              else if onSignUp == None then
                && errors == old(errors) && sent == None
                && success && internalLoading == old(internalLoading)
              else
                && errors == old(errors) && sent == Some(Payload(fields, showLastName))
                && success == (old(success) || onSignUp.value == ReturnedOther)
                && !internalLoading
      ensures old(success) ==> success
    {
      var validationErrors := Validate(ValidationFields(fields, showConfirmPassword), showLastName);
      if showTerms && !agreed {
        validationErrors := validationErrors.(terms := Some(TermsRequired));
      }
      if validationErrors.NonEmpty() {
        errors := validationErrors;
        return None;
      }
      var payload := Payload(fields, showLastName);
      sent := Deliver(payload, onSignUp);
    }

    /** The callback phase of a valid submit.  Without a callback: success
        at once.  With one: it receives `payload`, success follows unless the
        call throws or yields `false`, and the internal loading flag, raised
        for the call, ends cleared whatever the outcome. */
    method Deliver(payload: Record, onSignUp: Option<Outcome>) returns (sent: Option<Record>)
      modifies this`internalLoading, this`success
      ensures onSignUp == None ==> sent == None && success && internalLoading == old(internalLoading)
      ensures onSignUp != None ==>
                && sent == Some(payload)
                && success == (old(success) || onSignUp.value == ReturnedOther)
                && !internalLoading
    {
      if onSignUp == None {
        success := true;
        return None;
      }
      internalLoading := true;
      sent := Some(payload);
      if onSignUp.value == ReturnedOther {
        success := true;
      }
      internalLoading := false;
    }
  }

  /** A filled-in form whose fields all pass. */
  const SampleFields: Record :=
    map[FirstName := "Ada", LastName := "L", Email := "a@b.co",
        Password := "secret12", ConfirmPassword := "secret12"]

  /** With every field passing, the terms box decides the submit alone:
      unticked, the terms message is the only property set; ticked, there is
      no error. */
  lemma TermsGateExample()
    ensures SubmitErrors(SampleFields, true, true, true, false) == NoErrors.(terms := Some(TermsRequired))
    ensures !SubmitErrors(SampleFields, true, true, true, true).NonEmpty()
  {
    EmailPatternExample();
    var checked := ValidationFields(SampleFields, true);
    assert checked == SampleFields;
    assert !IsWhitespace(checked[FirstName][0]) && !IsWhitespace(checked[LastName][0]);
    assert ValidationErrors(checked, true) == NoErrors;
  }

  /** The payload of that form carries the last name but not the
      confirmation, and leaves it out when the last-name input is hidden. */
  lemma PayloadExample()
    ensures Payload(SampleFields, true)[LastName] == "L"
    ensures ConfirmPassword !in Payload(SampleFields, true)
    ensures LastName !in Payload(SampleFields, false)
  {
  }
}
