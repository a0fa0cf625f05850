/** The login widget: its validator and the state its handlers update. */
module Login {
  import opened Text
  import opened FormState

  const MinPasswordLength := 6

  /** The field values the widget starts with. */
  const InitialFields: Record := map[Email := "", Password := ""]

  /** What `validate(fields)` returns.  Only `email` and `password` can
      get a property, each checked on its own with at most one message.  The
      email has an error exactly when it fails the pattern (the empty email
      among them, with its own message); the password has an error exactly
      when it is shorter than six characters (the empty password among
      them, with its own message).  No property is ever "". */
  function ValidationErrors(fields: Record): (errors: Errors)
    requires Email in fields && Password in fields
    ensures forall k :: k != Email && k != Password ==> errors.Get(k).None?
    ensures errors.email.Some? <==> !EmailPattern(fields[Email])
    ensures fields[Email] == "" ==> errors.email == Some(EmailRequired)
    ensures fields[Email] != "" && !EmailPattern(fields[Email]) ==> errors.email == Some(EmailInvalid)
    ensures errors.password.Some? <==> |fields[Password]| < MinPasswordLength
    ensures fields[Password] == "" ==> errors.password == Some(PasswordRequired)
    ensures 0 < |fields[Password]| < MinPasswordLength ==> errors.password == Some(PasswordUnder6)
    ensures forall k :: errors.Get(k) != Some(Blank)
    ensures !errors.NonEmpty() <==> EmailPattern(fields[Email]) && |fields[Password]| >= MinPasswordLength
  {
    NoErrors.(email := EmailMessage(fields[Email]),
              password := PasswordMessage(fields[Password], MinPasswordLength, PasswordUnder6))
  }

  /** `validate(fields)`: the email check, then the password check, each
      setting its property on the object being built. */
  method Validate(fields: Record) returns (errors: Errors)
    requires Email in fields && Password in fields
    ensures errors == ValidationErrors(fields)
  {
    errors := NoErrors;
    if fields[Email] == "" {
      errors := errors.(email := Some(EmailRequired));
    } else if !EmailPattern(fields[Email]) {
      errors := errors.(email := Some(EmailInvalid));
    }
    if fields[Password] == "" {
      errors := errors.(password := Some(PasswordRequired));
    } else if |fields[Password]| < MinPasswordLength {
      errors := errors.(password := Some(PasswordUnder6));
    }
  }

  /** The object `onLogin` receives: `{ email, password }` and nothing else. */
  function Credentials(fields: Record): (values: Record)
    requires Email in fields && Password in fields
    ensures values.Keys == {Email, Password}
    ensures forall k :: k in values ==> values[k] == fields[k]
  {
    map[Email := fields[Email], Password := fields[Password]]
  }

  class LoginForm {
    var fields: Record
    var errors: Errors
    var internalLoading: bool
    var success: bool

    ghost predicate Valid()
      reads this
    {
      Email in fields && Password in fields
    }

    /** A freshly mounted widget. */
    constructor ()
      ensures Valid()
      ensures fields == InitialFields && errors == NoErrors
      ensures !internalLoading && !success
    {
      fields := InitialFields;
      errors := NoErrors;
      internalLoading := false;
      success := false;
    }

    /** The `loading` value the widget renders with, given its `loading` prop:
        the prop when it is defined, the internal flag otherwise. */
    function Loading(externalLoading: Option<bool>): (loading: bool)
      reads this
      ensures externalLoading.Some? ==> loading == externalLoading.value
      ensures externalLoading.None? ==> loading == internalLoading
    {
      EffectiveLoading(externalLoading, internalLoading)
    }

    /** `handleChange`: store the edited value under the input's name and,
        if that field shows an error, blank it.  The form renders two
        inputs, named `email` and `password`. */
    method HandleChange(name: Field, value: string)
      requires Valid()
      requires name == Email || name == Password
      modifies this
      ensures Valid()
      ensures fields == old(fields)[name := value]
      ensures errors == ClearFieldError(old(errors), name)
      ensures internalLoading == old(internalLoading) && success == old(success)
    {
      fields := fields[name := value];
      if HasError(errors, name) {
        errors := errors.Set(name, Blank);
      }
    }

    /** `handleSubmit`, with the awaited call taken as one step.  `onLogin`
        is None when the prop is not supplied, otherwise the way the call
        ends; `sent` is the object the callback received (None when it was
        not called).  Invalid fields: the validator's map replaces the
        errors and nothing else happens.  Valid fields without a callback:
        success at once.  Valid fields with a callback: it receives exactly
        the credentials, success follows unless the call throws or yields
        `false`, and the internal loading flag ends cleared. */
    method HandleSubmit(onLogin: Option<Outcome>) returns (sent: Option<Record>)
      requires Valid()
      modifies this
      ensures Valid() && fields == old(fields)
      ensures ValidationErrors(fields).NonEmpty() ==>
                && errors == ValidationErrors(fields) && sent == None
                && success == old(success) && internalLoading == old(internalLoading)
      ensures !ValidationErrors(fields).NonEmpty() ==> errors == old(errors)
      ensures !ValidationErrors(fields).NonEmpty() && onLogin == None ==>
                && sent == None && success && internalLoading == old(internalLoading)
      ensures !ValidationErrors(fields).NonEmpty() && onLogin != None ==>
                && sent == Some(Credentials(fields))
                && success == (old(success) || onLogin.value == ReturnedOther)
                && !internalLoading
      ensures old(success) ==> success
    {
      var validationErrors := Validate(fields);
      if validationErrors.NonEmpty() {
        errors := validationErrors;
        return None;
      }
      if onLogin == None {
        success := true;
        return None;
      }
      internalLoading := true;
      sent := Some(Credentials(fields));
      if onLogin.value == ReturnedOther {
        success := true;
      }
      internalLoading := false;
    }
  }

  /** Valid credentials and no `onLogin`: the widget goes straight to its
      success state, with nothing sent and the loading flag untouched. */
  method SubmitWithoutCallback() returns (succeeded: bool, loading: bool, sent: Option<Record>)
    ensures succeeded && !loading && sent == None
  {
    var form := new LoginForm();
    form.HandleChange(Email, "a@b.co");
    form.HandleChange(Password, "secret");
    EmailPatternExample();
    sent := form.HandleSubmit(None);
    succeeded := form.success;
    loading := form.Loading(None);
  }

  /** A callback that yields `false` leaves the widget unsuccessful, while
      one that yields anything else makes it successful; in both cases the
      callback sees exactly the two fields and loading ends false. */
  method SubmitWithCallback() returns (afterFalse: bool, afterOther: bool, sent: Option<Record>)
    ensures !afterFalse && afterOther
    ensures sent == Some(map[Email := "a@b.co", Password := "secret"])
  {
    EmailPatternExample();
    var form := new LoginForm();
    form.HandleChange(Email, "a@b.co");
    form.HandleChange(Password, "secret");
    sent := form.HandleSubmit(Some(ReturnedFalse));
    afterFalse := form.success;
    var _ := form.HandleSubmit(Some(ReturnedOther));
    afterOther := form.success;
  }

  /** Submitting the untouched form stores both "required" messages and
      sends nothing; typing into the email input then blanks the email
      message (the property stays, holding "") and leaves the password's. */
  method EditAfterFailedSubmit() returns (afterSubmit: Errors, afterEdit: Errors, sent: Option<Record>)
    ensures afterSubmit == NoErrors.(email := Some(EmailRequired), password := Some(PasswordRequired))
    ensures afterEdit == NoErrors.(email := Some(Blank), password := Some(PasswordRequired))
    ensures sent == None
  {
    var form := new LoginForm();
    sent := form.HandleSubmit(Some(ReturnedOther));
    afterSubmit := form.errors;
    form.HandleChange(Email, "a");
    afterEdit := form.errors;
  }
}
