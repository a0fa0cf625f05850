/** Vocabulary shared by the login and sign-up widgets: optional props, the
    outcome of a caller-supplied submit callback, the error map and the two
    pieces of logic both widgets repeat (clearing an edited field's error and
    resolving the effective loading value). */
module FormState {
  import opened Text

  /** A prop that may be left `undefined`. */
  datatype Option<T> = None | Some(value: T) {
    /** The value, or `default` when undefined (a destructuring default). */
    function GetOr(default: T): T {
      match this
      case Some(v) => v
      case None => default
    }
  }

  /** How a call to the caller's `onLogin`/`onSignUp` ends once awaited: it
      throws (or its promise rejects), it yields exactly `false`, or it
      yields anything else (including `undefined`). */
  datatype Outcome = Threw | ReturnedFalse | ReturnedOther

  /** The property names the widgets use: the `name` of each input (which
      `handleChange` reads from the event), and `terms` for the checkbox's
      error entry. */
  datatype Field = FirstName | LastName | Email | Password | ConfirmPassword | Terms

  /** The messages an error entry can hold.  `Blank` is the "" a field edit
      leaves behind; `Wording` gives each message's wording. */
  datatype Message =
    | Blank
    | FirstNameRequired | LastNameRequired
    | EmailRequired | EmailInvalid
    | PasswordRequired | PasswordUnder6 | PasswordUnder8
    | PasswordsDiffer | TermsRequired

  function Wording(m: Message): (s: string)
    ensures s == "" <==> m == Blank
  {
    match m
    case Blank => ""
    case FirstNameRequired => "First name is required"
    case LastNameRequired => "Last name is required"
    case EmailRequired => "Email is required"
    case EmailInvalid => "Please enter a valid email"
    case PasswordRequired => "Password is required"
    case PasswordUnder6 => "Password must be at least 6 characters"
    case PasswordUnder8 => "Password must be at least 8 characters"
    case PasswordsDiffer => "Passwords do not match"
    case TermsRequired => "You must agree to the terms"
  }

  /** The errors object.  Its properties can only be the six names above, so
      it holds one slot per name: `Some(m)` when the object has that
      property with message `m`, `None` when the property is absent. */
  datatype Errors = Errors(firstName: Option<Message>, lastName: Option<Message>,
                           email: Option<Message>, password: Option<Message>,
                           confirmPassword: Option<Message>, terms: Option<Message>)
  {
    /** `errors[name]`, None standing for `undefined`. */
    function Get(name: Field): Option<Message> {
      match name
      case FirstName => firstName
      case LastName => lastName
      case Email => email
      case Password => password
      case ConfirmPassword => confirmPassword
      case Terms => terms
    }

    /** `{ ...errors, [name]: message }`: that property holds `message` and
        every other property is as it was. */
    function Set(name: Field, message: Message): (r: Errors)
      ensures r.Get(name) == Some(message)
      ensures forall k :: k != name ==> r.Get(k) == Get(k)
    {
      match name
      case FirstName => this.(firstName := Some(message))
      case LastName => this.(lastName := Some(message))
      case Email => this.(email := Some(message))
      case Password => this.(password := Some(message))
      case ConfirmPassword => this.(confirmPassword := Some(message))
      case Terms => this.(terms := Some(message))
    }

    /** `Object.keys(errors).length > 0`: the object has some property. */
    predicate NonEmpty()
      ensures NonEmpty() <==> exists k :: Get(k).Some?
    {
      assert firstName.Some? ==> Get(FirstName).Some?;
      assert lastName.Some? ==> Get(LastName).Some?;
      assert email.Some? ==> Get(Email).Some?;
      assert password.Some? ==> Get(Password).Some?;
      assert confirmPassword.Some? ==> Get(ConfirmPassword).Some?;
      assert terms.Some? ==> Get(Terms).Some?;
      || firstName.Some? || lastName.Some? || email.Some?
      || password.Some? || confirmPassword.Some? || terms.Some?
    }
  }

  /** `{}` */
  const NoErrors := Errors(None, None, None, None, None, None)

  /** The field values, or a payload: property name to string value.  A
      property the object does not have is a missing key. */
  type Record = map<Field, string>

  /** `errors[name]` is truthy: the property exists and its text is not "".
      By `Wording`, that is a message other than the cleared entry. */
  predicate HasError(errors: Errors, name: Field) {
    errors.Get(name).Some? && Wording(errors.Get(name).value) != ""
  }

  /** The error update of a field edit: when the edited field shows an error
      its property is blanked to "" (`Blank`), otherwise the object is left
      as it is.  No property is added or removed and no other one changes. */
  function ClearFieldError(errors: Errors, name: Field): (r: Errors)
    ensures !HasError(r, name)
    ensures r.Get(name).Some? <==> errors.Get(name).Some?
    ensures forall k :: k != name ==> r.Get(k) == errors.Get(k)
    ensures !HasError(errors, name) ==> r == errors
  {
    if HasError(errors, name) then errors.Set(name, Blank) else errors
  }

  /** The email check both validators make: "required" when empty,
      otherwise "invalid" when the pattern `\S+@\S+\.\S+` finds no match,
      otherwise no message. */
  function EmailMessage(email: string): (message: Option<Message>)
    ensures message.Some? <==> !EmailPattern(email)
    ensures email == "" ==> message == Some(EmailRequired)
    ensures email != "" && message.Some? ==> message == Some(EmailInvalid)
  {
    if email == "" then
      assert !MatchAt(email, 0, 0);
      Some(EmailRequired)
    else if !EmailPattern(email) then Some(EmailInvalid)
    else None
  }

  /** The password check both validators make, with their own minimum
      length and message: "required" when empty, otherwise `tooShort` when
      under `minLength` characters, otherwise no message. */
  function PasswordMessage(password: string, minLength: nat, tooShort: Message): (message: Option<Message>)
    requires 0 < minLength
    ensures message.Some? <==> |password| < minLength
    ensures password == "" ==> message == Some(PasswordRequired)
    ensures password != "" && message.Some? ==> message == Some(tooShort)
  {
    if password == "" then Some(PasswordRequired)
    else if |password| < minLength then Some(tooShort)
    else None
  }

  /** `externalLoading !== undefined ? externalLoading : internalLoading`:
      a controlled value always wins; the internal flag only shows through
      when the prop is undefined. */
  function EffectiveLoading(external: Option<bool>, internal: bool): (loading: bool)
    ensures external.Some? ==> loading == external.value
    ensures external.None? ==> loading == internal
    ensures loading != internal ==> external == Some(!internal)
  {
    if external.Some? then external.value else internal
  }
}
