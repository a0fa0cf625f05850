# Auth form widgets — a verified model

This project models the logic of a small React kit of authentication widgets:

- a **login form**, with an email field and a password field;
- a **sign-up form**, with first and last name, email, password,
  password confirmation, a terms checkbox and a password strength meter;
- an **AuthForms switcher**, which shows one of the two forms and routes its
  own props to it.

What is modelled is what the widgets decide, not what they draw:

- the two field validators and the checks they share: `trim()`, the email
  pattern `\S+@\S+\.\S+` and the password minimums;
- the password strength evaluator;
- each form's state (`fields`, `errors`, `agreed`, `internalLoading`,
  `success`) and the handlers that update it: field edit, terms checkbox, and
  submit with its callback lifecycle;
- how the effective `loading` value is resolved;
- the switcher's `view` state, which form it mounts, and the props it passes
  on.

Modules: two shared ones, then one per source file.

- `Text` (`text.dfy`, shared): the ECMAScript white-space set, `String.prototype.trim`,
  the one-character regular-expression classes and the unanchored email test.
- `FormState` (`form_state.dfy`, shared): the vocabulary both forms use.
  - Optional props are `Option`. The way an awaited callback ends is
    `Outcome`: it throws, yields `false`, or yields anything else.
  - Property names are `Field` and messages are `Message`.
  - The errors object is a record `Errors`: one slot per property name,
    `None` when the property is absent.
  - It also holds the email and password checks both validators make, the
    clearing of an edited field's error, and the loading resolution.
- `Login` (`login.dfy`, for `LoginForm.jsx`): the login validator and the `LoginForm` class.
- `SignUp` (`sign_up.dfy`, for `SignUpForm.jsx`): the strength evaluator, the sign-up validator,
  the terms gate, the payload and the `SignUpForm` class.
- `Switcher` (`auth_forms.dfy`, for `AuthForms.jsx`): the `AuthForms`
  class, which holds `view` and the mounted form instance, and `Render`, the
  choice of form, the routing of props and the view each form's switch link
  sets.

Modelling choices:

- **Validators.** Each validator is a specification function,
  `ValidationErrors`, whose contract gives the rule for every property. An
  imperative `Validate` method follows the source's sequence of `if`s and is
  proved to return exactly that object.
- **Handlers.** Each handler is a method on the form's class. Its contract
  gives the whole new state in terms of those functions.
- **Callbacks.** A submit callback is given as `Option<Outcome>`: `None` when
  the prop is not supplied, otherwise how this call ends. The object the
  callback receives is returned as `sent`.

Behaviour of the code worth noting:

- **Clearing an error on edit.** An edit sets a shown error's property to
  `''` (the model's `Blank`); the property stays in the object. A later
  submit that passes validation therefore still leaves it there.
- **Validator arguments.** The sign-up validator takes `showLastName` only.
  When the confirmation input is hidden, `handleSubmit` passes
  `confirmPassword` as `undefined` (an absent key in the model), which turns
  the comparison off.
- **Views.** `view` holds any string. Only `'login'` mounts the login form;
  any other value, including an unexpected `initialView`, mounts the sign-up
  form.

## Model

| member | source | states |
|---|---|---|
| Text.IsWhitespace | SignUpForm.jsx:98 | the white-space set of `\s`/`\S` and of `trim()`; every such character counts as a symbol for `[^A-Za-z0-9]` |
| Text.EmailPattern | LoginForm.jsx:73 | `/\S+@\S+\.\S+/.test`, matching anywhere in the string (the same test is at SignUpForm.jsx:98); an accepted string has at least five characters, one an `@` |
| Text.Trim | SignUpForm.jsx:90-95 | `trim()` gives "" exactly when the string is entirely white space; otherwise the result starts and ends with a character that is not white space |
| Text.TrimmedEmptyIffBlank | SignUpForm.jsx:90-95 | removing leading then trailing white space empties exactly the blank strings |
| Text.ContainsWhereExtends | SignUpForm.jsx:76-78 | a character class that `test` finds in a password is still found after more text is appended |
| Text.EmailPatternShape | LoginForm.jsx:73 | a string the email pattern accepts has at least five characters and an `@` followed later by a `.`, so "" and strings without them are rejected |
| Text.EmailPatternUnanchored | LoginForm.jsx:73 | `test` is unanchored: text added before or after an accepted string never undoes the match |
| Text.EmailPatternExample | LoginForm.jsx:73 | "a@b.co" is accepted |
| FormState.Wording | SignUpForm.jsx:87-181 | the sign-up validator's and the terms gate's messages, and the login validator's (LoginForm.jsx:72-79, with its six-character minimum), each non-empty; only the cleared entry is "" |
| FormState.Errors.Set | LoginForm.jsx:124 | `{ ...errors, [name]: message }` sets that property and leaves every other property as it was |
| FormState.Errors.NonEmpty | LoginForm.jsx:130 | `Object.keys(errors).length > 0` holds exactly when some property is present |
| FormState.ClearFieldError | LoginForm.jsx:121-125 | an edit blanks the edited field's error when it shows one. No property is added or removed, no other property changes, and an object with no shown error for that field is returned unchanged |
| FormState.EmailMessage | LoginForm.jsx:71-75 | email message present exactly when the pattern fails: "required" for "", "invalid" otherwise |
| FormState.PasswordMessage | LoginForm.jsx:76-80 | password message present exactly when shorter than the minimum: "required" for "", the too-short message otherwise |
| FormState.EffectiveLoading | LoginForm.jsx:119 | a defined `loading` prop always wins; the internal flag shows only when the prop is undefined |
| Login.ValidationErrors | LoginForm.jsx:69-82 | only `email` and `password` can get a property. Each has its iff condition and exact message, and none is "". The object is empty exactly when the email matches and the password has at least 6 characters |
| Login.Validate | LoginForm.jsx:69-82 | the step-by-step validator returns exactly `ValidationErrors(fields)` |
| Login.Credentials | LoginForm.jsx:140 | `onLogin` receives exactly `{ email, password }` with the current values |
| Login.LoginForm.constructor | LoginForm.jsx:113-117 | a mounted form has empty fields, no errors, not loading and not successful |
| Login.LoginForm.Loading | LoginForm.jsx:119 | the rendered `loading`: the prop when defined, the internal flag otherwise |
| Login.LoginForm.HandleChange | LoginForm.jsx:121-125 | for the `email` or `password` input, only that field changes, and only that field's error is blanked |
| Login.LoginForm.HandleSubmit | LoginForm.jsx:127-147 | Invalid fields: stores exactly the validator's object, calls nothing, and leaves success and loading alone. Valid fields without `onLogin`: succeeds at once. With `onLogin`: sends the credentials; succeeds unless the call throws or yields `false`; loading ends false |
| Login.SubmitWithoutCallback | LoginForm.jsx:134-137 | valid fields and no callback: success, nothing sent, not loading |
| Login.SubmitWithCallback | LoginForm.jsx:138-146 | a callback yielding `false` leaves the form unsuccessful; one yielding anything else makes it successful; the callback sees exactly the two values |
| Login.EditAfterFailedSubmit | LoginForm.jsx:121-133 | submitting the untouched form stores both "required" messages; typing an email then blanks that message only |
| SignUp.CriteriaOf | SignUpForm.jsx:74-78 | the five criteria: twelve characters imply eight, "" meets none, and white space earns the symbol point |
| SignUp.Count | SignUpForm.jsx:72-77 | the raw score is at most 5 and is 0 exactly when no criterion holds |
| SignUp.GetStrength | SignUpForm.jsx:71-84 | The empty password scores 0 with no label. Any other password scores its criteria count clamped to 1..4 (0 or 1: Weak, 2: Fair, 3: Good, 4 or 5: Strong), with the label and level of that score |
| SignUp.StrengthMonotone | SignUpForm.jsx:72-83 | a non-empty password meeting every criterion another password meets never scores lower than it |
| SignUp.StrengthGrowsWithAppend | SignUpForm.jsx:71-84 | typing more characters never lowers the strength score |
| SignUp.StrengthExamples | SignUpForm.jsx:71-84 | "" scores 0; "abcdefgh" is Weak; "Abcdefgh1!" is Strong |
| SignUp.RequiredName | SignUpForm.jsx:90-95 | a name is "required" exactly when it is blank |
| SignUp.ValidationErrors | SignUpForm.jsx:87-110 | firstName errs exactly when blank; lastName exactly when shown and blank; email exactly when the pattern fails; password exactly when under 8 characters; confirmPassword exactly when defined and different. Each has its exact message, and `terms` is never set |
| SignUp.Validate | SignUpForm.jsx:87-110 | the step-by-step validator returns exactly `ValidationErrors(fields, showLastName)` |
| SignUp.ValidationFields | SignUpForm.jsx:173-176 | `confirmPassword` is kept exactly when its input is shown; the other fields pass unchanged |
| SignUp.SubmitErrors | SignUpForm.jsx:173-181 | The terms message is present exactly when the terms are shown and not agreed. Passwords are compared only when confirmation is shown. Apart from terms, the object is the validator's, and it is empty exactly when both gates pass |
| SignUp.Payload | SignUpForm.jsx:188-193 | the payload has first name, email and password, has the last name exactly when shown, never has the confirmation, and each value is the field's current value |
| SignUp.TermsGateExample | SignUpForm.jsx:179-186 | with every field valid, an unticked terms box is the only error and a ticked one leaves none |
| SignUp.PayloadExample | SignUpForm.jsx:188-193 | the sample payload carries the last name when shown, drops it when hidden, and never carries the confirmation |
| SignUp.SignUpForm.constructor | SignUpForm.jsx:131-159 | each display flag is true unless given as `false`; fields empty, no errors, unticked, not loading, not successful |
| SignUp.SignUpForm.Loading | SignUpForm.jsx:161 | the rendered `loading`: the prop when defined, the internal flag otherwise |
| SignUp.SignUpForm.CurrentStrength | SignUpForm.jsx:162 | the meter's strength for the current password: 0 with no label exactly while it is empty, otherwise 1 to 4 with that score's label |
| SignUp.SignUpForm.HandleChange | SignUpForm.jsx:164-168 | for a rendered input (the last name and confirmation only when shown), only that field changes, and only that field's error is blanked |
| SignUp.SignUpForm.HandleTermsChange | SignUpForm.jsx:404-408 | the box's state is stored and a shown terms error is blanked; nothing else changes |
| SignUp.SignUpForm.HandleSubmit | SignUpForm.jsx:170-209 | Any validation or terms error: stores exactly that object, calls nothing, and leaves success and loading alone. Otherwise: without `onSignUp` it succeeds at once; with it, the payload is sent, success follows unless the call throws or yields `false`, and loading ends false |
| SignUp.SignUpForm.Deliver | SignUpForm.jsx:195-208 | the callback phase: success without a callback; with one, the payload is sent, success unless it throws or yields `false`, loading cleared in every outcome |
| Switcher.InitialView | AuthForms.jsx:27-44 | the starting view is `initialView`, 'login' when undefined |
| Switcher.Render | AuthForms.jsx:46-77 | Exactly the view 'login' mounts the login form. The login form's switch link sets 'signup' and the sign-up form's sets 'login'. Each form gets its own callback, loading value and error, never the other form's. `overlay` defaults to true and `position` to 'left'. The sign-up flags are true unless `false` |
| Switcher.RenderDependsOnlyOnLoginTest | AuthForms.jsx:46-62 | any view other than 'login' renders exactly what 'signup' renders |
| Switcher.SwitchLinksAlternate | AuthForms.jsx:51-65 | from 'login' or 'signup', the switch link leads to the other view, and following it twice leads back |
| Switcher.MountedLoading | AuthForms.jsx:53-67 | the mounted form's effective loading comes from its own `...Loading` prop or its internal flag, never from the other form's prop |
| Switcher.AuthForms.constructor | AuthForms.jsx:26-44 | the widget starts in `initialView` with a fresh instance of the form that view renders: empty fields, no errors, not loading, not successful, terms unticked |
| Switcher.AuthForms.SetView | AuthForms.jsx:44-65 | A view change that swaps the form type mounts a fresh instance of the other form: empty fields, no errors, not loading. A change that keeps the type keeps the instance and its state |
| Switcher.AuthForms.Switch | AuthForms.jsx:51-65 | the mounted form's switch link: from 'login' to 'signup' and from any other view to 'login', remounting the other form fresh |
| Switcher.AuthForms.SwitchAndBack | AuthForms.jsx:44-65 | for every widget in 'login' or 'signup', switching twice restores the view, with a fresh form whose typed values are gone |
| Switcher.SwitchTwice | AuthForms.jsx:51-65 | switching to sign-up and back returns to the login view with the typed email gone |
| Switcher.StartInSignUp | AuthForms.jsx:44-65 | started in 'signup', the sign-up form renders first and the login form after its switch callback |

## Left out

- Rendering: the JSX markup, the icons, CSS classes, the success message, `title`, `buttonText`, `logoSrc` display and the strength bar's segments. `Render` only records which props reach the mounted form.
- The show/hide password toggles (`showPassword`, `showConfirm`). They only change an input's `type` attribute.
- Overlay backdrop clicks. They depend on DOM event identity.
- Concurrency. Each handler is one atomic step, and the awaited callback is a single `Outcome`. Interleavings with other events while the callback is pending are not modelled, nor are React's deferred state updates.
- Props changing after mount. A form's display flags and the switcher's props are fixed when it is constructed. The `loading` prop is a parameter of `Loading`.
- Prop values that are neither `undefined` nor a boolean or string of the expected kind, such as `null` or other falsy values. Props are `Option` of the expected type.
- String length. `.length` counts UTF-16 code units, while the model counts characters. Passwords containing characters outside the Basic Multilingual Plane are therefore measured differently.
- The callbacks themselves. `onForgotPassword`, `onClose` and the callbacks' identities are opaque `Handler` values that are only routed. `onLogin` and `onSignUp` are reduced to how a call ends.
- Key order of the errors object. JavaScript keeps insertion order, which affects nothing the widgets do; the record has no order.
- SignUp.ValidationErrors: does not state as its own clause that no property holds "". That follows from the per-property clauses, and as a separate quantified clause it was too costly for the solver.
- `index.d.ts` and `rollup.config.js` are not part of this model. They hold type declarations and build configuration only.
