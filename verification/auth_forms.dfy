/** The combined widget: one `view` state that decides which of the two forms
    is mounted, and the routing of its own props to that form. */
module Switcher {
  import opened FormState
  import Login
  import SignUp

  /** A caller-supplied function, known only by its identity. */
  datatype Handler = Handler(id: nat)

  /** The props of the combined widget; None is a prop left `undefined`. */
  datatype AuthProps = AuthProps(
    initialView: Option<string>,
    onLogin: Option<Handler>,
    onSignUp: Option<Handler>,
    onForgotPassword: Option<Handler>,
    onClose: Option<Handler>,
    loginError: Option<string>,
    signUpError: Option<string>,
    loginLoading: Option<bool>,
    signUpLoading: Option<bool>,
    overlay: Option<bool>,
    logoSrc: Option<string>,
    showLastName: Option<bool>,
    showConfirmPassword: Option<bool>,
    showTerms: Option<bool>,
    showStrength: Option<bool>,
    position: Option<string>)

  /** The element the widget returns: which form, and the props it is given.
      `switchTo` is the view its switch callback (`onSwitchToSignUp` or
      `onSwitchToLogin`) passes to `setView`; `AuthForms.Switch` runs it. */
  datatype Mount =
    | LoginMount(onLogin: Option<Handler>, onForgotPassword: Option<Handler>, switchTo: string,
                 onClose: Option<Handler>, loading: Option<bool>, error: Option<string>,
                 overlay: bool, logoSrc: Option<string>, position: string)
    | SignUpMount(onSignUp: Option<Handler>, switchTo: string,
                  onClose: Option<Handler>, loading: Option<bool>, error: Option<string>,
                  overlay: bool, logoSrc: Option<string>,
                  showLastName: bool, showConfirmPassword: bool,
                  showTerms: bool, showStrength: bool, position: string)

  const LoginView := "login"
  const SignUpView := "signup"

  /** The view the widget starts in: `initialView`, 'login' when undefined. */
  function InitialView(p: AuthProps): (view: string)
    ensures p.initialView.Some? ==> view == p.initialView.value
    ensures p.initialView.None? ==> view == LoginView
  {
    p.initialView.GetOr(LoginView)
  }

  /** What the widget renders in `view`.  Exactly the view 'login' mounts the
      login form; every other value mounts the sign-up form.  Each form gets
      its own callback, loading value and error and never the other form's;
      the login form's switch callback sets 'signup' and the sign-up form's
      sets 'login'; both get `onClose`, `logoSrc`, `overlay` (true by default) and
      `position` ('left' by default); the sign-up display flags are passed
      on, each true unless it is `false`. */
  function Render(view: string, p: AuthProps): (m: Mount)
    ensures m.LoginMount? <==> view == LoginView
    ensures m.LoginMount? ==> m.switchTo == SignUpView
    ensures m.SignUpMount? ==> m.switchTo == LoginView
    ensures m.onClose == p.onClose && m.logoSrc == p.logoSrc
    ensures m.overlay == (p.overlay != Some(false))
    ensures p.position.None? ==> m.position == "left"
    ensures p.position.Some? ==> m.position == p.position.value
    ensures m.LoginMount? ==>
              && m.onLogin == p.onLogin && m.onForgotPassword == p.onForgotPassword
              && m.loading == p.loginLoading && m.error == p.loginError
    ensures m.SignUpMount? ==>
              && m.onSignUp == p.onSignUp
              && m.loading == p.signUpLoading && m.error == p.signUpError
              && m.showLastName == (p.showLastName != Some(false))
              && m.showConfirmPassword == (p.showConfirmPassword != Some(false))
              && m.showTerms == (p.showTerms != Some(false))
              && m.showStrength == (p.showStrength != Some(false))
  {
    var overlay := p.overlay.GetOr(true);
    var position := p.position.GetOr("left");
    if view == LoginView then
      LoginMount(p.onLogin, p.onForgotPassword, SignUpView, p.onClose, p.loginLoading, p.loginError,
                 overlay, p.logoSrc, position)
    else
      SignUpMount(p.onSignUp, LoginView, p.onClose, p.signUpLoading, p.signUpError,
                  overlay, p.logoSrc,
                  p.showLastName.GetOr(true), p.showConfirmPassword.GetOr(true),
                  p.showTerms.GetOr(true), p.showStrength.GetOr(true), position)
  }

  /** Which form is mounted depends only on whether the view is 'login': an
      unknown view value renders exactly what 'signup' renders. */
  lemma RenderDependsOnlyOnLoginTest(v: string, w: string, p: AuthProps)
    requires (v == LoginView) == (w == LoginView)
    ensures Render(v, p) == Render(w, p)
  {
  }

  /** Following the mounted form's switch link twice comes back to the
      view it started from, for both views the links set. */
  lemma SwitchLinksAlternate(view: string, p: AuthProps)
    requires view == LoginView || view == SignUpView
    ensures Render(view, p).switchTo != view
    ensures Render(Render(view, p).switchTo, p).switchTo == view
  {
  }

  /** The loading value the mounted form finally shows, given its own
      internal flag: the matching `...Loading` prop when defined, else the
      internal flag; the other form's prop never has a say. */
  lemma MountedLoading(view: string, p: AuthProps, internal: bool)
    ensures view == LoginView ==>
              EffectiveLoading(Render(view, p).loading, internal)
                == (if p.loginLoading.Some? then p.loginLoading.value else internal)
    ensures view != LoginView ==>
              EffectiveLoading(Render(view, p).loading, internal)
                == (if p.signUpLoading.Some? then p.signUpLoading.value else internal)
  {
  }

  /** The widget: the `view` state and the instance of the form currently
      mounted.  A change of view that swaps the form type unmounts the old
      form, so its state is discarded, and mounts a fresh one. */
  class AuthForms {
    const props: AuthProps
    var view: string
    var login: Login.LoginForm?
    var signUp: SignUp.SignUpForm?

    ghost predicate Valid()
      reads this, login, signUp
    {
      && (login != null <==> view == LoginView)
      && (signUp != null <==> view != LoginView)
      && (login != null ==> login.Valid())
      && (signUp != null ==> signUp.Valid() && FlagsFrom(signUp, props))
    }

    /** The sign-up instance was mounted with the widget's (defaulted) flags. */
    static predicate FlagsFrom(form: SignUp.SignUpForm, p: AuthProps) {
      && form.showLastName == (p.showLastName != Some(false))
      && form.showConfirmPassword == (p.showConfirmPassword != Some(false))
      && form.showTerms == (p.showTerms != Some(false))
      && form.showStrength == (p.showStrength != Some(false))
    }

    /** The element currently rendered. */
    function Mounted(): Mount
      reads this
    {
      Render(view, props)
    }

    /** A freshly mounted widget: in `initialView`, with a fresh instance of
        the form that view renders. */
    constructor (p: AuthProps)
      ensures Valid() && props == p
      ensures view == InitialView(p)
      ensures login != null ==>
                fresh(login) && login.fields == Login.InitialFields && login.errors == NoErrors
                && !login.success && !login.internalLoading
      ensures signUp != null ==>
                fresh(signUp) && signUp.fields == SignUp.InitialFields && signUp.errors == NoErrors
                && !signUp.agreed && !signUp.success && !signUp.internalLoading
    {
      props := p;
      view := p.initialView.GetOr(LoginView);
      if p.initialView.GetOr(LoginView) == LoginView {
        login := new Login.LoginForm();
        signUp := null;
      } else {
        login := null;
        signUp := new SignUp.SignUpForm(Some(p.showLastName.GetOr(true)),
                                        Some(p.showConfirmPassword.GetOr(true)),
                                        Some(p.showTerms.GetOr(true)),
                                        Some(p.showStrength.GetOr(true)));
      }
    }

    /** `setView(next)`, the body of both switch callbacks (the login form's
        sets 'signup', the sign-up form's sets 'login').  When the form type
        changes, the old instance is dropped and a fresh one of the other
        type is mounted; otherwise the mounted instance, with its state, stays. */
    method SetView(next: string)
      requires Valid()
      modifies this`view, this`login, this`signUp
      ensures Valid() && view == next
      ensures (old(view) == LoginView) == (next == LoginView) ==>
                login == old(login) && signUp == old(signUp)
      ensures old(view) != LoginView && next == LoginView ==>
                fresh(login) && login.fields == Login.InitialFields && login.errors == NoErrors
                && !login.success && !login.internalLoading
      ensures old(view) == LoginView && next != LoginView ==>
                fresh(signUp) && signUp.fields == SignUp.InitialFields && signUp.errors == NoErrors
                && !signUp.agreed && !signUp.success && !signUp.internalLoading
    {
      if (view == LoginView) != (next == LoginView) {
        if next == LoginView {
          login := new Login.LoginForm();
          signUp := null;
        } else {
          login := null;
          signUp := new SignUp.SignUpForm(Some(props.showLastName.GetOr(true)),
                                          Some(props.showConfirmPassword.GetOr(true)),
                                          Some(props.showTerms.GetOr(true)),
                                          Some(props.showStrength.GetOr(true)));
        }
      }
      view := next;
    }

    /** The mounted form's switch link: its callback sets the view named by
        `Mounted().switchTo`, so 'login' goes to 'signup' and any other view
        goes to 'login', remounting the other form fresh. */
    method Switch()
      requires Valid()
      modifies this`view, this`login, this`signUp
      ensures Valid()
      ensures view == (if old(view) == LoginView then SignUpView else LoginView)
      ensures old(view) == LoginView ==>
                fresh(signUp) && signUp.fields == SignUp.InitialFields && signUp.errors == NoErrors
                && !signUp.agreed && !signUp.success && !signUp.internalLoading
      ensures old(view) != LoginView ==>
                fresh(login) && login.fields == Login.InitialFields && login.errors == NoErrors
                && !login.success && !login.internalLoading
    {
      SetView(Mounted().switchTo);
    }

    /** Following the switch link twice from 'login' or 'signup' restores
        the view, but the form shown is a fresh instance: what was typed
        into it before is gone. */
    method SwitchAndBack()
      requires Valid() && (view == LoginView || view == SignUpView)
      modifies this`view, this`login, this`signUp
      ensures Valid() && view == old(view)
      ensures view == LoginView ==> fresh(login) && login.fields == Login.InitialFields
      ensures view == SignUpView ==> fresh(signUp) && signUp.fields == SignUp.InitialFields
    {
      Switch();
      Switch();
    }
  }

  /** Props with nothing set: every prop `undefined`. */
  const NoProps := AuthProps(None, None, None, None, None, None, None, None, None,
                             None, None, None, None, None, None, None)

  /** Switching to the sign-up form and back returns to the login view, but
      the login form is a new instance: what was typed before is gone. */
  method SwitchTwice() returns (emailBefore: string, viewAfter: string, emailAfter: string,
                                 loginMounted: bool)
    ensures emailBefore == "a@b.co"
    ensures viewAfter == LoginView && loginMounted
    ensures emailAfter == ""
  {
    var widget := new AuthForms(NoProps);
    var form := widget.login;
    form.HandleChange(Email, "a@b.co");
    emailBefore := form.fields[Email];
    widget.Switch();
    widget.Switch();
    viewAfter := widget.view;
    loginMounted := widget.Mounted().LoginMount?;
    emailAfter := widget.login.fields[Email];
  }

  /** Started in 'signup', the widget first renders the sign-up form; after
      the sign-up form's switch callback it renders the login form. */
  method StartInSignUp() returns (first: Mount, afterSwitch: Mount)
    ensures first.SignUpMount? && afterSwitch.LoginMount?
  {
    var widget := new AuthForms(NoProps.(initialView := Some(SignUpView)));
    first := widget.Mounted();
    widget.Switch();
    afterSwitch := widget.Mounted();
  }
}
