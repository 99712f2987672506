/** Sequences of user and page events over the sign-in component, and the
    properties that hold after any number of them. */
module AuthRuns {
  import opened PasswordPolicy
  import opened AuthUi

  /** One event the component reacts to, with the settlement of every client
      call the reaction makes. The typing events stand for the user editing a
      field; the dismiss events for Bootstrap hiding a dialog on the user's
      request; `UserLoaded` for the page calling `loadUser`; `ClientAssigned`,
      `SignInCalled` and `SignOutCalled` for the page using the public
      `cognito` setter, `signIn` and `signOut` directly. */
  datatype Event =
    | SigninSubmitted(auth: AuthOutcome, cred: CredOutcome)
    | NewPasswordSubmitted(confirmOk: bool, cred: CredOutcome)
    | SignOutClicked(hasUser: bool, clientSignOutThrows: bool)
    | UserLoaded(arg: Option<ClientId>, statusOk: bool, cred: CredOutcome)
    | SigninOpened
    | SigninDismissed
    | NewPasswordDismissed
    | UsernameTyped(username: string)
    | PasswordTyped(password: string)
    | NewPasswordTyped(newPassword: string)
    | RetypedTyped(retyped: string)
    | ClientAssigned(newClient: Option<ClientId>)
    | SignInCalled(signInCred: CredOutcome)
    | SignOutCalled

  function Step(u: Ui, e: Event): (r: Ui) {
    match e
    case SigninSubmitted(auth, cred) => SubmitSigninStep(u, auth, cred)
    case NewPasswordSubmitted(confirmOk, cred) => SubmitNewPasswordStep(u, confirmOk, cred)
    case SignOutClicked(hasUser, throws) => SignOutClickStep(u, hasUser, throws)
    case UserLoaded(arg, statusOk, cred) => LoadUserStep(u, arg, statusOk, cred)
    case SigninOpened => ShowSignin(u)
    case SigninDismissed => HideSignin(u)
    case NewPasswordDismissed => HideNewPassword(u)
    case UsernameTyped(s) => u.(signin := u.signin.(username := s))
    case PasswordTyped(s) => u.(signin := u.signin.(password := s))
    case NewPasswordTyped(s) => u.(newPassword := u.newPassword.(password := s))
    case RetypedTyped(s) => u.(newPassword := u.newPassword.(retyped := s))
    case ClientAssigned(c) => u.(client := c)
    case SignInCalled(cred) => SignInStep(u, cred)
    case SignOutCalled => SignOutStep(u)
  }

  function Run(u: Ui, es: seq<Event>): (r: Ui)
    decreases |es|
  {
    if es == [] then u else Run(Step(u, es[0]), es[1..])
  }

  /** Exactly one of the two header buttons is visible. */
  predicate OneButtonVisible(u: Ui) {
    u.buttons.signinVisible != u.buttons.signoutVisible
  }

  /** Every password handed to `confirmNewPassword` meets the policy. */
  predicate ConfirmsMeetCriteria(effects: seq<Effect>) {
    forall i :: 0 <= i < |effects| && effects[i].ConfirmNewPassword? ==>
      MeetsCriteria(effects[i].newPassword)
  }

  lemma {:induction false} StepKeepsOneButton(u: Ui, e: Event)
    requires OneButtonVisible(u)
    ensures OneButtonVisible(Step(u, e))
  {
  }

  /** From a page where exactly one header button is visible, every run of
      events keeps exactly one visible. */
  lemma {:induction false} RunKeepsOneButton(u: Ui, es: seq<Event>)
    requires OneButtonVisible(u)
    ensures OneButtonVisible(Run(u, es))
    decreases |es|
  {
    if es != [] {
      StepKeepsOneButton(u, es[0]);
      RunKeepsOneButton(Step(u, es[0]), es[1..]);
    }
  }

  predicate SameHandlers(a: Ui, b: Ui) {
    a.hasSignInHandler == b.hasSignInHandler && a.hasSignOutHandler == b.hasSignOutHandler
  }

  /** The configured client changes only through the `cognito` setter (which
      may clear it) and through `loadUser` with an argument; the callbacks
      never change. */
  lemma {:induction false} StepKeepsConfig(u: Ui, e: Event)
    ensures !e.UserLoaded? && !e.ClientAssigned? ==> SameConfig(u, Step(u, e))
    ensures e.UserLoaded? ==> Step(u, e).client == (if e.arg.Some? then e.arg else u.client)
    ensures e.ClientAssigned? ==> Step(u, e).client == e.newClient
    ensures SameHandlers(u, Step(u, e))
  {
  }

  /** Every event appends to the log of calls and never rewrites it, and — but
      for a new-password submission — never appends a `confirmNewPassword`. */
  lemma {:induction false} StepAppendsEffects(u: Ui, e: Event)
    ensures u.effects <= Step(u, e).effects
    ensures !e.NewPasswordSubmitted? ==>
      forall i :: |u.effects| <= i < |Step(u, e).effects| ==> !Step(u, e).effects[i].ConfirmNewPassword?
  {
  }

  lemma ConfirmsMeetCriteriaAppend(a: seq<Effect>, b: seq<Effect>)
    requires a <= b && ConfirmsMeetCriteria(a)
    requires forall i :: |a| <= i < |b| && b[i].ConfirmNewPassword? ==> MeetsCriteria(b[i].newPassword)
    ensures ConfirmsMeetCriteria(b)
  {
    forall i | 0 <= i < |b| && b[i].ConfirmNewPassword?
      ensures MeetsCriteria(b[i].newPassword)
    {
      if i < |a| { assert b[i] == a[i]; }
    }
  }

  lemma {:induction false} StepConfirmsMeetCriteria(u: Ui, e: Event)
    requires ConfirmsMeetCriteria(u.effects)
    ensures ConfirmsMeetCriteria(Step(u, e).effects)
  {
    StepAppendsEffects(u, e);
    ConfirmsMeetCriteriaAppend(u.effects, Step(u, e).effects);
  }

  /** However events follow each other, the component never asks the client to
      set a password that fails the policy. */
  lemma {:induction false} RunConfirmsMeetCriteria(u: Ui, es: seq<Event>)
    requires ConfirmsMeetCriteria(u.effects)
    ensures ConfirmsMeetCriteria(Run(u, es).effects)
    decreases |es|
  {
    if es != [] {
      StepConfirmsMeetCriteria(u, es[0]);
      RunConfirmsMeetCriteria(Step(u, es[0]), es[1..]);
    }
  }

  /** A run only appends to the log of calls. */
  lemma {:induction false} RunAppendsEffects(u: Ui, es: seq<Event>)
    ensures u.effects <= Run(u, es).effects
    decreases |es|
  {
    if es != [] {
      StepAppendsEffects(u, es[0]);
      RunAppendsEffects(Step(u, es[0]), es[1..]);
    }
  }

  /** A successful sign-in followed by a successful sign-out click ends with
      the sign-in button visible and the sign-out button hidden, each callback
      called once when it is a function, whatever the page showed before. */
  lemma SignInSignOutCycle(u: Ui, name: string)
    requires u.client.Some?
    ensures var v := Step(u, SigninSubmitted(AuthOk, CredOk(name)));
      !v.buttons.signinVisible && v.buttons.signoutVisible
      && v.buttons.signoutLabel == WelcomeLabel(name) && !v.signin.shown
    ensures var w := Run(u, [SigninSubmitted(AuthOk, CredOk(name)), SignOutClicked(true, false)]);
      w.buttons.signinVisible && !w.buttons.signoutVisible && OneButtonVisible(w)
      && w.effects == u.effects + [Authenticate(u.signin.username, u.signin.password), GetCredentials]
        + (if u.hasSignInHandler then [SignInHandlerCalled] else [])
        + [ClientSignOut]
        + (if u.hasSignOutHandler then [SignOutHandlerCalled] else [])
  {
    var es := [SigninSubmitted(AuthOk, CredOk(name)), SignOutClicked(true, false)];
    var v := Step(u, es[0]);
    assert Run(u, es) == Run(v, es[1..]);
    assert es[1..] == [SignOutClicked(true, false)];
    assert Run(v, es[1..]) == Step(v, SignOutClicked(true, false));
  }

  /** When `authenticate` asks for a new password, the new-password dialog is
      shown and the sign-in dialog hidden, whatever was shown before, and no
      credentials are fetched. */
  lemma NewPasswordRequiredSwitchesDialogs(u: Ui, cred: CredOutcome)
    requires u.client.Some?
    ensures var r := Step(u, SigninSubmitted(NewPasswordRequired, cred));
      r.newPassword.shown && !r.signin.shown && r.buttons == u.buttons
      && GetCredentials !in r.effects[|u.effects|..]
  {
    var r := Step(u, SigninSubmitted(NewPasswordRequired, cred));
    assert r.effects[|u.effects|..] == [Authenticate(u.signin.username, u.signin.password)];
  }
}
