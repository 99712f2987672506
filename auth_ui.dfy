/** The observable state of the sign-in component and its transitions, as values.

    `Ui` is what a user and the authentication client can observe: the two
    header buttons, the two modal dialogs with their fields and alert regions,
    the configured client, whether each optional callback is a function, and
    the log of calls made into the client and into the callbacks. Each handler
    of the component is one function from the state before to the state after;
    the results of the client's asynchronous calls are parameters.
 */
module AuthUi {
  import opened PasswordPolicy

  /** An opaque identity for a configured authentication client. */
  type ClientId = nat

  datatype Option<T> = None | Some(value: T)

  /** An alert region: its text and whether it is expanded. */
  datatype Alert = Alert(text: string, shown: bool)

  datatype Buttons = Buttons(signinVisible: bool, signoutVisible: bool, signoutLabel: string)

  datatype SigninDialog = SigninDialog(shown: bool, username: string, password: string, alert: Alert)

  datatype NewPasswordDialog = NewPasswordDialog(shown: bool, password: string, retyped: string, alert: Alert)

  /** A call made by the component into the client or into a callback. */
  datatype Effect =
    | Authenticate(username: string, password: string)
    | ConfirmNewPassword(newPassword: string)
    | GetCredentials
    | CheckStatus
    | ClientSignOut
    | SignInHandlerCalled
    | SignOutHandlerCalled

  datatype Ui = Ui(
    buttons: Buttons,
    signin: SigninDialog,
    newPassword: NewPasswordDialog,
    client: Option<ClientId>,
    hasSignInHandler: bool,
    hasSignOutHandler: bool,
    effects: seq<Effect>)

  /** Settlement of `authenticate`: a thrown error with its message, or a status. */
  datatype AuthOutcome = AuthFail(message: string) | NewPasswordRequired | AuthOk

  /** Settlement of `getCredentials` followed by reading `user.username`. */
  datatype CredOutcome = CredFail | CredOk(username: string)

  const NoAlert := Alert("", false)

  /** The text both alert regions hold before anything is written to them. */
  const Placeholder := "Alert message..."

  /** Error text rendered by the sign-in form, prefixed with the form's id. */
  function SigninFormError(message: string): (t: string)
    ensures |t| > |message|
  {
    "cognitoSigninForm.submit: " + message
  }

  const MissingClientMessage := "invalid cognito setting"
  const MismatchText := "passwords do not match. Please re-enter."
  const CriteriaText := "password does not meet criteria. Please re-enter."

  function WelcomeLabel(username: string): (t: string) {
    "Welcome, " + username
  }

  /** Everything a user sees is the same in both states. */
  predicate SameScreen(a: Ui, b: Ui) {
    a.buttons == b.buttons && a.signin == b.signin && a.newPassword == b.newPassword
  }

  /** The configuration (client and callbacks) is the same in both states. */
  predicate SameConfig(a: Ui, b: Ui) {
    a.client == b.client && a.hasSignInHandler == b.hasSignInHandler
    && a.hasSignOutHandler == b.hasSignOutHandler
  }

  function Log(u: Ui, e: Effect): (r: Ui)
    ensures SameScreen(u, r) && SameConfig(u, r) && r.effects == u.effects + [e]
  {
    u.(effects := u.effects + [e])
  }

  // ---------------------------------------------------------------------------
  // Reset hooks of the two dialogs, and the dialogs' show/hide

  /** The sign-in dialog's hide hook: empties the password field and the alert. */
  function SigninHideHook(u: Ui): (r: Ui)
    ensures r.signin.password == "" && r.signin.alert == NoAlert
    ensures r.signin.username == u.signin.username && r.signin.shown == u.signin.shown
    ensures r.buttons == u.buttons && r.newPassword == u.newPassword
    ensures SameConfig(u, r) && r.effects == u.effects
  {
    u.(signin := u.signin.(password := "", alert := NoAlert))
  }

  /** The new-password dialog's hide hook: empties both fields and the alert. */
  function NewPasswordHideHook(u: Ui): (r: Ui)
    ensures r.newPassword.password == "" && r.newPassword.retyped == ""
    ensures r.newPassword.alert == NoAlert && r.newPassword.shown == u.newPassword.shown
    ensures r.buttons == u.buttons && r.signin == u.signin
    ensures SameConfig(u, r) && r.effects == u.effects
  {
    u.(newPassword := u.newPassword.(password := "", retyped := "", alert := NoAlert))
  }

  /** Running either hide hook a second time changes nothing. */
  lemma HideHooksIdempotent(u: Ui)
    ensures SigninHideHook(SigninHideHook(u)) == SigninHideHook(u)
    ensures NewPasswordHideHook(NewPasswordHideHook(u)) == NewPasswordHideHook(u)
  {
  }

  /** Opening the sign-in dialog: when it is not already shown, its show hook
      empties the alert; nothing else changes. */
  function ShowSignin(u: Ui): (r: Ui)
    ensures r.signin.shown
    ensures u.signin.shown ==> r == u
    ensures !u.signin.shown ==> r.signin.alert == NoAlert
    ensures r.signin.username == u.signin.username && r.signin.password == u.signin.password
    ensures r.buttons == u.buttons && r.newPassword == u.newPassword
    ensures SameConfig(u, r) && r.effects == u.effects
  {
    if u.signin.shown then u
    else u.(signin := u.signin.(shown := true, alert := NoAlert))
  }

  /** Hiding the sign-in dialog: when it is shown, its hide hook runs. */
  function HideSignin(u: Ui): (r: Ui)
    ensures !r.signin.shown && r.signin.username == u.signin.username
    ensures u.signin.shown ==> r.signin.password == "" && r.signin.alert == NoAlert
    ensures !u.signin.shown ==> r == u
    ensures r.buttons == u.buttons && r.newPassword == u.newPassword
    ensures SameConfig(u, r) && r.effects == u.effects
  {
    if u.signin.shown then SigninHideHook(u).(signin := SigninHideHook(u).signin.(shown := false))
    else u
  }

  /** Showing the new-password dialog (it has no show hook). */
  function ShowNewPassword(u: Ui): (r: Ui)
    ensures r.newPassword.shown
    ensures r.newPassword.password == u.newPassword.password
    ensures r.newPassword.retyped == u.newPassword.retyped
    ensures r.newPassword.alert == u.newPassword.alert
    ensures r.buttons == u.buttons && r.signin == u.signin
    ensures SameConfig(u, r) && r.effects == u.effects
  {
    u.(newPassword := u.newPassword.(shown := true))
  }

  /** Hiding the new-password dialog: when it is shown, its hide hook runs. */
  function HideNewPassword(u: Ui): (r: Ui)
    ensures !r.newPassword.shown
    ensures u.newPassword.shown ==>
      r.newPassword.password == "" && r.newPassword.retyped == "" && r.newPassword.alert == NoAlert
    ensures !u.newPassword.shown ==> r == u
    ensures r.buttons == u.buttons && r.signin == u.signin
    ensures SameConfig(u, r) && r.effects == u.effects
  {
    if u.newPassword.shown then
      NewPasswordHideHook(u).(newPassword := NewPasswordHideHook(u).newPassword.(shown := false))
    else u
  }

  // ---------------------------------------------------------------------------
  // The sign-in success procedure and sign-out

  /** `signIn`: with a client, asks for credentials; on success hides the
      sign-in button, shows the sign-out button labelled with the user name and
      calls the sign-in callback when it is a function. Any failure, a missing
      client included, is swallowed and changes nothing a user sees (failures
      are taken to be errors whose `message` can be reassigned). */
  function SignInStep(u: Ui, cred: CredOutcome): (r: Ui)
    ensures SameConfig(u, r) && r.signin == u.signin && r.newPassword == u.newPassword
    ensures u.client.Some? && cred.CredOk? ==>
      !r.buttons.signinVisible && r.buttons.signoutVisible
      && r.buttons.signoutLabel == WelcomeLabel(cred.username)
    ensures u.client.None? || cred.CredFail? ==> r.buttons == u.buttons
    ensures u.client.None? ==> r.effects == u.effects
    ensures u.client.Some? ==>
      r.effects == u.effects + [GetCredentials]
        + (if cred.CredOk? && u.hasSignInHandler then [SignInHandlerCalled] else [])
  {
    if u.client.None? then u
    else
      var u1 := Log(u, GetCredentials);
      match cred
      case CredFail => u1
      case CredOk(name) =>
        var u2 := u1.(buttons := Buttons(false, true, WelcomeLabel(name)));
        if u.hasSignInHandler then Log(u2, SignInHandlerCalled) else u2
  }

  /** `signOut`: shows the sign-in button, hides the sign-out button and calls
      the sign-out callback when it is a function. */
  function SignOutStep(u: Ui): (r: Ui)
    ensures r.buttons.signinVisible && !r.buttons.signoutVisible
    ensures r.buttons.signoutLabel == u.buttons.signoutLabel
    ensures SameConfig(u, r) && r.signin == u.signin && r.newPassword == u.newPassword
    ensures r.effects == u.effects + (if u.hasSignOutHandler then [SignOutHandlerCalled] else [])
  {
    var u1 := u.(buttons := u.buttons.(signinVisible := true, signoutVisible := false));
    if u.hasSignOutHandler then Log(u1, SignOutHandlerCalled) else u1
  }

  /** The sign-out button's click handler. Reading `user.username` throws when
      there is no client or the client has no user; the client's own `signOut`
      may throw too. A throw ends the handler before `signOut` runs. */
  function SignOutClickStep(u: Ui, hasUser: bool, clientSignOutThrows: bool): (r: Ui)
    ensures SameConfig(u, r) && r.signin == u.signin && r.newPassword == u.newPassword
    ensures u.client.None? || !hasUser ==> r == u
    ensures u.client.Some? && hasUser && clientSignOutThrows ==>
      r.buttons == u.buttons && r.effects == u.effects + [ClientSignOut]
    ensures u.client.Some? && hasUser && !clientSignOutThrows ==>
      r.buttons.signinVisible && !r.buttons.signoutVisible
      && r.buttons.signoutLabel == u.buttons.signoutLabel
      && r.effects == u.effects + [ClientSignOut]
        + (if u.hasSignOutHandler then [SignOutHandlerCalled] else [])
  {
    if u.client.None? || !hasUser then u
    else
      var u1 := Log(u, ClientSignOut);
      if clientSignOutThrows then u1 else SignOutStep(u1)
  }

  /** `loadUser`: replaces the client only when one is supplied, then asks for
      the session status and, when that succeeds, runs the sign-in success
      procedure. Every failure is swallowed. */
  function LoadUserStep(u: Ui, arg: Option<ClientId>, statusOk: bool, cred: CredOutcome): (r: Ui)
    ensures r.client == (if arg.Some? then arg else u.client)
    ensures r.hasSignInHandler == u.hasSignInHandler && r.hasSignOutHandler == u.hasSignOutHandler
    ensures r.signin == u.signin && r.newPassword == u.newPassword
    ensures r.client.None? ==> r.effects == u.effects && r.buttons == u.buttons
    ensures r.client.Some? && !statusOk ==>
      SameScreen(u, r) && r.effects == u.effects + [CheckStatus]
    ensures r.client.Some? && statusOk ==>
      r == SignInStep(u.(client := r.client, effects := u.effects + [CheckStatus]), cred)
  {
    var u1 := if arg.Some? then u.(client := arg) else u;
    if u1.client.None? then u1
    else
      var u2 := Log(u1, CheckStatus);
      if !statusOk then u2 else SignInStep(u2, cred)
  }

  // ---------------------------------------------------------------------------
  // Form submissions

  /** The sign-in form's submit handler. With no client, or when `authenticate`
      throws, the alert shows a non-empty error and nothing else changes. When
      the client asks for a new password the new-password dialog is shown;
      otherwise the sign-in success procedure runs (it swallows its own
      failures). In both of these cases the sign-in dialog is then hidden. */
  function SubmitSigninStep(u: Ui, auth: AuthOutcome, cred: CredOutcome): (r: Ui)
    ensures SameConfig(u, r)
    ensures u.client.None? ==>
      r.effects == u.effects && r.buttons == u.buttons && r.newPassword == u.newPassword
      && r.signin == u.signin.(alert := Alert(SigninFormError(MissingClientMessage), true))
    ensures u.client.Some? ==>
      |r.effects| > |u.effects|
      && r.effects[|u.effects|] == Authenticate(u.signin.username, u.signin.password)
    ensures u.client.Some? && auth.AuthFail? ==>
      r.buttons == u.buttons && r.newPassword == u.newPassword
      && r.signin == u.signin.(alert := Alert(SigninFormError(auth.message), true))
    ensures u.client.Some? && auth.NewPasswordRequired? ==>
      r.newPassword == u.newPassword.(shown := true) && !r.signin.shown && r.buttons == u.buttons
      && r.effects == u.effects + [Authenticate(u.signin.username, u.signin.password)]
    ensures u.client.Some? && auth.AuthOk? ==>
      !r.signin.shown && r.newPassword == u.newPassword
      && r.buttons == SignInStep(u, cred).buttons
      && r.effects == u.effects + [Authenticate(u.signin.username, u.signin.password), GetCredentials]
        + (if cred.CredOk? && u.hasSignInHandler then [SignInHandlerCalled] else [])
    ensures u.client.Some? && !auth.AuthFail? && u.signin.shown ==>
      r.signin.password == "" && r.signin.alert == NoAlert && r.signin.username == u.signin.username
    ensures u.client.Some? && !auth.AuthFail? && !u.signin.shown ==> r.signin == u.signin
    ensures u.client.None? || auth.AuthFail? ==> r.signin.alert.shown && |r.signin.alert.text| > 0
  {
    if u.client.None? then
      u.(signin := u.signin.(alert := Alert(SigninFormError(MissingClientMessage), true)))
    else
      var u1 := Log(u, Authenticate(u.signin.username, u.signin.password));
      match auth
      case AuthFail(message) =>
        u1.(signin := u1.signin.(alert := Alert(SigninFormError(message), true)))
      case NewPasswordRequired => HideSignin(ShowNewPassword(u1))
      case AuthOk => HideSignin(SignInStep(u1, cred))
  }

  /** The new-password form's submit handler. A mismatch is reported before the
      policy is tried; either failure shows its alert and calls nothing. On an
      accepted password, the client confirms it; if that throws (or there is no
      client) the handler stops with the screen as it was and no alert (the
      error is only logged), otherwise the sign-in success procedure runs
      and the dialog is hidden. */
  function SubmitNewPasswordStep(u: Ui, confirmOk: bool, cred: CredOutcome): (r: Ui)
    ensures SameConfig(u, r)
    ensures u.newPassword.password != u.newPassword.retyped ==>
      r.effects == u.effects && r.buttons == u.buttons && r.signin == u.signin
      && r.newPassword == u.newPassword.(alert := Alert(MismatchText, true))
    ensures u.newPassword.password == u.newPassword.retyped && !MeetsCriteria(u.newPassword.password) ==>
      r.effects == u.effects && r.buttons == u.buttons && r.signin == u.signin
      && r.newPassword == u.newPassword.(alert := Alert(CriteriaText, true))
    ensures (forall i :: |u.effects| <= i < |r.effects| ==> !r.effects[i].ConfirmNewPassword?)
      || (u.newPassword.password == u.newPassword.retyped && MeetsCriteria(u.newPassword.password)
          && |r.effects| > |u.effects|
          && r.effects[|u.effects|] == ConfirmNewPassword(u.newPassword.password)
          && forall i :: |u.effects| < i < |r.effects| ==> !r.effects[i].ConfirmNewPassword?)
    ensures u.effects <= r.effects
    ensures r.newPassword.shown ==> u.newPassword.shown
    ensures (CheckNewPassword(u.newPassword.password, u.newPassword.retyped) == Accepted
             && u.client.Some? && confirmOk) ==>
      !r.newPassword.shown && r.signin == u.signin
      && (u.newPassword.shown ==> r.newPassword == NewPasswordDialog(false, "", "", NoAlert))
      && (!u.newPassword.shown ==> r.newPassword == u.newPassword)
      && r.buttons == SignInStep(u, cred).buttons
      && r.effects == u.effects + [ConfirmNewPassword(u.newPassword.password), GetCredentials]
        + (if cred.CredOk? && u.hasSignInHandler then [SignInHandlerCalled] else [])
    ensures (CheckNewPassword(u.newPassword.password, u.newPassword.retyped) == Accepted
             && (u.client.None? || !confirmOk)) ==>
      SameScreen(u, r)
      && r.effects == u.effects + (if u.client.Some? then [ConfirmNewPassword(u.newPassword.password)] else [])
  {
    match CheckNewPassword(u.newPassword.password, u.newPassword.retyped)
    case Mismatch => u.(newPassword := u.newPassword.(alert := Alert(MismatchText, true)))
    case FailsCriteria => u.(newPassword := u.newPassword.(alert := Alert(CriteriaText, true)))
    case Accepted =>
      if u.client.None? then u
      else
        var u1 := Log(u, ConfirmNewPassword(u.newPassword.password));
        if !confirmOk then u1 else HideNewPassword(SignInStep(u1, cred))
  }
}
