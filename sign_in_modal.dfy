/** The sign-in component as an object whose fields stand for the DOM state it
    changes. Each handler updates the fields step by step, as the source does,
    and is proved to leave the state that the matching transition of `AuthUi`
    describes. */
module SignInModalComponent {
  import opened PasswordPolicy
  import opened AuthUi

  class SignInModal {
    // header buttons
    var signinBtnVisible: bool
    var signoutBtnVisible: bool
    var signoutLabel: string
    // sign-in dialog
    var signinModalShown: bool
    var inputUsername: string
    var inputPassword: string
    var alertText: string
    var alertShown: bool
    // new-password dialog
    var newPasswordModalShown: bool
    var newPassword: string
    var retypedPassword: string
    var newPasswordAlertText: string
    var newPasswordAlertShown: bool
    // configuration
    var cognito: Option<ClientId>
    const hasSignInHandler: bool
    const hasSignOutHandler: bool
    // calls made into the client and the callbacks, oldest first
    var effects: seq<Effect>

    /** The observable state. */
    function View(): (v: Ui)
      reads this
    {
      Ui(Buttons(signinBtnVisible, signoutBtnVisible, signoutLabel),
         SigninDialog(signinModalShown, inputUsername, inputPassword, Alert(alertText, alertShown)),
         NewPasswordDialog(newPasswordModalShown, newPassword, retypedPassword,
                           Alert(newPasswordAlertText, newPasswordAlertShown)),
         cognito, hasSignInHandler, hasSignOutHandler, effects)
    }

    /** Builds both dialogs, hidden, with empty fields and collapsed alerts
        holding the placeholder text. The header buttons belong to the host
        page, so their first state is given. */
    constructor (client: Option<ClientId>, signInHandler: bool, signOutHandler: bool,
                 signinVisible: bool, signoutVisible: bool, signoutText: string)
      ensures View() == Ui(Buttons(signinVisible, signoutVisible, signoutText),
                           SigninDialog(false, "", "", Alert(Placeholder, false)),
                           NewPasswordDialog(false, "", "", Alert(Placeholder, false)),
                           client, signInHandler, signOutHandler, [])
    {
      cognito := client;
      hasSignInHandler := signInHandler;
      hasSignOutHandler := signOutHandler;
      signinBtnVisible := signinVisible;
      signoutBtnVisible := signoutVisible;
      signoutLabel := signoutText;
      signinModalShown := false;
      inputUsername := "";
      inputPassword := "";
      alertText := Placeholder;
      alertShown := false;
      newPasswordModalShown := false;
      newPassword := "";
      retypedPassword := "";
      newPasswordAlertText := Placeholder;
      newPasswordAlertShown := false;
      effects := [];
    }

    /** The public `cognito` setter: any value, none included, replaces the client. */
    method SetCognito(val: Option<ClientId>)
      modifies this
      ensures View() == old(View()).(client := val)
    {
      cognito := val;
    }

    /** The sign-in dialog's `hide.bs.modal` hook. */
    method OnSigninModalHide()
      modifies this
      ensures View() == SigninHideHook(old(View()))
    {
      inputPassword := "";
      alertText := "";
      alertShown := false;
    }

    /** The new-password dialog's `hide.bs.modal` hook. */
    method OnNewPasswordModalHide()
      modifies this
      ensures View() == NewPasswordHideHook(old(View()))
    {
      newPassword := "";
      retypedPassword := "";
      newPasswordAlertText := "";
      newPasswordAlertShown := false;
    }

    /** `modal('show')` on the sign-in dialog, with its `show.bs.modal` hook. */
    method ShowSigninModal()
      modifies this
      ensures View() == ShowSignin(old(View()))
    {
      if !signinModalShown {
        alertText := "";
        alertShown := false;
        signinModalShown := true;
      }
    }

    /** `modal('hide')` on the sign-in dialog: the hook runs when it was shown. */
    method HideSigninModal()
      modifies this
      ensures View() == HideSignin(old(View()))
    {
      if signinModalShown {
        OnSigninModalHide();
        signinModalShown := false;
      }
    }

    method ShowNewPasswordModal()
      modifies this
      ensures View() == ShowNewPassword(old(View()))
    {
      newPasswordModalShown := true;
    }

    /** `modal('hide')` on the new-password dialog: the hook runs when it was shown. */
    method HideNewPasswordModal()
      modifies this
      ensures View() == HideNewPassword(old(View()))
    {
      if newPasswordModalShown {
        OnNewPasswordModalHide();
        newPasswordModalShown := false;
      }
    }

    /** `signIn`, given how `getCredentials` settles. */
    method SignIn(cred: CredOutcome)
      modifies this
      ensures View() == SignInStep(old(View()), cred)
    {
      if cognito.None? {
        return;  // reading a member of an undefined client throws; the error is swallowed
      }
      effects := effects + [GetCredentials];
      if cred.CredFail? {
        return;
      }
      signinBtnVisible := false;
      signoutLabel := WelcomeLabel(cred.username);
      signoutBtnVisible := true;
      if hasSignInHandler {
        effects := effects + [SignInHandlerCalled];
      }
    }

    /** `signOut`. */
    method SignOut()
      modifies this
      ensures View() == SignOutStep(old(View()))
    {
      signinBtnVisible := true;
      signoutBtnVisible := false;
      if hasSignOutHandler {
        effects := effects + [SignOutHandlerCalled];
      }
    }

    /** `loadUser`, given the optional client argument and how `checkStatus`
        and `getCredentials` settle. */
    method LoadUser(arg: Option<ClientId>, statusOk: bool, cred: CredOutcome)
      modifies this
      ensures View() == LoadUserStep(old(View()), arg, statusOk, cred)
    {
      if arg.Some? {
        cognito := arg;
      }
      if cognito.None? {
        return;
      }
      effects := effects + [CheckStatus];
      if !statusOk {
        return;
      }
      SignIn(cred);
    }

    /** The sign-out button's click handler. */
    method OnSignOutClick(hasUser: bool, clientSignOutThrows: bool)
      modifies this
      ensures View() == SignOutClickStep(old(View()), hasUser, clientSignOutThrows)
    {
      if cognito.None? || !hasUser {
        return;  // destructuring the client or reading `user.username` throws
      }
      effects := effects + [ClientSignOut];
      if clientSignOutThrows {
        return;
      }
      SignOut();
    }

    /** The sign-in form's submit handler, given how `authenticate` and, where
        it is reached, `getCredentials` settle. */
    method OnSigninSubmit(auth: AuthOutcome, cred: CredOutcome)
      modifies this
      ensures View() == SubmitSigninStep(old(View()), auth, cred)
    {
      if cognito.None? {
        alertText := SigninFormError(MissingClientMessage);
        alertShown := true;
        return;
      }
      effects := effects + [Authenticate(inputUsername, inputPassword)];
      match auth
      case AuthFail(message) =>
        alertText := SigninFormError(message);
        alertShown := true;
      case NewPasswordRequired =>
        ShowNewPasswordModal();
        HideSigninModal();
      case AuthOk =>
        SignIn(cred);
        HideSigninModal();
    }

    /** The new-password form's submit handler, given whether
        `confirmNewPassword` succeeds and how `getCredentials` settles. */
    method OnNewPasswordSubmit(confirmOk: bool, cred: CredOutcome)
      modifies this
      ensures View() == SubmitNewPasswordStep(old(View()), confirmOk, cred)
      ensures old(newPassword) != old(retypedPassword) ==> effects == old(effects)
    {
      var verdict := CheckNewPassword(newPassword, retypedPassword);
      if verdict == Mismatch {
        newPasswordAlertText := MismatchText;
        newPasswordAlertShown := true;
      } else if verdict == FailsCriteria {
        newPasswordAlertText := CriteriaText;
        newPasswordAlertShown := true;
      } else if cognito.Some? {
        effects := effects + [ConfirmNewPassword(newPassword)];
        if confirmOk {
          SignIn(cred);
          HideNewPasswordModal();
        }
      }
    }
  }

  /** Sample callers of the component. A page with a client configured opens the
      sign-in dialog and submits; the client asks for a new password. */
  method NewPasswordRequiredScenario(name: string)
  {
    var m := new SignInModal(Some(1), true, false, true, false, "");
    m.ShowSigninModal();
    m.inputUsername := name;
    m.inputPassword := "temporary";
    m.OnSigninSubmit(NewPasswordRequired, CredFail);
    assert m.newPasswordModalShown && !m.signinModalShown && m.inputPassword == "";
    assert m.signinBtnVisible && !m.signoutBtnVisible;
    assert m.effects == [Authenticate(name, "temporary")];
  }

  /** Two different new passwords: the alert says so and the client is not called. */
  method MismatchScenario(name: string)
  {
    var m := new SignInModal(Some(1), true, false, true, false, "");
    m.newPasswordModalShown := true;
    m.newPassword := "Passw0rd!";
    m.retypedPassword := "Passw0rd?";
    m.OnNewPasswordSubmit(true, CredOk(name));
    assert m.newPasswordAlertText == MismatchText && m.newPasswordAlertShown;
    assert m.newPasswordModalShown && m.signinBtnVisible && m.effects == [];
  }

  /** A valid new password, confirmed: the page ends signed in. */
  method AcceptedScenario(name: string)
  {
    var m := new SignInModal(Some(1), true, false, true, false, "");
    m.newPasswordModalShown := true;
    m.newPassword := "Passw0rd!";
    m.retypedPassword := "Passw0rd!";
    ExampleAccepted();
    m.OnNewPasswordSubmit(true, CredOk(name));
    assert !m.signinBtnVisible && m.signoutBtnVisible && m.signoutLabel == WelcomeLabel(name);
    assert !m.newPasswordModalShown && m.newPassword == "" && m.retypedPassword == "";
    assert m.effects == [ConfirmNewPassword("Passw0rd!"), GetCredentials, SignInHandlerCalled];
  }
}
