# SignInModal: the authentication dialogs of the media2cloud web app

`SignInModal` is the browser component that drives sign-in for the web app.
It owns a sign-in button and a sign-out button in the page header, a sign-in
dialog (username, password, alert), and a dialog for a forced password change
(new password, retype, alert). It forwards what the user types to an injected
Cognito client.

The model has four parts:

- `PasswordPolicy` (`password.dfy`) is the check the new-password form runs
  before it calls `confirmNewPassword`. The two fields must be equal. Then the
  value must match the form's regular expression. `RegexMatches` reads that
  expression literally: lookaheads, `.` not matching line terminators, anchors,
  `{8,}`. `MeetsCriteria` states the policy in plain words. A lemma proves that
  the two accept the same strings.
- `AuthUi` (`auth_ui.dfy`) holds the component's observable state as a value.
  That state is the two buttons and the sign-out label, the two dialogs with
  their fields and alerts, the configured client, whether each callback is a
  function, and a log of the calls made into the client and the callbacks.
  Each event handler is a function from the state before to the state after.
  Every client call (`authenticate`, `getCredentials`, `checkStatus` and
  `confirmNewPassword`, which are awaited, and `signOut`, which is not) is a
  parameter saying how the call settles.
- `SignInModalComponent` (`sign_in_modal.dfy`) is the class `SignInModal`. Its
  mutable fields stand for the DOM state. Each handler is a method that updates
  those fields step by step, the way the source does. Each method is proved to
  end in the state the matching `AuthUi` transition gives. Three sample
  callers at the end of the file run short event sequences.
- `AuthRuns` (`auth_runs.dfy`) folds sequences of events over the state. The
  events are the form submissions, the sign-out click, `loadUser`, opening and
  dismissing the dialogs, typing into a field, and the host page using the
  public `cognito` setter or calling `signIn` and `signOut` directly. It
  proves three properties that hold over any run:
  - if exactly one header button is visible at the start, exactly one stays visible;
  - every password ever passed to `confirmNewPassword` meets the policy;
  - the call log only grows.

Inputs from outside the component are parameters:

- how each client call settles;
- whether the client has a `user`;
- the first state of the header buttons, which belong to the host page.

A missing client (`undefined`) is `None`. Any client object is `Some(id)`.

Only the sign-in form renders errors. When `confirmNewPassword` throws, or no
client is configured, the new-password form logs the error and shows no alert:
the dialog stays open as it was (signInModal.js lines 205 and 211-214).

## Model

| member | source | states |
|---|---|---|
| `PasswordPolicy.RegexMatchesIffCriteria` | source/webapp/src/lib/js/signInModal.js:200 | The regular expression matches a string exactly when the string has at least 8 characters, all from `[A-Za-z0-9@$!%*?&]`, and contains a lowercase letter, an uppercase letter, a digit and one of `@$!%*?&`. |
| `PasswordPolicy.LookaheadFindsIffContains` | source/webapp/src/lib/js/signInModal.js:200 | On a string of allowed characters, each lookahead `(?=.*[k])` succeeds exactly when the string contains class `k`. Line terminators, which `.` does not match, cannot occur in such a string. |
| `PasswordPolicy.CheckNewPassword` | source/webapp/src/lib/js/signInModal.js:198-202 | The verdict on the two fields. Mismatch exactly when they differ, which is tested before the policy. Criteria failure exactly when they are equal and the value fails the policy. Accepted exactly when they are equal and the value meets it. |
| `PasswordPolicy.ForeignCharRejects` | source/webapp/src/lib/js/signInModal.js:200 | A character outside the allowed set anywhere in the password makes it fail the policy. |
| `PasswordPolicy.SpaceOrHashRejects` | source/webapp/src/lib/js/signInModal.js:200 | A password that contains a space or `#` is rejected. |
| `PasswordPolicy.ShortRejects` | source/webapp/src/lib/js/signInModal.js:200 | A password shorter than 8 characters is rejected whatever it contains. |
| `PasswordPolicy.ExampleAccepted` | source/webapp/src/lib/js/signInModal.js:200 | `"Passw0rd!"` entered twice is accepted. |
| `PasswordPolicy.ExamplesRejected` | source/webapp/src/lib/js/signInModal.js:200 | `"password1"` (no uppercase), `"PASSWORD1!"` (no lowercase) and `"Pass1!"` (too short) are rejected. |
| `PasswordPolicy.ExampleMismatch` | source/webapp/src/lib/js/signInModal.js:198-199 | Two different values are a mismatch even though each meets the policy. |
| `AuthUi.SigninFormError` | source/webapp/src/lib/js/signInModal.js:354-355 | The sign-in form's error text is longer than the error message, so it is never empty. |
| `AuthUi.SigninHideHook` | source/webapp/src/lib/js/signInModal.js:326-329 | Hiding the sign-in dialog empties the password field and collapses and empties the alert. It keeps the username field and leaves every other part of the state unchanged. |
| `AuthUi.NewPasswordHideHook` | source/webapp/src/lib/js/signInModal.js:218-222 | Hiding the new-password dialog empties both password fields and collapses and empties its alert. Nothing else changes. |
| `AuthUi.HideHooksIdempotent` | source/webapp/src/lib/js/signInModal.js:218-222 | Running either hide hook a second time changes nothing. |
| `AuthUi.ShowSignin` | source/webapp/src/lib/js/signInModal.js:316-323 | Opening the sign-in dialog shows it. When it was already shown, nothing changes. When it was hidden, the alert is emptied and collapsed. The fields, buttons, client and log are unchanged. |
| `AuthUi.HideSignin` | source/webapp/src/lib/js/signInModal.js:326-329 | `modal('hide')` on a shown sign-in dialog hides it and runs the hook: password and alert cleared, username kept. On a hidden dialog it changes nothing. |
| `AuthUi.ShowNewPassword` | source/webapp/src/lib/js/signInModal.js:347 | The new-password dialog becomes shown. Its fields and everything else are unchanged. |
| `AuthUi.HideNewPassword` | source/webapp/src/lib/js/signInModal.js:209 | `modal('hide')` on a shown new-password dialog hides it and clears both fields and its alert. On a hidden dialog it changes nothing. |
| `AuthUi.SignInStep` | source/webapp/src/lib/js/signInModal.js:229-250 | With a client and credentials fetched, the result is: sign-in button hidden, sign-out button shown and labelled `Welcome, <username>`, and the sign-in callback called once exactly when it is a function. When `getCredentials` fails or there is no client, the buttons are unchanged. The dialogs and the configuration never change, and no error escapes (for failures whose `message` can be reassigned). |
| `AuthUi.SignOutStep` | source/webapp/src/lib/js/signInModal.js:256-264 | Afterwards the sign-in button is shown and the sign-out button hidden. The sign-out callback is called once exactly when it is a function. Nothing else changes. |
| `AuthUi.SignOutClickStep` | source/webapp/src/lib/js/signInModal.js:295-313 | With no client or no user, nothing changes, because the handler throws before it does anything. When the client's `signOut` throws, the call is logged and the buttons are unchanged. Otherwise `signOut` runs after the client's `signOut`: only the sign-in button is visible and the sign-out label is kept. |
| `AuthUi.LoadUserStep` | source/webapp/src/lib/js/signInModal.js:271-287 | The client is replaced exactly when an argument is given. With no client afterwards, nothing else changes. When `checkStatus` fails, nothing a user sees changes and no alert is shown. Otherwise the result is `signIn` applied after `checkStatus`. |
| `AuthUi.SubmitSigninStep` | source/webapp/src/lib/js/signInModal.js:332-358 | With no client, or when `authenticate` throws, the alert is shown with a non-empty error, the dialog stays open and the buttons are unchanged. With a client, `authenticate` gets the typed username and password. `newPasswordRequired` shows the new-password dialog with its fields and alert as they were, hides the sign-in dialog and does not run `signIn`. Any other status runs `signIn`: the calls are exactly `authenticate`, `getCredentials` and, when the credentials arrive and the callback is a function, the sign-in callback; the buttons end as `signIn` sets them. In both of these cases the dialog is hidden, whether or not `getCredentials` succeeds, and a dialog that was shown ends with its password and alert emptied and its username kept. |
| `AuthUi.SubmitNewPasswordStep` | source/webapp/src/lib/js/signInModal.js:195-215 | When the fields differ, only the "do not match" alert changes. When they are equal but fail the policy, only the "does not meet criteria" alert changes. In both cases nothing is called. At most one `confirmNewPassword` is made, only with a value that meets the policy, and it never opens the dialog. After a confirmed password, the calls are exactly `confirmNewPassword`, `getCredentials` and, when the credentials arrive and the callback is a function, the sign-in callback; the dialog is hidden, a dialog that was shown ends with both fields and its alert emptied, and the buttons are as `signIn` sets them. When the password is accepted but there is no client or `confirmNewPassword` throws, the error is only logged: nothing on screen changes and no alert is shown. |
| `AuthRuns.StepKeepsOneButton` | source/webapp/src/lib/js/signInModal.js:239-259 | No event makes both header buttons visible, or both hidden, if exactly one was visible before. |
| `AuthRuns.RunKeepsOneButton` | source/webapp/src/lib/js/signInModal.js:239-259 | From a page with exactly one header button visible, every sequence of events keeps exactly one visible. |
| `AuthRuns.StepKeepsConfig` | source/webapp/src/lib/js/signInModal.js:51-57 | The client changes only through the public `cognito` setter, which stores any value and so can clear it, and through `loadUser` with an argument, which stores the argument. Every other event, the direct `signIn` and `signOut` calls included, keeps the client. No event changes the callbacks. |
| `AuthRuns.StepAppendsEffects` | source/webapp/src/lib/js/signInModal.js:198-205 | Each event only appends to the call log. Only a new-password submission can append a `confirmNewPassword`. |
| `AuthRuns.StepConfirmsMeetCriteria` | source/webapp/src/lib/js/signInModal.js:198-205 | If every password passed to `confirmNewPassword` so far meets the policy, this still holds after one more event. |
| `AuthRuns.RunConfirmsMeetCriteria` | source/webapp/src/lib/js/signInModal.js:198-205 | Over any sequence of events, the component never passes a password that fails the policy to `confirmNewPassword`. |
| `AuthRuns.RunAppendsEffects` | source/webapp/src/lib/js/signInModal.js:229-287 | Over any sequence of events, the call log only grows. |
| `AuthRuns.SignInSignOutCycle` | source/webapp/src/lib/js/signInModal.js:229-264 | A successful sign-in shows only the welcome sign-out button. A following sign-out click shows only the sign-in button. The calls are exactly `authenticate`, `getCredentials`, the sign-in callback if it is a function, the client's `signOut`, and the sign-out callback if it is a function. |
| `AuthRuns.NewPasswordRequiredSwitchesDialogs` | source/webapp/src/lib/js/signInModal.js:346-352 | `newPasswordRequired` shows the new-password dialog and hides the sign-in dialog, whatever was shown before. It leaves the buttons alone and fetches no credentials. |
| `SignInModalComponent.SignInModal.constructor` | source/webapp/src/lib/js/signInModal.js:27-49 | The client and callbacks are stored as given. Both dialogs are hidden, with empty fields and collapsed alerts holding the placeholder text. The log is empty. |
| `SignInModalComponent.SignInModal.SetCognito` | source/webapp/src/lib/js/signInModal.js:55-57 | Only the client changes, to the value given, none included. |
| `SignInModalComponent.SignInModal.OnSigninModalHide` | source/webapp/src/lib/js/signInModal.js:326-329 | The fields end as `SigninHideHook` of the old state. |
| `SignInModalComponent.SignInModal.OnNewPasswordModalHide` | source/webapp/src/lib/js/signInModal.js:218-222 | The fields end as `NewPasswordHideHook` of the old state. |
| `SignInModalComponent.SignInModal.ShowSigninModal` | source/webapp/src/lib/js/signInModal.js:316-323 | The fields end as `ShowSignin` of the old state. |
| `SignInModalComponent.SignInModal.HideSigninModal` | source/webapp/src/lib/js/signInModal.js:352 | The fields end as `HideSignin` of the old state. |
| `SignInModalComponent.SignInModal.ShowNewPasswordModal` | source/webapp/src/lib/js/signInModal.js:347 | The fields end as `ShowNewPassword` of the old state. |
| `SignInModalComponent.SignInModal.HideNewPasswordModal` | source/webapp/src/lib/js/signInModal.js:209 | The fields end as `HideNewPassword` of the old state. |
| `SignInModalComponent.SignInModal.SignIn` | source/webapp/src/lib/js/signInModal.js:229-250 | The fields end as `SignInStep` of the old state. |
| `SignInModalComponent.SignInModal.SignOut` | source/webapp/src/lib/js/signInModal.js:256-264 | The fields end as `SignOutStep` of the old state. |
| `SignInModalComponent.SignInModal.LoadUser` | source/webapp/src/lib/js/signInModal.js:271-287 | The fields end as `LoadUserStep` of the old state. |
| `SignInModalComponent.SignInModal.OnSignOutClick` | source/webapp/src/lib/js/signInModal.js:295-313 | The fields end as `SignOutClickStep` of the old state. |
| `SignInModalComponent.SignInModal.OnSigninSubmit` | source/webapp/src/lib/js/signInModal.js:332-358 | The fields end as `SubmitSigninStep` of the old state. |
| `SignInModalComponent.SignInModal.OnNewPasswordSubmit` | source/webapp/src/lib/js/signInModal.js:195-215 | The fields end as `SubmitNewPasswordStep` of the old state. When the fields held different values before the submission, the call log is unchanged. |

## Left out

- HTML markup and DOM construction in `domInit` and `domNewPasswordInit` are not modelled. They are presentation only. The dialogs start hidden, with empty fields and the placeholder alert text.
- Bootstrap and jQuery mechanics are reduced to booleans: `modal`, `collapse`, `show`/`hide`, event binding, `preventDefault`, transitions. The one mechanic kept is that `modal('show')`/`modal('hide')` does nothing, and fires no hook, when the dialog is already in that state. That is how Bootstrap 4 behaves; the markup uses Bootstrap 4 classes (`form-text` at signInModal.js line 124, `btn-secondary` at line 130). Bootstrap 3 fires the hooks before it checks the state.
- Alert text is the message text without its `<small>` wrapper. The sign-out label is `Welcome, <username>` without the `<small>` wrapper and without HTML escaping the username.
- The Cognito client is not modelled. Each of its calls is a parameter saying how the call settles. A client is an opaque identity.
- `SignOutClickStep`: `clientSignOutThrows` stands for a synchronous throw from the client's `signOut`. That call is not awaited, so a rejected promise would not stop the handler. The model treats such a rejection as not throwing.
- Failures of client calls and callbacks are assumed to be Error-like objects whose `message` can be reassigned, as the component's collaborators promise. Every catch block starts by rewriting `e.message` (`signInModal.js:212`, `247`, `281`, `354`), and class bodies run in strict mode, so for any other failure that line itself throws: a primitive, `undefined` or `null`, a frozen object, or a `DOMException`. What the source then does differs from the model. If `getCredentials` rejects with a primitive, `signIn` rejects with a TypeError instead of swallowing the failure, and its caller's catch handles that TypeError. After a sign-in submit, the sign-in dialog then stays open and shows the TypeError's text. After a confirmed new password, the new-password dialog stays open with no alert. After `loadUser`, nothing changes. If `authenticate`, `confirmNewPassword` or `checkStatus` rejects with a primitive, the handler's own catch throws: no alert is shown, the screen stays as it was, and the rejection goes unhandled.
- Callbacks are assumed to return normally and not to call into the component they receive (`signInModal.js:244`, `262` pass the instance). A callback that calls `signOut`, `loadUser` or the `cognito` setter in the middle of a handler is not modelled. In the source, a callback that throws inside `signIn` is caught there, after the buttons have changed. A callback that throws inside the sign-out click is caught by the click handler. Neither case changes the state, but the model has no separate outcome for it.
- `ConfigurationError` and all console output (`console.log`, `console.error`, the message prefixes) are not modelled: they show only on the browser console. In `loadUser`, a configuration error and any other error both leave everything a user sees as it was (the client argument, if any, has already been stored).
- Async interleaving is not modelled: each handler runs to completion before the next event. Two submissions racing each other are not modelled.
- The header buttons belong to the host page, so the constructor takes their first state. The component does not set it. "Exactly one button visible" holds over a run only when the page starts that way (`RunKeepsOneButton` requires it).
- Characters are Unicode scalar values. JavaScript measures the length of a string in UTF-16 code units. The two counts differ only for characters outside the allowed set, so the verdict is the same either way.
