/** The handler for "the system is not currently available" at login: it
    dismisses the dialog and closes the login frame with Alt+F4. */
module NotCurrentlyAvailableDialogHandler {
  import opened Util
  import opened Swing

  const LoginButton := "Login"
  const NotAvailableMessage := "The system is not currently available."

  /** How handleWindow ends: done, with the error it logged when it could not
      click OK, or with the NullPointerException of a login frame that has
      no "Login" button (its lookup is not checked). */
  datatype Outcome = Done | NotDismissed(message: string) | LoginButtonMissing

  /** The dialog and the login frame (None when there is none) afterwards. */
  datatype Result = Result(dialog: WindowValue, loginFrame: Option<WindowValue>, outcome: Outcome)

  predicate FilterEvent(e: WindowEvent) {
    e == WindowOpened || e == WindowActivated
  }

  /** A dialog whose title contains "Login", with the label "not currently
      available". */
  predicate RecogniseWindow(v: WindowValue) {
    v.kind == JDialog && Contains(v.title, "Login") && "not currently available" in v.labels
  }

  /** handleWindow: click OK or log and stop; then, when there is a login
      frame, send Alt+F4 to its "Login" button. */
  function AfterHandle(v: WindowValue, loginFrame: Option<WindowValue>): Result {
    if "OK" !in v.buttons then Result(v, loginFrame, NotDismissed(NotAvailableMessage))
    else if loginFrame.None? then Result(v.Click("OK"), None, Done)
    else if LoginButton !in loginFrame.value.buttons then Result(v.Click("OK"), loginFrame, LoginButtonMissing)
    else
      var f := loginFrame.value;
      Result(v.Click("OK"), Some(f.(keys := f.keys + [AltF4(LoginButton)])), Done)
  }

  /** The rules of handleWindow: without OK only the error; with OK the
      dialog is dismissed, and the login frame, if any, gets exactly one
      Alt+F4 for its Login button, or the run fails on the missing button. */
  lemma DismissThenCloseLogin(v: WindowValue, loginFrame: Option<WindowValue>)
    ensures var r := AfterHandle(v, loginFrame);
      && ("OK" !in v.buttons ==> r == Result(v, loginFrame, NotDismissed("The system is not currently available.")))
      && ("OK" in v.buttons ==> r.dialog.clicks == v.clicks + ["OK"] && r.dialog == v.(clicks := r.dialog.clicks))
      && (r.loginFrame.Some? <==> loginFrame.Some?)
      && ("OK" in v.buttons && loginFrame.Some? ==>
            && (r.outcome == LoginButtonMissing <==> LoginButton !in loginFrame.value.buttons)
            && r.loginFrame.value.keys ==
                 loginFrame.value.keys + (if LoginButton in loginFrame.value.buttons then [AltF4(LoginButton)] else [])
            && r.loginFrame.value == loginFrame.value.(keys := r.loginFrame.value.keys))
      && ("OK" in v.buttons && loginFrame.None? ==> r.outcome == Done)
  {
  }

  /** A key press reaches the login frame only once the dialog was
      dismissed. */
  lemma KeysOnlyAfterDismissal(v: WindowValue, loginFrame: Option<WindowValue>)
    requires loginFrame.Some?
    ensures var r := AfterHandle(v, loginFrame);
      r.loginFrame.value.keys != loginFrame.value.keys ==> r.dialog.clicks == v.clicks + ["OK"]
  {
  }

  /** handleWindow, on the dialog and the login frame (null when there is
      none). */
  method HandleWindow(window: Window, loginFrame: Window?) returns (outcome: Outcome)
    modifies window`clicks, (if loginFrame == null then {} else {loginFrame})`keys
    ensures var r := AfterHandle(old(window.State()), if loginFrame == null then None else Some(old(loginFrame.State())));
      && outcome == r.outcome
      && window.clicks == r.dialog.clicks
      && (loginFrame != null ==> loginFrame.keys == r.loginFrame.value.keys)
  {
    var ok := window.ClickButton("OK");
    if !ok {
      return NotDismissed(NotAvailableMessage);
    }
    if loginFrame == null {
      return Done;
    }
    if LoginButton !in loginFrame.buttons {
      return LoginButtonMissing;
    }
    loginFrame.DispatchKey(AltF4(LoginButton));
    outcome := Done;
  }
}
