/** The handler for the dialog that asks whether to accept an incoming API
    connection, answered from the AcceptIncomingConnectionAction setting. */
module AcceptIncomingConnectionDialogHandler {
  import opened Util
  import opened Swing

  const ActionSetting := "AcceptIncomingConnectionAction"
  const Accept := "accept"
  const Reject := "reject"
  const Manual := "manual"
  const MissingControlsMessage := "could not accept incoming connection because we could not find one of the controls."
  const InvalidSettingMessage := "could not accept incoming connection because the AcceptIncomingConnectionAction setting is invalid."

  predicate FilterEvent(e: WindowEvent) {
    e == WindowOpened
  }

  /** A dialog showing the label "Accept incoming connection". */
  predicate RecogniseWindow(v: WindowValue) {
    v.kind == JDialog && "Accept incoming connection" in v.labels
  }

  /** handleWindow under the action text `action` (compared ignoring case):
      manual does nothing; accept clicks OK, or Yes when there is no OK;
      reject clicks No; anything else only logs an error. */
  function Handled(v: WindowValue, action: string): HandleResult {
    if EqualsIgnoreCase(action, Manual) then HandleResult(v, None)
    else if EqualsIgnoreCase(action, Accept) then
      if "OK" in v.buttons then HandleResult(v.Click("OK"), None)
      else if "Yes" in v.buttons then HandleResult(v.Click("Yes"), None)
      else HandleResult(v, Some(MissingControlsMessage))
    else if EqualsIgnoreCase(action, Reject) then
      if "No" in v.buttons then HandleResult(v.Click("No"), None)
      else HandleResult(v, Some(MissingControlsMessage))
    else HandleResult(v, Some(InvalidSettingMessage))
  }

  /** handleWindow: the action setting, "accept" when it is missing. */
  function AfterHandle(v: WindowValue, settings: Settings): HandleResult {
    Handled(v, settings.GetString(ActionSetting, Accept))
  }

  /** Without the setting the dialog is accepted. */
  lemma DefaultIsAccept(v: WindowValue, settings: Settings)
    requires ActionSetting !in settings.strings
    ensures AfterHandle(v, settings) == Handled(v, "accept")
    ensures "OK" in v.buttons ==> AfterHandle(v, settings).window.clicks == v.clicks + ["OK"]
  {
    assert ToLowerAscii(Accept[0]) != ToLowerAscii(Manual[0]);
  }

  /** At most one button is clicked, and only one of the policy's: nothing
      for manual, OK if present else Yes for accept, No for reject, nothing
      with an error for anything else. Only the click log changes. */
  lemma ClickPolicy(v: WindowValue, action: string)
    ensures var r := Handled(v, action);
      && r.window == v.(clicks := r.window.clicks)
      && (EqualsIgnoreCase(action, Manual) ==> r == HandleResult(v, None))
      && (!EqualsIgnoreCase(action, Manual) && EqualsIgnoreCase(action, Accept) ==>
            r.window.clicks == v.clicks + (if "OK" in v.buttons then ["OK"]
                                           else if "Yes" in v.buttons then ["Yes"] else [])
            && (r.error.Some? <==> "OK" !in v.buttons && "Yes" !in v.buttons))
      && (!EqualsIgnoreCase(action, Manual) && !EqualsIgnoreCase(action, Accept) && EqualsIgnoreCase(action, Reject) ==>
            r.window.clicks == v.clicks + (if "No" in v.buttons then ["No"] else [])
            && (r.error.Some? <==> "No" !in v.buttons))
      && (!EqualsIgnoreCase(action, Manual) && !EqualsIgnoreCase(action, Accept) && !EqualsIgnoreCase(action, Reject) ==>
            r == HandleResult(v, Some(InvalidSettingMessage)))
  {
  }

  /** Two actions that are equal ignoring case are handled alike. */
  lemma CaseIsIgnored(v: WindowValue, action: string, other: string)
    requires EqualsIgnoreCase(action, other)
    ensures Handled(v, action) == Handled(v, other)
  {
    EqualsIgnoreCaseSymmetric(action, other);
    forall w | w == Manual || w == Accept || w == Reject
      ensures EqualsIgnoreCase(action, w) <==> EqualsIgnoreCase(other, w)
    {
      if EqualsIgnoreCase(action, w) {
        EqualsIgnoreCaseTransitive(other, action, w);
      }
      if EqualsIgnoreCase(other, w) {
        EqualsIgnoreCaseTransitive(action, other, w);
      }
    }
  }

  /** Recognition does not look at the title. */
  lemma TitleIsIgnored(v: WindowValue, title: string)
    ensures RecogniseWindow(v.(title := title)) == RecogniseWindow(v)
  {
  }

  /** handleWindow, on the dialog. */
  method HandleWindow(window: Window, settings: Settings) returns (error: Option<string>)
    modifies window`clicks
    ensures HandleResult(window.State(), error) == AfterHandle(old(window.State()), settings)
  {
    var action := settings.GetString(ActionSetting, Accept);
    if EqualsIgnoreCase(action, Manual) {
      return None;
    }
    if EqualsIgnoreCase(action, Accept) {
      var ok := window.ClickButton("OK");
      if !ok {
        ok := window.ClickButton("Yes");
      }
      error := if ok then None else Some(MissingControlsMessage);
    } else if EqualsIgnoreCase(action, Reject) {
      var ok := window.ClickButton("No");
      error := if ok then None else Some(MissingControlsMessage);
    } else {
      error := Some(InvalidSettingMessage);
    }
  }
}
