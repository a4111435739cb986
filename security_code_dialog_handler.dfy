/** The handler for the security-code dialog: when ReadOnlyLogin is set it
    chooses the read-only login instead of asking for a code. */
module SecurityCodeDialogHandler {
  import opened Util
  import opened Swing

  const ReadOnlyLoginSetting := "ReadOnlyLogin"
  const EnterReadOnlyButton := "Enter Read Only"
  const NoReadOnlyLoginMessage := "could not initiate read-only login."

  predicate FilterEvent(e: WindowEvent) {
    e == WindowOpened
  }

  /** A dialog with the label "Enter security code". */
  predicate RecogniseWindow(v: WindowValue) {
    v.kind == JDialog && "Enter security code" in v.labels
  }

  /** handleWindow: nothing unless ReadOnlyLogin (default false) holds; then
      click "Enter Read Only", logging an error when it is missing. */
  function AfterHandle(v: WindowValue, settings: Settings): HandleResult {
    if !settings.GetBoolean(ReadOnlyLoginSetting, false) then HandleResult(v, None)
    else if EnterReadOnlyButton in v.buttons then HandleResult(v.Click(EnterReadOnlyButton), None)
    else HandleResult(v, Some(NoReadOnlyLoginMessage))
  }

  /** Without ReadOnlyLogin nothing happens; with it, "Enter Read Only" is the
      only button ever clicked, and its absence only logs an error. */
  lemma ReadOnlyLoginRule(v: WindowValue, settings: Settings)
    ensures var r := AfterHandle(v, settings);
      && (ReadOnlyLoginSetting !in settings.booleans ==> r == HandleResult(v, None))
      && r.window == v.(clicks := r.window.clicks)
      && r.window.clicks == v.clicks +
           (if settings.GetBoolean(ReadOnlyLoginSetting, false) && EnterReadOnlyButton in v.buttons
            then [EnterReadOnlyButton] else [])
      && (r.error.Some? <==> settings.GetBoolean(ReadOnlyLoginSetting, false) && EnterReadOnlyButton !in v.buttons)
  {
  }

  /** handleWindow, on the dialog. */
  method HandleWindow(window: Window, settings: Settings) returns (error: Option<string>)
    modifies window`clicks
    ensures HandleResult(window.State(), error) == AfterHandle(old(window.State()), settings)
  {
    if !settings.GetBoolean(ReadOnlyLoginSetting, false) {
      return None;
    }
    var ok := window.ClickButton(EnterReadOnlyButton);
    error := if ok then None else Some(NoReadOnlyLoginMessage);
  }
}
