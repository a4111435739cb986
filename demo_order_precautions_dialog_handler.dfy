/** The handler that dismisses the demo system's order-precautions dialog,
    when the DemoApiEnable setting asks for it. */
module DemoOrderPrecautionsDialogHandler {
  import opened Util
  import opened Swing

  const DontDisplayCheckBox := "Don't display this message again."
  const DemoApiEnableSetting := "DemoApiEnable"
  const Enable := "Enable"
  const Disable := "Disable"
  const DemoTitle := "IB TWS (Demo System)"
  const MissingControlsMessage := "could not close the order precautions window because we could not find one of the controls."

  predicate FilterEvent(e: WindowEvent) {
    e == WindowOpened
  }

  /** A dialog, with DemoApiEnable (default "Disable") equal to "Enable"
      ignoring case, whose title contains "IB TWS (Demo System)" and which
      has the "Don't display this message again." check box. */
  predicate RecogniseWindow(v: WindowValue, settings: Settings) {
    && v.kind == JDialog
    && EqualsIgnoreCase(settings.GetString(DemoApiEnableSetting, Disable), Enable)
    && Contains(v.title, DemoTitle)
    && DontDisplayCheckBox in v.checkBoxes
  }

  /** handleWindow: select the check box and, only if that worked, click OK;
      a failure of either logs an error. */
  function AfterHandle(v: WindowValue): HandleResult {
    if DontDisplayCheckBox !in v.checkBoxes then HandleResult(v, Some(MissingControlsMessage))
    else
      var s := v.(checkBoxes := v.checkBoxes[DontDisplayCheckBox := true]);
      if "OK" in s.buttons then HandleResult(s.Click("OK"), None)
      else HandleResult(s, Some(MissingControlsMessage))
  }

  /** Without DemoApiEnable no window is recognised. */
  lemma DisabledByDefault(v: WindowValue, settings: Settings)
    requires DemoApiEnableSetting !in settings.strings
    ensures !RecogniseWindow(v, settings)
  {
    assert ToLowerAscii(Disable[0]) != ToLowerAscii(Enable[0]);
  }

  /** OK is clicked only after the check box has been selected; without the
      check box nothing happens but the error. */
  lemma OkOnlyAfterCheckBox(v: WindowValue)
    ensures var r := AfterHandle(v);
      && (DontDisplayCheckBox !in v.checkBoxes ==> r == HandleResult(v, Some(MissingControlsMessage)))
      && (DontDisplayCheckBox in v.checkBoxes ==>
            && r.window.checkBoxes == v.checkBoxes[DontDisplayCheckBox := true]
            && r.window.clicks == v.clicks + (if "OK" in v.buttons then ["OK"] else [])
            && (r.error.None? <==> "OK" in v.buttons))
      && r.window == v.(checkBoxes := r.window.checkBoxes, clicks := r.window.clicks)
  {
  }

  /** A recognised window is always handled without error when it has an
      OK button. */
  lemma RecognisedIsDismissed(v: WindowValue, settings: Settings)
    requires RecogniseWindow(v, settings) && "OK" in v.buttons
    ensures AfterHandle(v).error.None?
    ensures AfterHandle(v).window.checkBoxes[DontDisplayCheckBox]
  {
  }

  /** handleWindow, on the dialog. */
  method HandleWindow(window: Window) returns (error: Option<string>)
    modifies window`checkBoxes, window`clicks
    ensures HandleResult(window.State(), error) == AfterHandle(old(window.State()))
  {
    var ok := window.SetCheckBoxSelected(DontDisplayCheckBox, true);
    if ok {
      ok := window.ClickButton("OK");
    }
    error := if ok then None else Some(MissingControlsMessage);
  }
}
