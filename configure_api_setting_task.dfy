/** The task that sets the API socket port and the Read-Only API option from
    a boolean. */
module ConfigureApiSettingTask {
  import opened Util
  import opened Swing
  import opened ConfigDialog

  /** The Read-Only API selection rule: the box stays selected when it was
      selected and readOnlyApi holds; in every other case it is unselected. */
  function ReadOnlySelected(wasSelected: bool, readOnlyApi: bool): bool {
    wasSelected && readOnlyApi
  }

  /** configure: select the API section; for a non-zero port, find the
      socket-port component and field and apply the port rule; require the
      Read-Only API check box and apply the selection rule; click OK and
      hide. */
  function AfterConfigure(v: WindowValue, isGateway: bool, expected: bool, apiPort: Int32,
                          readOnlyApi: bool): TaskResult
  {
    var s := ApiSectionSelected(v);
    var p := PortIfNonZero(s, isGateway, expected, apiPort);
    if p.outcome != Configured then p
    else if ReadOnlyCheckBox !in p.window.checkBoxes then p.(outcome := Failed(NoReadOnlyMessage))
    else
      var cbs := p.window.checkBoxes;
      Finish(p.(window := p.window.(checkBoxes :=
        cbs[ReadOnlyCheckBox := ReadOnlySelected(cbs[ReadOnlyCheckBox], readOnlyApi)])))
  }

  /** The Read-Only API check box is always required, whatever the port;
      without it the run does not succeed: OK stays unclicked and the dialog
      shown. */
  lemma ReadOnlyBoxRequired(v: WindowValue, isGateway: bool, expected: bool, apiPort: Int32, readOnlyApi: bool)
    requires ReadOnlyCheckBox !in v.checkBoxes
    ensures var r := AfterConfigure(v, isGateway, expected, apiPort, readOnlyApi);
      && r.outcome != Configured
      && (apiPort == 0 ==> r.outcome == Failed(NoReadOnlyMessage))
      && r.window.clicks == v.clicks && r.window.visible == v.visible
  {
    PortIfNonZeroEffect(ApiSectionSelected(v), isGateway, expected, apiPort);
  }

  /** After a successful run the box is selected exactly when it was
      selected before and readOnlyApi holds; so the task can clear the box
      but never select one that was clear. Only that box changes. */
  lemma ReadOnlyRule(v: WindowValue, isGateway: bool, expected: bool, apiPort: Int32, readOnlyApi: bool)
    ensures var r := AfterConfigure(v, isGateway, expected, apiPort, readOnlyApi);
      r.outcome == Configured ==>
        && ReadOnlyCheckBox in v.checkBoxes
        && r.window.checkBoxes == v.checkBoxes[ReadOnlyCheckBox := r.window.checkBoxes[ReadOnlyCheckBox]]
        && (r.window.checkBoxes[ReadOnlyCheckBox] <==> v.checkBoxes[ReadOnlyCheckBox] && readOnlyApi)
        && (readOnlyApi && !v.checkBoxes[ReadOnlyCheckBox] ==> !r.window.checkBoxes[ReadOnlyCheckBox])
  {
    PortIfNonZeroEffect(ApiSectionSelected(v), isGateway, expected, apiPort);
  }

  /** The port rule applies only for a non-zero port: port 0 leaves the
      field as it is; a non-zero port reads back from the field on success. */
  lemma PortRule(v: WindowValue, isGateway: bool, expected: bool, apiPort: Int32, readOnlyApi: bool)
    ensures var r := AfterConfigure(v, isGateway, expected, apiPort, readOnlyApi);
      && (apiPort == 0 ==> r.window.port == v.port && r.confirmationExpected == expected)
      && (apiPort != 0 && r.outcome == Configured ==>
            r.window.port.PortField? && ParseInt(r.window.port.text) == Some(apiPort))
  {
    PortIfNonZeroEffect(ApiSectionSelected(v), isGateway, expected, apiPort);
  }

  /** OK is clicked and the dialog hidden exactly on success. */
  lemma ClosedOnSuccessOnly(v: WindowValue, isGateway: bool, expected: bool, apiPort: Int32, readOnlyApi: bool)
    ensures var r := AfterConfigure(v, isGateway, expected, apiPort, readOnlyApi);
      && (r.outcome == Configured ==>
            !r.window.visible && r.window.clicks == v.clicks + (if OkButton in v.buttons then [OkButton] else []))
      && (r.outcome != Configured ==> r.window.visible == v.visible && r.window.clicks == v.clicks)
  {
    PortIfNonZeroEffect(ApiSectionSelected(v), isGateway, expected, apiPort);
  }

  /** configure, on the dialog. */
  method Configure(dialog: Window, listener: ApiListener, isGateway: bool, apiPort: Int32,
                   readOnlyApi: bool) returns (outcome: TaskOutcome)
    modifies dialog, listener
    ensures TaskResult(outcome, dialog.State(), listener.confirmationExpected)
      == AfterConfigure(old(dialog.State()), isGateway, old(listener.confirmationExpected), apiPort, readOnlyApi)
  {
    SelectApiSection(dialog);
    if apiPort != 0 {
      outcome := ConfigurePort(dialog, listener, isGateway, apiPort);
      if outcome != Configured {
        return;
      }
    }
    if ReadOnlyCheckBox !in dialog.checkBoxes {
      return Failed(NoReadOnlyMessage);
    }
    if dialog.checkBoxes[ReadOnlyCheckBox] && readOnlyApi {
      dialog.SetCheckBox(ReadOnlyCheckBox, true);
    } else {
      dialog.SetCheckBox(ReadOnlyCheckBox, false);
    }
    CloseDialog(dialog);
    outcome := Configured;
  }
}
