/** The task that sets the API socket port and the Read-Only API option from
    a "yes"/"no" text. */
module ConfigureTwsApiPortTask {
  import opened Util
  import opened Swing
  import opened ConfigDialog

  /** The Read-Only API check box under a "yes" or "no" text, compared
      case-sensitively; any other text leaves it as it is. */
  function ReadOnlyFromText(checkBoxes: map<string, bool>, text: string): (r: map<string, bool>)
    requires ReadOnlyCheckBox in checkBoxes
    ensures r.Keys == checkBoxes.Keys
    ensures forall name :: name in checkBoxes && name != ReadOnlyCheckBox ==> r[name] == checkBoxes[name]
    ensures r[ReadOnlyCheckBox] == (if text == "yes" then true else if text == "no" then false
                                    else checkBoxes[ReadOnlyCheckBox])
  {
    var afterYes := if text == "yes" then checkBoxes[ReadOnlyCheckBox := true] else checkBoxes;
    if text == "no" then afterYes[ReadOnlyCheckBox := false] else afterYes
  }

  /** configure: select the API section; for a non-zero port only, find the
      socket-port component and field and apply the port rule; for a given,
      non-empty read-only text, require the Read-Only API check box and apply
      the text; click OK and hide. */
  function AfterConfigure(v: WindowValue, isGateway: bool, expected: bool, portNumber: Int32,
                          readOnlyApi: Option<string>): TaskResult
  {
    var s := ApiSectionSelected(v);
    var p := PortIfNonZero(s, isGateway, expected, portNumber);
    if p.outcome != Configured then p
    else if readOnlyApi.None? || |readOnlyApi.value| == 0 then Finish(p)
    else if ReadOnlyCheckBox !in p.window.checkBoxes then p.(outcome := Failed(NoReadOnlyMessage))
    else
      Finish(p.(window := p.window.(checkBoxes := ReadOnlyFromText(p.window.checkBoxes, readOnlyApi.value))))
  }

  /** With port 0 the socket-port widgets are neither required nor touched. */
  lemma PortZeroUntouched(v: WindowValue, isGateway: bool, expected: bool, readOnlyApi: Option<string>)
    ensures var r := AfterConfigure(v, isGateway, expected, 0, readOnlyApi);
      && r.window.port == v.port
      && r.confirmationExpected == expected
      && (r.outcome == Configured <==>
            readOnlyApi.None? || |readOnlyApi.value| == 0 || ReadOnlyCheckBox in v.checkBoxes)
  {
  }

  /** A non-zero port: the field ends reading as that port on success; on
      TWS a rewrite needs Enable ActiveX. */
  lemma PortRule(v: WindowValue, isGateway: bool, expected: bool, portNumber: Int32, readOnlyApi: Option<string>)
    requires portNumber != 0
    ensures var r := AfterConfigure(v, isGateway, expected, portNumber, readOnlyApi);
      && (r.outcome == Configured ==> r.window.port.PortField? && ParseInt(r.window.port.text) == Some(portNumber))
      && (v.port.PortField? && ParseInt(v.port.text) == Some(portNumber) ==> r.window.port == v.port)
      && (v.port.PortField? && ParseInt(v.port.text).Some? && ParseInt(v.port.text).value != portNumber
          && !isGateway && ActiveXCheckBox !in v.checkBoxes ==>
            r.outcome == Failed(NoActiveXMessage) && r.window.port == v.port)
  {
    var s := ApiSectionSelected(v);
    if s.port.PortField? {
      PortStepOutcome(s, isGateway, expected, portNumber);
      PortStepEffect(s, isGateway, expected, portNumber);
    }
  }

  /** Without a read-only text (null or empty) no check box changes; with
      one, the Read-Only API box ends selected for "yes", unselected for
      "no", and unchanged otherwise. */
  lemma ReadOnlyRule(v: WindowValue, isGateway: bool, expected: bool, portNumber: Int32,
                     readOnlyApi: Option<string>)
    ensures var r := AfterConfigure(v, isGateway, expected, portNumber, readOnlyApi);
      && (readOnlyApi.None? || |readOnlyApi.value| == 0 ==> r.window.checkBoxes == v.checkBoxes)
      && (r.outcome == Configured && readOnlyApi.Some? && |readOnlyApi.value| > 0 ==>
            && ReadOnlyCheckBox in v.checkBoxes
            && r.window.checkBoxes == v.checkBoxes[ReadOnlyCheckBox :=
                 if readOnlyApi.value == "yes" then true
                 else if readOnlyApi.value == "no" then false
                 else v.checkBoxes[ReadOnlyCheckBox]])
  {
    PortIfNonZeroEffect(ApiSectionSelected(v), isGateway, expected, portNumber);
    var r := AfterConfigure(v, isGateway, expected, portNumber, readOnlyApi);
    if r.outcome == Configured && readOnlyApi.Some? && |readOnlyApi.value| > 0 {
      var m := v.checkBoxes[ReadOnlyCheckBox := r.window.checkBoxes[ReadOnlyCheckBox]];
      assert r.window.checkBoxes == m;
    }
  }

  /** OK is clicked and the dialog hidden exactly on success. */
  lemma ClosedOnSuccessOnly(v: WindowValue, isGateway: bool, expected: bool, portNumber: Int32,
                            readOnlyApi: Option<string>)
    ensures var r := AfterConfigure(v, isGateway, expected, portNumber, readOnlyApi);
      && (r.outcome == Configured ==>
            !r.window.visible && r.window.clicks == v.clicks + (if OkButton in v.buttons then [OkButton] else []))
      && (r.outcome != Configured ==> r.window.visible == v.visible && r.window.clicks == v.clicks)
  {
    PortIfNonZeroEffect(ApiSectionSelected(v), isGateway, expected, portNumber);
  }

  /** configure, on the dialog. */
  method Configure(dialog: Window, listener: ApiListener, isGateway: bool, portNumber: Int32,
                   readOnlyApi: Option<string>) returns (outcome: TaskOutcome)
    modifies dialog, listener
    ensures TaskResult(outcome, dialog.State(), listener.confirmationExpected)
      == AfterConfigure(old(dialog.State()), isGateway, old(listener.confirmationExpected), portNumber, readOnlyApi)
  {
    SelectApiSection(dialog);
    if portNumber != 0 {
      outcome := ConfigurePort(dialog, listener, isGateway, portNumber);
      if outcome != Configured {
        return;
      }
    }
    if readOnlyApi.Some? && |readOnlyApi.value| > 0 {
      if ReadOnlyCheckBox !in dialog.checkBoxes {
        return Failed(NoReadOnlyMessage);
      }
      if readOnlyApi.value == "yes" {
        dialog.SetCheckBox(ReadOnlyCheckBox, true);
      }
      if readOnlyApi.value == "no" {
        dialog.SetCheckBox(ReadOnlyCheckBox, false);
      }
    }
    CloseDialog(dialog);
    outcome := Configured;
  }
}
