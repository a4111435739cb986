/** The task that sets the API socket port and the "allow connections from
    localhost only" option in the TWS configuration dialog. */
module ConfigureTwsSettingsTask {
  import opened Util
  import opened Swing
  import opened ConfigDialog

  /** The localhost-only rule: with no allowExternalIps setting the check box
      is not looked at; otherwise it must exist, and it is set to the opposite
      of the setting when it does not already hold that. */
  function LocalhostOnlyStep(r: TaskResult, allowExternalIps: Option<bool>): TaskResult {
    if allowExternalIps.None? then r
    else if LocalhostOnlyCheckBox !in r.window.checkBoxes then r.(outcome := Failed(NoLocalhostOnlyMessage))
    else if r.window.checkBoxes[LocalhostOnlyCheckBox] == !allowExternalIps.value then r
    else r.(window := r.window.(checkBoxes := r.window.checkBoxes[LocalhostOnlyCheckBox := !allowExternalIps.value]))
  }

  /** After the localhost-only rule, only that check box can have changed,
      and it holds the opposite of allowExternalIps when that is given. */
  lemma LocalhostOnlyStepEffect(r: TaskResult, allowExternalIps: Option<bool>)
    ensures var q := LocalhostOnlyStep(r, allowExternalIps);
      && (q.outcome == Configured <==>
            r.outcome == Configured && (allowExternalIps.Some? ==> LocalhostOnlyCheckBox in r.window.checkBoxes))
      && q.window == r.window.(checkBoxes := q.window.checkBoxes)
      && q.confirmationExpected == r.confirmationExpected
      && (allowExternalIps.None? ==> q.window.checkBoxes == r.window.checkBoxes)
      && (allowExternalIps.Some? && LocalhostOnlyCheckBox in r.window.checkBoxes ==>
            q.window.checkBoxes == r.window.checkBoxes[LocalhostOnlyCheckBox := !allowExternalIps.value])
  {
  }

  /** configure: select the API section; find the socket-port component and
      its text field (required even for port 0); apply the port rule for a
      non-zero port; apply the localhost-only rule; click OK and hide. */
  function AfterConfigure(v: WindowValue, isGateway: bool, expected: bool, portNumber: Int32,
                      allowExternalIps: Option<bool>): TaskResult
  {
    var s := ApiSectionSelected(v);
    if s.port.NoPortComponent? then TaskResult(Failed(NoPortComponentMessage), s, expected)
    else if s.port.NoPortField? then TaskResult(Failed(NoPortFieldMessage), s, expected)
    else
      var p := if portNumber != 0 then PortStep(s, isGateway, expected, portNumber)
               else TaskResult(Configured, s, expected);
      if p.outcome != Configured then p
      else Finish(LocalhostOnlyStep(p, allowExternalIps))
  }

  /** A missing port component or field is an error even for port 0: only the
      section selection has happened; no OK click, dialog still shown. */
  lemma PortFieldRequired(v: WindowValue, isGateway: bool, expected: bool, portNumber: Int32,
                          allowExternalIps: Option<bool>)
    requires !v.port.PortField?
    ensures var r := AfterConfigure(v, isGateway, expected, portNumber, allowExternalIps);
      && r.outcome == Failed(if v.port.NoPortComponent? then NoPortComponentMessage else NoPortFieldMessage)
      && r.window == ApiSectionSelected(v)
      && r.confirmationExpected == expected
  {
  }

  /** Every failure leaves the dialog open and OK unclicked. */
  lemma FailureLeavesDialogOpen(v: WindowValue, isGateway: bool, expected: bool, portNumber: Int32,
                                allowExternalIps: Option<bool>)
    ensures var r := AfterConfigure(v, isGateway, expected, portNumber, allowExternalIps);
      r.outcome != Configured ==> r.window.clicks == v.clicks && r.window.visible == v.visible
  {
  }

  /** A successful run: OK clicked and dialog hidden; the port reads back as
      the requested one (or is untouched for port 0); localhost-only ends as
      the opposite of allowExternalIps, or is untouched without it; nothing
      else but the section selection changed. */
  lemma SuccessfulRun(v: WindowValue, isGateway: bool, expected: bool, portNumber: Int32,
                      allowExternalIps: Option<bool>)
    ensures var r := AfterConfigure(v, isGateway, expected, portNumber, allowExternalIps);
      r.outcome == Configured ==>
        && !r.window.visible
        && r.window.clicks == v.clicks + (if OkButton in v.buttons then [OkButton] else [])
        && r.window.port.PortField?
        && (portNumber == 0 ==> r.window.port == v.port)
        && (portNumber != 0 ==> ParseInt(r.window.port.text) == Some(portNumber))
        && (allowExternalIps.None? ==> r.window.checkBoxes == v.checkBoxes)
        && (allowExternalIps.Some? ==>
              r.window.checkBoxes == v.checkBoxes[LocalhostOnlyCheckBox := !allowExternalIps.value])
        && r.window == ApiSectionSelected(v).(port := r.window.port, checkBoxes := r.window.checkBoxes,
                                             clicks := r.window.clicks, visible := false)
  {
    var s := ApiSectionSelected(v);
    if s.port.PortField? {
      var p := if portNumber != 0 then PortStep(s, isGateway, expected, portNumber)
               else TaskResult(Configured, s, expected);
      if portNumber != 0 {
        PortStepEffect(s, isGateway, expected, portNumber);
      }
      if p.outcome == Configured {
        assert p.window == s.(port := p.window.port);
        LocalhostOnlyStepEffect(p, allowExternalIps);
      }
    }
  }

  /** A missing localhost-only check box is found only after the port has
      been rewritten: the run fails with the new port already in the field
      and OK unclicked. */
  lemma PartialEffect(v: WindowValue, isGateway: bool, expected: bool, portNumber: Int32, allow: bool)
    requires v.port.PortField? && portNumber != 0
    requires ParseInt(v.port.text).Some? && ParseInt(v.port.text).value != portNumber
    requires isGateway || ActiveXCheckBox in v.checkBoxes
    requires LocalhostOnlyCheckBox !in v.checkBoxes
    ensures var r := AfterConfigure(v, isGateway, expected, portNumber, Some(allow));
      && r.outcome == Failed(NoLocalhostOnlyMessage)
      && r.window.port == PortField(IntToString(portNumber as int))
      && r.window.clicks == v.clicks && r.window.visible == v.visible
  {
  }

  /** The confirmation flag is raised only by a port rewrite on TWS with
      Enable ActiveX selected, and never lowered. */
  lemma ConfirmationExpectedRule(v: WindowValue, isGateway: bool, expected: bool, portNumber: Int32,
                                 allowExternalIps: Option<bool>)
    ensures var r := AfterConfigure(v, isGateway, expected, portNumber, allowExternalIps);
      r.confirmationExpected <==>
        expected
        || (r.window.port != v.port && !isGateway
            && ActiveXCheckBox in v.checkBoxes && v.checkBoxes[ActiveXCheckBox])
  {
    var s := ApiSectionSelected(v);
    if s.port.PortField? && portNumber != 0 {
      PortStepOutcome(s, isGateway, expected, portNumber);
      PortStepEffect(s, isGateway, expected, portNumber);
    }
  }

  /** configure, on the dialog. */
  method Configure(dialog: Window, listener: ApiListener, isGateway: bool, portNumber: Int32,
                   allowExternalIps: Option<bool>) returns (outcome: TaskOutcome)
    modifies dialog, listener
    ensures TaskResult(outcome, dialog.State(), listener.confirmationExpected)
      == AfterConfigure(old(dialog.State()), isGateway, old(listener.confirmationExpected), portNumber, allowExternalIps)
  {
    SelectApiSection(dialog);
    if dialog.port.NoPortComponent? {
      return Failed(NoPortComponentMessage);
    }
    if dialog.port.NoPortField? {
      return Failed(NoPortFieldMessage);
    }
    if portNumber != 0 {
      outcome := ChangePort(dialog, listener, isGateway, portNumber);
      if outcome != Configured {
        return;
      }
    }
    if allowExternalIps.Some? {
      if LocalhostOnlyCheckBox !in dialog.checkBoxes {
        return Failed(NoLocalhostOnlyMessage);
      }
      if dialog.checkBoxes[LocalhostOnlyCheckBox] != !allowExternalIps.value {
        dialog.SetCheckBox(LocalhostOnlyCheckBox, !allowExternalIps.value);
      }
    }
    CloseDialog(dialog);
    outcome := Configured;
  }
}
