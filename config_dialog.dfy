/** What the configuration-dialog tasks share: the names of the widgets they
    look for, the outcome of a run, the listener flag that tells the window
    listener to expect an "API configuration changed" confirmation, the
    API section selection with its fallback, the socket-port rule, and the
    final OK click that closes the dialog. */
module ConfigDialog {
  import opened Util
  import opened Swing

  const ApiSettingsPath: seq<string> := ["API", "Settings"]
  const ApiPath: seq<string> := ["API"]
  const ActiveXCheckBox := "Enable ActiveX and Socket Clients"
  const ReadOnlyCheckBox := "Read-Only API"
  const LocalhostOnlyCheckBox := "Allow connections from localhost only"
  const OkButton := "OK"

  const NoPortComponentMessage := "could not find socket port component"
  const NoPortFieldMessage := "could not find socket port field"
  const NoActiveXMessage := "could not find Enable ActiveX checkbox"
  const NoReadOnlyMessage := "could not find Read-Only API checkbox"
  const NoLocalhostOnlyMessage := "could not find \"Allow connections from localhost only\" checkbox"

  /** How a configure call ends: normally (so far), with the message of the
      IBControllerException it caught, or with the NumberFormatException of
      a socket-port text that is not a number, which nothing catches. */
  datatype TaskOutcome = Configured | Failed(message: string) | PortNotANumber

  /** The outcome, the dialog, and the listener's confirmation flag. */
  datatype TaskResult = TaskResult(outcome: TaskOutcome, window: WindowValue, confirmationExpected: bool)

  /** The window listener's "API configuration change confirmation
      expected" flag. */
  class ApiListener {
    var confirmationExpected: bool

    constructor ()
      ensures !confirmationExpected
    {
      confirmationExpected := false;
    }
  }

  // ---------------------------------------------------------------------
  // Section selection
  // ---------------------------------------------------------------------

  /** Select API > Settings; older versions have no Settings node, and then
      API itself is selected. */
  function ApiSectionSelected(v: WindowValue): (r: WindowValue)
    ensures ApiSettingsPath in v.sections ==> r.selectedSection == ApiSettingsPath
    ensures ApiSettingsPath !in v.sections && ApiPath in v.sections ==> r.selectedSection == ApiPath
    ensures ApiSettingsPath !in v.sections && ApiPath !in v.sections ==> r == v
    ensures r == v.(selectedSection := r.selectedSection)
  {
    if ApiSettingsPath in v.sections then v.Select(ApiSettingsPath) else v.Select(ApiPath)
  }

  method SelectApiSection(dialog: Window)
    modifies dialog`selectedSection
    ensures dialog.State() == ApiSectionSelected(old(dialog.State()))
  {
    var ok := dialog.SelectConfigSection(ApiSettingsPath);
    if !ok {
      ok := dialog.SelectConfigSection(ApiPath);
    }
  }

  // ---------------------------------------------------------------------
  // The socket port
  // ---------------------------------------------------------------------

  /** The port rule once the socket-port text field has been found: the
      current text is parsed; an equal port changes nothing; otherwise, on
      TWS (not the gateway) the Enable ActiveX check box must exist and, when
      it is selected, a confirmation is to be expected; then the field gets
      the decimal text of the new port. */
  function PortStep(v: WindowValue, isGateway: bool, expected: bool, portNumber: Int32): TaskResult
    requires v.port.PortField?
  {
    match ParseInt(v.port.text)
    case None => TaskResult(PortNotANumber, v, expected)
    case Some(current) =>
      if current == portNumber then TaskResult(Configured, v, expected)
      else if !isGateway && ActiveXCheckBox !in v.checkBoxes then TaskResult(Failed(NoActiveXMessage), v, expected)
      else
        TaskResult(Configured, v.(port := PortField(IntToString(portNumber as int))),
          expected || (!isGateway && v.checkBoxes[ActiveXCheckBox]))
  }

  /** The port rule including the lookups of the "Socket port" component and
      of its text field, each of which must succeed. */
  function PortConfigured(v: WindowValue, isGateway: bool, expected: bool, portNumber: Int32): TaskResult {
    if v.port.NoPortComponent? then TaskResult(Failed(NoPortComponentMessage), v, expected)
    else if v.port.NoPortField? then TaskResult(Failed(NoPortFieldMessage), v, expected)
    else PortStep(v, isGateway, expected, portNumber)
  }

  /** The port rule as the later tasks apply it: only for a non-zero port,
      lookups included. */
  function PortIfNonZero(v: WindowValue, isGateway: bool, expected: bool, portNumber: Int32): TaskResult {
    if portNumber != 0 then PortConfigured(v, isGateway, expected, portNumber)
    else TaskResult(Configured, v, expected)
  }

  /** PortIfNonZero changes the port field and nothing else of the dialog;
      a failure changes nothing at all; port 0 does nothing. */
  lemma PortIfNonZeroEffect(v: WindowValue, isGateway: bool, expected: bool, portNumber: Int32)
    ensures var r := PortIfNonZero(v, isGateway, expected, portNumber);
      && r.window == v.(port := r.window.port)
      && (r.outcome != Configured ==> r.window == v && r.confirmationExpected == expected)
      && (portNumber == 0 ==> r == TaskResult(Configured, v, expected))
      && (portNumber != 0 && r.outcome == Configured ==>
            r.window.port.PortField? && ParseInt(r.window.port.text) == Some(portNumber))
  {
    if portNumber != 0 && v.port.PortField? {
      PortStepOutcome(v, isGateway, expected, portNumber);
      PortStepEffect(v, isGateway, expected, portNumber);
    }
  }

  /** When the port step fails, and how. */
  lemma PortStepOutcome(v: WindowValue, isGateway: bool, expected: bool, portNumber: Int32)
    requires v.port.PortField?
    ensures var r := PortStep(v, isGateway, expected, portNumber);
      && (r.outcome == PortNotANumber <==> ParseInt(v.port.text).None?)
      && (r.outcome.Failed? <==>
            ParseInt(v.port.text).Some? && ParseInt(v.port.text).value != portNumber
            && !isGateway && ActiveXCheckBox !in v.checkBoxes)
      && (r.outcome.Failed? ==> r.outcome.message == NoActiveXMessage)
      && (r.outcome != Configured ==> r.window == v && r.confirmationExpected == expected)
  {
  }

  /** What a successful port step leaves behind: the field reads back as the
      requested port; it was rewritten exactly when it did not already read
      so; nothing but the port changed; and the confirmation flag was raised
      only by a rewrite on TWS with Enable ActiveX selected. */
  lemma PortStepEffect(v: WindowValue, isGateway: bool, expected: bool, portNumber: Int32)
    requires v.port.PortField?
    ensures var r := PortStep(v, isGateway, expected, portNumber);
      r.outcome == Configured ==>
        && r.window.port.PortField?
        && ParseInt(r.window.port.text) == Some(portNumber)
        && (r.window.port == v.port <==> ParseInt(v.port.text) == Some(portNumber))
        && r.window == v.(port := r.window.port)
        && (r.confirmationExpected <==>
              expected
              || (r.window.port != v.port && !isGateway
                  && ActiveXCheckBox in v.checkBoxes && v.checkBoxes[ActiveXCheckBox]))
  {
    IntToStringRoundTrip(portNumber);
  }

  /** The port step on the dialog itself. */
  method ChangePort(dialog: Window, listener: ApiListener, isGateway: bool, portNumber: Int32)
    returns (outcome: TaskOutcome)
    requires dialog.port.PortField?
    modifies dialog`port, listener
    ensures TaskResult(outcome, dialog.State(), listener.confirmationExpected)
      == PortStep(old(dialog.State()), isGateway, old(listener.confirmationExpected), portNumber)
  {
    var current := ParseInt(dialog.port.text);
    if current.None? {
      return PortNotANumber;
    }
    if current.value != portNumber {
      if !isGateway {
        if ActiveXCheckBox !in dialog.checkBoxes {
          return Failed(NoActiveXMessage);
        }
        if dialog.checkBoxes[ActiveXCheckBox] {
          listener.confirmationExpected := true;
        }
      }
      dialog.SetPortText(IntToString(portNumber as int));
    }
    outcome := Configured;
  }

  /** ChangePort preceded by the two lookups. */
  method ConfigurePort(dialog: Window, listener: ApiListener, isGateway: bool, portNumber: Int32)
    returns (outcome: TaskOutcome)
    modifies dialog`port, listener
    ensures TaskResult(outcome, dialog.State(), listener.confirmationExpected)
      == PortConfigured(old(dialog.State()), isGateway, old(listener.confirmationExpected), portNumber)
  {
    if dialog.port.NoPortComponent? {
      return Failed(NoPortComponentMessage);
    }
    if dialog.port.NoPortField? {
      return Failed(NoPortFieldMessage);
    }
    outcome := ChangePort(dialog, listener, isGateway, portNumber);
  }

  // ---------------------------------------------------------------------
  // Closing the dialog
  // ---------------------------------------------------------------------

  /** The dialog after clickButton "OK" and setVisible(false). */
  function Closed(v: WindowValue): (r: WindowValue)
    ensures !r.visible
    ensures r.clicks == v.clicks + (if OkButton in v.buttons then [OkButton] else [])
    ensures r == v.(clicks := r.clicks, visible := false)
  {
    v.Click(OkButton).(visible := false)
  }

  /** A run that has not failed ends by clicking OK and hiding the dialog;
      a failed one leaves the dialog as it is. */
  function Finish(r: TaskResult): TaskResult {
    if r.outcome == Configured then r.(window := Closed(r.window)) else r
  }

  method CloseDialog(dialog: Window)
    modifies dialog`clicks, dialog`visible
    ensures dialog.State() == Closed(old(dialog.State()))
  {
    var _ := dialog.ClickButton(OkButton);
    dialog.SetVisible(false);
  }
}
