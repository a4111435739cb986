/** The login-frame handler for IB Gateway 981: it recognises the frame,
    selects FIX or IB API mode and live or paper trading with toggle buttons,
    asks the user for a missing credential, fills in the credential fields,
    and clicks the login button. The credentials the login manager holds,
    the FIX setting and the trading mode are inputs. */
module Gateway981LoginFrameHandler {
  import opened Util
  import opened Swing

  const FixSetting := "FIX"
  const GatewayTitle := "Interactive Brokers Gateway"
  const LogInButton := "Log In"
  const PaperLogInButton := "Paper Log In"
  const FixToggle := "FIX CTCI"
  const IbApiToggle := "IB API"
  const LiveToggle := "Live Trading"
  const PaperToggle := "Paper Trading"

  /** The four credentials of the login manager. */
  datatype Credentials = Credentials(
    fixUserName: string, fixPassword: string, ibapiUserName: string, ibapiPassword: string)

  /** A frame whose title contains "Interactive Brokers Gateway", with a
      "Log In" or a "Paper Log In" button. */
  predicate RecogniseWindow(v: WindowValue) {
    v.kind == JFrame && Contains(v.title, GatewayTitle) && (LogInButton in v.buttons || PaperLogInButton in v.buttons)
  }

  // ---------------------------------------------------------------------
  // Missing credentials (preLogin)
  // ---------------------------------------------------------------------

  /** setMissingFIXCredentials: the field to ask for, if any. The FIX pair
      must be complete; the IB API pair is optional, but once either of it
      is given, both must be. */
  function MissingFixField(c: Credentials): Option<nat> {
    if |c.fixUserName| == 0 then Some(0)
    else if |c.fixPassword| == 0 then Some(1)
    else if |c.ibapiUserName| != 0 || |c.ibapiPassword| != 0 then
      if |c.ibapiUserName| == 0 then Some(3)
      else if |c.ibapiPassword| == 0 then Some(4)
      else None
    else None
  }

  /** setMissingIBAPICredentials: the field to ask for, if any. */
  function MissingIbApiField(c: Credentials): Option<nat> {
    if |c.ibapiUserName| == 0 then Some(0)
    else if |c.ibapiPassword| == 0 then Some(1)
    else None
  }

  function MissingField(c: Credentials, fix: bool): Option<nat> {
    if fix then MissingFixField(c) else MissingIbApiField(c)
  }

  /** In IB API mode: field 0 for a missing user name, else field 1 for a
      missing password, else ready. */
  lemma IbApiMissingFieldRule(c: Credentials)
    ensures MissingIbApiField(c) == Some(0) <==> c.ibapiUserName == ""
    ensures MissingIbApiField(c) == Some(1) <==> c.ibapiUserName != "" && c.ibapiPassword == ""
    ensures MissingIbApiField(c).None? <==> c.ibapiUserName != "" && c.ibapiPassword != ""
  {
  }

  /** In FIX mode: fields 0 and 1 for the FIX pair first; then, if either
      IB API credential is given, field 3 before field 4; ready when the FIX
      pair is complete and the IB API pair is complete or wholly empty. */
  lemma FixMissingFieldRule(c: Credentials)
    ensures var r := MissingFixField(c);
      && (r == Some(0) <==> c.fixUserName == "")
      && (r == Some(1) <==> c.fixUserName != "" && c.fixPassword == "")
      && (r == Some(3) <==> c.fixUserName != "" && c.fixPassword != "" && c.ibapiUserName == "" && c.ibapiPassword != "")
      && (r == Some(4) <==> c.fixUserName != "" && c.fixPassword != "" && c.ibapiUserName != "" && c.ibapiPassword == "")
      && (r.None? <==>
            c.fixUserName != "" && c.fixPassword != ""
            && (c.ibapiUserName == "" <==> c.ibapiPassword == ""))
      && (r.Some? ==> r.value == 0 || r.value == 1 || r.value == 3 || r.value == 4)
  {
  }

  /** preLogin: asks for at most one field, and is ready exactly when it
      asked for none. */
  method PreLogin(window: Window, settings: Settings, c: Credentials) returns (ready: bool)
    modifies window`prompts
    ensures ready == MissingField(c, settings.GetBoolean(FixSetting, false)).None?
    ensures var m := MissingField(c, settings.GetBoolean(FixSetting, false));
      window.State() == old(window.State()).(prompts := old(window.prompts) + (if m.Some? then [m.value] else []))
  {
    var missing := MissingField(c, settings.GetBoolean(FixSetting, false));
    if missing.Some? {
      window.PromptField(missing.value);
    }
    ready := missing.None?;
  }

  // ---------------------------------------------------------------------
  // Filling in the fields (setFields)
  // ---------------------------------------------------------------------

  /** The credential fields after setFields: FIX user name, FIX password,
      IB API user name and password in fields 0, 1, 3, 4 in FIX mode; the
      IB API pair in fields 0 and 1 otherwise. */
  function FieldsWritten(fields: map<nat, string>, c: Credentials, fix: bool): map<nat, string> {
    if fix then fields[0 := c.fixUserName][1 := c.fixPassword][3 := c.ibapiUserName][4 := c.ibapiPassword]
    else fields[0 := c.ibapiUserName][1 := c.ibapiPassword]
  }

  /** The field preLogin asks for is one that setFields leaves empty; with
      nothing to ask for, fields 0 and 1 are filled in. */
  lemma PromptedFieldIsEmpty(fields: map<nat, string>, c: Credentials, fix: bool)
    ensures var m := MissingField(c, fix);
      var w := FieldsWritten(fields, c, fix);
      && (m.Some? ==> m.value in w && w[m.value] == "")
      && (m.None? ==> w[0] != "" && w[1] != "")
  {
  }

  /** setFields writes only the credential fields, the FIX ones going first
      in FIX mode; it always returns true. */
  lemma FieldsWrittenRule(fields: map<nat, string>, c: Credentials, fix: bool)
    ensures var w := FieldsWritten(fields, c, fix);
      && w.Keys == fields.Keys + (if fix then {0, 1, 3, 4} else {0, 1})
      && w[0] == (if fix then c.fixUserName else c.ibapiUserName)
      && w[1] == (if fix then c.fixPassword else c.ibapiPassword)
      && (fix ==> w[3] == c.ibapiUserName && w[4] == c.ibapiPassword)
      && (forall i :: i in fields && i != 0 && i != 1 && (fix ==> i != 3 && i != 4) ==> w[i] == fields[i])
  {
  }

  method SetFields(window: Window, settings: Settings, c: Credentials) returns (result: bool)
    modifies window`fields
    ensures result
    ensures window.State() == old(window.State()).(fields := FieldsWritten(old(window.fields), c, settings.GetBoolean(FixSetting, false)))
  {
    if settings.GetBoolean(FixSetting, false) {
      window.SetField(0, c.fixUserName);
      window.SetField(1, c.fixPassword);
      window.SetField(3, c.ibapiUserName);
      window.SetField(4, c.ibapiPassword);
    } else {
      window.SetField(0, c.ibapiUserName);
      window.SetField(1, c.ibapiPassword);
    }
    result := true;
  }

  // ---------------------------------------------------------------------
  // Logging in (doLogin)
  // ---------------------------------------------------------------------

  /** "Log In" when the frame has it, otherwise "Paper Log In" (whether or
      not that exists). */
  function LoginButtonTitle(v: WindowValue): (r: string)
    ensures r == LogInButton || r == PaperLogInButton
    ensures r == LogInButton <==> LogInButton in v.buttons
  {
    if LogInButton in v.buttons then LogInButton else PaperLogInButton
  }

  /** doLogin never fails; it makes at most one click, on "Log In" when the
      frame has it, on "Paper Log In" otherwise, and none when neither is
      there. */
  lemma DoLoginRule(v: WindowValue)
    ensures var r := v.Click(LoginButtonTitle(v));
      && r == v.(clicks := r.clicks)
      && r.clicks == v.clicks + (if LogInButton in v.buttons then [LogInButton]
                                 else if PaperLogInButton in v.buttons then [PaperLogInButton] else [])
  {
  }

  /** doLogin; the click, which the source defers to the GUI thread, is made
      at once. */
  method DoLogin(window: Window)
    modifies window`clicks
    ensures window.State() == old(window.State()).Click(LoginButtonTitle(old(window.State())))
  {
    var title := if LogInButton in window.buttons then LogInButton else PaperLogInButton;
    var _ := window.ClickButton(title);
  }

  // ---------------------------------------------------------------------
  // Toggle buttons (initialise)
  // ---------------------------------------------------------------------

  /** switchTo...: a missing toggle raises an exception named after it; an
      unselected one is clicked. */
  function Switched(v: WindowValue, toggle: string): HandleResult {
    if toggle !in v.toggles then HandleResult(v, Some(toggle + " toggle button"))
    else if !v.toggles[toggle] then HandleResult(v.FlipToggle(toggle), None)
    else HandleResult(v, None)
  }

  /** Afterwards the toggle is selected, having been clicked exactly when it
      was not; a missing one changes nothing and names itself. */
  lemma SwitchedSelectsToggle(v: WindowValue, toggle: string)
    ensures var r := Switched(v, toggle);
      && (r.error.None? <==> toggle in v.toggles)
      && (r.error.Some? ==> r.window == v && r.error.value == toggle + " toggle button")
      && (r.error.None? ==>
            && r.window.toggles == v.toggles[toggle := true]
            && r.window.clicks == v.clicks + (if v.toggles[toggle] then [] else [toggle])
            && r.window == v.(toggles := r.window.toggles, clicks := r.window.clicks))
  {
  }

  /** Switching twice is switching once. */
  lemma SwitchedIdempotent(v: WindowValue, toggle: string)
    ensures Switched(Switched(v, toggle).window, toggle) == HandleResult(Switched(v, toggle).window, Switched(v, toggle).error)
  {
  }

  method SwitchTo(window: Window, toggle: string) returns (error: Option<string>)
    modifies window`toggles, window`clicks
    ensures HandleResult(window.State(), error) == Switched(old(window.State()), toggle)
  {
    if toggle !in window.toggles {
      return Some(toggle + " toggle button");
    }
    if !window.toggles[toggle] {
      window.ClickToggle(toggle);
    }
    error := None;
  }

  /** selectGatewayMode: FIX CTCI when the FIX setting holds, IB API
      otherwise. */
  function GatewayModeToggle(fix: bool): string {
    if fix then FixToggle else IbApiToggle
  }

  /** selectTradingMode: Live Trading exactly when the trading mode equals
      the live mode name ignoring case, Paper Trading otherwise. */
  function TradingModeToggle(tradingMode: string, liveMode: string): (r: string)
    ensures r == LiveToggle <==> EqualsIgnoreCase(tradingMode, liveMode)
    ensures r == LiveToggle || r == PaperToggle
  {
    if EqualsIgnoreCase(tradingMode, liveMode) then LiveToggle else PaperToggle
  }

  /** initialise: the gateway-mode toggle, then (unless that failed) the
      trading-mode toggle. */
  function Initialised(v: WindowValue, fix: bool, tradingMode: string, liveMode: string): HandleResult {
    var m := Switched(v, GatewayModeToggle(fix));
    if m.error.Some? then m else Switched(m.window, TradingModeToggle(tradingMode, liveMode))
  }

  /** After a successful initialise both chosen toggles are selected; a
      failure names the first missing toggle. */
  lemma InitialisedSelectsModes(v: WindowValue, fix: bool, tradingMode: string, liveMode: string)
    ensures var r := Initialised(v, fix, tradingMode, liveMode);
      var g := GatewayModeToggle(fix);
      var t := TradingModeToggle(tradingMode, liveMode);
      && (r.error.None? <==> g in v.toggles && t in v.toggles)
      && (r.error.None? ==> r.window.toggles[g] && r.window.toggles[t])
      && (g !in v.toggles ==> r == HandleResult(v, Some(g + " toggle button")))
  {
    SwitchedSelectsToggle(v, GatewayModeToggle(fix));
    SwitchedSelectsToggle(Switched(v, GatewayModeToggle(fix)).window, TradingModeToggle(tradingMode, liveMode));
  }

  /** initialise, on the frame: returns true, or the exception message. */
  method Initialise(window: Window, settings: Settings, tradingMode: string, liveMode: string)
    returns (error: Option<string>)
    modifies window`toggles, window`clicks
    ensures HandleResult(window.State(), error)
      == Initialised(old(window.State()), settings.GetBoolean(FixSetting, false), tradingMode, liveMode)
  {
    var fix := settings.GetBoolean(FixSetting, false);
    error := SwitchTo(window, if fix then FixToggle else IbApiToggle);
    if error.Some? {
      return;
    }
    var live := EqualsIgnoreCase(tradingMode, liveMode);
    error := SwitchTo(window, if live then LiveToggle else PaperToggle);
  }
}
