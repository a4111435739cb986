/** The start-up rules of the controller: which argument counts it accepts,
    where its .ini file is, the operating-system user name made safe for a
    file name, where the TWS / IB API and FIX credentials come from, when the
    scheduled shutdown falls, the parameters of the TWS settings task, and
    the fixed list of window handlers. Settings, the user name, the working
    directory, the clock and the password decryption are inputs. */
module IBController {
  import opened Util
  import Gateway981LoginFrameHandler

  // ---------------------------------------------------------------------
  // Arguments
  // ---------------------------------------------------------------------

  datatype ArgumentsDecision = Proceed | Exit(code: int)

  /** checkArguments: two arguments are the "encrypt" command (exit 0, after
      printing the encrypted text) or an error (exit 1); four, or more than
      five, are an error; every other count proceeds. */
  function CheckArguments(args: seq<string>): ArgumentsDecision {
    if |args| == 2 then
      if EqualsIgnoreCase(args[0], "encrypt") then Exit(0) else Exit(1)
    else if |args| == 4 || |args| > 5 then Exit(1)
    else Proceed
  }

  /** The accepted counts are exactly 0, 1, 3 and 5; exit 0 is exactly the
      two-argument "encrypt" command (in any case); every other exit is 1. */
  lemma CheckArgumentsRule(args: seq<string>)
    ensures CheckArguments(args) == Proceed <==> |args| == 0 || |args| == 1 || |args| == 3 || |args| == 5
    ensures CheckArguments(args) == Exit(0) <==> |args| == 2 && EqualsIgnoreCase(args[0], "encrypt")
    ensures CheckArguments(args).Exit? ==> CheckArguments(args).code == 0 || CheckArguments(args).code == 1
  {
  }

  // ---------------------------------------------------------------------
  // The operating-system user name
  // ---------------------------------------------------------------------

  /** The character getComputerUserName puts in place of c. */
  function SanitisedChar(c: char): char {
    if ('a' <= c <= 'z') || ('0' <= c <= '9') then c
    else if 'A' <= c <= 'Z' then ToLowerAscii(c)
    else '_'
  }

  predicate IsFileNameChar(c: char) {
    ('a' <= c <= 'z') || ('0' <= c <= '9') || c == '_'
  }

  /** The user name with every character replaced by its sanitised one. */
  function Sanitised(s: string): string
    decreases |s|
  {
    if s == [] then [] else [SanitisedChar(s[0])] + Sanitised(s[1..])
  }

  lemma {:induction false} SanitisedPointwise(s: string)
    ensures |Sanitised(s)| == |s|
    ensures forall j :: 0 <= j < |s| ==> Sanitised(s)[j] == SanitisedChar(s[j])
    decreases |s|
  {
    if s != [] {
      SanitisedPointwise(s[1..]);
      assert forall j :: 1 <= j < |s| ==> Sanitised(s)[j] == Sanitised(s[1..])[j - 1];
    }
  }

  /** The length is kept; a-z and 0-9 are kept; A-Z become lower case; every
      other character becomes '_'; so only a-z, 0-9 and '_' remain. */
  lemma SanitisedRule(s: string)
    ensures |Sanitised(s)| == |s|
    ensures forall j :: 0 <= j < |s| && (('a' <= s[j] <= 'z') || ('0' <= s[j] <= '9')) ==> Sanitised(s)[j] == s[j]
    ensures forall j :: 0 <= j < |s| && 'A' <= s[j] <= 'Z' ==> Sanitised(s)[j] == (s[j] as int + 32) as char
    ensures forall j :: 0 <= j < |s| && !IsFileNameChar(s[j]) && !('A' <= s[j] <= 'Z') ==> Sanitised(s)[j] == '_'
    ensures forall j :: 0 <= j < |s| ==> IsFileNameChar(Sanitised(s)[j])
  {
    SanitisedPointwise(s);
  }

  /** Sanitising is idempotent, and its fixed points are exactly the names
      made of a-z, 0-9 and '_'. */
  lemma SanitisedIdempotent(s: string)
    ensures Sanitised(Sanitised(s)) == Sanitised(s)
    ensures Sanitised(s) == s <==> forall j :: 0 <= j < |s| ==> IsFileNameChar(s[j])
  {
    SanitisedPointwise(s);
    SanitisedPointwise(Sanitised(s));
    if Sanitised(s) == s {
      assert forall j :: 0 <= j < |s| ==> IsFileNameChar(Sanitised(s)[j]);
    }
  }

  /** getComputerUserName, applied to the user.name property: the builder is
      rewritten in place, one character at a time. */
  method GetComputerUserName(userName: string) returns (r: string)
    ensures r == Sanitised(userName)
  {
    var sb := new char[|userName|](i requires 0 <= i < |userName| => userName[i]);
    for i := 0 to sb.Length
      invariant forall j :: 0 <= j < i ==> sb[j] == SanitisedChar(userName[j])
      invariant forall j :: i <= j < sb.Length ==> sb[j] == userName[j]
    {
      var c := sb[i];
      if ('a' <= c <= 'z') || ('0' <= c <= '9') {
        continue;
      }
      if 'A' <= c <= 'Z' {
        sb[i] := ToLowerAscii(c);
      } else {
        sb[i] := '_';
      }
    }
    r := sb[..];
    SanitisedPointwise(userName);
  }

  // ---------------------------------------------------------------------
  // The .ini file
  // ---------------------------------------------------------------------

  /** The path getSettings loads: IBController.<user>.ini in the working
      directory (which ends with the file separator) when there are no
      arguments or the first is exactly "NULL"; the first argument
      otherwise. */
  function IniPath(args: seq<string>, workingDirectory: string, userName: string): string {
    if |args| == 0 || args[0] == "NULL" then workingDirectory + "IBController." + Sanitised(userName) + ".ini"
    else args[0]
  }

  lemma IniPathRule(args: seq<string>, workingDirectory: string, userName: string)
    ensures |args| > 0 && args[0] != "NULL" ==> IniPath(args, workingDirectory, userName) == args[0]
    ensures |args| == 0 || args[0] == "NULL" ==>
      var p := IniPath(args, workingDirectory, userName);
      && p[..|workingDirectory|] == workingDirectory
      && p[|workingDirectory|..|workingDirectory| + 13] == "IBController."
      && p[|p| - 4..] == ".ini"
      && p[|workingDirectory| + 13..|p| - 4] == Sanitised(userName)
      && forall j :: |workingDirectory| + 13 <= j < |p| - 4 ==> IsFileNameChar(p[j])
  {
    SanitisedRule(userName);
    if |args| == 0 || args[0] == "NULL" {
      var p := IniPath(args, workingDirectory, userName);
      assert forall j :: |workingDirectory| + 13 <= j < |p| - 4 ==> p[j] == Sanitised(userName)[j - |workingDirectory| - 13];
    }
  }

  datatype SettingsOutcome = LoadSettings(iniPath: string) | IniFileMissing

  /** getSettings: a path that is not an existing file exits with code 1. */
  method GetSettings(args: seq<string>, workingDirectory: string, userName: string, isFile: string -> bool)
    returns (r: SettingsOutcome)
    ensures r == (if isFile(IniPath(args, workingDirectory, userName)) then LoadSettings(IniPath(args, workingDirectory, userName))
                  else IniFileMissing)
  {
    var iniPath: string;
    if |args| == 0 || args[0] == "NULL" {
      var user := GetComputerUserName(userName);
      iniPath := workingDirectory + "IBController." + user + ".ini";
    } else {
      iniPath := args[0];
    }
    if !isFile(iniPath) {
      return IniFileMissing;
    }
    r := LoadSettings(iniPath);
  }

  // ---------------------------------------------------------------------
  // Credentials
  // ---------------------------------------------------------------------

  /** A password from the settings: decrypted only when it is not empty and
      its "encrypted" flag (true by default) holds. */
  function PasswordFromProperties(settings: Settings, key: string, encryptedFlag: string,
                                  decrypt: string -> string): string
  {
    var password := settings.GetString(key, "");
    if |password| != 0 && settings.GetBoolean(encryptedFlag, true) then decrypt(password) else password
  }

  lemma PasswordRule(settings: Settings, key: string, encryptedFlag: string, decrypt: string -> string)
    ensures PasswordFromProperties(settings, key, encryptedFlag, decrypt) ==
      (if settings.GetString(key, "") != "" && settings.GetBoolean(encryptedFlag, true)
       then decrypt(settings.GetString(key, "")) else settings.GetString(key, ""))
    ensures key !in settings.strings ==> PasswordFromProperties(settings, key, encryptedFlag, decrypt) == ""
    ensures key in settings.strings && settings.strings[key] != "" && encryptedFlag !in settings.booleans ==>
      PasswordFromProperties(settings, key, encryptedFlag, decrypt) == decrypt(settings.strings[key])
    ensures settings.GetBoolean(encryptedFlag, true) == false ==>
      PasswordFromProperties(settings, key, encryptedFlag, decrypt) == settings.GetString(key, "")
  {
  }

  /** The TWS / IB API pair from the arguments: args[3], args[4] with FIX and
      five arguments; args[1], args[2] without FIX and three arguments. */
  function TwsCredentialsFromArguments(args: seq<string>, fix: bool): Option<(string, string)> {
    if fix then (if |args| == 5 then Some((args[3], args[4])) else None)
    else if |args| == 3 then Some((args[1], args[2]))
    else None
  }

  /** The FIX pair from the arguments: args[1], args[2] with three or five. */
  function FixCredentialsFromArguments(args: seq<string>): Option<(string, string)> {
    if |args| == 3 || |args| == 5 then Some((args[1], args[2])) else None
  }

  /** The four credentials the controller starts with. */
  function StartupCredentials(args: seq<string>, settings: Settings, decrypt: string -> string)
    : Gateway981LoginFrameHandler.Credentials
  {
    var fix := settings.GetBoolean("FIX", false);
    var tws := match TwsCredentialsFromArguments(args, fix)
      case Some(pair) => pair
      case None => (settings.GetString("IbLoginId", ""), PasswordFromProperties(settings, "IbPassword", "PasswordEncrypted", decrypt));
    var fixPair := match FixCredentialsFromArguments(args)
      case Some(pair) => pair
      case None => (settings.GetString("FIXLoginId", ""), PasswordFromProperties(settings, "FIXPassword", "FIXPasswordEncrypted", decrypt));
    Gateway981LoginFrameHandler.Credentials(fixPair.0, fixPair.1, tws.0, tws.1)
  }

  /** Where each pair comes from, by argument count and FIX setting. */
  lemma CredentialSources(args: seq<string>, settings: Settings, decrypt: string -> string)
    ensures var fix := settings.GetBoolean("FIX", false);
      var c := StartupCredentials(args, settings, decrypt);
      && ((fix && |args| == 5) || (!fix && |args| == 3) ==>
            (c.ibapiUserName, c.ibapiPassword) == (if fix then (args[3], args[4]) else (args[1], args[2])))
      && (!((fix && |args| == 5) || (!fix && |args| == 3)) ==>
            c.ibapiUserName == settings.GetString("IbLoginId", "")
            && c.ibapiPassword == PasswordFromProperties(settings, "IbPassword", "PasswordEncrypted", decrypt))
      && (|args| == 3 || |args| == 5 ==> c.fixUserName == args[1] && c.fixPassword == args[2])
      && (!(|args| == 3 || |args| == 5) ==>
            c.fixUserName == settings.GetString("FIXLoginId", "")
            && c.fixPassword == PasswordFromProperties(settings, "FIXPassword", "FIXPasswordEncrypted", decrypt))
  {
  }

  /** With FIX and three arguments the FIX pair comes from the arguments but
      the IB API pair from the settings; without FIX and three arguments
      args[1], args[2] serve as both pairs. */
  lemma ThreeArgumentCredentials(args: seq<string>, settings: Settings, decrypt: string -> string)
    requires |args| == 3
    ensures var c := StartupCredentials(args, settings, decrypt);
      && c.fixUserName == args[1] && c.fixPassword == args[2]
      && (settings.GetBoolean("FIX", false) ==>
            c.ibapiUserName == settings.GetString("IbLoginId", "")
            && c.ibapiPassword == PasswordFromProperties(settings, "IbPassword", "PasswordEncrypted", decrypt))
      && (!settings.GetBoolean("FIX", false) ==> c.ibapiUserName == args[1] && c.ibapiPassword == args[2])
  {
  }

  // ---------------------------------------------------------------------
  // The scheduled shutdown
  // ---------------------------------------------------------------------

  /** Times are whole minutes since a Sunday midnight, local time. */
  const MinutesPerDay: nat := 1440
  const MinutesPerWeek: nat := 7 * 1440

  /** Calendar.DAY_OF_WEEK: 1 for Sunday up to 7 for Saturday. */
  function DayOfWeek(t: nat): int {
    (t / MinutesPerDay) % 7 + 1
  }

  function MinuteOfDay(t: nat): nat {
    t % MinutesPerDay
  }

  /** The ClosedownAt setting once parsed ("Friday 22:00"). */
  datatype ClosedownAt = ClosedownAt(dayOfWeek: int, hour: int, minute: int)

  predicate ValidClosedownAt(c: ClosedownAt) {
    1 <= c.dayOfWeek <= 7 && 0 <= c.hour < 24 && 0 <= c.minute < 60
  }

  /** No ClosedownAt setting: no shutdown; one that does not parse: exit 1. */
  datatype Shutdown = NoShutdown | ShutdownAt(time: nat) | InvalidClosedownAt

  /** t is on the closedown weekday at the closedown time of day, after now
      and at most one week after it. */
  predicate IsNextShutdown(t: nat, now: nat, c: ClosedownAt) {
    now < t <= now + MinutesPerWeek && DayOfWeek(t) == c.dayOfWeek && MinuteOfDay(t) == c.hour * 60 + c.minute
  }

  lemma DayArithmetic(q: nat, m: nat)
    requires m < MinutesPerDay
    ensures (q * MinutesPerDay + m) / MinutesPerDay == q
    ensures MinuteOfDay(q * MinutesPerDay + m) == m
    ensures DayOfWeek(q * MinutesPerDay + m) == q % 7 + 1
  {
  }

  /** Two times a week apart or less that share weekday and time of day are
      the same, so the next shutdown is the only one in its week. */
  lemma NextShutdownIsUnique(t: nat, u: nat, now: nat, c: ClosedownAt)
    requires IsNextShutdown(t, now, c) && IsNextShutdown(u, now, c)
    ensures t == u
  {
    var qt, qu := t / MinutesPerDay, u / MinutesPerDay;
    DayArithmetic(qt, t % MinutesPerDay);
    DayArithmetic(qu, u % MinutesPerDay);
    assert t == qt * MinutesPerDay + c.hour * 60 + c.minute;
    assert u == qu * MinutesPerDay + c.hour * 60 + c.minute;
    assert -7 < qt - qu < 7;
    assert qt % 7 == qu % 7;
  }

  /** getShutdownTime: the Calendar is set to now, then to the closedown time
      of day, moved forward to the closedown weekday, and a week further when
      that is not after now. The ClosedownAt text and its parse are inputs. */
  method GetShutdownTime(closedownAt: string, parsed: Option<ClosedownAt>, now: nat) returns (r: Shutdown)
    requires parsed.Some? ==> ValidClosedownAt(parsed.value)
    ensures |closedownAt| == 0 ==> r == NoShutdown
    ensures |closedownAt| != 0 && parsed.None? ==> r == InvalidClosedownAt
    ensures |closedownAt| != 0 && parsed.Some? ==> r.ShutdownAt? && IsNextShutdown(r.time, now, parsed.value)
  {
    if |closedownAt| == 0 {
      return NoShutdown;
    }
    if parsed.None? {
      return InvalidClosedownAt;
    }
    var c := parsed.value;
    var m: nat := c.hour * 60 + c.minute;
    var q := now / MinutesPerDay;
    var cal: nat := now;
    cal := cal - cal % MinutesPerDay + m;
    assert cal == q * MinutesPerDay + m;
    DayArithmetic(q, m);
    var offset := (c.dayOfWeek + 7 - DayOfWeek(cal)) % 7;
    cal := cal + offset * MinutesPerDay;
    assert cal == (q + offset) * MinutesPerDay + m;
    DayArithmetic(q + offset, m);
    if !(cal > now) {
      assert offset == 0;
      cal := cal + 7 * MinutesPerDay;
      assert cal == (q + 7) * MinutesPerDay + m;
      DayArithmetic(q + 7, m);
    }
    r := ShutdownAt(cal);
  }

  // ---------------------------------------------------------------------
  // The TWS settings task
  // ---------------------------------------------------------------------

  /** The parameters startTwsOrGateway gives the TWS settings task: the
      ForceTwsApiPort setting (0 by default), and AllowExternalIps as a
      boolean (Boolean.valueOf: true exactly for "true" in any case) when the
      setting is present, none otherwise. */
  function TwsSettingsTaskArguments(settings: Settings): (Int32, Option<bool>) {
    (settings.GetInt("ForceTwsApiPort", 0),
     if "AllowExternalIps" in settings.strings then Some(EqualsIgnoreCase(settings.strings["AllowExternalIps"], "true"))
     else None)
  }

  lemma TwsSettingsTaskArgumentsRule(settings: Settings)
    ensures TwsSettingsTaskArguments(settings).0 == settings.GetInt("ForceTwsApiPort", 0)
    ensures "AllowExternalIps" in settings.strings ==>
      TwsSettingsTaskArguments(settings).1 == Some(EqualsIgnoreCase(settings.strings["AllowExternalIps"], "true"))
    ensures "ForceTwsApiPort" !in settings.ints ==> TwsSettingsTaskArguments(settings).0 == 0
    ensures "AllowExternalIps" !in settings.strings ==> TwsSettingsTaskArguments(settings).1.None?
    ensures settings.strings == map["AllowExternalIps" := "TRUE"] ==> TwsSettingsTaskArguments(settings).1 == Some(true)
    ensures settings.strings == map["AllowExternalIps" := "yes"] ==> TwsSettingsTaskArguments(settings).1 == Some(false)
  {
    assert ToLowerAscii("yes"[0]) != ToLowerAscii("true"[0]);
  }

  // ---------------------------------------------------------------------
  // Window handlers
  // ---------------------------------------------------------------------

  datatype HandlerName =
    | AcceptIncomingConnectionDialogHandler | BlindTradingWarningDialogHandler | ExitSessionFrameHandler
    | LoginFrameHandler | GatewayLoginFrameHandler | MainWindowFrameHandler | GatewayMainWindowFrameHandler
    | NewerVersionDialogHandler | NewerVersionFrameHandler | NotCurrentlyAvailableDialogHandler
    | TipOfTheDayDialogHandler | NSEComplianceFrameHandler | PasswordExpiryWarningFrameHandler
    | GlobalConfigurationDialogHandler | TradesFrameHandler | ExistingSessionDetectedDialogHandler
    | ApiChangeConfirmationDialogHandler | SplashFrameHandler | SecurityCodeDialogHandler | ReloginDialogHandler
    | Gateway981LoginFrameHandler | DemoOrderPrecautionsDialogHandler | SecondFactorAuthenticationHandler

  /** The handlers createWindowHandlers adds, in order. */
  const HandlerRegistry: seq<HandlerName> := [
    AcceptIncomingConnectionDialogHandler, BlindTradingWarningDialogHandler, ExitSessionFrameHandler,
    LoginFrameHandler, GatewayLoginFrameHandler, MainWindowFrameHandler, GatewayMainWindowFrameHandler,
    NewerVersionDialogHandler, NewerVersionFrameHandler, NotCurrentlyAvailableDialogHandler,
    TipOfTheDayDialogHandler, NSEComplianceFrameHandler, PasswordExpiryWarningFrameHandler,
    GlobalConfigurationDialogHandler, TradesFrameHandler, ExistingSessionDetectedDialogHandler,
    ApiChangeConfirmationDialogHandler, SplashFrameHandler, SecurityCodeDialogHandler, ReloginDialogHandler]

  /** Twenty handlers, none twice, from the incoming-connection handler to the
      relogin handler; the Gateway 981 login, demo order-precautions and
      second-factor handlers are not among them. */
  lemma HandlerRegistryShape()
    ensures |HandlerRegistry| == 20
    ensures HandlerRegistry[0] == AcceptIncomingConnectionDialogHandler
    ensures HandlerRegistry[19] == ReloginDialogHandler
    ensures forall i, j :: 0 <= i < j < |HandlerRegistry| ==> HandlerRegistry[i] != HandlerRegistry[j]
    ensures Gateway981LoginFrameHandler !in HandlerRegistry
    ensures DemoOrderPrecautionsDialogHandler !in HandlerRegistry
    ensures SecondFactorAuthenticationHandler !in HandlerRegistry
  {
  }

  /** The controller's static state: the four credentials and the window
      handlers. */
  class IBController {
    var ibapiUserName: string
    var ibapiPassword: string
    var fixUserName: string
    var fixPassword: string
    var windowHandlers: seq<HandlerName>

    constructor ()
      ensures ibapiUserName == "" && ibapiPassword == "" && fixUserName == "" && fixPassword == ""
      ensures windowHandlers == []
    {
      ibapiUserName, ibapiPassword, fixUserName, fixPassword := "", "", "", "";
      windowHandlers := [];
    }

    function Credentials(): Gateway981LoginFrameHandler.Credentials
      reads this
    {
      Gateway981LoginFrameHandler.Credentials(fixUserName, fixPassword, ibapiUserName, ibapiPassword)
    }

    /** getTWSUserNameAndPasswordFromArguments: false, and nothing changed,
        when the arguments do not carry the pair. */
    method GetTwsUserNameAndPasswordFromArguments(args: seq<string>, settings: Settings) returns (found: bool)
      modifies this`ibapiUserName, this`ibapiPassword
      ensures var pair := TwsCredentialsFromArguments(args, settings.GetBoolean("FIX", false));
        && found == pair.Some?
        && (found ==> ibapiUserName == pair.value.0 && ibapiPassword == pair.value.1)
        && (!found ==> ibapiUserName == old(ibapiUserName) && ibapiPassword == old(ibapiPassword))
    {
      if settings.GetBoolean("FIX", false) {
        if |args| == 5 {
          ibapiUserName, ibapiPassword := args[3], args[4];
          return true;
        }
        return false;
      } else if |args| == 3 {
        ibapiUserName, ibapiPassword := args[1], args[2];
        return true;
      }
      return false;
    }

    method GetTwsUserNameAndPasswordFromProperties(settings: Settings, decrypt: string -> string)
      modifies this`ibapiUserName, this`ibapiPassword
      ensures ibapiUserName == settings.GetString("IbLoginId", "")
      ensures ibapiPassword == PasswordFromProperties(settings, "IbPassword", "PasswordEncrypted", decrypt)
    {
      ibapiUserName := settings.GetString("IbLoginId", "");
      var password := settings.GetString("IbPassword", "");
      if |password| != 0 {
        if settings.GetBoolean("PasswordEncrypted", true) {
          password := decrypt(password);
        }
      }
      ibapiPassword := password;
    }

    method GetTwsUserNameAndPassword(args: seq<string>, settings: Settings, decrypt: string -> string)
      modifies this`ibapiUserName, this`ibapiPassword
      ensures ibapiUserName == StartupCredentials(args, settings, decrypt).ibapiUserName
      ensures ibapiPassword == StartupCredentials(args, settings, decrypt).ibapiPassword
    {
      var found := GetTwsUserNameAndPasswordFromArguments(args, settings);
      if !found {
        GetTwsUserNameAndPasswordFromProperties(settings, decrypt);
      }
    }

    /** getFIXUserNameAndPasswordFromArguments. */
    method GetFixUserNameAndPasswordFromArguments(args: seq<string>) returns (found: bool)
      modifies this`fixUserName, this`fixPassword
      ensures found == FixCredentialsFromArguments(args).Some?
      ensures found ==> fixUserName == args[1] && fixPassword == args[2]
      ensures !found ==> fixUserName == old(fixUserName) && fixPassword == old(fixPassword)
    {
      if |args| == 3 || |args| == 5 {
        fixUserName, fixPassword := args[1], args[2];
        return true;
      }
      return false;
    }

    method GetFixUserNameAndPasswordFromProperties(settings: Settings, decrypt: string -> string)
      modifies this`fixUserName, this`fixPassword
      ensures fixUserName == settings.GetString("FIXLoginId", "")
      ensures fixPassword == PasswordFromProperties(settings, "FIXPassword", "FIXPasswordEncrypted", decrypt)
    {
      fixUserName := settings.GetString("FIXLoginId", "");
      var password := settings.GetString("FIXPassword", "");
      if |password| != 0 {
        if settings.GetBoolean("FIXPasswordEncrypted", true) {
          password := decrypt(password);
        }
      }
      fixPassword := password;
    }

    method GetFixUserNameAndPassword(args: seq<string>, settings: Settings, decrypt: string -> string)
      modifies this`fixUserName, this`fixPassword
      ensures fixUserName == StartupCredentials(args, settings, decrypt).fixUserName
      ensures fixPassword == StartupCredentials(args, settings, decrypt).fixPassword
    {
      var found := GetFixUserNameAndPasswordFromArguments(args);
      if !found {
        GetFixUserNameAndPasswordFromProperties(settings, decrypt);
      }
    }

    /** The credential steps of load, in order: afterwards the controller
        holds exactly the start-up credentials. */
    method LoadCredentials(args: seq<string>, settings: Settings, decrypt: string -> string)
      modifies this`ibapiUserName, this`ibapiPassword, this`fixUserName, this`fixPassword
      ensures Credentials() == StartupCredentials(args, settings, decrypt)
      ensures windowHandlers == old(windowHandlers)
    {
      GetTwsUserNameAndPassword(args, settings, decrypt);
      GetFixUserNameAndPassword(args, settings, decrypt);
    }

    /** createWindowHandlers, run once by the static initialiser. */
    method CreateWindowHandlers()
      modifies this`windowHandlers
      ensures windowHandlers == old(windowHandlers) + HandlerRegistry
    {
      windowHandlers := windowHandlers + [AcceptIncomingConnectionDialogHandler, BlindTradingWarningDialogHandler,
        ExitSessionFrameHandler, LoginFrameHandler, GatewayLoginFrameHandler];
      windowHandlers := windowHandlers + [MainWindowFrameHandler, GatewayMainWindowFrameHandler,
        NewerVersionDialogHandler, NewerVersionFrameHandler, NotCurrentlyAvailableDialogHandler];
      windowHandlers := windowHandlers + [TipOfTheDayDialogHandler, NSEComplianceFrameHandler,
        PasswordExpiryWarningFrameHandler, GlobalConfigurationDialogHandler, TradesFrameHandler];
      windowHandlers := windowHandlers + [ExistingSessionDetectedDialogHandler, ApiChangeConfirmationDialogHandler,
        SplashFrameHandler, SecurityCodeDialogHandler, ReloginDialogHandler];
    }
  }
}
