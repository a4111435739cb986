# IBController start-up and window automation, modelled in Dafny

IBController starts Interactive Brokers' Trader Workstation (TWS) or IB
Gateway and drives its windows so that nobody has to. This project models
four parts of it and proves properties of each:

* **Start-up decisions** (`IBController`):
  - which argument counts are accepted and when the program exits;
  - where the `.ini` file is, and the operating-system user name made safe for a file name;
  - whether each credential pair comes from the arguments or from the settings, and when a stored password is decrypted;
  - when the weekly `ClosedownAt` shutdown falls;
  - the parameters handed to the TWS settings task;
  - the fixed list of window handlers.
* **`jts.ini` maintenance** (`JtsIni`). The TWS settings file must hold `s3store` in `[Logon]` and `ApiOnly=true` in `[IBGateway]`. The model covers:
  - the lookup of a `key=value` setting;
  - the check that the two settings are present;
  - the line-by-line rewrite that adds them;
  - the minimal file written when there is none.
* **Configuration-dialog tasks** (`ConfigDialog` and one module per task). They select the API section, set the socket port (raising the "API change confirmation expected" flag where TWS will ask), and set the read-only and localhost-only options. Then they click OK and hide the dialog, or stop at the first missing widget. `EnableApiTask` also answers on the command channel.
* **Window handlers**: one module per handler. Each has its event filter, its window recognition and what it does to the window: the buttons it clicks, the check boxes it sets, the keys it sends and the credentials it fills in. The second-factor handler also tracks how long its dialog stayed open.

## How the model is built

Windows are `Swing.Window` objects whose fields the handlers change in place.

* `State()` gives a window as a `WindowValue`.
* Every operation that changes a window is a method. Its `ensures` ties the new state to a pure function of the old one, such as `AfterConfigure`, `AfterHandle` or `Switched`.
* The properties are proved as lemmas about those functions.

The component searches of the Swing utilities become membership tests:

* `findButton` and `clickButton` test the set of button names.
* `findCheckBox` tests the check-box map.
* The socket-port lookup is the three-way `PortBox`.

The settings provider is a `Util.Settings` value with typed maps and defaults. The `jts.ini` operations work on the file's lines: a `seq<string>` read, and a `seq<string>` written through the `BufferedWriter`. The operations that loop in the source become methods with loop invariants. Each is proved equal to a recursive specification function. The main results are:

* `RewriteIsValid`: the rewritten file passes the check.
* `RewriteKeepsLines`: nothing but blank lines inside the managed sections is lost.
* `MissingSectionsAppended`: a missing section is added at the end.

Inputs the source reads from the environment are parameters:

* the command-line arguments;
* the `user.name` and `user.dir` properties;
* whether a path is a file;
* the current time, as minutes or nanoseconds;
* the parsed `ClosedownAt` value;
* the decryption function;
* the login manager's credentials;
* the trading mode and the name of the live mode.

## Model

| member | source | states |
|---|---|---|
| Util.IntToStringRoundTrip | src/ibcontroller/ConfigureTwsSettingsTask.java:71-81 | `Integer.parseInt` of the text `Integer.toString` writes gives back the same int, so a port written to the field reads back as that port |
| Util.EqualsIgnoreCaseTransitive | src/window/handlers/AcceptIncomingConnectionDialogHandler.java:49-57 | equality ignoring case is transitive |
| Util.EqualsIgnoreCaseSymmetric | src/window/handlers/AcceptIncomingConnectionDialogHandler.java:49-57 | equality ignoring case is symmetric |
| IBController.CheckArgumentsRule | src/ibcontroller/IBController.java:284-302 | the program goes on exactly for 0, 1, 3 or 5 arguments; exit 0 exactly for two arguments whose first is "encrypt" ignoring case; every other exit is 1 |
| IBController.SanitisedRule | src/ibcontroller/IBController.java:461-476 | the user name keeps its length; a-z and 0-9 are kept, A-Z lowered, everything else becomes '_'; so only a-z, 0-9 and '_' remain |
| IBController.SanitisedIdempotent | src/ibcontroller/IBController.java:461-476 | sanitising twice is sanitising once; a name is unchanged exactly when it is made only of a-z, 0-9 and '_' |
| IBController.GetComputerUserName | src/ibcontroller/IBController.java:461-476 | the in-place loop over the builder yields the sanitised user name |
| IBController.IniPathRule | src/ibcontroller/IBController.java:365-371 | with no arguments or a first argument exactly "NULL", the path is the working directory, "IBController.", the sanitised user name and ".ini", and that file-name part holds only a-z, 0-9 and '_'; otherwise it is the first argument |
| IBController.GetSettings | src/ibcontroller/IBController.java:365-380 | the chosen path is loaded when it is a file, otherwise the run ends with exit 1 |
| IBController.PasswordRule | src/ibcontroller/IBController.java:332-338 | a stored password is decrypted exactly when it is non-empty and its encrypted flag (true when missing) holds, and returned as stored otherwise; in particular a missing or empty password gives the empty text without decryption |
| IBController.CredentialSources | src/ibcontroller/IBController.java:428-459 | the IB API pair comes from args[3], args[4] with FIX and 5 arguments and from args[1], args[2] without FIX and 3 arguments, otherwise from IbLoginId and the IbPassword rule; the FIX pair comes from args[1], args[2] exactly for 3 or 5 arguments, otherwise from FIXLoginId and the FIXPassword rule |
| IBController.ThreeArgumentCredentials | src/ibcontroller/IBController.java:340-363 | with three arguments the FIX pair is args[1], args[2]; under FIX the IB API user name and password then come from IbLoginId and the IbPassword rule, without FIX they are the same args[1], args[2] |
| IBController.IBController.GetTwsUserNameAndPasswordFromArguments | src/ibcontroller/IBController.java:438-454 | reports whether the arguments carry the IB API pair and stores it only then |
| IBController.IBController.GetTwsUserNameAndPasswordFromProperties | src/ibcontroller/IBController.java:414-420 | stores IbLoginId and the IbPassword-rule password |
| IBController.IBController.GetTwsUserNameAndPassword | src/ibcontroller/IBController.java:428-432 | stores the IB API pair of the start-up credentials |
| IBController.IBController.GetFixUserNameAndPasswordFromArguments | src/ibcontroller/IBController.java:350-358 | reports whether there are 3 or 5 arguments and only then stores args[1], args[2] |
| IBController.IBController.GetFixUserNameAndPasswordFromProperties | src/ibcontroller/IBController.java:332-338 | stores FIXLoginId and the FIXPassword-rule password |
| IBController.IBController.GetFixUserNameAndPassword | src/ibcontroller/IBController.java:340-344 | stores the FIX pair of the start-up credentials |
| IBController.IBController.LoadCredentials | src/ibcontroller/IBController.java:227-228 | after both credential steps the controller holds exactly the start-up credentials |
| IBController.GetShutdownTime | src/ibcontroller/IBController.java:382-412 | no ClosedownAt gives no shutdown; one that does not parse exits with 1; otherwise the time returned is after now, at most a week ahead, on the closedown weekday at the closedown hour and minute |
| IBController.NextShutdownIsUnique | src/ibcontroller/IBController.java:396-405 | only one time in that week qualifies, so the shutdown time is determined |
| IBController.DayArithmetic | src/ibcontroller/IBController.java:400-402 | a time on day q at minute m has weekday q mod 7 + 1 and minute-of-day m |
| IBController.TwsSettingsTaskArgumentsRule | src/ibcontroller/IBController.java:539-549 | the port is the ForceTwsApiPort setting, 0 when missing; a present AllowExternalIps gives Boolean.valueOf of its text (true exactly for "true" ignoring case), an absent one no value |
| IBController.HandlerRegistryShape | src/ibcontroller/IBController.java:309-330 | twenty handlers, none twice, the incoming-connection handler first and the relogin handler last; the Gateway 981 login, demo order-precautions and second-factor handlers are not registered |
| IBController.IBController.CreateWindowHandlers | src/ibcontroller/IBController.java:309-330 | appends exactly the registry, in order, and changes nothing else (only the handler list is in its frame) |
| JtsIni.ConstantsClassified | src/ibcontroller/JtsIniManager.java:33-39 | the two section names are header lines and the three settings are non-empty non-header lines |
| JtsIni.FindSettingInSection | src/ibcontroller/JtsIniManager.java:146-167 | true exactly when the setting line is in the first block headed by the section |
| JtsIni.GetSetting | src/ibcontroller/JtsIniManager.java:91-111 | the value after `setting=` on the first such line of the first block of the section; none when the section, or such a line, is missing |
| JtsIni.FirstSectionOnly | src/ibcontroller/JtsIniManager.java:146-167 | later duplicate blocks of a section are never consulted |
| JtsIni.SettingValueMatchesLine | src/ibcontroller/JtsIniManager.java:91-111 | a value found comes from a `setting=value` line of the section's first block, and a value is found whenever such a line is there |
| JtsIni.ExistingFileOk | src/ibcontroller/JtsIniManager.java:140-144 | true exactly when [Logon] holds an s3store setting and [IBGateway] holds ApiOnly=true |
| JtsIni.ProcessSection | src/ibcontroller/JtsIniManager.java:235-265 | writes the block's non-blank lines, then the default setting unless an accepted one was seen, then one blank line; returns the index of the header that ends the block |
| JtsIni.IsOneOf | src/ibcontroller/JtsIniManager.java:245-250 | true exactly when the line is one of the accepted settings |
| JtsIni.RewriteLine | src/ibcontroller/JtsIniManager.java:204-219 | one pass of the rewrite loop: copies the line and, after a managed header, processes its section |
| JtsIni.RewriteExistingFile | src/ibcontroller/JtsIniManager.java:197-233 | the loop writes exactly the specified rewrite of the lines |
| JtsIni.CreateMinimalFile | src/ibcontroller/JtsIniManager.java:184-195 | writes [Logon], s3store=true, [IBGateway], ApiOnly=true |
| JtsIni.SectionOutputShape | src/ibcontroller/JtsIniManager.java:235-265 | what processSection writes has no header, ends with its one blank line and has no other blank line |
| JtsIni.SectionSettingCopied | src/ibcontroller/JtsIniManager.java:243-258 | a setting seen in the block is among the lines copied |
| JtsIni.LogonSectionKeepsS3store | src/ibcontroller/JtsIniManager.java:241-261 | an existing s3store=false is kept and no s3store=true is added beside it |
| JtsIni.IBGatewaySectionHasApiOnly | src/ibcontroller/JtsIniManager.java:212-216 | the rewritten [IBGateway] block always holds ApiOnly=true |
| JtsIni.RewriteIsValid | src/ibcontroller/JtsIniManager.java:197-233 | the rewritten file passes existingFileOk |
| JtsIni.MinimalFileOk | src/ibcontroller/JtsIniManager.java:184-195 | the minimal file passes existingFileOk |
| JtsIni.RewriteKeepsLines | src/ibcontroller/JtsIniManager.java:197-233 | the rewrite keeps, in order, every line outside the managed sections and every non-blank line inside them |
| JtsIni.MissingSectionsAppended | src/ibcontroller/JtsIniManager.java:221-228 | a section never met is appended at the end with its default setting, [Logon] before [IBGateway] |
| JtsIni.EnsuredFileIsValid | src/ibcontroller/JtsIniManager.java:82-89 | afterwards a file on disk always passes existingFileOk |
| JtsIni.EnsureValidIsIdempotent | src/ibcontroller/JtsIniManager.java:128-138 | a file that passes is left as it is, so a second run changes nothing |
| JtsIni.JtsIniManager.LoadIniFile | src/ibcontroller/JtsIniManager.java:117-126 | a directory at the path exits; a regular file is read into the lines; a missing one leaves them |
| JtsIni.JtsIniManager.Reload | src/ibcontroller/JtsIniManager.java:113-115 | the same as loading |
| JtsIni.JtsIniManager.UpdateExistingFile | src/ibcontroller/JtsIniManager.java:128-138 | the file is rewritten from the loaded lines exactly when they fail the check |
| JtsIni.JtsIniManager.EnsureValidJtsIniFile | src/ibcontroller/JtsIniManager.java:82-89 | a directory exits; a missing file becomes the minimal file; an existing one is kept or rewritten as the check says |
| ConfigDialog.ApiSectionSelected | src/ibcontroller/ConfigureTwsSettingsTask.java:60-62 | API > Settings is selected when present, else API, else nothing changes; nothing else changes |
| ConfigDialog.SelectApiSection | src/ibcontroller/ConfigureTwsSettingsTask.java:60-62 | the dialog ends as the selection rule says |
| ConfigDialog.PortStepOutcome | src/ibcontroller/ConfigureTwsSettingsTask.java:70-84 | a port text that is not a number fails with the uncaught number-format error; on TWS a port change without Enable ActiveX fails with its message; a failure changes nothing |
| ConfigDialog.PortStepEffect | src/ibcontroller/ConfigureTwsSettingsTask.java:70-84 | on success the field reads back as the port, rewritten exactly when it did not already; only the port changes; the confirmation flag is raised only by a rewrite on TWS with Enable ActiveX selected |
| ConfigDialog.PortIfNonZeroEffect | src/ibcontroller/ConfigureTwsApiPortTask.java:57-79 | port 0 does nothing; otherwise the lookups and the port rule apply, changing at most the port; a failure changes nothing |
| ConfigDialog.ChangePort | src/ibcontroller/ConfigureTwsSettingsTask.java:70-84 | the port step on the dialog and listener |
| ConfigDialog.ConfigurePort | src/ibcontroller/ConfigureTwsApiPortTask.java:57-79 | the socket-port component and field lookups followed by the port step |
| ConfigDialog.Closed | src/ibcontroller/ConfigureTwsSettingsTask.java:100-102 | OK is clicked if present and the dialog is hidden; nothing else changes |
| ConfigDialog.CloseDialog | src/ibcontroller/ConfigureTwsSettingsTask.java:100-102 | the dialog ends closed |
| ConfigureTwsSettingsTask.LocalhostOnlyStepEffect | src/ibcontroller/ConfigureTwsSettingsTask.java:86-98 | without allowExternalIps nothing changes; with it the box must exist and ends holding its opposite; nothing else changes |
| ConfigureTwsSettingsTask.PortFieldRequired | src/ibcontroller/ConfigureTwsSettingsTask.java:64-68 | a missing port component or field fails, even for port 0, after only the section selection |
| ConfigureTwsSettingsTask.FailureLeavesDialogOpen | src/ibcontroller/ConfigureTwsSettingsTask.java:103-105 | every failure leaves OK unclicked and the dialog shown |
| ConfigureTwsSettingsTask.SuccessfulRun | src/ibcontroller/ConfigureTwsSettingsTask.java:56-106 | on success: OK clicked, dialog hidden, the port read back as requested or untouched for 0, localhost-only the opposite of allowExternalIps or untouched, nothing else changed |
| ConfigureTwsSettingsTask.PartialEffect | src/ibcontroller/ConfigureTwsSettingsTask.java:70-98 | a missing localhost-only box fails after the port has already been rewritten |
| ConfigureTwsSettingsTask.ConfirmationExpectedRule | src/ibcontroller/ConfigureTwsSettingsTask.java:70-83 | the flag ends raised exactly when it was raised before or the port was rewritten on TWS with Enable ActiveX selected |
| ConfigureTwsSettingsTask.Configure | src/ibcontroller/ConfigureTwsSettingsTask.java:56-106 | configure on the dialog ends as the task's function says |
| ConfigureTwsApiPortTask.ReadOnlyFromText | src/ibcontroller/ConfigureTwsApiPortTask.java:89-94 | "yes" selects Read-Only API, "no" clears it, compared case-sensitively; any other text and every other box are left as they are |
| ConfigureTwsApiPortTask.PortZeroUntouched | src/ibcontroller/ConfigureTwsApiPortTask.java:57 | with port 0 the port widgets are neither required nor changed, and the run succeeds exactly when no read-only text is given or the box exists |
| ConfigureTwsApiPortTask.PortRule | src/ibcontroller/ConfigureTwsApiPortTask.java:57-79 | a non-zero port reads back on success; an equal one is left alone; a change on TWS without Enable ActiveX fails |
| ConfigureTwsApiPortTask.ReadOnlyRule | src/ibcontroller/ConfigureTwsApiPortTask.java:81-96 | a null or empty text touches no box; otherwise success means the box exists and ends as the text says |
| ConfigureTwsApiPortTask.ClosedOnSuccessOnly | src/ibcontroller/ConfigureTwsApiPortTask.java:98-102 | OK is clicked and the dialog hidden exactly on success |
| ConfigureTwsApiPortTask.Configure | src/ibcontroller/ConfigureTwsApiPortTask.java:51-104 | configure on the dialog ends as the task's function says |
| ConfigureApiSettingTask.ReadOnlyBoxRequired | src/ibcontroller/ConfigureApiSettingTask.java:70-71 | without the Read-Only API box the run never succeeds and OK is not clicked |
| ConfigureApiSettingTask.ReadOnlyRule | src/ibcontroller/ConfigureApiSettingTask.java:73-79 | on success the box is selected exactly when it was selected and readOnlyApi holds, so the task never selects a clear box; only that box changes |
| ConfigureApiSettingTask.PortRule | src/ibcontroller/ConfigureApiSettingTask.java:42-68 | port 0 leaves the field and the flag; a non-zero port reads back on success |
| ConfigureApiSettingTask.ClosedOnSuccessOnly | src/ibcontroller/ConfigureApiSettingTask.java:81-86 | OK is clicked and the dialog hidden exactly on success |
| ConfigureApiSettingTask.Configure | src/ibcontroller/ConfigureApiSettingTask.java:34-87 | configure on the dialog ends as the task's function says |
| ConfigureReadOnlyApiTask.AlwaysClosesAndChangesOnlyReadOnly | src/ibcontroller/ConfigureReadOnlyAPITask.java:47-72 | OK is always clicked and the dialog hidden; only the Read-Only API box can change, as "yes"/"no" say; a missing box is not an error |
| ConfigureReadOnlyApiTask.OtherTextChangesNothing | src/ibcontroller/ConfigureReadOnlyAPITask.java:58-63 | any text but exactly "yes" or "no" changes no check box |
| ConfigureReadOnlyApiTask.Configure | src/ibcontroller/ConfigureReadOnlyAPITask.java:47-72 | configure on the dialog ends as the task's function says |
| EnableApiTask.MissingCheckBoxNacks | src/ibcontroller/EnableApiTask.java:36-60 | without Enable ActiveX the reply is a nack carrying the exception message and nothing is clicked |
| EnableApiTask.ClearBoxIsEnabled | src/ibcontroller/EnableApiTask.java:47-51 | a clear box is clicked, then OK, and "configured" is acknowledged; the dialog is not hidden |
| EnableApiTask.SelectedBoxIsLeftAlone | src/ibcontroller/EnableApiTask.java:52-55 | a selected box gets no click and "already configured" is acknowledged |
| EnableApiTask.AckMeansEnabled | src/ibcontroller/EnableApiTask.java:36-60 | the reply is an ack exactly when Enable ActiveX ends selected |
| EnableApiTask.CommandChannel.WriteAck | src/ibcontroller/EnableApiTask.java:51 | appends one ack |
| EnableApiTask.CommandChannel.WriteNack | src/ibcontroller/EnableApiTask.java:58 | appends one nack |
| EnableApiTask.EnableApiTask.Initialise | src/ibcontroller/EnableApiTask.java:62-65 | binds the dialog that run works on |
| EnableApiTask.EnableApiTask.Run | src/ibcontroller/EnableApiTask.java:36-60 | the dialog ends as the run function says and exactly one reply is written |
| AcceptIncomingConnectionDialogHandler.DefaultIsAccept | src/window/handlers/AcceptIncomingConnectionDialogHandler.java:47 | without the setting the connection is accepted |
| AcceptIncomingConnectionDialogHandler.ClickPolicy | src/window/handlers/AcceptIncomingConnectionDialogHandler.java:49-64 | manual does nothing; accept clicks OK, else Yes, else logs an error; reject clicks No or logs; any other setting logs; only the click log changes |
| AcceptIncomingConnectionDialogHandler.CaseIsIgnored | src/window/handlers/AcceptIncomingConnectionDialogHandler.java:49-57 | settings equal ignoring case are handled alike |
| AcceptIncomingConnectionDialogHandler.TitleIsIgnored | src/window/handlers/AcceptIncomingConnectionDialogHandler.java:68-72 | recognition does not depend on the title |
| AcceptIncomingConnectionDialogHandler.HandleWindow | src/window/handlers/AcceptIncomingConnectionDialogHandler.java:42-65 | handleWindow on the dialog ends as the handler's function says |
| DemoOrderPrecautionsDialogHandler.DisabledByDefault | src/ibcontroller/DemoOrderPrecautionsDialogHandler.java:45-63 | without DemoApiEnable no window is recognised |
| DemoOrderPrecautionsDialogHandler.OkOnlyAfterCheckBox | src/ibcontroller/DemoOrderPrecautionsDialogHandler.java:35-43 | OK is clicked only after the "don't display" box was selected; either one missing logs an error |
| DemoOrderPrecautionsDialogHandler.RecognisedIsDismissed | src/ibcontroller/DemoOrderPrecautionsDialogHandler.java:35-63 | a recognised dialog with OK is dismissed without error, the box selected |
| DemoOrderPrecautionsDialogHandler.HandleWindow | src/ibcontroller/DemoOrderPrecautionsDialogHandler.java:35-43 | handleWindow on the dialog ends as the handler's function says |
| SecurityCodeDialogHandler.ReadOnlyLoginRule | src/ibcontroller/SecurityCodeDialogHandler.java:38-46 | without ReadOnlyLogin nothing happens; with it "Enter Read Only" is the only button clicked, and its absence logs an error |
| SecurityCodeDialogHandler.HandleWindow | src/ibcontroller/SecurityCodeDialogHandler.java:38-46 | handleWindow on the dialog ends as the handler's function says |
| MainWindowFrameHandler.NewMainWindow | src/window/handlers/MainWindowFrameHandler.java:41-45 | only an opening changes the main window, and an opening frame becomes it |
| MainWindowFrameHandler.HandleWindow | src/window/handlers/MainWindowFrameHandler.java:41-45 | records an opened frame as the main window; the cast fails for a window that is not a frame |
| MainWindowFrameHandler.RecognisedOpeningIsRecorded | src/window/handlers/MainWindowFrameHandler.java:31-52 | a recognised window that opens becomes the main window |
| NotCurrentlyAvailableDialogHandler.DismissThenCloseLogin | src/window/handlers/NotCurrentlyAvailableDialogHandler.java:45-61 | without OK only an error is logged; with OK the dialog is dismissed and the login frame, if any, gets exactly one Alt+F4 on its Login button, or the run fails on the missing button |
| NotCurrentlyAvailableDialogHandler.KeysOnlyAfterDismissal | src/window/handlers/NotCurrentlyAvailableDialogHandler.java:46-59 | a key reaches the login frame only after OK was clicked |
| NotCurrentlyAvailableDialogHandler.HandleWindow | src/window/handlers/NotCurrentlyAvailableDialogHandler.java:45-61 | handleWindow ends with the outcome, clicks and keys the handler's function gives |
| SecondFactorAuthenticationHandler.TransitionRules | src/window/handlers/SecondFactorAuthenticationHandler.java:35-47 | only an opening records the time; only a closing less than three seconds after it exits, always with 999 |
| SecondFactorAuthenticationHandler.OpenThenClose | src/window/handlers/SecondFactorAuthenticationHandler.java:35-47 | after an opening, a closing exits exactly when it follows within three seconds |
| SecondFactorAuthenticationHandler.NoExitBeforeFirstOpen | src/window/handlers/SecondFactorAuthenticationHandler.java:32 | starting from Instant.MIN, a closing without an opening does not exit |
| SecondFactorAuthenticationHandler.SecondFactorAuthenticationHandler.FilterEvent | src/window/handlers/SecondFactorAuthenticationHandler.java:35-47 | never asks to handle the window, and updates the state as the transition says |
| Gateway981LoginFrameHandler.IbApiMissingFieldRule | src/ibcontroller/Gateway981LoginFrameHandler.java:100-110 | in IB API mode field 0 is asked for a missing user name, else field 1 for a missing password, else none |
| Gateway981LoginFrameHandler.FixMissingFieldRule | src/ibcontroller/Gateway981LoginFrameHandler.java:80-98 | in FIX mode the FIX pair is asked for first; a half-given IB API pair asks for field 3 or 4; ready exactly when the FIX pair is complete and the IB API pair complete or empty |
| Gateway981LoginFrameHandler.PreLogin | src/ibcontroller/Gateway981LoginFrameHandler.java:47-55 | asks for at most one field, and is ready exactly when it asks for none |
| Gateway981LoginFrameHandler.PromptedFieldIsEmpty | src/ibcontroller/Gateway981LoginFrameHandler.java:80-124 | the field asked for is one that setFields leaves empty |
| Gateway981LoginFrameHandler.FieldsWrittenRule | src/ibcontroller/Gateway981LoginFrameHandler.java:113-124 | FIX mode writes fields 0, 1, 3, 4 with the FIX then IB API pair; otherwise fields 0, 1 with the IB API pair; no other field changes |
| Gateway981LoginFrameHandler.SetFields | src/ibcontroller/Gateway981LoginFrameHandler.java:113-124 | writes the fields and returns true |
| Gateway981LoginFrameHandler.LoginButtonTitle | src/ibcontroller/Gateway981LoginFrameHandler.java:59-63 | "Log In" exactly when the frame has it, otherwise "Paper Log In" |
| Gateway981LoginFrameHandler.DoLoginRule | src/ibcontroller/Gateway981LoginFrameHandler.java:58-72 | at most one click, on "Log In" if present, else "Paper Log In" if present |
| Gateway981LoginFrameHandler.DoLogin | src/ibcontroller/Gateway981LoginFrameHandler.java:58-72 | clicks the chosen login button |
| Gateway981LoginFrameHandler.SwitchedSelectsToggle | src/ibcontroller/Gateway981LoginFrameHandler.java:134-146 | a missing toggle fails, naming itself; otherwise it ends selected, clicked exactly when it was clear |
| Gateway981LoginFrameHandler.SwitchedIdempotent | src/ibcontroller/Gateway981LoginFrameHandler.java:134-146 | switching twice is switching once |
| Gateway981LoginFrameHandler.SwitchTo | src/ibcontroller/Gateway981LoginFrameHandler.java:134-171 | switching on the frame ends as the switch function says |
| Gateway981LoginFrameHandler.TradingModeToggle | src/ibcontroller/Gateway981LoginFrameHandler.java:149-157 | Live Trading exactly when the trading mode equals the live mode ignoring case, else Paper Trading |
| Gateway981LoginFrameHandler.InitialisedSelectsModes | src/ibcontroller/Gateway981LoginFrameHandler.java:40-77 | initialise succeeds exactly when both chosen toggles exist, and then both are selected; a missing gateway toggle fails first and changes nothing |
| Gateway981LoginFrameHandler.Initialise | src/ibcontroller/Gateway981LoginFrameHandler.java:40-77 | initialise on the frame ends as the function says |

## Left out

- Console and error logging, `printProperties`, and every log message. Where a handler's only reaction is to log an error, the model returns that message.
- `main` and the order of the start-up steps in `load`. Their parts are modelled; the command server, the toolkit listener, the settings saver and the launch of TWS or the gateway start threads or foreign code.
- `startShutdownTimerIfRequired`: this model computes the shutdown time; scheduling it and the StopTask it runs are outside the model.
- `GetMainWindowTask` (src/window/interactions/GetMainWindowTask.java): its lock-and-condition wait is concurrency.
- The dispatcher and the command server. `TwsListener`, `IBControllerServer`, `CommandChannel` framing, `AbstractLoginHandler`, `LoginManager`, `MainWindowManager`, `SwingUtils` and `Utils` are not part of this model. Their lookups become exact membership tests, the confirmation flag a field of `ApiListener`, and a reply a `Reply` value.
- `Encryptor` is a function parameter; the "encrypt" command's output is not modelled, only its exit code.
- Gateway981LoginFrameHandler.TradingModeToggle: the name of the live mode is a parameter, because the `TradingModeManager` constant is not part of this model.
- IBController.GetShutdownTime: `SimpleDateFormat` parsing, time zones, daylight-saving changes, seconds and milliseconds are not modelled. Time is whole minutes since a Sunday midnight, and the parse result is an input.
- IBController.TwsSettingsTaskArguments: the `!= ""` test on the AllowExternalIps text is a reference comparison in the source. The model treats any present value as given, including an empty one, and an absent one as not given.
- IBController.GetComputerUserName: the user name is a sequence of Unicode characters, while the source walks UTF-16 code units, so a character outside the Basic Multilingual Plane becomes one '_' here and two (one per surrogate) in the source, and the ini path then names a different file.
- Case folding and digits are ASCII only: `equalsIgnoreCase`, `toLowerCase` and `parseInt` also accept other Unicode letters and digits.
- The deferred GUI-thread click in `doLogin` is made at once.
- The eventID parameters that handlers ignore; `Instant.now()` and the wall clock are parameters.
- Exceptions are modelled as outcomes: a port text that is not a number as `PortNotANumber`, the unchecked Login-button lookup as `LoginButtonMissing`, and the failed cast to JFrame as `castOk == false`. What happens to the thread afterwards is not.
- File I/O in `JtsIniManager`, including the IOException paths: the file is a `FileEntry` value, read and written whole.
