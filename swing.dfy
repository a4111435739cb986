/** The windows the controller drives, reduced to what its handlers and tasks
    look at and change: the kind of window, its title, the labels, buttons,
    menu items and configuration-tree nodes it shows, the socket-port box,
    check boxes and toggle buttons with their selection, numbered text fields,
    and logs of the clicks, key presses and credential prompts made on it.

    The component searches of the Swing utilities (findButton, findLabel,
    findCheckBox, ...) become membership tests on these sets and maps. */
module Swing {
  import opened Util

  datatype WindowKind = JDialog | JFrame | OtherWindow

  /** The AWT window events a handler can be offered. */
  datatype WindowEvent =
    | WindowOpened | WindowClosing | WindowClosed | WindowIconified | WindowDeiconified
    | WindowActivated | WindowDeactivated | WindowGainedFocus | WindowLostFocus | WindowStateChanged

  /** The "Socket port" component of the configuration dialog: missing,
      present without a text field, or present with a field holding `text`. */
  datatype PortBox = NoPortComponent | NoPortField | PortField(text: string)

  /** A key event dispatched to the component named `target`. */
  datatype KeyPress = AltF4(target: string)

  /** A window as a value: its fixed shape, then its changeable state. */
  datatype WindowValue = WindowValue(
    kind: WindowKind,
    title: string,
    labels: set<string>,
    buttons: set<string>,
    menuPaths: set<seq<string>>,
    sections: set<seq<string>>,
    selectedSection: seq<string>,
    port: PortBox,
    checkBoxes: map<string, bool>,
    toggles: map<string, bool>,
    fields: map<nat, string>,
    prompts: seq<nat>,
    clicks: seq<string>,
    keys: seq<KeyPress>,
    visible: bool)
  {
    /** The window after clickButton(name): the click is made (and logged)
        only when the button exists. */
    function Click(name: string): (r: WindowValue)
      ensures name in buttons ==> r == this.(clicks := clicks + [name])
      ensures name !in buttons ==> r == this
    {
      if name in buttons then this.(clicks := clicks + [name]) else this
    }

    /** The window after selecting the configuration-tree node `path`, when
        the tree has it. */
    function Select(path: seq<string>): (r: WindowValue)
      ensures path in sections ==> r == this.(selectedSection := path)
      ensures path !in sections ==> r == this
    {
      if path in sections then this.(selectedSection := path) else this
    }

    /** A doClick on a check box or toggle button flips it and is logged. */
    function FlipCheckBox(name: string): (r: WindowValue)
      requires name in checkBoxes
      ensures r.checkBoxes == checkBoxes[name := !checkBoxes[name]]
      ensures r == this.(checkBoxes := r.checkBoxes, clicks := clicks + [name])
    {
      this.(checkBoxes := checkBoxes[name := !checkBoxes[name]], clicks := clicks + [name])
    }

    function FlipToggle(name: string): (r: WindowValue)
      requires name in toggles
      ensures r.toggles == toggles[name := !toggles[name]]
      ensures r == this.(toggles := r.toggles, clicks := clicks + [name])
    {
      this.(toggles := toggles[name := !toggles[name]], clicks := clicks + [name])
    }
  }

  /** What a handleWindow call leaves: the window, and the error it logged
      (None when it logged none). */
  datatype HandleResult = HandleResult(window: WindowValue, error: Option<string>)

  class Window {
    const kind: WindowKind
    const title: string
    const labels: set<string>
    const buttons: set<string>
    const menuPaths: set<seq<string>>
    const sections: set<seq<string>>
    var selectedSection: seq<string>
    var port: PortBox
    var checkBoxes: map<string, bool>
    var toggles: map<string, bool>
    var fields: map<nat, string>
    var prompts: seq<nat>
    var clicks: seq<string>
    var keys: seq<KeyPress>
    var visible: bool

    /** The window as a value. */
    function State(): WindowValue
      reads this
    {
      WindowValue(kind, title, labels, buttons, menuPaths, sections, selectedSection, port,
        checkBoxes, toggles, fields, prompts, clicks, keys, visible)
    }

    constructor (v: WindowValue)
      ensures State() == v
    {
      kind, title, labels, buttons, menuPaths, sections := v.kind, v.title, v.labels, v.buttons, v.menuPaths, v.sections;
      selectedSection, port, checkBoxes, toggles := v.selectedSection, v.port, v.checkBoxes, v.toggles;
      fields, prompts, clicks, keys, visible := v.fields, v.prompts, v.clicks, v.keys, v.visible;
    }

    /** clickButton: false when there is no such button. */
    method ClickButton(name: string) returns (ok: bool)
      modifies this`clicks
      ensures ok == (name in buttons)
      ensures State() == old(State()).Click(name)
    {
      ok := name in buttons;
      if ok {
        clicks := clicks + [name];
      }
    }

    /** selectConfigSection: false when the tree has no such node. */
    method SelectConfigSection(path: seq<string>) returns (ok: bool)
      modifies this`selectedSection
      ensures ok == (path in sections)
      ensures State() == old(State()).Select(path)
    {
      ok := path in sections;
      if ok {
        selectedSection := path;
      }
    }

    /** setSelected on a check box that was found. */
    method SetCheckBox(name: string, selected: bool)
      requires name in checkBoxes
      modifies this`checkBoxes
      ensures State() == old(State()).(checkBoxes := old(checkBoxes)[name := selected])
    {
      checkBoxes := checkBoxes[name := selected];
    }

    /** setCheckBoxSelected: finds the check box and selects it as asked;
        false when there is none. */
    method SetCheckBoxSelected(name: string, selected: bool) returns (ok: bool)
      modifies this`checkBoxes
      ensures ok == (name in old(checkBoxes))
      ensures State() == if ok then old(State()).(checkBoxes := old(checkBoxes)[name := selected]) else old(State())
    {
      ok := name in checkBoxes;
      if ok {
        checkBoxes := checkBoxes[name := selected];
      }
    }

    /** doClick on a check box that was found. */
    method ClickCheckBox(name: string)
      requires name in checkBoxes
      modifies this`checkBoxes, this`clicks
      ensures State() == old(State()).FlipCheckBox(name)
    {
      checkBoxes := checkBoxes[name := !checkBoxes[name]];
      clicks := clicks + [name];
    }

    /** doClick on a toggle button that was found. */
    method ClickToggle(name: string)
      requires name in toggles
      modifies this`toggles, this`clicks
      ensures State() == old(State()).FlipToggle(name)
    {
      toggles := toggles[name := !toggles[name]];
      clicks := clicks + [name];
    }

    /** setText on the socket-port field. */
    method SetPortText(text: string)
      requires port.PortField?
      modifies this`port
      ensures State() == old(State()).(port := PortField(text))
    {
      port := PortField(text);
    }

    /** The login handler's setCredential: field `index` gets `value`. */
    method SetField(index: nat, value: string)
      modifies this`fields
      ensures State() == old(State()).(fields := old(fields)[index := value])
    {
      fields := fields[index := value];
    }

    /** The login handler's setMissingCredential: the user is asked to fill
        in field `index`. */
    method PromptField(index: nat)
      modifies this`prompts
      ensures State() == old(State()).(prompts := old(prompts) + [index])
    {
      prompts := prompts + [index];
    }

    method DispatchKey(k: KeyPress)
      modifies this`keys
      ensures State() == old(State()).(keys := old(keys) + [k])
    {
      keys := keys + [k];
    }

    method SetVisible(b: bool)
      modifies this`visible
      ensures State() == old(State()).(visible := b)
    {
      visible := b;
    }
  }
}
