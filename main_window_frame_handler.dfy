/** The handler that recognises the TWS main window and records it with the
    main-window manager. */
module MainWindowFrameHandler {
  import opened Util
  import opened Swing

  const AboutMenuPath: seq<string> := ["Help", "About Trader Workstation..."]

  /** The main-window manager's cell. */
  class MainWindowManager {
    var mainWindow: Window?

    constructor ()
      ensures mainWindow == null
    {
      mainWindow := null;
    }
  }

  predicate FilterEvent(e: WindowEvent) {
    e == WindowOpened
  }

  /** A frame with the menu item Help > About Trader Workstation... */
  predicate RecogniseWindow(v: WindowValue) {
    v.kind == JFrame && AboutMenuPath in v.menuPaths
  }

  /** What handleWindow makes the main window: this window on an opening
      (which a frame must be, or the cast to JFrame fails), the previous one
      otherwise. */
  function NewMainWindow(previous: Window?, window: Window, windowKind: WindowKind, e: WindowEvent): (r: Window?)
    ensures e != WindowOpened ==> r == previous
    ensures e == WindowOpened && windowKind == JFrame ==> r == window
  {
    if e == WindowOpened && windowKind == JFrame then window else previous
  }

  /** handleWindow: ignores every event but an opening; records the window,
      replacing any main window recorded before. `castOk` is false for a
      window that is not a frame, whose cast throws. */
  method HandleWindow(manager: MainWindowManager, window: Window, e: WindowEvent) returns (castOk: bool)
    modifies manager
    ensures castOk == (e != WindowOpened || window.kind == JFrame)
    ensures manager.mainWindow == NewMainWindow(old(manager.mainWindow), window, window.kind, e)
  {
    if e != WindowOpened {
      return true;
    }
    if window.kind != JFrame {
      return false;
    }
    manager.mainWindow := window;
    castOk := true;
  }

  /** A recognised window opening always becomes the main window. */
  lemma RecognisedOpeningIsRecorded(previous: Window?, window: Window, v: WindowValue)
    requires RecogniseWindow(v) && FilterEvent(WindowOpened)
    ensures NewMainWindow(previous, window, v.kind, WindowOpened) == window
  {
  }
}
