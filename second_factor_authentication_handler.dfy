/** The handler that watches the second-factor authentication dialog: when
    it closes less than three seconds after it opened, the user had no way to
    answer it, and the program exits with code 999. It never asks to handle
    the window. Times are nanoseconds on the clock that Instant uses; the
    current time is passed in. */
module SecondFactorAuthenticationHandler {
  import opened Util
  import opened Swing

  /** Instant.MIN, -1000000000-01-01T00:00Z, in nanoseconds. */
  const InstantMin: int := -31557014167219200 * 1_000_000_000
  /** Duration.ofSeconds(3). */
  const MinimumOpenTime: int := 3 * 1_000_000_000
  const QuickCloseExitCode := 999

  /** The handler's state and whether it called System.exit. */
  datatype Step = Step(lastWindowOpened: int, exitCode: Option<int>)

  /** filterEvent's effect: an opening records the time; a closing less than
      three seconds after the recorded opening exits; other events do
      nothing. */
  function Transition(lastWindowOpened: int, e: WindowEvent, now: int): Step {
    if e == WindowOpened then Step(now, None)
    else if e == WindowClosed && now - lastWindowOpened < MinimumOpenTime then Step(lastWindowOpened, Some(QuickCloseExitCode))
    else Step(lastWindowOpened, None)
  }

  /** Only an opening changes the recorded time, and only a quick closing
      exits, always with 999. */
  lemma TransitionRules(lastWindowOpened: int, e: WindowEvent, now: int)
    ensures var s := Transition(lastWindowOpened, e, now);
      && (s.lastWindowOpened == if e == WindowOpened then now else lastWindowOpened)
      && (s.exitCode.Some? <==> e == WindowClosed && now - lastWindowOpened < 3_000_000_000)
      && (s.exitCode.Some? ==> s.exitCode.value == 999)
  {
  }

  /** Opening at `openedAt` then closing at `closedAt`: the program exits exactly
      when the dialog was open for less than three seconds. */
  lemma OpenThenClose(lastWindowOpened: int, openedAt: int, closedAt: int)
    ensures var s := Transition(lastWindowOpened, WindowOpened, openedAt);
      && s.exitCode.None?
      && (Transition(s.lastWindowOpened, WindowClosed, closedAt).exitCode.Some? <==> closedAt - openedAt < 3_000_000_000)
  {
  }

  /** With nothing opened yet, a closing at any time at least three seconds
      after Instant.MIN (every time the clock can show) does not exit. */
  lemma NoExitBeforeFirstOpen(now: int)
    requires now >= InstantMin + MinimumOpenTime
    ensures Transition(InstantMin, WindowClosed, now).exitCode.None?
  {
  }

  /** Recognition: a dialog whose title contains "Second Factor
      Authentication". */
  predicate RecogniseWindow(v: WindowValue) {
    v.kind == JDialog && Contains(v.title, "Second Factor Authentication")
  }

  class SecondFactorAuthenticationHandler {
    var lastWindowOpened: int

    constructor ()
      ensures lastWindowOpened == InstantMin
    {
      lastWindowOpened := InstantMin;
    }

    /** filterEvent: applies the transition and returns false, so the
        handler is never asked to handle a window. */
    method FilterEvent(e: WindowEvent, now: int) returns (handle: bool, exitCode: Option<int>)
      modifies this
      ensures !handle
      ensures Step(lastWindowOpened, exitCode) == Transition(old(lastWindowOpened), e, now)
    {
      exitCode := None;
      if e == WindowOpened {
        lastWindowOpened := now;
      } else if e == WindowClosed {
        if now - lastWindowOpened < MinimumOpenTime {
          exitCode := Some(QuickCloseExitCode);
        }
      }
      handle := false;
    }
  }
}
