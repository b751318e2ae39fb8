/**
 * The enable/block state machine of the main view model, as values.
 *
 * `Flags` gathers what the view model's commands and handlers change: the
 * user's enabled flag, the fullscreen block flag, the temperature service's
 * realtime-mode switch (which the view model writes) and the single-shot
 * timer that re-enables the program after a temporary disable. Each function
 * below is one handler of the view model; the class in module ViewModels
 * performs the same steps in place and is proved equal to these functions.
 */
module EnableState {
  import DayCycle

  /** The temporary-disable timer: whether it is running, and its period in milliseconds. */
  datatype Timer = Timer(armed: bool, interval: nat)

  datatype Flags = Flags(isEnabled: bool, isBlocked: bool, isRealtimeModeEnabled: bool, timer: Timer)

  /**
   * The invariant the view model keeps: realtime mode runs exactly when the
   * program is enabled and not blocked, and a running timer means the program
   * is (temporarily) disabled.
   */
  predicate Valid(f: Flags) {
    && f.isRealtimeModeEnabled == (f.isEnabled && !f.isBlocked)
    && (f.timer.armed ==> !f.isEnabled)
  }

  /**
   * The IsEnabled setter. Assigning the current value changes nothing.
   * Otherwise the flag takes the new value, enabling stops the timer, and the
   * realtime switch is recomputed from the new flag and the block.
   */
  function SetEnabled(f: Flags, value: bool): (r: Flags)
    ensures r.isEnabled == value && r.isBlocked == f.isBlocked
    ensures f.isEnabled == value ==> r == f
    ensures f.isEnabled != value ==> r.isRealtimeModeEnabled == (r.isEnabled && !r.isBlocked)
    ensures f.isEnabled != value && value ==> !r.timer.armed
    ensures !value ==> r.timer == f.timer
    ensures r.timer.interval == f.timer.interval
    ensures Valid(f) ==> Valid(r)
  {
    if f.isEnabled == value then f
    else
      var timer := if value then f.timer.(armed := false) else f.timer;
      f.(isEnabled := value, timer := timer, isRealtimeModeEnabled := value && !f.isBlocked)
  }

  /**
   * The IsBlocked setter. Assigning the current value changes nothing.
   * Otherwise the realtime switch is recomputed; the enabled flag and the
   * timer are never touched.
   */
  function SetBlocked(f: Flags, value: bool): (r: Flags)
    ensures r.isBlocked == value && r.isEnabled == f.isEnabled && r.timer == f.timer
    ensures f.isBlocked == value ==> r == f
    ensures f.isBlocked != value ==> r.isRealtimeModeEnabled == (r.isEnabled && !r.isBlocked)
    ensures Valid(f) ==> Valid(r)
  {
    if f.isBlocked == value then f
    else f.(isBlocked := value, isRealtimeModeEnabled := !value && f.isEnabled)
  }

  /** ToggleEnabledCommand: negates the enabled flag through its setter. */
  function Toggle(f: Flags): (r: Flags)
    ensures r.isEnabled == !f.isEnabled && r.isBlocked == f.isBlocked
    ensures r.isRealtimeModeEnabled == (r.isEnabled && !r.isBlocked)
    ensures r.isEnabled ==> !r.timer.armed
    ensures !r.isEnabled ==> r.timer == f.timer
    ensures r.timer.interval == f.timer.interval
    ensures Valid(f) ==> Valid(r)
  {
    SetEnabled(f, !f.isEnabled)
  }

  /**
   * DisableTemporarilyCommand: stops the timer, sets its period, disables the
   * program and starts the timer again. Whatever timer was running before is
   * replaced by one with the new period.
   */
  function DisableTemporarily(f: Flags, ms: nat): (r: Flags)
    ensures !r.isEnabled && r.isBlocked == f.isBlocked
    ensures r.timer == Timer(true, ms)
    ensures f.isEnabled ==> !r.isRealtimeModeEnabled
    ensures !f.isEnabled ==> r.isRealtimeModeEnabled == f.isRealtimeModeEnabled
    ensures Valid(f) ==> Valid(r)
  {
    var stopped := f.(timer := f.timer.(armed := false).(interval := ms));
    var disabled := SetEnabled(stopped, false);
    disabled.(timer := disabled.timer.(armed := true))
  }

  /**
   * The timer's Tick handler: assigns true to IsEnabled. A stopped timer does
   * not tick, so the step is then no change at all.
   */
  function TimerTick(f: Flags): (r: Flags)
    ensures !f.timer.armed ==> r == f
    ensures f.timer.armed ==> r == SetEnabled(f, true)
    ensures Valid(f) && f.timer.armed ==> r.isEnabled && !r.timer.armed && r.isBlocked == f.isBlocked
    ensures Valid(f) ==> Valid(r)
  {
    if f.timer.armed then SetEnabled(f, true) else f
  }

  /**
   * UpdateBlock: the program is blocked exactly when fullscreen blocking is
   * configured and the foreground window is fullscreen.
   */
  function UpdateBlock(f: Flags, isFullscreenBlocking: bool, isForegroundFullScreen: bool): (r: Flags)
    ensures r.isBlocked <==> isFullscreenBlocking && isForegroundFullScreen
    ensures r.isEnabled == f.isEnabled && r.timer == f.timer
    ensures Valid(f) ==> Valid(r)
  {
    SetBlocked(f, isFullscreenBlocking && isForegroundFullScreen)
  }

  /**
   * The constructor's last step, `IsEnabled = true`, applied to fresh fields
   * (both flags false, timer stopped) and whatever realtime setting the
   * temperature service had.
   */
  function Initial(serviceRealtime: bool): (r: Flags)
    ensures Valid(r)
    ensures r.isEnabled && !r.isBlocked && r.isRealtimeModeEnabled && !r.timer.armed
  {
    SetEnabled(Flags(false, false, serviceRealtime, Timer(false, 0)), true)
  }

  /** Clearing a block restores realtime mode exactly when the program is enabled. */
  lemma UnblockRestoresRealtime(f: Flags)
    ensures SetBlocked(SetBlocked(f, true), false).isRealtimeModeEnabled == f.isEnabled
    ensures Valid(f) && !f.isBlocked ==> SetBlocked(SetBlocked(f, true), false) == f
  {
  }

  /**
   * Toggling twice returns to the starting state, except that a pending
   * temporary disable is cancelled on the way.
   */
  lemma ToggleTwice(f: Flags)
    requires Valid(f)
    ensures Toggle(Toggle(f)) == f.(timer := f.timer.(armed := false))
  {
  }

  /** Two temporary disables in a row: the later one decides the timer. */
  lemma LastDisableWins(f: Flags, first: nat, second: nat)
    ensures DisableTemporarily(DisableTemporarily(f, first), second) == DisableTemporarily(f, second)
  {
  }

  // ---------------------------------------------------------------------------
  // Sequences of events

  /** What can reach the view model's flags, one handler call each. */
  datatype Event =
    | AssignEnabled(value: bool)
    | ToggleEnabled
    | DisableFor(ms: nat)
    | Tick
    | FullScreenStateChanged(isFullscreenBlocking: bool, isForegroundFullScreen: bool)

  function Step(f: Flags, e: Event): Flags {
    match e
    case AssignEnabled(v) => SetEnabled(f, v)
    case ToggleEnabled => Toggle(f)
    case DisableFor(ms) => DisableTemporarily(f, ms)
    case Tick => TimerTick(f)
    case FullScreenStateChanged(b, fs) => UpdateBlock(f, b, fs)
  }

  function Run(f: Flags, events: seq<Event>): Flags
    decreases |events|
  {
    if events == [] then f else Run(Step(f, events[0]), events[1..])
  }

  /** Number of temporary disables in `events`. */
  function Arms(events: seq<Event>): nat
    decreases |events|
  {
    if events == [] then 0
    else (if events[0].DisableFor? then 1 else 0) + Arms(events[1..])
  }

  /** Number of ticks in `events` that reach a running timer, starting from `f`. */
  function Reenables(f: Flags, events: seq<Event>): nat
    decreases |events|
  {
    if events == [] then 0
    else (if events[0].Tick? && f.timer.armed then 1 else 0) + Reenables(Step(f, events[0]), events[1..])
  }

  lemma StepValid(f: Flags, e: Event)
    requires Valid(f)
    ensures Valid(Step(f, e))
  {
  }

  /** Every sequence of handler calls keeps the invariant. */
  lemma {:induction false} RunValid(f: Flags, events: seq<Event>)
    requires Valid(f)
    ensures Valid(Run(f, events))
    decreases |events|
  {
    if events != [] {
      StepValid(f, events[0]);
      RunValid(Step(f, events[0]), events[1..]);
    }
  }

  /** From construction on, whatever happens, the invariant holds. */
  lemma {:induction false} ReachableValid(serviceRealtime: bool, events: seq<Event>)
    ensures Valid(Run(Initial(serviceRealtime), events))
  {
    RunValid(Initial(serviceRealtime), events);
  }

  /**
   * The timer re-enables the program at most once per temporary disable: the
   * ticks that reach a running timer, plus one if the timer is still running
   * at the end, never exceed the number of temporary disables plus one if it
   * was running at the start.
   */
  lemma {:induction false} AtMostOneReenablePerArming(f: Flags, events: seq<Event>)
    requires Valid(f)
    ensures Reenables(f, events) + (if Run(f, events).timer.armed then 1 else 0)
            <= Arms(events) + (if f.timer.armed then 1 else 0)
    decreases |events|
  {
    if events != [] {
      var g := Step(f, events[0]);
      StepValid(f, events[0]);
      AtMostOneReenablePerArming(g, events[1..]);
      assert (if events[0].Tick? && f.timer.armed then 1 else 0) + (if g.timer.armed then 1 else 0)
             <= (if events[0].DisableFor? then 1 else 0) + (if f.timer.armed then 1 else 0);
    }
  }

  /**
   * In every state the view model can be in, the cycle state shown is
   * Disabled exactly when the temperature service is out of realtime mode.
   */
  lemma CycleDisabledIffNotRealtime(f: Flags, temperature: int, minTemperature: int, maxTemperature: int)
    requires Valid(f)
    ensures (DayCycle.CycleStateOf(f.isEnabled, f.isBlocked, temperature, minTemperature, maxTemperature)
               == DayCycle.Disabled) <==> !f.isRealtimeModeEnabled
  {
  }
}
