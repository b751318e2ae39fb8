/**
 * The day-cycle observables of the main view model: the discrete cycle state
 * (UpdateCycleState) and the position within the 24-hour day
 * (UpdateCyclePosition). Both are pure selections over the current flags and
 * the temperature service's readings.
 *
 * Time is counted in whole minutes. A `DateTime` is a number of minutes since
 * some midnight, so its time of day is its remainder modulo one day. The cycle
 * position, a fraction of the day in the program, is represented by its
 * numerator over `MinutesPerDay`: a position `p` stands for `p / 1440`.
 */
module DayCycle {

  const MinutesPerDay: nat := 1440

  /** A point in time, in whole minutes since a midnight. */
  type DateTime = nat

  /** Minutes elapsed since the last midnight at or before `t`. */
  function TimeOfDay(t: DateTime): (m: nat)
    ensures m < MinutesPerDay
    ensures (t - m) % MinutesPerDay == 0
    ensures t < MinutesPerDay ==> m == t
  {
    t % MinutesPerDay
  }

  /** The cycle states the view model shows. */
  datatype CycleState = Disabled | Day | Night | Transition

  /**
   * UpdateCycleState: Disabled whenever the program is not enabled or is
   * blocked; otherwise the state follows from the current temperature against
   * the configured bounds, the day bound being tested first.
   */
  function CycleStateOf(isEnabled: bool, isBlocked: bool, temperature: int,
                        minTemperature: int, maxTemperature: int): (r: CycleState)
    ensures r == Disabled <==> !isEnabled || isBlocked
    ensures r == Day <==> isEnabled && !isBlocked && temperature >= maxTemperature
    ensures r == Night <==>
              isEnabled && !isBlocked && maxTemperature > temperature && temperature <= minTemperature
    ensures r == Transition <==>
              isEnabled && !isBlocked && minTemperature < temperature < maxTemperature
  {
    if !isEnabled || isBlocked then Disabled
    else if temperature >= maxTemperature then Day
    else if temperature <= minTemperature then Night
    else Transition
  }

  /**
   * UpdateCyclePosition: while the cycle preview is running, the position is
   * the preview clock's time of day; with preview mode on but not running, or
   * with the program disabled or blocked, it is 0; otherwise it is the wall
   * clock's time of day.
   */
  function CyclePositionOf(isPreviewModeEnabled: bool, isCyclePreviewRunning: bool,
                           isEnabled: bool, isBlocked: bool,
                           cyclePreviewTime: DateTime, now: DateTime): (p: nat)
    ensures p < MinutesPerDay
    ensures isPreviewModeEnabled && isCyclePreviewRunning ==> p == TimeOfDay(cyclePreviewTime)
    ensures isPreviewModeEnabled && !isCyclePreviewRunning ==> p == 0
    ensures !isPreviewModeEnabled && (!isEnabled || isBlocked) ==> p == 0
    ensures !isPreviewModeEnabled && isEnabled && !isBlocked ==> p == TimeOfDay(now)
  {
    if isPreviewModeEnabled && isCyclePreviewRunning then TimeOfDay(cyclePreviewTime)
    else if isPreviewModeEnabled then 0
    else if !isEnabled || isBlocked then 0
    else TimeOfDay(now)
  }

  /**
   * With valid bounds (min below max) and the program active, the classification
   * agrees with the temperature: the day value gives Day, the night value gives
   * Night, and Transition lies strictly between them.
   */
  lemma StateConsistentWithTemperature(temperature: int, minTemperature: int, maxTemperature: int)
    requires minTemperature < maxTemperature
    ensures temperature == maxTemperature ==>
              CycleStateOf(true, false, temperature, minTemperature, maxTemperature) == Day
    ensures temperature == minTemperature ==>
              CycleStateOf(true, false, temperature, minTemperature, maxTemperature) == Night
    ensures CycleStateOf(true, false, temperature, minTemperature, maxTemperature) == Transition ==>
              minTemperature < temperature < maxTemperature
  {
  }

  /**
   * Day takes precedence: when the bounds overlap so that the temperature
   * meets both, the state is Day, never Night.
   */
  lemma DayBeforeNight(temperature: int, minTemperature: int, maxTemperature: int)
    requires temperature >= maxTemperature && temperature <= minTemperature
    ensures CycleStateOf(true, false, temperature, minTemperature, maxTemperature) == Day
  {
  }

  /**
   * Outside preview mode, the position is 0 whenever the cycle state is
   * Disabled, and it does not depend on the wall clock then.
   */
  lemma DisabledMeansZeroPosition(isCyclePreviewRunning: bool, isEnabled: bool, isBlocked: bool,
                                  temperature: int, minTemperature: int, maxTemperature: int,
                                  cyclePreviewTime: DateTime, now: DateTime)
    requires CycleStateOf(isEnabled, isBlocked, temperature, minTemperature, maxTemperature) == Disabled
    ensures CyclePositionOf(false, isCyclePreviewRunning, isEnabled, isBlocked, cyclePreviewTime, now) == 0
  {
  }

  /**
   * The preview clock is only consulted while the preview is running, and the
   * wall clock only in realtime mode.
   */
  lemma ClockIndependence(isPreviewModeEnabled: bool, isCyclePreviewRunning: bool,
                          isEnabled: bool, isBlocked: bool,
                          t1: DateTime, t2: DateTime, n1: DateTime, n2: DateTime)
    ensures !(isPreviewModeEnabled && isCyclePreviewRunning) ==>
              CyclePositionOf(isPreviewModeEnabled, isCyclePreviewRunning, isEnabled, isBlocked, t1, n1)
              == CyclePositionOf(isPreviewModeEnabled, isCyclePreviewRunning, isEnabled, isBlocked, t2, n1)
    ensures (isPreviewModeEnabled || !isEnabled || isBlocked) ==>
              CyclePositionOf(isPreviewModeEnabled, isCyclePreviewRunning, isEnabled, isBlocked, t1, n1)
              == CyclePositionOf(isPreviewModeEnabled, isCyclePreviewRunning, isEnabled, isBlocked, t1, n2)
  {
  }

  /**
   * Positions wrap with the day: two instants a whole number of days apart
   * give the same realtime position.
   */
  lemma PositionWrapsDaily(now: DateTime, days: nat)
    ensures CyclePositionOf(false, false, true, false, 0, now + days * MinutesPerDay)
            == CyclePositionOf(false, false, true, false, 0, now)
  {
  }
}
