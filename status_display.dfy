/**
 * The status line of the main view model (UpdateStatusText). The program
 * formats it as text; here each kind of line is a constructor carrying the
 * values the text shows, so that the priority between the kinds is what the
 * contracts speak about.
 */
module StatusDisplay {
  import DayCycle

  datatype Status =
    | PreviewRunning(temperature: int, time: nat)  // "Temp: {T}K   Time: {t}   (preview)"
    | Preview(temperature: int)                    // "Temp: {T}K   (preview)"
    | Disabled                                     // "Disabled"
    | Blocked                                      // "Blocked"
    | Realtime(temperature: int)                   // "Temp: {T}K"

  /**
   * UpdateStatusText: a running cycle preview first, then preview mode, then
   * the user's disable, then a block, and realtime mode last. The preview line
   * shows the preview clock's time of day.
   */
  function StatusOf(isPreviewModeEnabled: bool, isCyclePreviewRunning: bool,
                    isEnabled: bool, isBlocked: bool,
                    temperature: int, cyclePreviewTime: DayCycle.DateTime): (s: Status)
    ensures s.PreviewRunning? <==> isPreviewModeEnabled && isCyclePreviewRunning
    ensures s.Preview? <==> isPreviewModeEnabled && !isCyclePreviewRunning
    ensures s.Disabled? <==> !isPreviewModeEnabled && !isEnabled
    ensures s.Blocked? <==> !isPreviewModeEnabled && isEnabled && isBlocked
    ensures s.Realtime? <==> !isPreviewModeEnabled && isEnabled && !isBlocked
    ensures !s.Disabled? && !s.Blocked? ==> s.temperature == temperature
    ensures s.PreviewRunning? ==> s.time == DayCycle.TimeOfDay(cyclePreviewTime)
  {
    if isPreviewModeEnabled && isCyclePreviewRunning then
      PreviewRunning(temperature, DayCycle.TimeOfDay(cyclePreviewTime))
    else if isPreviewModeEnabled then Preview(temperature)
    else if !isEnabled then Disabled
    else if isBlocked then Blocked
    else Realtime(temperature)
  }

  /** "Disabled" wins over "Blocked" when the user disabled a blocked program. */
  lemma DisabledBeforeBlocked(temperature: int, cyclePreviewTime: DayCycle.DateTime)
    ensures StatusOf(false, false, false, true, temperature, cyclePreviewTime) == Disabled
    ensures StatusOf(false, true, false, true, temperature, cyclePreviewTime) == Disabled
  {
  }

  /** Either preview line wins whatever the enabled and blocked flags are. */
  lemma PreviewIgnoresFlags(isCyclePreviewRunning: bool, e1: bool, b1: bool, e2: bool, b2: bool,
                            temperature: int, cyclePreviewTime: DayCycle.DateTime)
    ensures StatusOf(true, isCyclePreviewRunning, e1, b1, temperature, cyclePreviewTime)
            == StatusOf(true, isCyclePreviewRunning, e2, b2, temperature, cyclePreviewTime)
  {
  }

  /**
   * Outside preview mode the status line and the cycle state agree: the line
   * shows a temperature exactly when the cycle state is not Disabled, and it
   * names the reason (Disabled or Blocked) otherwise.
   */
  lemma StatusAgreesWithCycleState(isCyclePreviewRunning: bool, isEnabled: bool, isBlocked: bool,
                                   temperature: int, minTemperature: int, maxTemperature: int,
                                   cyclePreviewTime: DayCycle.DateTime)
    ensures StatusOf(false, isCyclePreviewRunning, isEnabled, isBlocked, temperature, cyclePreviewTime).Realtime?
            <==> DayCycle.CycleStateOf(isEnabled, isBlocked, temperature, minTemperature, maxTemperature) != DayCycle.Disabled
    ensures (StatusOf(false, isCyclePreviewRunning, isEnabled, isBlocked, temperature, cyclePreviewTime).Disabled? ||
             StatusOf(false, isCyclePreviewRunning, isEnabled, isBlocked, temperature, cyclePreviewTime).Blocked?)
            <==> DayCycle.CycleStateOf(isEnabled, isBlocked, temperature, minTemperature, maxTemperature) == DayCycle.Disabled
  {
  }
}
