# LightBulb main view model: enable, block and cycle status

LightBulb shifts the display's colour temperature over the day. Its main view
model (`LightBulb/ViewModels/MainViewModel.cs`) decides whether the temperature
service runs in realtime mode and what the tray shows about it. It keeps two
flags:

- **IsEnabled** is set by the user directly, by the toggle command, or by a
  temporary disable whose timer re-enables the program.
- **IsBlocked** follows the fullscreen detector when fullscreen blocking is
  configured.

The service's realtime switch is kept equal to `IsEnabled && !IsBlocked`.
Whenever the service updates, and once a minute, the view model recomputes
three displayed values:
- the cycle state: Disabled, Day, Night or Transition;
- the position within the day;
- the status line.

The project has four modules:

- `DayCycle` (`day_cycle.dfy`) holds the cycle state and the cycle position as
  pure functions of the flags, the service's readings and the clocks.
  Time is whole minutes. A position `p` stands for the fraction `p / 1440` of
  the day.
- `StatusDisplay` (`status_display.dfy`) holds the status line. It is a
  datatype with one constructor per kind of line, and the function that picks
  the line by the program's fixed priority.
- `EnableState` (`enable_state.dfy`) holds the enable/block state machine on
  values. Each command and handler is a function on `Flags`, which combines:
  - the enabled flag;
  - the blocked flag;
  - the service's realtime switch;
  - the timer, recorded as running or not plus its period.

  The module proves:
  - the invariant `Valid`, whose two parts are "realtime exactly when enabled
    and not blocked" and "a running timer means disabled";
  - that every handler preserves it;
  - by induction over any sequence of events, that it holds from construction
    on;
  - that the timer re-enables the program at most once per temporary disable.
- `ViewModels` (`view_models.dfy`) holds the classes `TemperatureService` and
  `MainViewModel`. Their fields are updated in place, in the program's order.
  - Each setter, command and handler is proved to leave the flags exactly as
    the matching `EnableState` function does.
  - Each setter is proved to raise a PropertyChanged notification exactly
    when the value changes, as MvvmLight's `Set` does.
  - Each update method stores the value of the matching pure function.

The cycle state depends only on IsEnabled, IsBlocked and the temperature;
only the status line and the position read the preview flags.

## Model

| member | source | states |
|---|---|---|
| DayCycle.TimeOfDay | LightBulb/ViewModels/MainViewModel.cs:245 | the time of day is below one day and differs from the instant by whole days |
| DayCycle.CycleStateOf | LightBulb/ViewModels/MainViewModel.cs:201-222 | Disabled iff not enabled or blocked; otherwise Day iff temperature >= max, Night iff below max and <= min, Transition iff strictly between; total, with Day tested first |
| DayCycle.CyclePositionOf | LightBulb/ViewModels/MainViewModel.cs:225-247 | position is always in [0, 1); preview running gives the preview clock's time of day, preview idle gives 0, disabled or blocked gives 0, realtime gives the wall clock's time of day |
| DayCycle.StateConsistentWithTemperature | LightBulb/ViewModels/MainViewModel.cs:210-221 | with min < max and the program active, the max temperature is Day, the min temperature is Night, and Transition lies strictly between the bounds |
| DayCycle.DayBeforeNight | LightBulb/ViewModels/MainViewModel.cs:210-217 | when a temperature meets both bounds, the state is Day |
| DayCycle.DisabledMeansZeroPosition | LightBulb/ViewModels/MainViewModel.cs:233-241 | outside preview mode, a Disabled cycle state goes with position 0 |
| DayCycle.ClockIndependence | LightBulb/ViewModels/MainViewModel.cs:225-247 | the preview clock matters only while the preview runs, and the wall clock only in realtime mode |
| DayCycle.PositionWrapsDaily | LightBulb/ViewModels/MainViewModel.cs:245 | instants a whole number of days apart give the same realtime position |
| StatusDisplay.StatusOf | LightBulb/ViewModels/MainViewModel.cs:171-199 | exactly one kind of line, chosen in the order preview running, preview, Disabled, Blocked, realtime; temperature lines carry the service temperature, the running-preview line the preview time of day |
| StatusDisplay.DisabledBeforeBlocked | LightBulb/ViewModels/MainViewModel.cs:184-193 | a disabled and blocked program shows "Disabled" |
| StatusDisplay.PreviewIgnoresFlags | LightBulb/ViewModels/MainViewModel.cs:173-183 | in preview mode the line does not depend on the enabled or blocked flags |
| StatusDisplay.StatusAgreesWithCycleState | LightBulb/ViewModels/MainViewModel.cs:185-206 | outside preview the line shows a temperature iff the cycle state is not Disabled, and names Disabled or Blocked iff it is |
| EnableState.SetEnabled | LightBulb/ViewModels/MainViewModel.cs:36-46 | the flag takes the value; assigning the current value changes nothing; a changing assignment sets realtime to enabled and not blocked; enabling stops the timer, disabling leaves it; the invariant is preserved |
| EnableState.SetBlocked | LightBulb/ViewModels/MainViewModel.cs:51-60 | the flag takes the value; assigning the current value changes nothing; a changing assignment sets realtime to enabled and not blocked; enabled flag and timer untouched; the invariant is preserved |
| EnableState.Toggle | LightBulb/ViewModels/MainViewModel.cs:147-150 | negates the enabled flag, leaves the block, realtime equals enabled and not blocked afterwards; an enabled result has no running timer, a disabled result keeps the timer as it was, and the period is always kept |
| EnableState.DisableTemporarily | LightBulb/ViewModels/MainViewModel.cs:151-157 | afterwards the program is disabled and the timer runs with exactly the new period, whatever ran before; realtime is off when the program was enabled |
| EnableState.TimerTick | LightBulb/ViewModels/MainViewModel.cs:124-127 | a tick of a running timer assigns IsEnabled = true, which under the invariant enables the program and stops the timer; a stopped timer changes nothing |
| EnableState.UpdateBlock | LightBulb/ViewModels/MainViewModel.cs:164-166 | blocked iff fullscreen blocking is set and the foreground is fullscreen; enabled flag and timer untouched |
| EnableState.Initial | LightBulb/ViewModels/MainViewModel.cs:159-161 | after construction the program is enabled, unblocked, in realtime mode with no timer running, and the invariant holds |
| EnableState.UnblockRestoresRealtime | LightBulb/ViewModels/MainViewModel.cs:56-58 | blocking then unblocking leaves realtime equal to the enabled flag, and restores the starting state if it was unblocked |
| EnableState.ToggleTwice | LightBulb/ViewModels/MainViewModel.cs:147-150 | toggling twice returns to the starting state except that a pending temporary disable is cancelled |
| EnableState.LastDisableWins | LightBulb/ViewModels/MainViewModel.cs:151-157 | a second temporary disable leaves the same state as if only it had happened |
| EnableState.StepValid | LightBulb/ViewModels/MainViewModel.cs:36-60 | every handler preserves the invariant |
| EnableState.RunValid | LightBulb/ViewModels/MainViewModel.cs:41-58 | any sequence of handler calls preserves the invariant (induction on the sequence) |
| EnableState.ReachableValid | LightBulb/ViewModels/MainViewModel.cs:159-161 | every state reachable from construction satisfies the invariant: realtime mode runs iff enabled and not blocked, and a running timer means disabled |
| EnableState.AtMostOneReenablePerArming | LightBulb/ViewModels/MainViewModel.cs:124-157 | in any sequence of events, the ticks that re-enable the program, plus one if the timer is still running, never exceed the temporary disables plus one if it was running at the start |
| EnableState.CycleDisabledIffNotRealtime | LightBulb/ViewModels/MainViewModel.cs:201-207 | under the invariant the cycle state is Disabled exactly when the service is out of realtime mode |
| ViewModels.MainViewModel.constructor | LightBulb/ViewModels/MainViewModel.cs:96-162 | the flags are those of `Initial`; the invariant holds, the service is in realtime mode, and one IsEnabled notification was raised |
| ViewModels.MainViewModel.SetIsEnabled | LightBulb/ViewModels/MainViewModel.cs:36-46 | flags move as `SetEnabled`; an IsEnabled notification is raised iff the value changed |
| ViewModels.MainViewModel.SetIsBlocked | LightBulb/ViewModels/MainViewModel.cs:51-60 | flags move as `SetBlocked`; an IsBlocked notification is raised iff the value changed |
| ViewModels.MainViewModel.ToggleEnabled | LightBulb/ViewModels/MainViewModel.cs:147-150 | flags move as `Toggle`; exactly one IsEnabled notification |
| ViewModels.MainViewModel.DisableTemporarily | LightBulb/ViewModels/MainViewModel.cs:151-157 | flags move as `DisableTemporarily`; notified iff the program was enabled |
| ViewModels.MainViewModel.DisableTemporarilyTimerTick | LightBulb/ViewModels/MainViewModel.cs:123-127 | flags move as `TimerTick`; notified iff the program was disabled |
| ViewModels.MainViewModel.UpdateBlock | LightBulb/ViewModels/MainViewModel.cs:164-169 | flags move as `UpdateBlock`; blocked iff blocking is configured and the foreground is fullscreen |
| ViewModels.MainViewModel.UpdateStatusText | LightBulb/ViewModels/MainViewModel.cs:171-199 | stores `StatusOf` of the current flags and readings; notified iff the text changed |
| ViewModels.MainViewModel.UpdateCycleState | LightBulb/ViewModels/MainViewModel.cs:201-223 | stores `CycleStateOf`; notified iff the state changed |
| ViewModels.MainViewModel.UpdateCyclePosition | LightBulb/ViewModels/MainViewModel.cs:225-247 | stores `CyclePositionOf`, which lies in [0, 1); notified iff the position changed |
| ViewModels.MainViewModel.Refresh | LightBulb/ViewModels/MainViewModel.cs:104-122 | the Updated and one-minute handlers refresh status text, cycle state and position in that order, notify for each that changed, and leave the flags untouched |
| ViewModels.MainViewModel.Dispose | LightBulb/ViewModels/MainViewModel.cs:249-252 | the temporary-disable timer is stopped |

## Left out

- The temperature service is only represented by what the view model reads and writes: temperature, the two preview flags, the preview clock and the realtime switch. The temperature curve, gamma application and the service's reaction to the realtime switch (such as raising Updated) are not part of this model.
- The window service is the boolean `isForegroundFullScreen` passed to `UpdateBlock`. `Settings.Default` is the `Settings` value passed to the methods that read it. Loading and saving settings are not modelled.
- Clocks: `DateTime.Now` is a parameter of `UpdateCyclePosition` and `Refresh`. Times are whole minutes since a midnight. Seconds and finer time are not modelled, and neither is the `double` division `TotalHours/24`. A position is kept as minutes of the day over 1440.
- Timers: the one-minute status timer's schedule and the temporary-disable timer's wall-clock expiry are not modelled. A tick is a method call that is allowed only while the timer runs.
- `DisableTemporarily`: the period is a whole number of milliseconds. The command's `double` argument, fractions and negative values are not modelled.
- Status text formatting: the strings `"Temp: {T}K"` and the `:t` short-time format are represented by the `Status` constructors and their fields.
- The initial cycle state: the program's enum default is not visible here, so the model starts it at `Disabled`.
- `ShowMainWindowCommand`, `ExitApplicationCommand` and `AboutCommand` open windows, shut the application down and start a browser. They are UI calls and are not modelled.
- `Version`, `Debug.WriteLine`, and the event subscriptions in the constructor are not modelled. Handlers that run synchronously inside PropertyChanged notifications are not modelled either. The notification log records only the order of the names.
- `LightBulb/Locator.cs` is not part of this model. It registers services in a dependency-injection container and loads, saves and disposes them.
