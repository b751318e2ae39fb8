/**
 * The main view model as an object. Its fields are the program's fields
 * (`_isEnabled`, `_isBlocked`, the temporary-disable timer and the three
 * displayed values); the temperature service is a separate object whose
 * realtime switch the view model writes and whose readings it only reads.
 *
 * Every property setter of the program goes through MvvmLight's `Set`:
 * compare, and when the value differs, assign it and raise PropertyChanged
 * with the property's name. The `notified` log records those notifications.
 * Each state-changing method is proved to move the flags exactly as the
 * matching function of module EnableState does, so the invariant and the
 * trace lemmas proved there hold of the object.
 */
module ViewModels {
  import opened EnableState
  import DayCycle
  import StatusDisplay

  datatype Option<T> = None | Some(value: T)

  /** The settings the view model reads: the fullscreen-blocking switch and the temperature bounds. */
  datatype Settings = Settings(isFullscreenBlocking: bool, minTemperature: int, maxTemperature: int)

  /** Names carried by the view model's PropertyChanged notifications. */
  datatype Property =
    | IsEnabledProperty
    | IsBlockedProperty
    | StatusTextProperty
    | CycleStateProperty
    | CyclePositionProperty

  /**
   * The temperature service as the view model sees it: readings it computes
   * elsewhere (temperature, preview flags, preview clock) and the realtime
   * switch the view model sets.
   */
  class TemperatureService {
    var temperature: int
    var isPreviewModeEnabled: bool
    var isCyclePreviewRunning: bool
    var cyclePreviewTime: DayCycle.DateTime
    var isRealtimeModeEnabled: bool

    constructor (temperature: int, isPreviewModeEnabled: bool, isCyclePreviewRunning: bool,
                 cyclePreviewTime: DayCycle.DateTime, isRealtimeModeEnabled: bool)
      ensures this.temperature == temperature
      ensures this.isPreviewModeEnabled == isPreviewModeEnabled
      ensures this.isCyclePreviewRunning == isCyclePreviewRunning
      ensures this.cyclePreviewTime == cyclePreviewTime
      ensures this.isRealtimeModeEnabled == isRealtimeModeEnabled
    {
      this.temperature := temperature;
      this.isPreviewModeEnabled := isPreviewModeEnabled;
      this.isCyclePreviewRunning := isCyclePreviewRunning;
      this.cyclePreviewTime := cyclePreviewTime;
      this.isRealtimeModeEnabled := isRealtimeModeEnabled;
    }
  }

  class MainViewModel {
    const temperatureService: TemperatureService

    var isEnabled: bool
    var isBlocked: bool
    var disableTemporarilyTimer: Timer
    var statusText: Option<StatusDisplay.Status>  // None until the first update, as the program's null
    var cycleState: DayCycle.CycleState
    var cyclePosition: nat                        // minutes of the day: the position is cyclePosition / 1440
    var notified: seq<Property>

    /** The flags the enable/block state machine speaks about. */
    ghost function State(): Flags
      reads this, temperatureService
    {
      Flags(isEnabled, isBlocked, temperatureService.isRealtimeModeEnabled, disableTemporarilyTimer)
    }

    /**
     * Subscribes to the service and timers (not modelled), then assigns true
     * to IsEnabled, which switches the service into realtime mode.
     */
    constructor (temperatureService: TemperatureService)
      modifies temperatureService`isRealtimeModeEnabled
      ensures this.temperatureService == temperatureService
      ensures State() == Initial(old(temperatureService.isRealtimeModeEnabled))
      ensures Valid(State()) && temperatureService.isRealtimeModeEnabled
      ensures statusText == None && cycleState == DayCycle.Disabled && cyclePosition == 0
      ensures notified == [IsEnabledProperty]
    {
      this.temperatureService := temperatureService;
      isEnabled := false;
      isBlocked := false;
      disableTemporarilyTimer := Timer(false, 0);
      statusText := None;
      cycleState := DayCycle.Disabled;
      cyclePosition := 0;
      notified := [];
      new;
      SetIsEnabled(true);
    }

    /** The IsEnabled setter. */
    method SetIsEnabled(value: bool)
      modifies this`isEnabled, this`disableTemporarilyTimer, this`notified
      modifies temperatureService`isRealtimeModeEnabled
      ensures State() == SetEnabled(old(State()), value)
      ensures notified == old(notified) + if old(isEnabled) != value then [IsEnabledProperty] else []
    {
      if isEnabled == value {
        return;
      }
      isEnabled := value;
      notified := notified + [IsEnabledProperty];
      if value {
        disableTemporarilyTimer := disableTemporarilyTimer.(armed := false);
      }
      temperatureService.isRealtimeModeEnabled := value && !isBlocked;
    }

    /** The (private) IsBlocked setter. */
    method SetIsBlocked(value: bool)
      modifies this`isBlocked, this`notified
      modifies temperatureService`isRealtimeModeEnabled
      ensures State() == SetBlocked(old(State()), value)
      ensures notified == old(notified) + if old(isBlocked) != value then [IsBlockedProperty] else []
    {
      if isBlocked == value {
        return;
      }
      isBlocked := value;
      notified := notified + [IsBlockedProperty];
      temperatureService.isRealtimeModeEnabled := !value && isEnabled;
    }

    /** ToggleEnabledCommand. */
    method ToggleEnabled()
      modifies this`isEnabled, this`disableTemporarilyTimer, this`notified
      modifies temperatureService`isRealtimeModeEnabled
      ensures State() == Toggle(old(State()))
      ensures notified == old(notified) + [IsEnabledProperty]
    {
      SetIsEnabled(!isEnabled);
    }

    /** DisableTemporarilyCommand, with the period in whole milliseconds. */
    method DisableTemporarily(ms: nat)
      modifies this`isEnabled, this`disableTemporarilyTimer, this`notified
      modifies temperatureService`isRealtimeModeEnabled
      ensures State() == EnableState.DisableTemporarily(old(State()), ms)
      ensures notified == old(notified) + if old(isEnabled) then [IsEnabledProperty] else []
    {
      disableTemporarilyTimer := disableTemporarilyTimer.(armed := false);
      disableTemporarilyTimer := disableTemporarilyTimer.(interval := ms);
      SetIsEnabled(false);
      disableTemporarilyTimer := disableTemporarilyTimer.(armed := true);
    }

    /** The temporary-disable timer's Tick handler; only a running timer ticks. */
    method DisableTemporarilyTimerTick()
      requires disableTemporarilyTimer.armed
      modifies this`isEnabled, this`disableTemporarilyTimer, this`notified
      modifies temperatureService`isRealtimeModeEnabled
      ensures State() == TimerTick(old(State()))
      ensures notified == old(notified) + if old(isEnabled) then [] else [IsEnabledProperty]
    {
      SetIsEnabled(true);
    }

    /** The window service's FullScreenStateChanged handler. */
    method UpdateBlock(settings: Settings, isForegroundFullScreen: bool)
      modifies this`isBlocked, this`notified
      modifies temperatureService`isRealtimeModeEnabled
      ensures State() == EnableState.UpdateBlock(old(State()), settings.isFullscreenBlocking, isForegroundFullScreen)
      ensures isBlocked == (settings.isFullscreenBlocking && isForegroundFullScreen)
      ensures notified == old(notified) + if old(isBlocked) != isBlocked then [IsBlockedProperty] else []
    {
      SetIsBlocked(settings.isFullscreenBlocking && isForegroundFullScreen);
    }

    method UpdateStatusText()
      modifies this`statusText, this`notified
      ensures statusText == Some(StatusDisplay.StatusOf(
                temperatureService.isPreviewModeEnabled, temperatureService.isCyclePreviewRunning,
                isEnabled, isBlocked, temperatureService.temperature, temperatureService.cyclePreviewTime))
      ensures notified == old(notified) + if old(statusText) != statusText then [StatusTextProperty] else []
    {
      var text := StatusDisplay.StatusOf(
        temperatureService.isPreviewModeEnabled, temperatureService.isCyclePreviewRunning,
        isEnabled, isBlocked, temperatureService.temperature, temperatureService.cyclePreviewTime);
      if statusText != Some(text) {
        statusText := Some(text);
        notified := notified + [StatusTextProperty];
      }
    }

    method UpdateCycleState(settings: Settings)
      modifies this`cycleState, this`notified
      ensures cycleState == DayCycle.CycleStateOf(isEnabled, isBlocked, temperatureService.temperature,
                                                  settings.minTemperature, settings.maxTemperature)
      ensures notified == old(notified) + if old(cycleState) != cycleState then [CycleStateProperty] else []
    {
      var state := DayCycle.CycleStateOf(isEnabled, isBlocked, temperatureService.temperature,
                                         settings.minTemperature, settings.maxTemperature);
      if cycleState != state {
        cycleState := state;
        notified := notified + [CycleStateProperty];
      }
    }

    /** `now` is the wall clock the program reads at this point. */
    method UpdateCyclePosition(now: DayCycle.DateTime)
      modifies this`cyclePosition, this`notified
      ensures cyclePosition == DayCycle.CyclePositionOf(
                temperatureService.isPreviewModeEnabled, temperatureService.isCyclePreviewRunning,
                isEnabled, isBlocked, temperatureService.cyclePreviewTime, now)
      ensures cyclePosition < DayCycle.MinutesPerDay
      ensures notified == old(notified) + if old(cyclePosition) != cyclePosition then [CyclePositionProperty] else []
    {
      var position := DayCycle.CyclePositionOf(
        temperatureService.isPreviewModeEnabled, temperatureService.isCyclePreviewRunning,
        isEnabled, isBlocked, temperatureService.cyclePreviewTime, now);
      if cyclePosition != position {
        cyclePosition := position;
        notified := notified + [CyclePositionProperty];
      }
    }

    /**
     * What both the service's Updated event and the one-minute status timer
     * do: refresh the three displayed values in this order. The flags are
     * untouched.
     */
    method Refresh(settings: Settings, now: DayCycle.DateTime)
      modifies this`statusText, this`cycleState, this`cyclePosition, this`notified
      ensures statusText == Some(StatusDisplay.StatusOf(
                temperatureService.isPreviewModeEnabled, temperatureService.isCyclePreviewRunning,
                isEnabled, isBlocked, temperatureService.temperature, temperatureService.cyclePreviewTime))
      ensures cycleState == DayCycle.CycleStateOf(isEnabled, isBlocked, temperatureService.temperature,
                                                  settings.minTemperature, settings.maxTemperature)
      ensures cyclePosition == DayCycle.CyclePositionOf(
                temperatureService.isPreviewModeEnabled, temperatureService.isCyclePreviewRunning,
                isEnabled, isBlocked, temperatureService.cyclePreviewTime, now)
      ensures notified == old(notified)
                + (if old(statusText) != statusText then [StatusTextProperty] else [])
                + (if old(cycleState) != cycleState then [CycleStateProperty] else [])
                + (if old(cyclePosition) != cyclePosition then [CyclePositionProperty] else [])
      ensures State() == old(State())
    {
      UpdateStatusText();
      UpdateCycleState(settings);
      UpdateCyclePosition(now);
    }

    /** Dispose: the timer is disposed, so it will not tick again. */
    method Dispose()
      modifies this`disableTemporarilyTimer
      ensures disableTemporarilyTimer == old(disableTemporarilyTimer).(armed := false)
    {
      disableTemporarilyTimer := disableTemporarilyTimer.(armed := false);
    }
  }

  /**
   * A short run of the view model: construct, block on a fullscreen window,
   * disable temporarily, unblock, and let the timer fire. Everything asserted
   * follows from the contracts above.
   */
  method Scenario(settings: Settings, now: DayCycle.DateTime)
    requires settings.isFullscreenBlocking && settings.minTemperature < settings.maxTemperature
  {
    var service := new TemperatureService(settings.maxTemperature, false, false, 0, false);
    var vm := new MainViewModel(service);
    assert service.isRealtimeModeEnabled;

    vm.UpdateBlock(settings, true);
    assert vm.isBlocked && !service.isRealtimeModeEnabled;
    vm.Refresh(settings, now);
    assert vm.statusText == Some(StatusDisplay.Blocked) && vm.cycleState == DayCycle.Disabled;

    vm.DisableTemporarily(60000);
    vm.DisableTemporarily(5000);
    assert vm.disableTemporarilyTimer == Timer(true, 5000) && !vm.isEnabled;

    vm.UpdateBlock(settings, false);
    assert !vm.isBlocked && !service.isRealtimeModeEnabled;

    vm.DisableTemporarilyTimerTick();
    assert vm.isEnabled && !vm.disableTemporarilyTimer.armed && service.isRealtimeModeEnabled;
    vm.Refresh(settings, now);
    assert vm.statusText == Some(StatusDisplay.Realtime(settings.maxTemperature));
    assert vm.cycleState == DayCycle.Day;
    assert Valid(vm.State());
  }
}
