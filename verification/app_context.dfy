/**
 * The in-process controller (Ergonomy/MainApplicationContext.cs).
 *
 * Every second it adds the two alarm-window durations of the edge-triggered
 * monitor; when the sum reaches the activity threshold (inclusive) and no alarm
 * is showing, it resets the alarm windows and shows an alarm, primary or
 * secondary as the escalation rules choose. The close callback of that alarm
 * updates the counters and clears the in-flight flag. The ghost field
 * `shownAlarm` stands for the alarm window whose close callback is pending.
 */
module AppContext {
  import opened Wrappers
  import opened Time
  import opened Settings
  import opened Escalation
  import opened InputHook
  import EdgeMonitor
  import DataLogging

  /**
   * Whether the combined alarm-window activity reaches the threshold
   * (inclusive): comparing whole ticks with the threshold in ticks decides
   * exactly as comparing the fractional seconds with the threshold does.
   */
  predicate ThresholdReached(alarmKeyboard: int, alarmMouse: int, thresholdSeconds: int)
    ensures ThresholdReached(alarmKeyboard, alarmMouse, thresholdSeconds)
        <==> TotalSeconds(alarmKeyboard + alarmMouse) >= thresholdSeconds as real
  {
    alarmKeyboard + alarmMouse >= thresholdSeconds * TicksPerSecond
  }

  /** Exactly reaching the threshold fires; one tick less does not. */
  lemma ThresholdIsInclusive(alarmKeyboard: int, thresholdSeconds: int)
    ensures ThresholdReached(alarmKeyboard, thresholdSeconds * TicksPerSecond - alarmKeyboard, thresholdSeconds)
    ensures !ThresholdReached(alarmKeyboard, thresholdSeconds * TicksPerSecond - alarmKeyboard - 1, thresholdSeconds)
  {
  }

  /** How a primary alarm's close callback argument reads as an outcome. */
  function OutcomeOfClose(isUserClose: bool): (o: Outcome)
    ensures o == UserDismissed <==> isUserClose
  {
    if isUserClose then UserDismissed else TimedOut
  }

  class MainApplicationContext {
    const settings: AppSettings
    const monitor: EdgeMonitor.ActivityMonitor
    const logger: DataLogging.DataLogger
    var sessionCloseCounter: int
    var totalCloseCounter: int
    var isAlarmActive: bool
    var activityTimerEnabled: bool
    ghost var shownAlarm: Option<Level>

    function Counters(): Counters
      reads this
    {
      Escalation.Counters(sessionCloseCounter, totalCloseCounter)
    }

    /**
     * The logger reads this controller's monitor; the flag is set exactly while
     * an alarm is showing; the counters are within limit; and a primary alarm is
     * only ever showing while the session count is below the limit.
     */
    ghost predicate Valid()
      reads this
    {
      && logger.monitor == monitor
      && (isAlarmActive <==> shownAlarm.Some?)
      && WithinLimit(Counters(), settings.sessionCloseLimit)
      && (shownAlarm == Some(Primary) ==> sessionCloseCounter < settings.sessionCloseLimit)
    }

    /** The close-count getter handed to the logger. */
    function GetTotalCloseCounter(): int
      reads this
    {
      totalCloseCounter
    }

    /**
     * Starts up with the loaded `appSettings`: a new monitor, started at `now`
     * with the hook handles the system returns; a logger over it, started; the
     * one-second activity timer, started; counters at zero and no alarm.
     */
    constructor (appSettings: AppSettings, now: int, keyboardHandle: int, mouseHandle: int)
      ensures Valid()
      ensures settings == appSettings && fresh(monitor) && fresh(monitor.hook) && fresh(logger)
      ensures sessionCloseCounter == 0 && totalCloseCounter == 0 && !isAlarmActive
      ensures activityTimerEnabled && logger.timerEnabled
      ensures monitor.lastKeyboardActivity == now && monitor.lastMouseActivity == now
      ensures monitor.alarmKeyboardActiveTime == 0 && monitor.alarmMouseActiveTime == 0
      ensures monitor.totalKeyboardActiveTime == 0 && monitor.totalMouseActiveTime == 0
      ensures monitor.hook.keyboardHookHandle == keyboardHandle && monitor.hook.mouseHookHandle == mouseHandle
    {
      settings := appSettings;
      var m := new EdgeMonitor.ActivityMonitor();
      m.Start(now, keyboardHandle, mouseHandle);
      var l := new DataLogging.DataLogger(m);
      l.Start();
      monitor, logger := m, l;
      sessionCloseCounter, totalCloseCounter := 0, 0;
      isAlarmActive := false;
      shownAlarm := None;
      activityTimerEnabled := true;
    }

    /**
     * The one-second activity timer ticks. While an alarm shows nothing happens.
     * Otherwise, exactly when the alarm windows together reach the threshold,
     * they are reset and an alarm is shown at the level the session count
     * selects. The counters never change here, nor does anything else of the
     * monitor.
     */
    method OnActivityTimerTick() returns (shown: Option<Level>)
      requires Valid()
      modifies this, monitor
      ensures Valid()
      ensures Counters() == old(Counters())
      ensures old(isAlarmActive) ==> shown == None && isAlarmActive && shownAlarm == old(shownAlarm)
      ensures !old(isAlarmActive) ==>
        (shown.Some? <==> ThresholdReached(old(monitor.alarmKeyboardActiveTime), old(monitor.alarmMouseActiveTime),
                                           settings.activityThresholdSeconds))
      ensures shown.Some? ==> shown == Some(ChooseLevel(sessionCloseCounter, settings.sessionCloseLimit))
                              && isAlarmActive && shownAlarm == shown
                              && monitor.alarmKeyboardActiveTime == 0 && monitor.alarmMouseActiveTime == 0
      ensures shown.None? ==> isAlarmActive == old(isAlarmActive)
                              && monitor.alarmKeyboardActiveTime == old(monitor.alarmKeyboardActiveTime)
                              && monitor.alarmMouseActiveTime == old(monitor.alarmMouseActiveTime)
      ensures monitor.totalKeyboardActiveTime == old(monitor.totalKeyboardActiveTime)
      ensures monitor.totalMouseActiveTime == old(monitor.totalMouseActiveTime)
      ensures monitor.lastKeyboardActivity == old(monitor.lastKeyboardActivity)
      ensures monitor.lastMouseActivity == old(monitor.lastMouseActivity)
      ensures activityTimerEnabled == old(activityTimerEnabled)
    {
      if isAlarmActive {
        return None;
      }
      if ThresholdReached(monitor.alarmKeyboardActiveTime, monitor.alarmMouseActiveTime, settings.activityThresholdSeconds) {
        monitor.ResetAlarmTimers();
        var level := ShowAlarm();
        return Some(level);
      }
      return None;
    }

    /** Marks an alarm as active and shows it at the level the session count selects. */
    method ShowAlarm() returns (level: Level)
      requires Valid() && !isAlarmActive
      modifies this
      ensures Valid()
      ensures level == ChooseLevel(sessionCloseCounter, settings.sessionCloseLimit)
      ensures isAlarmActive && shownAlarm == Some(level)
      ensures Counters() == old(Counters()) && activityTimerEnabled == old(activityTimerEnabled)
    {
      isAlarmActive := true;
      level := ChooseLevel(sessionCloseCounter, settings.sessionCloseLimit);
      shownAlarm := Some(level);
    }

    /**
     * The primary alarm's close callback: a user close counts in both counters,
     * an automatic close in neither; either way no alarm is active any more.
     */
    method OnPrimaryAlarmClosed(isUserClose: bool)
      requires Valid() && shownAlarm == Some(Primary)
      modifies this
      ensures Valid()
      ensures Counters() == AfterClose(old(Counters()), Primary, OutcomeOfClose(isUserClose))
      ensures !isAlarmActive && shownAlarm == None
      ensures activityTimerEnabled == old(activityTimerEnabled)
    {
      if isUserClose {
        sessionCloseCounter := sessionCloseCounter + 1;
        totalCloseCounter := totalCloseCounter + 1;
      }
      isAlarmActive := false;
      shownAlarm := None;
    }

    /** The secondary alarm's close callback: the session count restarts and no alarm is active any more. */
    method OnSecondaryAlarmClosed()
      requires Valid() && shownAlarm == Some(Secondary)
      modifies this
      ensures Valid()
      ensures Counters() == AfterClose(old(Counters()), Secondary, TimedOut)
      ensures Counters() == AfterClose(old(Counters()), Secondary, UserDismissed)
      ensures !isAlarmActive && shownAlarm == None
      ensures activityTimerEnabled == old(activityTimerEnabled)
    {
      sessionCloseCounter := 0;
      isAlarmActive := false;
      shownAlarm := None;
    }

    /**
     * The logger's hourly tick, with this controller's close-count getter: the
     * sheet carries the monitor's report totals and the current total close
     * count; the controller's own state does not change.
     */
    method OnLogTimerElapsed(tehranTime: Option<DataLogging.LocalTime>, saveSucceeds: bool) returns (r: DataLogging.LogResult)
      requires Valid()
      modifies monitor
      ensures Valid()
      ensures r.Logged? <==> tehranTime.Some? && saveSucceeds
      ensures r.Logged? ==> r.fileName == DataLogging.FileName(tehranTime.value)
      ensures r.Logged? ==> r.sheet == DataLogging.ActivitySheet(old(monitor.totalKeyboardActiveTime),
                                                                 old(monitor.totalMouseActiveTime), totalCloseCounter)
      ensures r.Logged? ==> monitor.totalKeyboardActiveTime == 0 && monitor.totalMouseActiveTime == 0
      ensures monitor.alarmKeyboardActiveTime == old(monitor.alarmKeyboardActiveTime)
      ensures monitor.alarmMouseActiveTime == old(monitor.alarmMouseActiveTime)
    {
      r := logger.OnLogTimerElapsed(tehranTime, saveSucceeds, GetTotalCloseCounter());
    }

    /**
     * Shutting down: the hooks are removed and both timers stopped; no counter,
     * duration or timestamp is flushed or reset.
     */
    method ExitThreadCore()
      requires Valid()
      modifies this, monitor.hook, logger
      ensures Valid()
      ensures !activityTimerEnabled && !logger.timerEnabled
      ensures Counters() == old(Counters()) && isAlarmActive == old(isAlarmActive)
      ensures monitor.hook.nativeCalls == old(monitor.hook.nativeCalls)
        + [UnhookWindowsHookEx(monitor.hook.keyboardHookHandle), UnhookWindowsHookEx(monitor.hook.mouseHookHandle)]
    {
      monitor.Stop();
      logger.Stop();
      activityTimerEnabled := false;
    }
  }
}
