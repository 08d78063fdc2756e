/**
 * The two alarm windows (Ergonomy/UI/PrimaryAlarmForm.cs and
 * Ergonomy/UI/SecondaryAlarmForm.cs), reduced to the state that decides how and
 * when they close. Timer ticks and the closing of a form are event methods; a
 * Windows Forms timer only ticks while enabled and a closed form receives no
 * further events, which the `requires` clauses of the handlers state.
 */
module AlarmForms {
  import opened Wrappers
  import opened Time
  import opened Settings

  /**
   * The primary alarm: it closes itself after `PrimaryAlarmAutoCloseSeconds`
   * unless the user closes it first, and reports to its owner whether the close
   * was the user's.
   */
  class PrimaryAlarmForm {
    const autoCloseIntervalMs: int
    /** The index of the picture shown, among the `imageCount` pictures found; None when there are none. */
    const imageIndex: Option<nat>
    var isAutoClosing: bool
    var autoCloseTimerEnabled: bool
    var closed: bool

    /** The flag is only ever set on the way to closing, and a closed form's timer is stopped. */
    ghost predicate Valid()
      reads this
    {
      (isAutoClosing ==> closed) && (closed ==> !autoCloseTimerEnabled)
    }

    /**
     * Opens the form: picks picture `randomPick` when there is any (the random
     * generator draws from [0, imageCount)), and starts the auto-close timer.
     * Setting an interval below 1 ms makes the timer throw, so the setting must
     * give at least 1 ms.
     */
    constructor (settings: AppSettings, imageCount: nat, randomPick: nat)
      requires IntervalMs(settings.primaryAlarmAutoCloseSeconds) >= 1
      requires imageCount > 0 ==> randomPick < imageCount
      ensures Valid()
      ensures !isAutoClosing && autoCloseTimerEnabled && !closed
      ensures autoCloseIntervalMs == IntervalMs(settings.primaryAlarmAutoCloseSeconds)
      ensures imageIndex == (if imageCount > 0 then Some(randomPick) else None)
      ensures imageIndex.Some? ==> imageIndex.value < imageCount
    {
      imageIndex := if imageCount > 0 then Some(randomPick) else None;
      autoCloseIntervalMs := IntervalMs(settings.primaryAlarmAutoCloseSeconds);
      isAutoClosing := false;
      autoCloseTimerEnabled := true;
      closed := false;
    }

    /**
     * The form closes, for whatever reason: the timer is stopped, and the owner
     * is told it was a user close unless the auto-close flag is set.
     */
    method Close() returns (isUserClose: bool)
      requires !closed
      modifies this
      ensures Valid()
      ensures closed && !autoCloseTimerEnabled
      ensures isAutoClosing == old(isAutoClosing)
      ensures isUserClose == !old(isAutoClosing)
    {
      closed := true;
      autoCloseTimerEnabled := false;
      isUserClose := !isAutoClosing;
    }

    /** The auto-close timer elapses: the flag is set first, then the form closes, as an automatic close. */
    method OnAutoCloseTimerTick() returns (isUserClose: bool)
      requires Valid() && autoCloseTimerEnabled && !closed
      modifies this
      ensures Valid()
      ensures closed && !autoCloseTimerEnabled && isAutoClosing
      ensures !isUserClose
    {
      isAutoClosing := true;
      isUserClose := Close();
    }
  }

  /** Where a secondary alarm is in its life. */
  datatype SecondaryPhase = Unclosable | Closable | Closed

  /**
   * The secondary alarm: it shows no window buttons for
   * `SecondaryAlarmUnclosableSeconds`, then shows them and closes itself after
   * a further `SecondaryAlarmAutoCloseSeconds`.
   */
  class SecondaryAlarmForm {
    const unclosableIntervalMs: int
    const autoCloseIntervalMs: int
    var controlBox: bool
    var unclosableTimerEnabled: bool
    var autoCloseTimerEnabled: bool
    var closed: bool

    /** At most one timer runs, the auto-close timer only once the buttons are back, and none after closing. */
    ghost predicate Valid()
      reads this
    {
      && (unclosableTimerEnabled ==> !controlBox && !autoCloseTimerEnabled)
      && (autoCloseTimerEnabled ==> controlBox)
      && (closed ==> !unclosableTimerEnabled && !autoCloseTimerEnabled)
    }

    ghost function Phase(): SecondaryPhase
      reads this
    {
      if closed then Closed else if controlBox then Closable else Unclosable
    }

    /**
     * Opens the form without window buttons, with the unclosable timer running
     * and the auto-close timer created but stopped. Both intervals must be at
     * least 1 ms, or setting them throws.
     */
    constructor (settings: AppSettings)
      requires IntervalMs(settings.secondaryAlarmUnclosableSeconds) >= 1
      requires IntervalMs(settings.secondaryAlarmAutoCloseSeconds) >= 1
      ensures Valid() && Phase() == Unclosable
      ensures !controlBox && unclosableTimerEnabled && !autoCloseTimerEnabled && !closed
      ensures unclosableIntervalMs == IntervalMs(settings.secondaryAlarmUnclosableSeconds)
      ensures autoCloseIntervalMs == IntervalMs(settings.secondaryAlarmAutoCloseSeconds)
    {
      controlBox := false;
      unclosableIntervalMs := IntervalMs(settings.secondaryAlarmUnclosableSeconds);
      unclosableTimerEnabled := true;
      autoCloseIntervalMs := IntervalMs(settings.secondaryAlarmAutoCloseSeconds);
      autoCloseTimerEnabled := false;
      closed := false;
    }

    /** The unclosable period ends: buttons back, unclosable timer stopped, auto-close timer started. */
    method OnUnclosableTimerTick()
      requires Valid() && unclosableTimerEnabled && !closed
      modifies this
      ensures Valid() && old(Phase()) == Unclosable && Phase() == Closable
      ensures controlBox && !unclosableTimerEnabled && autoCloseTimerEnabled && !closed
    {
      controlBox := true;
      unclosableTimerEnabled := false;
      autoCloseTimerEnabled := true;
    }

    /**
     * The form closes, for whatever reason; both timers are stopped. Nothing in
     * the form refuses a close while the buttons are hidden.
     */
    method Close()
      requires !closed
      modifies this
      ensures Valid() && Phase() == Closed
      ensures closed && !unclosableTimerEnabled && !autoCloseTimerEnabled
      ensures controlBox == old(controlBox)
    {
      closed := true;
      unclosableTimerEnabled := false;
      autoCloseTimerEnabled := false;
    }

    /** The auto-close timer elapses and closes the form; this can only happen after the unclosable period. */
    method OnAutoCloseTimerTick()
      requires Valid() && autoCloseTimerEnabled && !closed
      modifies this
      ensures old(Phase()) == Closable && Phase() == Closed
      ensures Valid() && closed && !unclosableTimerEnabled && !autoCloseTimerEnabled
    {
      Close();
    }
  }
}
