/**
 * The tick-sampled activity monitor (Ergonomy/Hooks/ActivityMonitor.cs).
 *
 * Input events only stamp their channel's last-activity time. Each channel has
 * its own one-second timer; when it elapses, the channel's total earns one
 * whole second if the last event on that channel is less than a second old.
 * Times are DateTime ticks (UTC); the current time `now` is a parameter of each
 * handler. The ghost counters record how many timer ticks each channel has had
 * since its total was last reset.
 */
module HookMonitor {
  import opened Time
  import opened InputHook

  /** Both channel timers fire every 1000 ms. */
  const TimerIntervalMs: int := 1000

  class ActivityMonitor {
    const hook: GlobalInputHook
    const keyboardTimerIntervalMs: int
    const mouseTimerIntervalMs: int
    var lastKeyboardActivity: int
    var lastMouseActivity: int
    var totalKeyboardActiveTime: int
    var totalMouseActiveTime: int
    var keyboardTimerEnabled: bool
    var mouseTimerEnabled: bool
    /** Whether the two activity handlers are subscribed to the hook's events. */
    var subscribed: bool
    ghost var keyboardTicks: nat
    ghost var mouseTicks: nat

    /**
     * Each total is a whole number of seconds, and no more seconds than its
     * channel's timer has ticked since the last reset.
     */
    ghost predicate Valid()
      reads this
    {
      && totalKeyboardActiveTime % TicksPerSecond == 0
      && 0 <= totalKeyboardActiveTime <= keyboardTicks * TicksPerSecond
      && totalMouseActiveTime % TicksPerSecond == 0
      && 0 <= totalMouseActiveTime <= mouseTicks * TicksPerSecond
    }

    /** Subscribes to `globalInputHook` and creates both timers, stopped. */
    constructor (globalInputHook: GlobalInputHook)
      ensures hook == globalInputHook && subscribed
      ensures keyboardTimerIntervalMs == TimerIntervalMs && mouseTimerIntervalMs == TimerIntervalMs
      ensures !keyboardTimerEnabled && !mouseTimerEnabled
      ensures totalKeyboardActiveTime == 0 && totalMouseActiveTime == 0
      ensures keyboardTicks == 0 && mouseTicks == 0
      ensures Valid()
    {
      hook := globalInputHook;
      keyboardTimerIntervalMs, mouseTimerIntervalMs := TimerIntervalMs, TimerIntervalMs;
      subscribed := true;
      keyboardTimerEnabled, mouseTimerEnabled := false, false;
      lastKeyboardActivity, lastMouseActivity := 0, 0;
      totalKeyboardActiveTime, totalMouseActiveTime := 0, 0;
      keyboardTicks, mouseTicks := 0, 0;
    }

    /** Stamps both channels with `now`, starts both timers and installs the hooks. */
    method Start(now: int, keyboardHandle: int, mouseHandle: int)
      requires Valid()
      modifies this, hook
      ensures Valid()
      ensures lastKeyboardActivity == now && lastMouseActivity == now
      ensures keyboardTimerEnabled && mouseTimerEnabled && subscribed == old(subscribed)
      ensures totalKeyboardActiveTime == old(totalKeyboardActiveTime) && totalMouseActiveTime == old(totalMouseActiveTime)
      ensures keyboardTicks == old(keyboardTicks) && mouseTicks == old(mouseTicks)
      ensures hook.keyboardHookHandle == keyboardHandle && hook.mouseHookHandle == mouseHandle
      ensures hook.nativeCalls == old(hook.nativeCalls) + [SetWindowsHookEx(WH_KEYBOARD_LL), SetWindowsHookEx(WH_MOUSE_LL)]
    {
      lastKeyboardActivity := now;
      lastMouseActivity := now;
      keyboardTimerEnabled := true;
      mouseTimerEnabled := true;
      hook.Start(keyboardHandle, mouseHandle);
    }

    /** Removes the hooks and stops both timers; totals and timestamps are kept. */
    method Stop()
      requires Valid()
      modifies this, hook
      ensures Valid()
      ensures !keyboardTimerEnabled && !mouseTimerEnabled && subscribed == old(subscribed)
      ensures totalKeyboardActiveTime == old(totalKeyboardActiveTime) && totalMouseActiveTime == old(totalMouseActiveTime)
      ensures lastKeyboardActivity == old(lastKeyboardActivity) && lastMouseActivity == old(lastMouseActivity)
      ensures keyboardTicks == old(keyboardTicks) && mouseTicks == old(mouseTicks)
      ensures hook.keyboardHookHandle == old(hook.keyboardHookHandle) && hook.mouseHookHandle == old(hook.mouseHookHandle)
      ensures hook.nativeCalls == old(hook.nativeCalls)
        + [UnhookWindowsHookEx(hook.keyboardHookHandle), UnhookWindowsHookEx(hook.mouseHookHandle)]
    {
      hook.Stop();
      keyboardTimerEnabled := false;
      mouseTimerEnabled := false;
    }

    /** Stops, then unsubscribes from the hook; totals and timestamps are kept. */
    method Dispose()
      requires Valid()
      modifies this, hook
      ensures Valid()
      ensures !keyboardTimerEnabled && !mouseTimerEnabled && !subscribed
      ensures totalKeyboardActiveTime == old(totalKeyboardActiveTime) && totalMouseActiveTime == old(totalMouseActiveTime)
      ensures lastKeyboardActivity == old(lastKeyboardActivity) && lastMouseActivity == old(lastMouseActivity)
      ensures hook.nativeCalls == old(hook.nativeCalls)
        + [UnhookWindowsHookEx(hook.keyboardHookHandle), UnhookWindowsHookEx(hook.mouseHookHandle)]
    {
      Stop();
      subscribed := false;
    }

    /** Zeroes both totals; timestamps and timers are untouched. */
    method ResetTotalTimers()
      requires Valid()
      modifies this
      ensures Valid()
      ensures totalKeyboardActiveTime == 0 && totalMouseActiveTime == 0
      ensures keyboardTicks == 0 && mouseTicks == 0
      ensures lastKeyboardActivity == old(lastKeyboardActivity) && lastMouseActivity == old(lastMouseActivity)
      ensures keyboardTimerEnabled == old(keyboardTimerEnabled) && mouseTimerEnabled == old(mouseTimerEnabled)
      ensures subscribed == old(subscribed)
    {
      totalKeyboardActiveTime := 0;
      totalMouseActiveTime := 0;
      keyboardTicks, mouseTicks := 0, 0;
    }

    /** A keyboard event at `now` only stamps the keyboard channel; it credits nothing. */
    method OnKeyboardActivity(now: int)
      requires Valid()
      modifies this`lastKeyboardActivity
      ensures Valid()
      ensures lastKeyboardActivity == now
    {
      lastKeyboardActivity := now;
    }

    /** A mouse event at `now` only stamps the mouse channel; it credits nothing. */
    method OnMouseActivity(now: int)
      requires Valid()
      modifies this`lastMouseActivity
      ensures Valid()
      ensures lastMouseActivity == now
    {
      lastMouseActivity := now;
    }

    /**
     * The keyboard timer elapses at `now`: the keyboard total earns one second
     * exactly when the last keyboard event is less than a second old. Nothing
     * else changes except the ghost tick count.
     */
    method OnKeyboardTimerElapsed(now: int)
      requires Valid()
      modifies this`totalKeyboardActiveTime, this`keyboardTicks
      ensures Valid()
      ensures keyboardTicks == old(keyboardTicks) + 1
      ensures totalKeyboardActiveTime ==
        old(totalKeyboardActiveTime) + (if now - lastKeyboardActivity < TicksPerSecond then TicksPerSecond else 0)
    {
      if now - lastKeyboardActivity < TicksPerSecond {
        totalKeyboardActiveTime := totalKeyboardActiveTime + TicksPerSecond;
      }
      keyboardTicks := keyboardTicks + 1;
    }

    /** The mouse counterpart of OnKeyboardTimerElapsed. */
    method OnMouseTimerElapsed(now: int)
      requires Valid()
      modifies this`totalMouseActiveTime, this`mouseTicks
      ensures Valid()
      ensures mouseTicks == old(mouseTicks) + 1
      ensures totalMouseActiveTime ==
        old(totalMouseActiveTime) + (if now - lastMouseActivity < TicksPerSecond then TicksPerSecond else 0)
    {
      if now - lastMouseActivity < TicksPerSecond {
        totalMouseActiveTime := totalMouseActiveTime + TicksPerSecond;
      }
      mouseTicks := mouseTicks + 1;
    }
  }
}
