/**
 * The edge-triggered activity monitor (Ergonomy/ActivityMonitor.cs).
 *
 * Each keyboard or mouse event measures the gap since the previous event on its
 * channel. A gap under one second is credited to both that channel's alarm
 * window and its report ("total") window; a longer gap earns nothing. Every
 * event moves the channel's timestamp to the event time. Times are DateTime
 * ticks; the event time `now` is a parameter.
 */
module EdgeMonitor {
  import opened Time
  import opened InputHook

  /**
   * The credit one event earns for the `gap` since the previous event on its
   * channel. It is below one second and never more than the gap; a gap of a
   * second or more earns nothing. The source tests only `gap < 1 s`, so a gap
   * that is negative (the local clock stepped back) is credited as it is.
   */
  function Credit(gap: int): (c: int)
    ensures (c < TicksPerSecond && c <= gap) || c == 0
    ensures c != 0 ==> c == gap
    ensures TicksPerSecond <= gap ==> c == 0
    ensures 0 <= gap ==> 0 <= c < TicksPerSecond
    ensures gap < TicksPerSecond ==> c == gap
  {
    if gap < TicksPerSecond then gap else 0
  }

  /** A clock step back of an hour (as at the end of daylight saving time) is credited as minus an hour. */
  lemma BackwardClockStepCreditsNegative(last: int)
    ensures Credit((last - 3600 * TicksPerSecond + 1) - last) < -3599 * TicksPerSecond
  {
  }

  /** Event times on one channel that never go backwards, starting from the timestamp `last`. */
  ghost predicate Monotone(last: int, events: seq<int>)
    decreases |events|
  {
    events == [] || (last <= events[0] && Monotone(events[0], events[1..]))
  }

  /** Every gap in the stream is under one second: an unbroken stretch of activity. */
  ghost predicate Continuous(last: int, events: seq<int>)
    decreases |events|
  {
    events == [] || (events[0] - last < TicksPerSecond && Continuous(events[0], events[1..]))
  }

  /** The credit a channel earns from a stream of event times, starting from the timestamp `last`. */
  function Accrued(last: int, events: seq<int>): int
    decreases |events|
  {
    if events == [] then 0 else Credit(events[0] - last) + Accrued(events[0], events[1..])
  }

  /** The time of the final event of a stream, or `last` if there is none. */
  function Latest(last: int, events: seq<int>): int
  {
    if events == [] then last else events[|events| - 1]
  }

  /**
   * With a clock that never goes backwards, the credit a stream earns is never
   * negative and never more than the wall-clock time it spans.
   */
  lemma {:induction false} AccruedWithinElapsed(last: int, events: seq<int>)
    requires Monotone(last, events)
    ensures 0 <= Accrued(last, events) <= Latest(last, events) - last
    decreases |events|
  {
    if events != [] {
      AccruedWithinElapsed(events[0], events[1..]);
      assert Latest(events[0], events[1..]) == Latest(last, events);
    }
  }

  /**
   * A stream whose every gap is under a second earns exactly the time it spans:
   * the sum of its inter-event gaps.
   */
  lemma {:induction false} ContinuousStreamEarnsSpan(last: int, events: seq<int>)
    requires Continuous(last, events)
    ensures Accrued(last, events) == Latest(last, events) - last
    decreases |events|
  {
    if events != [] {
      ContinuousStreamEarnsSpan(events[0], events[1..]);
      assert Latest(events[0], events[1..]) == Latest(last, events);
    }
  }

  /**
   * A gap of a second or more earns nothing: the stream earns what the events
   * after the gap earn, counted from the event that ends the gap.
   */
  lemma {:induction false} IdleGapEarnsNothing(last: int, before: seq<int>, t: int, after: seq<int>)
    requires t - Latest(last, before) >= TicksPerSecond
    ensures Accrued(last, before + [t] + after) == Accrued(last, before) + Accrued(t, after)
    decreases |before|
  {
    if before == [] {
      assert before + [t] + after == [t] + after;
      assert ([t] + after)[1..] == after;
    } else {
      assert (before + [t] + after)[0] == before[0];
      assert (before + [t] + after)[1..] == before[1..] + [t] + after;
      assert Latest(before[0], before[1..]) == Latest(last, before);
      IdleGapEarnsNothing(before[0], before[1..], t, after);
    }
  }

  class ActivityMonitor {
    const hook: GlobalInputHook
    var lastKeyboardActivity: int
    var lastMouseActivity: int
    var alarmKeyboardActiveTime: int
    var alarmMouseActiveTime: int
    var totalKeyboardActiveTime: int
    var totalMouseActiveTime: int

    /** All four durations are non-negative. */
    predicate NonNegative()
      reads this
    {
      0 <= alarmKeyboardActiveTime && 0 <= alarmMouseActiveTime
      && 0 <= totalKeyboardActiveTime && 0 <= totalMouseActiveTime
    }

    /**
     * A new monitor owns a new input hook and has all four durations at zero;
     * the timestamps hold DateTime's default value until Start.
     */
    constructor ()
      ensures fresh(hook) && hook.nativeCalls == []
      ensures alarmKeyboardActiveTime == 0 && alarmMouseActiveTime == 0
      ensures totalKeyboardActiveTime == 0 && totalMouseActiveTime == 0
      ensures lastKeyboardActivity == 0 && lastMouseActivity == 0
      ensures NonNegative()
    {
      hook := new GlobalInputHook();
      lastKeyboardActivity, lastMouseActivity := 0, 0;
      alarmKeyboardActiveTime, alarmMouseActiveTime := 0, 0;
      totalKeyboardActiveTime, totalMouseActiveTime := 0, 0;
    }

    /** Stamps both channels with the start time `now` and installs the hooks. */
    method Start(now: int, keyboardHandle: int, mouseHandle: int)
      modifies this, hook
      ensures lastKeyboardActivity == now && lastMouseActivity == now
      ensures alarmKeyboardActiveTime == old(alarmKeyboardActiveTime) && alarmMouseActiveTime == old(alarmMouseActiveTime)
      ensures totalKeyboardActiveTime == old(totalKeyboardActiveTime) && totalMouseActiveTime == old(totalMouseActiveTime)
      ensures hook.keyboardHookHandle == keyboardHandle && hook.mouseHookHandle == mouseHandle
      ensures hook.nativeCalls == old(hook.nativeCalls) + [SetWindowsHookEx(WH_KEYBOARD_LL), SetWindowsHookEx(WH_MOUSE_LL)]
    {
      lastKeyboardActivity := now;
      lastMouseActivity := now;
      hook.Start(keyboardHandle, mouseHandle);
    }

    /** Removes the hooks; no duration or timestamp changes. */
    method Stop()
      modifies hook
      ensures hook.keyboardHookHandle == old(hook.keyboardHookHandle) && hook.mouseHookHandle == old(hook.mouseHookHandle)
      ensures hook.nativeCalls == old(hook.nativeCalls)
        + [UnhookWindowsHookEx(hook.keyboardHookHandle), UnhookWindowsHookEx(hook.mouseHookHandle)]
    {
      hook.Stop();
    }

    /** Disposes the hook, which removes it; no duration or timestamp changes. */
    method Dispose()
      modifies hook
      ensures hook.keyboardHookHandle == old(hook.keyboardHookHandle) && hook.mouseHookHandle == old(hook.mouseHookHandle)
      ensures hook.nativeCalls == old(hook.nativeCalls)
        + [UnhookWindowsHookEx(hook.keyboardHookHandle), UnhookWindowsHookEx(hook.mouseHookHandle)]
    {
      hook.Dispose();
    }

    /** Zeroes the two alarm-window durations and nothing else. */
    method ResetAlarmTimers()
      modifies this
      ensures alarmKeyboardActiveTime == 0 && alarmMouseActiveTime == 0
      ensures totalKeyboardActiveTime == old(totalKeyboardActiveTime) && totalMouseActiveTime == old(totalMouseActiveTime)
      ensures lastKeyboardActivity == old(lastKeyboardActivity) && lastMouseActivity == old(lastMouseActivity)
      ensures old(NonNegative()) ==> NonNegative()
    {
      alarmKeyboardActiveTime := 0;
      alarmMouseActiveTime := 0;
    }

    /** Zeroes the two report-window durations and nothing else. */
    method ResetTotalTimers()
      modifies this
      ensures totalKeyboardActiveTime == 0 && totalMouseActiveTime == 0
      ensures alarmKeyboardActiveTime == old(alarmKeyboardActiveTime) && alarmMouseActiveTime == old(alarmMouseActiveTime)
      ensures lastKeyboardActivity == old(lastKeyboardActivity) && lastMouseActivity == old(lastMouseActivity)
      ensures old(NonNegative()) ==> NonNegative()
    {
      totalKeyboardActiveTime := 0;
      totalMouseActiveTime := 0;
    }

    /**
     * A keyboard event at `now`: the gap since the previous keyboard event earns
     * its credit in both keyboard windows, and the keyboard timestamp becomes
     * `now`. Nothing of the mouse channel changes.
     */
    method OnKeyboardActivity(now: int)
      modifies this
      ensures alarmKeyboardActiveTime == old(alarmKeyboardActiveTime) + Credit(now - old(lastKeyboardActivity))
      ensures totalKeyboardActiveTime == old(totalKeyboardActiveTime) + Credit(now - old(lastKeyboardActivity))
      ensures lastKeyboardActivity == now
      ensures alarmMouseActiveTime == old(alarmMouseActiveTime) && totalMouseActiveTime == old(totalMouseActiveTime)
      ensures lastMouseActivity == old(lastMouseActivity)
      ensures old(NonNegative()) && old(lastKeyboardActivity) <= now ==> NonNegative()
    {
      var elapsed := now - lastKeyboardActivity;
      if elapsed < TicksPerSecond {
        alarmKeyboardActiveTime := alarmKeyboardActiveTime + elapsed;
        totalKeyboardActiveTime := totalKeyboardActiveTime + elapsed;
      }
      lastKeyboardActivity := now;
    }

    /** The mouse counterpart of OnKeyboardActivity. Nothing of the keyboard channel changes. */
    method OnMouseActivity(now: int)
      modifies this
      ensures alarmMouseActiveTime == old(alarmMouseActiveTime) + Credit(now - old(lastMouseActivity))
      ensures totalMouseActiveTime == old(totalMouseActiveTime) + Credit(now - old(lastMouseActivity))
      ensures lastMouseActivity == now
      ensures alarmKeyboardActiveTime == old(alarmKeyboardActiveTime) && totalKeyboardActiveTime == old(totalKeyboardActiveTime)
      ensures lastKeyboardActivity == old(lastKeyboardActivity)
      ensures old(NonNegative()) && old(lastMouseActivity) <= now ==> NonNegative()
    {
      var elapsed := now - lastMouseActivity;
      if elapsed < TicksPerSecond {
        alarmMouseActiveTime := alarmMouseActiveTime + elapsed;
        totalMouseActiveTime := totalMouseActiveTime + elapsed;
      }
      lastMouseActivity := now;
    }
  }
}
