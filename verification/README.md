# SISCO-Ergonomy break reminder — a Dafny model

SISCO-Ergonomy is a Windows break reminder. A global low-level keyboard and
mouse hook feeds an activity monitor. A controller adds up the monitor's
activity and, past a threshold, shows an alarm. A primary alarm shows an
exercise picture and closes itself after a while. After the user has closed
`SessionCloseLimit` primary alarms by hand, the next alarm is a secondary alarm
that shows no window buttons for a while and then closes itself. Closing the secondary alarm starts a new
session. Once an hour a logger writes the report totals and the total close
count to a spreadsheet named after the Solar Hijri date and the Tehran time.
The repository also holds a service variant of the controller that launches
the alarm as a separate process, and an earlier Python prototype.

This project models those pieces as Dafny classes whose methods are the event
handlers. Each method is proved against a specification of its new state, and
lemmas state the properties of the escalation rules, the accrual and the file
names. Times are .NET ticks: 10,000,000 per second, `int` values. The current
time, the hook handles the system returns, the converted local time, whether a
save succeeds, process exit codes and the prototype's idle time are all
parameters of the handlers.

Files:

- `wrappers.dfy`, `time.dfy` and `settings.dfy` hold shared helpers. They
  cover `Option`, ticks, C# unchecked 32-bit arithmetic for timer intervals,
  and the `AppSettings` record.
- `input_hook.dfy` models `Ergonomy/Hooks/GlobalInputHook.cs`. It decides
  which messages count as activity, always chains the message on, and records
  the native calls.
- `edge_monitor.dfy` models `Ergonomy/ActivityMonitor.cs`, the monitor that
  credits the gap between consecutive events.
- `hook_monitor.dfy` models `Ergonomy/Hooks/ActivityMonitor.cs`, the monitor
  that samples the channels once a second.
- `escalation.dfy` holds the counter rules that the controller and the service
  share, with lemmas about runs of alarms.
- `alarm_forms.dfy` models the two alarm windows.
- `data_logger.dfy` models the hourly logger and its file-name format.
- `app_context.dfy` models `Ergonomy/MainApplicationContext.cs`.
- `service.dfy` models `Ergonomy/Service.cs`.
- `prototype.dfy` models `src/main.py`.

Where the code departs from the described design, the model follows the code:

- The logger's constructor takes the monitor and a close-count getter only
  (`Ergonomy/Logging/DataLogger.cs:23`). Both callers also pass the settings,
  and the logging period is fixed at one hour. `LoggingIntervalHours` is never
  read.
- The service's tick period comes from `NotificationIntervalSeconds`, which
  `AppSettings` does not declare. On every tick the service launches a UI
  process, and it never consults the activity threshold.
- Inside namespace `Ergonomy`, the name `ActivityMonitor` at
  `Ergonomy/Service.cs:33` denotes `Ergonomy/ActivityMonitor.cs`, and that
  class has no constructor that takes a hook. The model gives the service the
  monitor whose constructor does take one (`Ergonomy/Hooks/ActivityMonitor.cs:17`).

## Model

| member | source | states |
|---|---|---|
| Time.Int32 | Ergonomy/UI/PrimaryAlarmForm.cs:44 | an unchecked C# `int` result lies in the 32-bit range, is congruent to the exact value modulo 2^32, and equals it when it fits |
| Time.TotalSeconds | Ergonomy/MainApplicationContext.cs:104 | the fractional seconds of a span, scaled back by ticks per second, are exactly its ticks; a non-negative span has non-negative seconds |
| Time.IntervalMsOfSetting | Ergonomy/UI/SecondaryAlarmForm.cs:31 | a setting of 1..2147483 seconds gives exactly seconds*1000 ms; a setting of zero or a small negative one gives an interval below 1 ms, which the timer refuses |
| InputHook.ReleasesAreNotActivity | Ergonomy/Hooks/GlobalInputHook.cs:21-27 | key-up and button-up messages are never activity, and no message is activity for both channels |
| InputHook.GlobalInputHook.constructor | Ergonomy/Hooks/GlobalInputHook.cs:36-50 | both hook handles start at zero and no native call has been made |
| InputHook.GlobalInputHook.Start | Ergonomy/Hooks/GlobalInputHook.cs:53-57 | installs the keyboard hook, then the mouse hook, and stores the handles the system returns |
| InputHook.GlobalInputHook.Stop | Ergonomy/Hooks/GlobalInputHook.cs:60-64 | removes both hooks by their stored handles, which are kept, not cleared |
| InputHook.GlobalInputHook.Dispose | Ergonomy/Hooks/GlobalInputHook.cs:118-122 | has exactly the effect of Stop |
| InputHook.GlobalInputHook.KeyboardHookCallback | Ergonomy/Hooks/GlobalInputHook.cs:79-92 | raises keyboard activity if and only if nCode >= 0 and the message is WM_KEYDOWN or WM_SYSKEYDOWN; always passes the unchanged message to the next hook with the keyboard handle |
| InputHook.GlobalInputHook.MouseHookCallback | Ergonomy/Hooks/GlobalInputHook.cs:95-115 | raises mouse activity if and only if nCode >= 0 and the message is a move, a left, right or middle button press or a wheel turn; always passes the unchanged message on with the mouse handle |
| EdgeMonitor.Credit | Ergonomy/ActivityMonitor.cs:82-90 | an event credits exactly the gap since the previous event when the gap is under one second, and nothing otherwise; a forward gap earns less than one second |
| EdgeMonitor.BackwardClockStepCreditsNegative | Ergonomy/ActivityMonitor.cs:80-90 | the local clock stepping back an hour credits about minus one hour, because only `gap < 1 s` is tested |
| EdgeMonitor.AccruedWithinElapsed | Ergonomy/ActivityMonitor.cs:77-92 | with a clock that never goes back, a stream of events earns between zero and the wall-clock time it spans |
| EdgeMonitor.ContinuousStreamEarnsSpan | Ergonomy/ActivityMonitor.cs:77-92 | a stream whose every gap is under a second earns exactly the time from the start timestamp to its last event |
| EdgeMonitor.IdleGapEarnsNothing | Ergonomy/ActivityMonitor.cs:84-91 | a pause of a second or more earns nothing; accrual restarts from the event that ends the pause |
| EdgeMonitor.ActivityMonitor.constructor | Ergonomy/ActivityMonitor.cs:29-43 | a new monitor owns a new hook and has all four durations (alarm and total, keyboard and mouse) at zero |
| EdgeMonitor.ActivityMonitor.Start | Ergonomy/ActivityMonitor.cs:46-53 | stamps both channels with the start time and installs the hooks; durations are kept |
| EdgeMonitor.ActivityMonitor.Stop | Ergonomy/ActivityMonitor.cs:56-60 | removes the hooks and changes no duration or timestamp |
| EdgeMonitor.ActivityMonitor.Dispose | Ergonomy/ActivityMonitor.cs:113-117 | disposes the hook, which removes it |
| EdgeMonitor.ActivityMonitor.ResetAlarmTimers | Ergonomy/ActivityMonitor.cs:63-67 | zeroes both alarm durations and nothing else |
| EdgeMonitor.ActivityMonitor.ResetTotalTimers | Ergonomy/ActivityMonitor.cs:70-74 | zeroes both report durations and nothing else |
| EdgeMonitor.ActivityMonitor.OnKeyboardActivity | Ergonomy/ActivityMonitor.cs:77-92 | adds the event's credit to both keyboard durations, always moves the keyboard timestamp to now, and leaves the mouse channel unchanged; durations stay non-negative while the clock runs forward |
| EdgeMonitor.ActivityMonitor.OnMouseActivity | Ergonomy/ActivityMonitor.cs:95-110 | the mouse counterpart; the keyboard channel is unchanged |
| HookMonitor.ActivityMonitor.constructor | Ergonomy/Hooks/ActivityMonitor.cs:17-28 | subscribes to the given hook and creates two stopped 1000 ms timers; totals are zero |
| HookMonitor.ActivityMonitor.Start | Ergonomy/Hooks/ActivityMonitor.cs:30-37 | stamps both channels, starts both timers and installs the hooks |
| HookMonitor.ActivityMonitor.Stop | Ergonomy/Hooks/ActivityMonitor.cs:39-44 | removes the hooks and stops both timers; totals and timestamps are kept |
| HookMonitor.ActivityMonitor.Dispose | Ergonomy/Hooks/ActivityMonitor.cs:78-85 | stops, then unsubscribes from the hook |
| HookMonitor.ActivityMonitor.ResetTotalTimers | Ergonomy/Hooks/ActivityMonitor.cs:46-50 | zeroes both totals; timestamps and timers are untouched |
| HookMonitor.ActivityMonitor.OnKeyboardActivity | Ergonomy/Hooks/ActivityMonitor.cs:52-55 | an event only stamps its channel and credits nothing |
| HookMonitor.ActivityMonitor.OnMouseActivity | Ergonomy/Hooks/ActivityMonitor.cs:57-60 | an event only stamps its channel and credits nothing |
| HookMonitor.ActivityMonitor.OnKeyboardTimerElapsed | Ergonomy/Hooks/ActivityMonitor.cs:62-68 | adds exactly one second when the last keyboard event is under a second old; keeps each total a whole number of seconds and at most one second per tick since the last reset |
| HookMonitor.ActivityMonitor.OnMouseTimerElapsed | Ergonomy/Hooks/ActivityMonitor.cs:70-76 | the mouse counterpart, with the same invariant |
| Escalation.ChooseLevel | Ergonomy/MainApplicationContext.cs:120 | the next alarm is primary exactly while the session close count is below the limit |
| Escalation.AfterClose | Ergonomy/MainApplicationContext.cs:125-154 | the total rises by one exactly for a primary alarm the user closed; on a primary alarm the session count moves in step with the total; a secondary alarm, however it ends, sets the session count to 0 |
| Escalation.CycleKeepsWithinLimit | Ergonomy/MainApplicationContext.cs:120-154 | closing the alarm the counters selected keeps the session count between 0 and the limit; the total rises by one exactly for a primary alarm closed by the user |
| Escalation.RunKeepsWithinLimit | Ergonomy/MainApplicationContext.cs:120-154 | every sequence of alarms keeps the counters within limit |
| Escalation.TotalCountsDismissedPrimaries | Ergonomy/MainApplicationContext.cs:130-134 | over any sequence of alarms, the total close count grows by exactly the number of primary alarms the user closed |
| Escalation.DismissalsClimbSession | Ergonomy/MainApplicationContext.cs:120-137 | below the limit, each user close is of a primary alarm and raises both counters by one |
| Escalation.Escalates | Ergonomy/MainApplicationContext.cs:120-154 | from a fresh session, `limit` user-closed primary alarms make the next alarm secondary; after it, however it ends, the session is 0 and the next alarm is primary |
| Escalation.TimeoutsChangeNothing | Ergonomy/MainApplicationContext.cs:130-139 | below the limit, alarms that close themselves change neither counter |
| AlarmForms.PrimaryAlarmForm.constructor | Ergonomy/UI/PrimaryAlarmForm.cs:20-76 | the auto-close flag starts false, the timer is started at seconds*1000 ms, and the picture index is within the pictures found (none when there are none) |
| AlarmForms.PrimaryAlarmForm.Close | Ergonomy/UI/PrimaryAlarmForm.cs:79-95 | stops the timer and reports a user close exactly when the auto-close flag is not set |
| AlarmForms.PrimaryAlarmForm.OnAutoCloseTimerTick | Ergonomy/UI/PrimaryAlarmForm.cs:46-51 | sets the flag before closing, so the close is reported as automatic |
| AlarmForms.SecondaryAlarmForm.constructor | Ergonomy/UI/SecondaryAlarmForm.cs:19-53 | opens without window buttons, with the unclosable timer running and the auto-close timer stopped |
| AlarmForms.SecondaryAlarmForm.OnUnclosableTimerTick | Ergonomy/UI/SecondaryAlarmForm.cs:33-40 | the unclosable phase ends: buttons back, unclosable timer stopped, auto-close timer started |
| AlarmForms.SecondaryAlarmForm.Close | Ergonomy/UI/SecondaryAlarmForm.cs:56-66 | stops both timers, in whatever phase the form was |
| AlarmForms.SecondaryAlarmForm.OnAutoCloseTimerTick | Ergonomy/UI/SecondaryAlarmForm.cs:49-52 | the auto-close can only happen after the unclosable phase, and it closes the form |
| DataLogging.PadDigits | Ergonomy/Logging/DataLogger.cs:71-76 | a zero-padded number is all digits and at least as long as its width |
| DataLogging.PadValue | Ergonomy/Logging/DataLogger.cs:71-76 | a zero-padded number reads back as the number |
| DataLogging.PadLength | Ergonomy/Logging/DataLogger.cs:71-76 | a number that fits its width is padded to exactly that width |
| DataLogging.FileName | Ergonomy/Logging/DataLogger.cs:71-76 | the report name has at least 21 characters and ends in `.xlsx`, whatever the date and time |
| DataLogging.ActivitySheet | Ergonomy/Logging/DataLogger.cs:87-100 | the sheet is named "ActivityLog" and fills exactly rows 1-2, columns 1-3; the keyboard and mouse cells hold seconds that scale back exactly to the report ticks; the third cell holds the total close count |
| DataLogging.FileNameRoundTrip | Ergonomy/Logging/DataLogger.cs:71-76 | when the fields fit four and two digits, the report name has 21 characters and parses back to the same date and time |
| DataLogging.FileNamesDistinct | Ergonomy/Logging/DataLogger.cs:71-76 | two different minutes never share a report file name |
| DataLogging.DataLogger.constructor | Ergonomy/Logging/DataLogger.cs:23-35 | keeps the monitor and creates the hourly timer, stopped |
| DataLogging.DataLogger.Start | Ergonomy/Logging/DataLogger.cs:38-41 | starts the hourly timer |
| DataLogging.DataLogger.Stop | Ergonomy/Logging/DataLogger.cs:44-47 | stops the hourly timer |
| DataLogging.DataLogger.LogData | Ergonomy/Logging/DataLogger.cs:57-115 | a file is written exactly when the time lookup and the save both succeed; it is named after the date and time and holds the report totals from before the call and the close count; only then are the totals reset; otherwise they are kept; alarm durations and timestamps never change |
| DataLogging.DataLogger.OnLogTimerElapsed | Ergonomy/Logging/DataLogger.cs:50-54 | one tick is one logging attempt, with the same guarantees |
| DataLogging.DataLogger.Dispose | Ergonomy/Logging/DataLogger.cs:118-122 | the timer no longer runs |
| AppContext.ThresholdReached | Ergonomy/MainApplicationContext.cs:102-104 | comparing the combined alarm ticks with the threshold in ticks decides exactly as the source's comparison of the total seconds with the threshold |
| AppContext.ThresholdIsInclusive | Ergonomy/MainApplicationContext.cs:102-104 | combined activity exactly at the threshold fires; one tick less does not |
| AppContext.OutcomeOfClose | Ergonomy/MainApplicationContext.cs:125-140 | the callback argument is a user close exactly when it is true |
| AppContext.MainApplicationContext.constructor | Ergonomy/MainApplicationContext.cs:34-71 | starts a new monitor, a logger over it and the one-second timer, with both counters at zero and no alarm active |
| AppContext.MainApplicationContext.OnActivityTimerTick | Ergonomy/MainApplicationContext.cs:93-111 | does nothing while an alarm is active; otherwise shows an alarm exactly when the alarm durations together reach the threshold, resets them first, and never changes the counters, the report totals or the timestamps |
| AppContext.MainApplicationContext.ShowAlarm | Ergonomy/MainApplicationContext.cs:114-158 | marks an alarm active, primary while the session count is below the limit and secondary otherwise |
| AppContext.MainApplicationContext.OnPrimaryAlarmClosed | Ergonomy/MainApplicationContext.cs:125-140 | a user close raises both counters by one, an automatic close neither; no alarm is active afterwards; the counters stay within limit |
| AppContext.MainApplicationContext.OnSecondaryAlarmClosed | Ergonomy/MainApplicationContext.cs:149-154 | the session count returns to 0 however the alarm closed, the total is kept, and no alarm is active afterwards |
| AppContext.MainApplicationContext.OnLogTimerElapsed | Ergonomy/MainApplicationContext.cs:46 | the logger reads this controller's current total close count |
| AppContext.MainApplicationContext.ExitThreadCore | Ergonomy/MainApplicationContext.cs:168-180 | removes the hooks and stops both timers, without touching the counters |
| ErgonomyService.OutcomeOfExitCode | Ergonomy/Service.cs:125 | exit code 1 is a user close and every other code is a timeout |
| ErgonomyService.Arguments | Ergonomy/Service.cs:101-108 | a primary command line is `primary "` then the picture path then a closing quote; a secondary one is exactly `secondary` |
| ErgonomyService.LevelOfArguments | Ergonomy/Service.cs:123-131 | a command line starting with `primary` reads as primary whatever follows; otherwise one starting with `secondary` reads as secondary; anything else as no level |
| ErgonomyService.ExitUpdate | Ergonomy/Service.cs:121-134 | an exit whose arguments name a level changes the counters as the shared escalation rules do for that level and exit code; an exit naming no level changes nothing; the total never falls and rises by at most one |
| ErgonomyService.ImagePath | Ergonomy/Service.cs:87-91 | the path is one of the loaded pictures when there are any, and empty otherwise |
| ErgonomyService.NextIndex | Ergonomy/Service.cs:91 | with pictures loaded, the next index is within the list; with none, the index stays |
| ErgonomyService.ArgumentsNameTheirLevel | Ergonomy/Service.cs:101-134 | the exit handler reads back from the arguments the level they were built for, and a primary command line holds the picture path between its quotes |
| ErgonomyService.ExitUpdateFollowsEscalation | Ergonomy/Service.cs:119-138 | a handled exit updates the counters exactly as the controller's close callbacks do |
| ErgonomyService.NextIndexStep | Ergonomy/Service.cs:88-92 | one launch attempt moves to the next picture, wrapping from the last to the first |
| ErgonomyService.AdvanceInRange | Ergonomy/Service.cs:88-92 | the picture index stays within the list |
| ErgonomyService.AdvanceWalks | Ergonomy/Service.cs:88-92 | before the end of the list, each attempt moves one picture on |
| ErgonomyService.AdvanceCompose | Ergonomy/Service.cs:88-92 | a attempts then b attempts are a+b attempts |
| ErgonomyService.RotationReturns | Ergonomy/Service.cs:88-92 | after as many attempts as there are pictures, the rotation is back where it started |
| ErgonomyService.RotationVisitsEvery | Ergonomy/Service.cs:88-92 | every picture comes up within one round of attempts |
| ErgonomyService.Service.constructor | Ergonomy/Service.cs:27-35 | builds a new hook and a monitor over it, with counters and picture index at zero and no process |
| ErgonomyService.Service.Start | Ergonomy/Service.cs:63-66 | the monitor starts and installs the hooks |
| ErgonomyService.Service.ShowAlarm | Ergonomy/Service.cs:80-117 | skips while the stored process has not exited; otherwise advances the picture index even when the launch fails, launches `primary "<path>"` below the limit and `secondary` otherwise, stores the handle only when a process came back, and never changes the counters |
| ErgonomyService.Service.UiProcessExits | Ergonomy/Service.cs:82 | the stored process is marked as exited, so the next tick may launch again |
| ErgonomyService.Service.OnUiProcessExited | Ergonomy/Service.cs:119-139 | a primary exit with code 1 raises both counters, any other primary exit neither; a secondary exit resets the session whatever its code; the handle is cleared afterwards |
| ErgonomyService.Service.Shutdown | Ergonomy/Service.cs:75-77 | disposes the monitor, then the hook, which removes the hooks a second time |
| Prototype.NotificationFor | src/main.py:42-46 | the warning message is shown exactly from the third close on; the picture is shown before that |
| Prototype.Accrued | src/main.py:27-30 | a minute of idleness zeroes the active time; otherwise, with the clock running forward, the active time never drops and never turns negative |
| Prototype.Fires | src/main.py:34 | a check notifies only past the threshold, and never while a notification is open |
| Prototype.ThresholdIsStrict | src/main.py:34 | exactly two hours of activity does not notify; any more does |
| Prototype.IdleMinuteNeverFires | src/main.py:27-30 | a minute of idleness zeroes the active time, so that check cannot notify |
| Prototype.EscalationIsPermanent | src/main.py:42-51 | once three notifications have been closed, every later one is the message, because the count never resets |
| Prototype.ResetBoundsActiveTime | src/main.py:27-36 | after a reset, with the clock running forward, the active time is at most the time elapsed, so the next notification needs more than two hours |
| Prototype.ErgonomyApp.constructor | src/main.py:7-17 | nothing closed, no active time, no notification open, last check at creation time, no check due yet |
| Prototype.ErgonomyApp.Start | src/main.py:19-21 | the first check is due once the application starts |
| Prototype.ErgonomyApp.CheckActivityAsWritten | src/main.py:23-48 | accrues or zeroes the active time and notifies exactly when it exceeds two hours and no notification is open; a check that notifies never returns to reset the time or schedule the next check, so from a fresh start at most one notification is ever opened, and it is the picture |
| Prototype.ErgonomyApp.CheckActivity | src/main.py:23-38 | the check as intended: the active time is reset on notifying and the next check is always due; afterwards an active time over the threshold remains only while a notification was already open |
| Prototype.ErgonomyApp.ShowNotification | src/main.py:40-46 | marks a notification open and shows the message from three closes on |
| Prototype.ErgonomyApp.OnNotificationClose | src/main.py:50-52 | every close counts, whatever was shown, and no notification is open afterwards; the as-written invariant (at most one notification, no check due after it) is kept |
| Prototype.ErgonomyApp.AsWrittenNeverWarns | src/main.py:38-48 | as written, at most one notification is ever closed, so the warning message is never chosen, and once one has opened no check is due again |

## Findings

| source | as written | input that shows it | evidently intended | confidence | as-written member | corrected member |
|---|---|---|---|---|---|---|
| src/main.py:36-38 | `show_notification` enters the notification's `mainloop()` (line 48). That loop runs until the root window is destroyed, not just the notification. So neither the reset at line 36 nor the `root.after` at line 38 that schedules the next check is reached while the application runs. The first notification ends the checks for good: at most one notification is ever shown, and the warning message of lines 42-44 never is | two hours and one second of activity: the check opens the picture notification and is the last check; closing it and staying active for any time opens nothing more | the notification opens without holding up the check, so the active time is reset, checks continue, and the warning message follows three closes | high, not executed | Prototype.ErgonomyApp.CheckActivityAsWritten, Prototype.ErgonomyApp.AsWrittenNeverWarns | Prototype.ErgonomyApp.CheckActivity, Prototype.ResetBoundsActiveTime |

## Left out

- Foreign calls are not modelled. These include `SetWindowsHookEx`, `UnhookWindowsHookEx`, `CallNextHookEx` and `GetModuleHandle`. They appear as recorded calls or returned values, and the handles the system returns are parameters.
- Real timers and threads are not modelled. The Windows Forms timers, `System.Timers.Timer` on pool threads, `PeriodicTimer`, the tkinter `after` loop and the process `Exited` callback are each one method per event, and events run one at a time.
- The clocks are not modelled. `DateTime.Now` (local time), `DateTime.UtcNow` and `time.time()` are the `now` parameter.
- The prototype's pynput listener is not modelled. It is the `inactiveTime` parameter.
- TimeSpan and DateTime overflow are not modelled, because ticks are unbounded integers.
- Floating point is not modelled. `TimeSpan.TotalSeconds` is an exact quotient. The controller compares exact tick counts against the threshold. The prototype's times are exact reals.
- Configuration loading, `LoadImagePaths` and the image files are not modelled. The settings and the picture list are constructor parameters.
- `Random.Next` is not modelled. It is the `randomPick` parameter, bounded by the number of pictures.
- AlarmForms.PrimaryAlarmForm.constructor: requires the auto-close interval, seconds*1000 in unchecked 32-bit arithmetic, to be at least 1 ms. A setting of 0 or less, or one whose product wraps below 1, makes the `Interval` setter throw (`Ergonomy/UI/PrimaryAlarmForm.cs:44`). That path is not modelled.
- AlarmForms.SecondaryAlarmForm.constructor: requires both intervals to be at least 1 ms, for the same reason (`Ergonomy/UI/SecondaryAlarmForm.cs:31` and `:47`). A throwing setter path is not modelled.
- AppContext.MainApplicationContext.ShowAlarm: does not model a form constructor throwing. The controller sets `_isAlarmActive` before constructing the form (`Ergonomy/MainApplicationContext.cs:117`, then 123 or 147), so after such a throw the flag would stay set, no close callback would ever clear it, and no alarm would show again. The model always shows the alarm.
- A missing `assets` directory makes `LoadRandomImage` throw. The model does not cover that.
- Window layout, fonts, pictures, the tray icon, the diagnostic console output and the modality of `ShowDialog` are not modelled.
- The controller does not construct form objects. The ghost field `shownAlarm` stands for the alarm whose close callback is pending. The forms are modelled on their own in `alarm_forms.dfy`.
- The Persian calendar, the Tehran time-zone lookup and EPPlus are not modelled. The converted time arrives as `Option<LocalTime>`, with None when the lookup throws. Whether `Save` succeeds is a parameter.
- The service's logger is not modelled. Its 3-argument constructor call does not match the logger's 2-argument constructor. The service's monitor type also differs from the one the logger reads.
- `NotificationIntervalSeconds` is not modelled. It is not declared in the settings, so each service tick is one call of `ShowAlarm`.
- The internals of `Process.Start` are not modelled. Its result is `Started`, `ReturnedNull` or `Threw`. A throwing start ends the service loop, and the model does not run the disposal that follows the loop.
- The `Exited` handler is modelled with an explicit sender. So the model admits the interleaving where a tick sees `HasExited` before the handler has run. In that interleaving the late handler clears the newer handle. For this reason the service keeps only non-negative counters as an invariant, and not the session bound the controller keeps.
- The checked conversion `(int)wParam` in the mouse callback is not modelled. Message identifiers are plain integers.
- The prototype's nested event loop is modelled only by its effect: a check that notifies never returns, so `checking` is cleared and no further check runs. Events the nested loop still dispatches, such as the notification's own timers, are outside the model.
- `ErgonomyApp.start` starts the pynput listener, which is not modelled; its first check is modelled as a check falling due.
- The Python notification window is not modelled: its GIF animation and its 7-second disabled close button.
