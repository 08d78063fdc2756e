/**
 * The service variant of the controller (Ergonomy/Service.cs).
 *
 * On every tick of its periodic timer it launches a separate UI process, unless
 * the previous one is still running. The process's arguments name the alarm
 * level (and, for a primary alarm, the next picture in rotation), and its exit
 * code is the outcome: 1 for a user close of a primary alarm. The Exited
 * handler updates the counters from the arguments of the process that exited
 * and forgets the stored handle.
 */
module ErgonomyService {
  import opened Wrappers
  import opened Settings
  import opened Escalation
  import opened InputHook
  import HookMonitor

  /** A launched UI process: its command-line arguments and whether it has exited. */
  datatype UiProcess = UiProcess(arguments: string, hasExited: bool)

  /** What `Process.Start` did: returned a process, returned null, or threw. */
  datatype StartResult = Started | ReturnedNull | Threw

  /** Whether `s` begins with `prefix` (ordinal comparison). */
  predicate StartsWith(s: string, prefix: string)
  {
    |prefix| <= |s| && s[..|prefix|] == prefix
  }

  /** The command line for an alarm at `level`; only a primary alarm carries the quoted picture path. */
  function Arguments(level: Level, imagePath: string): (a: string)
    ensures level == Primary ==> StartsWith(a, "primary \"") && |a| == |imagePath| + 10
                                 && a[9..|a| - 1] == imagePath && a[|a| - 1] == '"'
    ensures level == Secondary ==> a == "secondary"
  {
    match level
    case Primary => "primary \"" + imagePath + "\""
    case Secondary => "secondary"
  }

  /** The level the exit handler reads back from a command line, if any. */
  function LevelOfArguments(arguments: string): (r: Option<Level>)
    ensures r == Some(Primary) <==> StartsWith(arguments, "primary")
    ensures r == Some(Secondary) <==> !StartsWith(arguments, "primary") && StartsWith(arguments, "secondary")
  {
    if StartsWith(arguments, "primary") then Some(Primary)
    else if StartsWith(arguments, "secondary") then Some(Secondary)
    else None
  }

  /** Exit code 1 is a user close; every other code is a timeout. */
  function OutcomeOfExitCode(exitCode: int): (o: Outcome)
    ensures o == UserDismissed <==> exitCode == 1
  {
    if exitCode == 1 then UserDismissed else TimedOut
  }

  /** The counters after a UI process with `arguments` exits with `exitCode`. */
  function ExitUpdate(c: Counters, arguments: string, exitCode: int): (r: Counters)
    ensures LevelOfArguments(arguments).Some? ==> r == AfterClose(c, LevelOfArguments(arguments).value, OutcomeOfExitCode(exitCode))
    ensures LevelOfArguments(arguments).None? ==> r == c
    ensures c.total <= r.total <= c.total + 1
  {
    match LevelOfArguments(arguments)
    case Some(Primary) => if exitCode == 1 then Counters(c.session + 1, c.total + 1) else c
    case Some(Secondary) => Counters(0, c.total)
    case None => c
  }

  /** The picture path for the current index: the indexed path, or empty when there are none. */
  function ImagePath(imagePaths: seq<string>, index: int): (p: string)
    requires |imagePaths| > 0 ==> 0 <= index < |imagePaths|
    ensures |imagePaths| > 0 ==> p in imagePaths
    ensures |imagePaths| == 0 ==> p == ""
  {
    if |imagePaths| > 0 then imagePaths[index] else ""
  }

  /** The index after one launch attempt: one further, modulo the count; unchanged when there are no pictures. */
  function NextIndex(index: int, count: int): (r: int)
    ensures 0 < count && 0 <= index ==> 0 <= r < count
    ensures count <= 0 ==> r == index
  {
    if count > 0 then (index + 1) % count else index
  }

  /** The index after `k` launch attempts. */
  function Advance(index: int, count: int, k: nat): int
  {
    if k == 0 then index else NextIndex(Advance(index, count, k - 1), count)
  }

  /**
   * The arguments tell the exit handler the level they were built for, and a
   * primary command line holds the picture path between the quotes.
   */
  lemma ArgumentsNameTheirLevel(level: Level, imagePath: string)
    ensures LevelOfArguments(Arguments(level, imagePath)) == Some(level)
    ensures level == Primary ==>
      var a := Arguments(level, imagePath);
      |a| == |imagePath| + 10 && a[9..|a| - 1] == imagePath
  {
    var a := Arguments(level, imagePath);
    if level == Primary {
      assert a[..7] == "primary";
      assert a[9..|a| - 1] == imagePath;
    } else {
      assert a[..7] != "primary" by { assert a[0] == 's'; }
      assert a[..9] == "secondary";
    }
  }

  /** A handled exit of a process launched for `level` follows the shared escalation rules. */
  lemma ExitUpdateFollowsEscalation(c: Counters, level: Level, imagePath: string, exitCode: int)
    ensures ExitUpdate(c, Arguments(level, imagePath), exitCode) == AfterClose(c, level, OutcomeOfExitCode(exitCode))
  {
    ArgumentsNameTheirLevel(level, imagePath);
  }

  /** From a valid index, one step moves to the next index, wrapping from the last to 0. */
  lemma NextIndexStep(index: int, count: int)
    requires 0 <= index < count
    ensures NextIndex(index, count) == if index + 1 < count then index + 1 else 0
  {
    if index + 1 == count {
      assert count % count == 0;
    }
  }

  /** Starting in range, the rotation stays in range. */
  lemma {:induction false} AdvanceInRange(index: int, count: int, k: nat)
    requires 0 <= index < count
    ensures 0 <= Advance(index, count, k) < count
    decreases k
  {
    if k > 0 {
      AdvanceInRange(index, count, k - 1);
      NextIndexStep(Advance(index, count, k - 1), count);
    }
  }

  /** Before reaching the end of the list, each attempt moves one picture on. */
  lemma {:induction false} AdvanceWalks(index: int, count: int, k: nat)
    requires 0 <= index && index + k < count
    ensures Advance(index, count, k) == index + k
    decreases k
  {
    if k > 0 {
      AdvanceWalks(index, count, k - 1);
      NextIndexStep(index + k - 1, count);
    }
  }

  /** `a` attempts followed by `b` attempts are `a + b` attempts. */
  lemma {:induction false} AdvanceCompose(index: int, count: int, a: nat, b: nat)
    ensures Advance(index, count, a + b) == Advance(Advance(index, count, a), count, b)
    decreases b
  {
    if b > 0 {
      AdvanceCompose(index, count, a, b - 1);
    }
  }

  /** After `count` attempts the rotation is back where it started. */
  lemma RotationReturns(index: int, count: int)
    requires 0 <= index < count
    ensures Advance(index, count, count) == index
  {
    var toEnd := count - 1 - index;
    AdvanceWalks(index, count, toEnd);
    NextIndexStep(count - 1, count);
    assert Advance(index, count, toEnd + 1) == 0;
    AdvanceCompose(index, count, toEnd + 1, index);
    AdvanceWalks(0, count, index);
  }

  /** Every picture comes up within `count` attempts, wherever the rotation starts. */
  lemma RotationVisitsEvery(index: int, count: int, target: int)
    requires 0 <= index < count && 0 <= target < count
    ensures exists k: nat :: k < count && Advance(index, count, k) == target
  {
    if index <= target {
      AdvanceWalks(index, count, target - index);
    } else {
      var toEnd := count - 1 - index;
      AdvanceWalks(index, count, toEnd);
      NextIndexStep(count - 1, count);
      assert Advance(index, count, toEnd + 1) == 0;
      AdvanceCompose(index, count, toEnd + 1, target);
      AdvanceWalks(0, count, target);
      assert Advance(index, count, toEnd + 1 + target) == target;
    }
  }

  class Service {
    const settings: AppSettings
    const imagePaths: seq<string>
    const hook: GlobalInputHook
    const monitor: HookMonitor.ActivityMonitor
    var sessionCloseCounter: int
    var totalCloseCounter: int
    var currentImageIndex: int
    var uiProcess: Option<UiProcess>
    /** Whether the periodic loop of the service is still running. */
    var running: bool

    function Counters(): Counters
      reads this
    {
      Escalation.Counters(sessionCloseCounter, totalCloseCounter)
    }

    /** The monitor listens to this service's hook, the counters are non-negative and the picture index is in range. */
    ghost predicate Valid()
      reads this
    {
      && monitor.hook == hook
      && 0 <= sessionCloseCounter && 0 <= totalCloseCounter
      && (if |imagePaths| > 0 then 0 <= currentImageIndex < |imagePaths| else currentImageIndex == 0)
    }

    /** Built with the loaded settings and picture list: a new hook and a hook-driven monitor over it. */
    constructor (appSettings: AppSettings, paths: seq<string>)
      ensures Valid() && monitor.Valid()
      ensures settings == appSettings && imagePaths == paths
      ensures fresh(hook) && fresh(monitor) && hook.nativeCalls == []
      ensures sessionCloseCounter == 0 && totalCloseCounter == 0 && currentImageIndex == 0
      ensures uiProcess == None && !running
    {
      settings, imagePaths := appSettings, paths;
      var h := new GlobalInputHook();
      hook := h;
      monitor := new HookMonitor.ActivityMonitor(h);
      sessionCloseCounter, totalCloseCounter, currentImageIndex := 0, 0, 0;
      uiProcess := None;
      running := false;
    }

    /** The loop starts: the monitor starts at `now` and installs the hooks. */
    method Start(now: int, keyboardHandle: int, mouseHandle: int)
      requires Valid() && monitor.Valid()
      modifies this, monitor, hook
      ensures Valid() && monitor.Valid() && running
      ensures Counters() == old(Counters()) && currentImageIndex == old(currentImageIndex) && uiProcess == old(uiProcess)
      ensures monitor.keyboardTimerEnabled && monitor.mouseTimerEnabled
      ensures hook.nativeCalls == old(hook.nativeCalls) + [SetWindowsHookEx(WH_KEYBOARD_LL), SetWindowsHookEx(WH_MOUSE_LL)]
    {
      monitor.Start(now, keyboardHandle, mouseHandle);
      running := true;
    }

    /**
     * A tick of the periodic timer. While the stored process has not exited,
     * nothing happens and None is returned. Otherwise the picture index moves on
     * (even when the launch then fails), a process is started with the arguments
     * the session count selects, and those arguments are returned; the handle is
     * stored only when a process came back, and a throwing start ends the loop.
     * The counters never change here.
     */
    method ShowAlarm(start: StartResult) returns (attempted: Option<string>)
      requires Valid() && running
      modifies this
      ensures Valid() && Counters() == old(Counters())
      ensures old(uiProcess).Some? && !old(uiProcess).value.hasExited ==>
        attempted == None && currentImageIndex == old(currentImageIndex) && uiProcess == old(uiProcess) && running
      ensures !(old(uiProcess).Some? && !old(uiProcess).value.hasExited) ==>
        && attempted == Some(Arguments(ChooseLevel(sessionCloseCounter, settings.sessionCloseLimit),
                                       ImagePath(imagePaths, old(currentImageIndex))))
        && currentImageIndex == NextIndex(old(currentImageIndex), |imagePaths|)
        && uiProcess == (if start == Started then Some(UiProcess(attempted.value, false)) else old(uiProcess))
        && running == (start != Threw)
    {
      if uiProcess.Some? && !uiProcess.value.hasExited {
        return None;
      }
      var imagePath := "";
      if |imagePaths| > 0 {
        imagePath := imagePaths[currentImageIndex];
        currentImageIndex := (currentImageIndex + 1) % |imagePaths|;
      }
      var arguments;
      if sessionCloseCounter < settings.sessionCloseLimit {
        arguments := "primary \"" + imagePath + "\"";
      } else {
        arguments := "secondary";
      }
      attempted := Some(arguments);
      match start {
        case Started => uiProcess := Some(UiProcess(arguments, false));
        case ReturnedNull =>
        case Threw => running := false;
      }
    }

    /** The stored process ends; its Exited handler is then due with it as sender. */
    method UiProcessExits() returns (sender: UiProcess)
      requires Valid() && uiProcess.Some?
      modifies this
      ensures Valid() && Counters() == old(Counters()) && currentImageIndex == old(currentImageIndex)
      ensures sender == UiProcess(old(uiProcess).value.arguments, true) && uiProcess == Some(sender)
      ensures running == old(running)
    {
      sender := UiProcess(uiProcess.value.arguments, true);
      uiProcess := Some(sender);
    }

    /**
     * The Exited handler for `sender`: a primary process exiting with code 1
     * counts in both counters, any other primary exit in neither; a secondary
     * process restarts the session count whatever its code. The stored handle
     * is then forgotten, whichever process it was.
     */
    method OnUiProcessExited(sender: UiProcess, exitCode: int)
      requires Valid()
      modifies this
      ensures Valid()
      ensures Counters() == ExitUpdate(old(Counters()), sender.arguments, exitCode)
      ensures uiProcess == None
      ensures currentImageIndex == old(currentImageIndex) && running == old(running)
    {
      if StartsWith(sender.arguments, "primary") {
        if exitCode == 1 {
          sessionCloseCounter := sessionCloseCounter + 1;
          totalCloseCounter := totalCloseCounter + 1;
        }
      } else if StartsWith(sender.arguments, "secondary") {
        sessionCloseCounter := 0;
      }
      uiProcess := None;
    }

    /**
     * Cancellation ends the loop: the monitor is disposed (removing the hooks),
     * then the hook itself is disposed, removing them once more.
     */
    method Shutdown()
      requires Valid() && monitor.Valid() && running
      modifies this, monitor, hook
      ensures Valid() && !running
      ensures Counters() == old(Counters()) && uiProcess == old(uiProcess)
      ensures !monitor.keyboardTimerEnabled && !monitor.mouseTimerEnabled && !monitor.subscribed
      ensures hook.nativeCalls == old(hook.nativeCalls)
        + [UnhookWindowsHookEx(hook.keyboardHookHandle), UnhookWindowsHookEx(hook.mouseHookHandle)]
        + [UnhookWindowsHookEx(hook.keyboardHookHandle), UnhookWindowsHookEx(hook.mouseHookHandle)]
    {
      monitor.Dispose();
      hook.Dispose();
      running := false;
    }
  }
}
