/**
 * The Python prototype of the break reminder (src/main.py).
 *
 * Once a second it adds the wall-clock time since the previous check to the
 * active time while the user has been idle for less than a minute, and zeroes
 * it otherwise. When the active time exceeds two hours (strictly) and no
 * notification is open, it opens one: an animated exercise picture, or a
 * warning message once three notifications have been closed. Every close
 * counts, whatever was shown, and the count is never reset.
 *
 * Times are seconds as reals; `now` and the idle time the input listener
 * reports are parameters of each check.
 */
module Prototype {
  import opened Wrappers

  /** Two hours, in seconds. */
  const ActivityThreshold: real := 7200.0
  /** Idle time, in seconds, from which the active time is zeroed. */
  const InactivityTimeout: real := 60.0
  /** Closed notifications after which the warning message is shown instead of the picture. */
  const IgnoredLimit: int := 3

  datatype Notification = GifNotification | MessageNotification

  /** What a notification shows, given how many have been closed so far. */
  function NotificationFor(closeCount: int): (n: Notification)
    ensures n == MessageNotification <==> closeCount >= IgnoredLimit
  {
    if closeCount >= IgnoredLimit then MessageNotification else GifNotification
  }

  /**
   * The active time after a check at `now`, `inactiveTime` seconds after the
   * last input: a minute of idleness zeroes it, and otherwise, with the clock
   * running forward, it never drops and never turns negative.
   */
  function Accrued(activeTime: real, lastCheckTime: real, now: real, inactiveTime: real): (r: real)
    ensures inactiveTime >= InactivityTimeout ==> r == 0.0
    ensures inactiveTime < InactivityTimeout && lastCheckTime <= now ==> activeTime <= r
    ensures 0.0 <= activeTime && lastCheckTime <= now ==> 0.0 <= r
  {
    if inactiveTime < InactivityTimeout then activeTime + (now - lastCheckTime) else 0.0
  }

  /**
   * Whether a check with this accrued active time opens a notification: never
   * while one is open, and only past the threshold.
   */
  predicate Fires(accrued: real, isNotificationOpen: bool)
    ensures Fires(accrued, isNotificationOpen) ==> accrued > ActivityThreshold
    ensures isNotificationOpen ==> !Fires(accrued, isNotificationOpen)
  {
    accrued > ActivityThreshold && !isNotificationOpen
  }

  /** The threshold is strict: exactly two hours of activity does not notify, a moment more does. */
  lemma ThresholdIsStrict(extra: real)
    requires extra > 0.0
    ensures !Fires(ActivityThreshold, false)
    ensures Fires(ActivityThreshold + extra, false)
  {
  }

  /** A minute of idleness zeroes the active time, so no check after it notifies. */
  lemma IdleMinuteNeverFires(activeTime: real, lastCheckTime: real, now: real, inactiveTime: real, isOpen: bool)
    requires inactiveTime >= InactivityTimeout
    ensures Accrued(activeTime, lastCheckTime, now, inactiveTime) == 0.0
    ensures !Fires(Accrued(activeTime, lastCheckTime, now, inactiveTime), isOpen)
  {
  }

  /** The picture is shown for the first three notifications, the message from then on, for good. */
  lemma EscalationIsPermanent(closeCount: nat, later: nat)
    requires closeCount >= IgnoredLimit
    ensures NotificationFor(closeCount + later) == MessageNotification
    ensures forall n: nat :: n < IgnoredLimit ==> NotificationFor(n) == GifNotification
  {
  }

  /**
   * When the active time is reset on opening a notification and the clock
   * runs forward, the next notification needs more than two hours of checks
   * with the user active: the time since the last reset bounds the active time.
   */
  lemma {:induction false} ResetBoundsActiveTime(since: real, checks: seq<real>, idle: seq<real>)
    requires |checks| == |idle|
    requires checks != [] ==> since <= checks[0]
    requires forall i, j :: 0 <= i < j < |checks| ==> checks[i] <= checks[j]
    ensures 0.0 <= AccruedOver(0.0, since, checks, idle)
    ensures AccruedOver(0.0, since, checks, idle) <= (if checks == [] then since else checks[|checks| - 1]) - since
    ensures Fires(AccruedOver(0.0, since, checks, idle), false) ==> checks[|checks| - 1] - since > ActivityThreshold
    decreases |checks|
  {
    if checks != [] {
      var n := |checks| - 1;
      if n > 0 {
        assert since <= checks[0] <= checks[n - 1] <= checks[n];
      }
      ResetBoundsActiveTime(since, checks[..n], idle[..n]);
    }
  }

  /** The active time after a run of checks at the times `checks`, with idle times `idle`, none notifying. */
  function AccruedOver(activeTime: real, lastCheckTime: real, checks: seq<real>, idle: seq<real>): real
    requires |checks| == |idle|
    decreases |checks|
  {
    if checks == [] then activeTime
    else
      var n := |checks| - 1;
      var before := if n == 0 then lastCheckTime else checks[n - 1];
      Accrued(AccruedOver(activeTime, lastCheckTime, checks[..n], idle[..n]), before, checks[n], idle[n])
  }

  /**
   * The application object. `checking` stands for the live chain of one-second
   * checks: the first is due once the application starts, and each check
   * schedules the next as its last step. The ghost fields record whether it
   * has started and how many notifications it has opened.
   */
  class ErgonomyApp {
    var closeCount: int
    var activeTime: real
    var lastCheckTime: real
    var isNotificationOpen: bool
    var checking: bool
    ghost var started: bool
    ghost var shownCount: nat

    /**
     * Every opened notification is either still open or has been closed, and
     * no check is due before the application starts.
     */
    ghost predicate Valid()
      reads this
    {
      && closeCount + (if isNotificationOpen then 1 else 0) == shownCount
      && (checking ==> started)
    }

    /**
     * What the code as written keeps: at most one notification is ever
     * opened, and once it is, no check is due any more.
     */
    ghost predicate AsWrittenInvariant()
      reads this
    {
      && Valid()
      && shownCount <= 1
      && (checking || !started ==> shownCount == 0)
    }

    /** Created at `now`: nothing closed, no active time, no notification open, no check due yet. */
    constructor (now: real)
      ensures AsWrittenInvariant()
      ensures closeCount == 0 && activeTime == 0.0 && lastCheckTime == now && !isNotificationOpen
      ensures !checking && !started
    {
      closeCount := 0;
      activeTime := 0.0;
      lastCheckTime := now;
      isNotificationOpen := false;
      checking := false;
      started := false;
      shownCount := 0;
    }

    /**
     * Starting the application: the input listener starts (not modelled) and
     * the first check is due at once.
     */
    method Start()
      requires !started
      modifies this`checking, this`started
      ensures checking && started
      ensures old(Valid()) ==> Valid()
      ensures old(AsWrittenInvariant()) ==> AsWrittenInvariant()
    {
      checking := true;
      started := true;
    }

    /**
     * The once-a-second check as written. Opening the notification enters a
     * nested event loop that only returns when the application's root window
     * is destroyed, so neither the reset of the active time nor the scheduling
     * of the next check that follow it in the source is ever reached: a check
     * that notifies is the last one. Hence, from the state the constructor
     * makes, at most one notification is ever opened and it is the picture.
     */
    method CheckActivityAsWritten(now: real, inactiveTime: real) returns (shown: Option<Notification>)
      requires checking
      modifies this
      ensures shown.Some? <==> Fires(Accrued(old(activeTime), old(lastCheckTime), now, inactiveTime), old(isNotificationOpen))
      ensures shown.Some? ==> shown.value == NotificationFor(closeCount)
      ensures activeTime == Accrued(old(activeTime), old(lastCheckTime), now, inactiveTime)
      ensures lastCheckTime == now && closeCount == old(closeCount)
      ensures isNotificationOpen == (old(isNotificationOpen) || shown.Some?)
      ensures checking <==> shown.None?
      ensures shownCount == old(shownCount) + (if shown.Some? then 1 else 0) && started == old(started)
      ensures old(Valid()) ==> Valid()
      ensures old(AsWrittenInvariant()) ==> AsWrittenInvariant()
      ensures old(AsWrittenInvariant()) && shown.Some? ==> shown.value == GifNotification
    {
      if inactiveTime < InactivityTimeout {
        activeTime := activeTime + (now - lastCheckTime);
      } else {
        activeTime := 0.0;
      }
      lastCheckTime := now;
      shown := None;
      if activeTime > ActivityThreshold && !isNotificationOpen {
        var n := ShowNotification();
        shown := Some(n);
        checking := false;
      }
    }

    /**
     * The once-a-second check as evidently intended: the notification opens
     * without holding up the check, so the active time is reset as soon as it
     * opens and the next check is always scheduled. After it, an active time
     * over the threshold can only remain while a notification was already open.
     */
    method CheckActivity(now: real, inactiveTime: real) returns (shown: Option<Notification>)
      requires checking
      modifies this
      ensures shown.Some? <==> Fires(Accrued(old(activeTime), old(lastCheckTime), now, inactiveTime), old(isNotificationOpen))
      ensures shown.Some? ==> shown.value == NotificationFor(closeCount) && activeTime == 0.0
      ensures shown.None? ==> activeTime == Accrued(old(activeTime), old(lastCheckTime), now, inactiveTime)
      ensures activeTime > ActivityThreshold ==> old(isNotificationOpen)
      ensures old(activeTime) >= 0.0 && old(lastCheckTime) <= now ==> activeTime >= 0.0
      ensures lastCheckTime == now && closeCount == old(closeCount)
      ensures isNotificationOpen == (old(isNotificationOpen) || shown.Some?)
      ensures checking
      ensures shownCount == old(shownCount) + (if shown.Some? then 1 else 0) && started == old(started)
      ensures old(Valid()) ==> Valid()
    {
      if inactiveTime < InactivityTimeout {
        activeTime := activeTime + (now - lastCheckTime);
      } else {
        activeTime := 0.0;
      }
      lastCheckTime := now;
      shown := None;
      if activeTime > ActivityThreshold && !isNotificationOpen {
        var n := ShowNotification();
        shown := Some(n);
        activeTime := 0.0;
      }
    }

    /** Marks a notification as open and picks what it shows from the close count. */
    method ShowNotification() returns (n: Notification)
      requires !isNotificationOpen
      modifies this`isNotificationOpen, this`shownCount
      ensures isNotificationOpen && shownCount == old(shownCount) + 1
      ensures n == NotificationFor(closeCount)
    {
      isNotificationOpen := true;
      shownCount := shownCount + 1;
      if closeCount >= IgnoredLimit {
        n := MessageNotification;
      } else {
        n := GifNotification;
      }
    }

    /**
     * The notification's close button or window close: every close counts, and
     * none is open any more. Only an open notification can be closed.
     */
    method OnNotificationClose()
      requires isNotificationOpen
      modifies this
      ensures closeCount == old(closeCount) + 1 && !isNotificationOpen
      ensures activeTime == old(activeTime) && lastCheckTime == old(lastCheckTime)
      ensures checking == old(checking) && started == old(started) && shownCount == old(shownCount)
      ensures old(Valid()) ==> Valid()
      ensures old(AsWrittenInvariant()) ==> AsWrittenInvariant()
    {
      closeCount := closeCount + 1;
      isNotificationOpen := false;
    }

    /**
     * As written, the prototype never gets past one notification: at most one
     * is ever closed, so the warning message is never chosen, and once one has
     * opened no check is due again.
     */
    lemma AsWrittenNeverWarns()
      requires AsWrittenInvariant()
      ensures closeCount <= 1 && NotificationFor(closeCount) == GifNotification
      ensures shownCount == 1 ==> !checking
    {
    }
  }
}
