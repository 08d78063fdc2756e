/**
 * The escalation rules shared by the in-process controller
 * (Ergonomy/MainApplicationContext.cs) and the service (Ergonomy/Service.cs).
 *
 * An alarm is raised at the primary level while the session close counter is
 * below the session close limit, and at the secondary level otherwise. When a
 * primary alarm is closed by the user, both the session and the total close
 * counters go up by one; when it closes by itself, neither changes. When a
 * secondary alarm closes, for whatever reason, the session counter returns to
 * zero and the total is kept.
 */
module Escalation {
  datatype Level = Primary | Secondary

  /** How an alarm ended: closed by the user, or closed by its own timer. */
  datatype Outcome = UserDismissed | TimedOut

  datatype Counters = Counters(session: int, total: int)

  /** The level of the next alarm for the given session close count. */
  function ChooseLevel(session: int, limit: int): (l: Level)
    ensures l == Primary <==> session < limit
  {
    if session < limit then Primary else Secondary
  }

  /** The counters after an alarm raised at `level` ends with `outcome`. */
  function AfterClose(c: Counters, level: Level, outcome: Outcome): (r: Counters)
    ensures r.total == c.total + (if level == Primary && outcome == UserDismissed then 1 else 0)
    ensures level == Primary ==> r.session - c.session == r.total - c.total
    ensures level == Secondary ==> r.session == 0
  {
    match level
    case Primary => if outcome == UserDismissed then Counters(c.session + 1, c.total + 1) else c
    case Secondary => Counters(0, c.total)
  }

  /** The upper bound the session counter keeps: the limit, or zero when the limit is not positive. */
  function SessionBound(limit: int): nat
  {
    if limit > 0 then limit else 0
  }

  /** The counters are non-negative and the session counter is within its bound. */
  ghost predicate WithinLimit(c: Counters, limit: int)
  {
    0 <= c.session <= SessionBound(limit) && 0 <= c.total
  }

  /** One cycle: an alarm raised at the level the counters select ends with `outcome`. */
  function Cycle(c: Counters, limit: int, outcome: Outcome): Counters
  {
    AfterClose(c, ChooseLevel(c.session, limit), outcome)
  }

  /** The counters after a run of cycles ending with the given outcomes, in order. */
  function Run(c: Counters, limit: int, outcomes: seq<Outcome>): Counters
    decreases |outcomes|
  {
    if outcomes == [] then c else Run(Cycle(c, limit, outcomes[0]), limit, outcomes[1..])
  }

  /** The level of each alarm raised during a run, in order. */
  function LevelsRaised(c: Counters, limit: int, outcomes: seq<Outcome>): (levels: seq<Level>)
    ensures |levels| == |outcomes|
    decreases |outcomes|
  {
    if outcomes == [] then []
    else [ChooseLevel(c.session, limit)] + LevelsRaised(Cycle(c, limit, outcomes[0]), limit, outcomes[1..])
  }

  /** How many positions hold a primary alarm that the user dismissed. */
  function DismissedPrimaries(levels: seq<Level>, outcomes: seq<Outcome>): nat
    requires |levels| == |outcomes|
    decreases |levels|
  {
    if levels == [] then 0
    else
      var counted := if levels[|levels| - 1] == Primary && outcomes[|outcomes| - 1] == UserDismissed then 1 else 0;
      DismissedPrimaries(levels[..|levels| - 1], outcomes[..|outcomes| - 1]) + counted
  }

  /** `n` user dismissals in a row. */
  function Dismissals(n: nat): (outcomes: seq<Outcome>)
    ensures |outcomes| == n
    ensures forall i :: 0 <= i < n ==> outcomes[i] == UserDismissed
  {
    seq(n, _ => UserDismissed)
  }

  /**
   * One close of the alarm the counters selected keeps the counters within
   * limit, never lowers the total, and raises it only for a dismissed primary.
   */
  lemma CycleKeepsWithinLimit(c: Counters, limit: int, outcome: Outcome)
    requires WithinLimit(c, limit)
    ensures WithinLimit(Cycle(c, limit, outcome), limit)
    ensures Cycle(c, limit, outcome).total
      == c.total + (if ChooseLevel(c.session, limit) == Primary && outcome == UserDismissed then 1 else 0)
  {
  }

  /** Every run keeps the counters within limit. */
  lemma {:induction false} RunKeepsWithinLimit(c: Counters, limit: int, outcomes: seq<Outcome>)
    requires WithinLimit(c, limit)
    ensures WithinLimit(Run(c, limit, outcomes), limit)
    decreases |outcomes|
  {
    if outcomes != [] {
      CycleKeepsWithinLimit(c, limit, outcomes[0]);
      RunKeepsWithinLimit(Cycle(c, limit, outcomes[0]), limit, outcomes[1..]);
    }
  }

  lemma {:induction false} DismissedPrimariesCons(l: Level, levels: seq<Level>, o: Outcome, outcomes: seq<Outcome>)
    requires |levels| == |outcomes|
    ensures DismissedPrimaries([l] + levels, [o] + outcomes)
      == (if l == Primary && o == UserDismissed then 1 else 0) + DismissedPrimaries(levels, outcomes)
    decreases |levels|
  {
    if levels != [] {
      var n := |levels|;
      assert ([l] + levels)[..n] == [l] + levels[..n - 1];
      assert ([o] + outcomes)[..n] == [o] + outcomes[..n - 1];
      DismissedPrimariesCons(l, levels[..n - 1], o, outcomes[..n - 1]);
    } else {
      assert ([l] + levels)[..0] == [];
    }
  }

  /**
   * The total close count grows by exactly the number of primary alarms the
   * user dismissed; secondary alarms and timed-out alarms never count.
   */
  lemma {:induction false} TotalCountsDismissedPrimaries(c: Counters, limit: int, outcomes: seq<Outcome>)
    ensures Run(c, limit, outcomes).total == c.total + DismissedPrimaries(LevelsRaised(c, limit, outcomes), outcomes)
    decreases |outcomes|
  {
    if outcomes != [] {
      var next := Cycle(c, limit, outcomes[0]);
      TotalCountsDismissedPrimaries(next, limit, outcomes[1..]);
      DismissedPrimariesCons(ChooseLevel(c.session, limit), LevelsRaised(next, limit, outcomes[1..]),
        outcomes[0], outcomes[1..]);
      assert [outcomes[0]] + outcomes[1..] == outcomes;
    }
  }

  /**
   * Starting below the limit, `n` dismissals that stay within the limit are all
   * at the primary level and each raises the session counter by one.
   */
  lemma {:induction false} DismissalsClimbSession(c: Counters, limit: int, n: nat)
    requires 0 <= c.session && c.session + n <= limit
    ensures Run(c, limit, Dismissals(n)) == Counters(c.session + n, c.total + n)
    ensures forall i :: 0 <= i < n ==> LevelsRaised(c, limit, Dismissals(n))[i] == Primary
    decreases n
  {
    if n > 0 {
      assert Dismissals(n)[1..] == Dismissals(n - 1);
      var next := Counters(c.session + 1, c.total + 1);
      assert Cycle(c, limit, UserDismissed) == next;
      DismissalsClimbSession(next, limit, n - 1);
    }
  }

  /**
   * With a positive limit and a fresh session, `limit` dismissed primary alarms
   * in a row make the next alarm secondary; once that secondary alarm ends,
   * however it ends, the session is back to zero and the next alarm is primary.
   */
  lemma Escalates(c: Counters, limit: int, ending: Outcome)
    requires 0 < limit && c.session == 0
    ensures var after := Run(c, limit, Dismissals(limit));
      && ChooseLevel(after.session, limit) == Secondary
      && Cycle(after, limit, ending) == Counters(0, c.total + limit)
      && ChooseLevel(Cycle(after, limit, ending).session, limit) == Primary
  {
    DismissalsClimbSession(c, limit, limit);
  }

  /** While below the limit, alarms that time out change nothing. */
  lemma {:induction false} TimeoutsChangeNothing(c: Counters, limit: int, outcomes: seq<Outcome>)
    requires c.session < limit
    requires forall i :: 0 <= i < |outcomes| ==> outcomes[i] == TimedOut
    ensures Run(c, limit, outcomes) == c
    decreases |outcomes|
  {
    if outcomes != [] {
      assert Cycle(c, limit, outcomes[0]) == c;
      TimeoutsChangeNothing(c, limit, outcomes[1..]);
    }
  }
}
