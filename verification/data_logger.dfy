/**
 * The hourly report logger (Ergonomy/Logging/DataLogger.cs).
 *
 * Once an hour it names a spreadsheet after the current Solar Hijri date and
 * Tehran time, writes the two report-window totals and the total close count
 * into it, saves it and, only when the save succeeded, resets the monitor's
 * totals. Every failure on the way is caught and swallowed. The calendar and
 * time-zone conversion and the spreadsheet library are outside this model: the
 * converted date and time arrive as `LocalTime` (None when the time zone cannot
 * be found), and whether `Save` succeeds is a parameter.
 */
module DataLogging {
  import opened Wrappers
  import opened Time
  import EdgeMonitor

  /** The log timer always fires every hour, whatever the settings say. */
  const LogIntervalMs: int := 3_600_000

  /** A Solar Hijri date and a Tehran wall-clock time, as the calendar returns them. */
  datatype LocalTime = LocalTime(year: nat, month: nat, day: nat, hour: nat, minute: nat)

  /** Every field fits its padded width: a four-digit year and two-digit month, day, hour and minute. */
  ghost predicate FitsWidths(t: LocalTime)
  {
    t.year < 10000 && t.month < 100 && t.day < 100 && t.hour < 100 && t.minute < 100
  }

  function DigitChar(d: nat): char
    requires d < 10
  {
    "0123456789"[d]
  }

  predicate IsDigit(c: char)
  {
    '0' <= c <= '9'
  }

  function DigitValue(c: char): nat
    requires IsDigit(c)
  {
    (c as int - '0' as int) as nat
  }

  /**
   * The decimal digits of `n`, zero-padded on the left to at least `width`
   * characters; as the custom format "0000" (width 4) or "00" (width 2) writes
   * a non-negative integer.
   */
  function Pad(n: nat, width: nat): string
    decreases n, width
  {
    if n < 10 && width <= 1 then [DigitChar(n)]
    else Pad(n / 10, if width > 0 then width - 1 else 0) + [DigitChar(n % 10)]
  }

  predicate AllDigits(s: string)
  {
    forall i :: 0 <= i < |s| ==> IsDigit(s[i])
  }

  /** The number a string of decimal digits denotes. */
  function DigitsValue(s: string): nat
    requires AllDigits(s)
    decreases |s|
  {
    if s == [] then 0 else DigitsValue(s[..|s| - 1]) * 10 + DigitValue(s[|s| - 1])
  }

  function Pow10(k: nat): nat
  {
    if k == 0 then 1 else 10 * Pow10(k - 1)
  }

  /** Padding writes only digits, at least one and at least `width` of them. */
  lemma {:induction false} PadDigits(n: nat, width: nat)
    ensures AllDigits(Pad(n, width))
    ensures |Pad(n, width)| >= 1 && |Pad(n, width)| >= width
    decreases n, width
  {
    if !(n < 10 && width <= 1) {
      var w' := if width > 0 then width - 1 else 0;
      PadDigits(n / 10, w');
    }
  }

  /** Padding reads back as the number it wrote. */
  lemma {:induction false} PadValue(n: nat, width: nat)
    ensures AllDigits(Pad(n, width)) && DigitsValue(Pad(n, width)) == n
    decreases n, width
  {
    PadDigits(n, width);
    if n < 10 && width <= 1 {
      assert Pad(n, width)[..0] == [];
    } else {
      var w' := if width > 0 then width - 1 else 0;
      var s := Pad(n / 10, w');
      PadValue(n / 10, w');
      assert Pad(n, width)[..|s|] == s;
    }
  }

  /** A number that fits in `width` digits is padded to exactly `width` characters. */
  lemma {:induction false} PadLength(n: nat, width: nat)
    requires 1 <= width && n < Pow10(width)
    ensures |Pad(n, width)| == width
    decreases width
  {
    if width > 1 {
      PadLength(n / 10, width - 1);
    }
  }

  /** The report file name: year-month-day_hour-minute.xlsx, as "{0:0000}-{1:00}-{2:00}_{3:00}-{4:00}.xlsx" writes it. */
  function FileName(t: LocalTime): (r: string)
    ensures |r| >= 21
    ensures r[|r| - 5..] == ".xlsx"
  {
    PadDigits(t.year, 4);
    PadDigits(t.month, 2);
    PadDigits(t.day, 2);
    PadDigits(t.hour, 2);
    PadDigits(t.minute, 2);
    Pad(t.year, 4) + "-" + Pad(t.month, 2) + "-" + Pad(t.day, 2) + "_" + Pad(t.hour, 2) + "-" + Pad(t.minute, 2) + ".xlsx"
  }

  /** Reads a fixed-width report file name back into its date and time; None if it is not one. */
  function ParseFileName(s: string): Option<LocalTime>
  {
    if |s| == 21 && s[4] == '-' && s[7] == '-' && s[10] == '_' && s[13] == '-' && s[16..] == ".xlsx"
      && AllDigits(s[..4]) && AllDigits(s[5..7]) && AllDigits(s[8..10]) && AllDigits(s[11..13]) && AllDigits(s[14..16])
    then Some(LocalTime(DigitsValue(s[..4]), DigitsValue(s[5..7]), DigitsValue(s[8..10]),
                        DigitsValue(s[11..13]), DigitsValue(s[14..16])))
    else None
  }

  lemma SplitConcat(a: string, b: string)
    ensures (a + b)[..|a|] == a && (a + b)[|a|..] == b
  {
  }

  /**
   * When every field fits its width the name has 21 characters and reads back
   * as the date and time it was made from.
   */
  lemma FileNameRoundTrip(t: LocalTime)
    requires FitsWidths(t)
    ensures |FileName(t)| == 21
    ensures ParseFileName(FileName(t)) == Some(t)
  {
    assert Pow10(2) == 100 && Pow10(4) == 10000;
    var y, mo, d, h, mi := Pad(t.year, 4), Pad(t.month, 2), Pad(t.day, 2), Pad(t.hour, 2), Pad(t.minute, 2);
    PadLength(t.year, 4);
    PadLength(t.month, 2);
    PadLength(t.day, 2);
    PadLength(t.hour, 2);
    PadLength(t.minute, 2);
    PadValue(t.year, 4);
    PadValue(t.month, 2);
    PadValue(t.day, 2);
    PadValue(t.hour, 2);
    PadValue(t.minute, 2);
    // The name, built up left to right; each prefix is a slice of the whole.
    var p1 := y + "-";
    var p2 := p1 + mo;
    var p3 := p2 + "-";
    var p4 := p3 + d;
    var p5 := p4 + "_";
    var p6 := p5 + h;
    var p7 := p6 + "-";
    var p8 := p7 + mi;
    var s := p8 + ".xlsx";
    assert s == FileName(t);
    SplitConcat(p8, ".xlsx");
    SplitConcat(p7, mi);
    SplitConcat(p6, "-");
    SplitConcat(p5, h);
    SplitConcat(p4, "_");
    SplitConcat(p3, d);
    SplitConcat(p2, "-");
    SplitConcat(p1, mo);
    SplitConcat(y, "-");
    assert s[..16] == p8 && s[16..] == ".xlsx";
    assert s[14..16] == p8[14..] == mi;
    assert s[..14] == p7 && s[13] == p7[13] == '-';
    assert s[11..13] == p6[11..] == h;
    assert s[..11] == p5 && s[10] == p5[10] == '_';
    assert s[8..10] == p4[8..] == d;
    assert s[..8] == p3 && s[7] == p3[7] == '-';
    assert s[5..7] == p2[5..] == mo;
    assert s[..5] == p1 && s[4] == p1[4] == '-';
    assert s[..4] == y;
  }

  /** Two dates and times whose fields fit their widths never share a report file name. */
  lemma FileNamesDistinct(t1: LocalTime, t2: LocalTime)
    requires FitsWidths(t1) && FitsWidths(t2) && t1 != t2
    ensures FileName(t1) != FileName(t2)
  {
    FileNameRoundTrip(t1);
    FileNameRoundTrip(t2);
  }

  /** A worksheet cell value. */
  datatype Cell = Text(text: string) | Number(number: real) | Integer(integer: int)

  datatype Worksheet = Worksheet(name: string, cells: map<(int, int), Cell>)

  /**
   * The "ActivityLog" sheet: headers in row 1; in row 2 the keyboard and mouse
   * totals in seconds and the total close count, in columns 1 to 3.
   */
  function ActivitySheet(keyboardTicks: int, mouseTicks: int, totalCloseCounter: int): (w: Worksheet)
    ensures w.name == "ActivityLog"
    ensures forall k :: k in w.cells <==> 1 <= k.0 <= 2 && 1 <= k.1 <= 3
    ensures w.cells[(2, 1)].Number? && w.cells[(2, 1)].number * TicksPerSecond as real == keyboardTicks as real
    ensures w.cells[(2, 2)].Number? && w.cells[(2, 2)].number * TicksPerSecond as real == mouseTicks as real
    ensures w.cells[(2, 3)] == Integer(totalCloseCounter)
  {
    Worksheet("ActivityLog", map[
      (1, 1) := Text("Keyboard Activity (s)"),
      (1, 2) := Text("Mouse Activity (s)"),
      (1, 3) := Text("Total Close Counter"),
      (2, 1) := Number(TotalSeconds(keyboardTicks)),
      (2, 2) := Number(TotalSeconds(mouseTicks)),
      (2, 3) := Integer(totalCloseCounter)])
  }

  /** What one logging attempt produced: a saved file, or a caught failure. */
  datatype LogResult = Logged(fileName: string, sheet: Worksheet) | LogFailed

  class DataLogger {
    const monitor: EdgeMonitor.ActivityMonitor
    const intervalMs: int
    var timerEnabled: bool

    /** Creates the hourly timer, stopped. */
    constructor (activityMonitor: EdgeMonitor.ActivityMonitor)
      ensures monitor == activityMonitor
      ensures intervalMs == LogIntervalMs && !timerEnabled
    {
      monitor := activityMonitor;
      intervalMs := LogIntervalMs;
      timerEnabled := false;
    }

    method Start()
      modifies this
      ensures timerEnabled
    {
      timerEnabled := true;
    }

    method Stop()
      modifies this
      ensures !timerEnabled
    {
      timerEnabled := false;
    }

    /**
     * One logging attempt. `tehranTime` is the converted current time (None when
     * the time-zone lookup throws), `saveSucceeds` whether `Save` returns, and
     * `totalCloseCounter` what the close-count getter returns. A file is
     * written exactly when both steps succeed, and only then are the monitor's
     * totals reset; the alarm windows and timestamps are never touched, and
     * every failure is swallowed.
     */
    method LogData(tehranTime: Option<LocalTime>, saveSucceeds: bool, totalCloseCounter: int) returns (r: LogResult)
      modifies monitor
      ensures r.Logged? <==> tehranTime.Some? && saveSucceeds
      ensures r.Logged? ==> r.fileName == FileName(tehranTime.value)
      ensures r.Logged? ==> r.sheet == ActivitySheet(old(monitor.totalKeyboardActiveTime), old(monitor.totalMouseActiveTime), totalCloseCounter)
      ensures r.Logged? ==> monitor.totalKeyboardActiveTime == 0 && monitor.totalMouseActiveTime == 0
      ensures r.LogFailed? ==>
        monitor.totalKeyboardActiveTime == old(monitor.totalKeyboardActiveTime)
        && monitor.totalMouseActiveTime == old(monitor.totalMouseActiveTime)
      ensures monitor.alarmKeyboardActiveTime == old(monitor.alarmKeyboardActiveTime)
      ensures monitor.alarmMouseActiveTime == old(monitor.alarmMouseActiveTime)
      ensures monitor.lastKeyboardActivity == old(monitor.lastKeyboardActivity)
      ensures monitor.lastMouseActivity == old(monitor.lastMouseActivity)
    {
      if tehranTime.None? {
        return LogFailed;
      }
      var fileName := FileName(tehranTime.value);
      var sheet := ActivitySheet(monitor.totalKeyboardActiveTime, monitor.totalMouseActiveTime, totalCloseCounter);
      if !saveSucceeds {
        return LogFailed;
      }
      monitor.ResetTotalTimers();
      r := Logged(fileName, sheet);
    }

    /** The hourly timer elapses: one logging attempt. */
    method OnLogTimerElapsed(tehranTime: Option<LocalTime>, saveSucceeds: bool, totalCloseCounter: int) returns (r: LogResult)
      modifies monitor
      ensures r.Logged? <==> tehranTime.Some? && saveSucceeds
      ensures r.Logged? ==> r.fileName == FileName(tehranTime.value)
      ensures r.Logged? ==> r.sheet == ActivitySheet(old(monitor.totalKeyboardActiveTime), old(monitor.totalMouseActiveTime), totalCloseCounter)
      ensures r.Logged? ==> monitor.totalKeyboardActiveTime == 0 && monitor.totalMouseActiveTime == 0
      ensures r.LogFailed? ==>
        monitor.totalKeyboardActiveTime == old(monitor.totalKeyboardActiveTime)
        && monitor.totalMouseActiveTime == old(monitor.totalMouseActiveTime)
      ensures monitor.alarmKeyboardActiveTime == old(monitor.alarmKeyboardActiveTime)
      ensures monitor.alarmMouseActiveTime == old(monitor.alarmMouseActiveTime)
      ensures monitor.lastKeyboardActivity == old(monitor.lastKeyboardActivity)
      ensures monitor.lastMouseActivity == old(monitor.lastMouseActivity)
    {
      r := LogData(tehranTime, saveSucceeds, totalCloseCounter);
    }

    /** Disposing releases the timer; modelled as stopping it. */
    method Dispose()
      modifies this
      ensures !timerEnabled
    {
      timerEnabled := false;
    }
  }
}
