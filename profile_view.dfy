/**
 * The profile screen's counters (components/ProfileView.tsx): distinct workout
 * dates, this month's workout days, the Monday-first month calendar and the
 * days left of the membership.
 *
 * The clock and the calendar are parameters: the year and month of today, the
 * length of the month, the weekday of its first day, and timestamps in
 * milliseconds.
 */
module ProfileView {
  import opened Types
  import opened Numerals

  /** The set of dates on which some workout was logged. */
  function WorkoutDates(logs: seq<WorkoutLog>): (dates: set<string>)
    ensures forall d :: d in dates <==> exists i :: 0 <= i < |logs| && logs[i].date == d
  {
    set i | 0 <= i < |logs| :: logs[i].date
  }

  /** Appending a log adds its date to the set of workout dates. */
  lemma WorkoutDatesAppend(logs: seq<WorkoutLog>, log: WorkoutLog)
    ensures WorkoutDates(logs + [log]) == WorkoutDates(logs) + {log.date}
  {
    var after := logs + [log];
    forall d | d in WorkoutDates(after) ensures d in WorkoutDates(logs) + {log.date} {
      var i :| 0 <= i < |after| && after[i].date == d;
      if i < |logs| { assert logs[i].date == d; }
    }
    forall d | d in WorkoutDates(logs) ensures d in WorkoutDates(after) {
      var i :| 0 <= i < |logs| && logs[i].date == d;
      assert after[i].date == d;
    }
    assert after[|logs|] == log;
  }

  /** The total workout count never exceeds the number of logs. */
  lemma {:induction false} WorkoutCountAtMostLogs(logs: seq<WorkoutLog>)
    ensures |WorkoutDates(logs)| <= |logs|
  {
    if logs != [] {
      var front := logs[..|logs| - 1];
      assert logs == front + [logs[|logs| - 1]];
      WorkoutCountAtMostLogs(front);
      WorkoutDatesAppend(front, logs[|logs| - 1]);
    }
  }

  /**
   * A further log adds one to the count exactly when its date is new: two logs
   * on one date count once.
   */
  lemma WorkoutCountOfAnotherLog(logs: seq<WorkoutLog>, log: WorkoutLog)
    ensures log.date in WorkoutDates(logs) ==> |WorkoutDates(logs + [log])| == |WorkoutDates(logs)|
    ensures log.date !in WorkoutDates(logs) ==> |WorkoutDates(logs + [log])| == |WorkoutDates(logs)| + 1
  {
    WorkoutDatesAppend(logs, log);
    if log.date in WorkoutDates(logs) {
      assert WorkoutDates(logs) + {log.date} == WorkoutDates(logs);
    }
  }

  predicate StartsWith(s: string, prefix: string)
  {
    |prefix| <= |s| && s[..|prefix|] == prefix
  }

  /** The dates that fall in the month with this `YYYY-MM` prefix. */
  function MonthDates(dates: set<string>, monthPrefix: string): (r: set<string>)
    ensures r <= dates
    ensures forall d :: d in r <==> d in dates && StartsWith(d, monthPrefix)
  {
    set d | d in dates && StartsWith(d, monthPrefix)
  }

  /** This month's workout-day count, which never exceeds the total count. */
  function MonthCount(dates: set<string>, monthPrefix: string): (n: nat)
    ensures n <= |dates|
  {
    var r := MonthDates(dates, monthPrefix);
    assert |r| <= |dates| by {
      var rest := dates - r;
      assert dates == r + rest;
    }
    |r|
  }

  /** Blank cells before day 1 when weeks start on Monday (`firstDay` 0 is Sunday). */
  function StartOffset(firstDay: int): (offset: nat)
    requires 0 <= firstDay < 7
    ensures offset < 7
    ensures (offset + 1) % 7 == firstDay
  {
    if firstDay == 0 then 6 else firstDay - 1
  }

  /** The `YYYY-MM` part of a calendar key. */
  function MonthPrefix(year: nat, month: nat): string
  {
    NatToString(year) + "-" + Pad2(month)
  }

  /** The zero-padded key of a calendar day, in the format of log dates. */
  function DateKey(year: nat, month: nat, day: nat): (key: string)
    ensures StartsWith(key, MonthPrefix(year, month))
  {
    var key := MonthPrefix(year, month) + "-" + Pad2(day);
    assert key[..|MonthPrefix(year, month)|] == MonthPrefix(year, month);
    key
  }

  /**
   * For a four-digit year, the key is `YYYY-MM-DD` and each field reads back
   * as the number it was made from; so distinct days have distinct keys.
   */
  lemma DateKeyFormat(year: nat, month: nat, day: nat)
    requires 1000 <= year <= 9999 && 1 <= month <= 12 && 1 <= day <= 31
    ensures var key := DateKey(year, month, day);
      |key| == 10 && key[4] == '-' && key[7] == '-' &&
      AllDigits(key[..4]) && AllDigits(key[5..7]) && AllDigits(key[8..]) &&
      DigitsValue(key[..4]) == year && DigitsValue(key[5..7]) == month && DigitsValue(key[8..]) == day
  {
    NumeralLength(year, 4);
    var y, m, d := NatToString(year), Pad2(month), Pad2(day);
    var key := DateKey(year, month, day);
    assert key == y + "-" + m + "-" + d;
    assert key[..4] == y;
    assert key[5..7] == m;
    assert key[8..] == d;
  }

  /** One cell of the calendar grid. */
  datatype CalendarCell =
    | Blank
    | Day(day: nat, date: string, isWorkout: bool, isToday: bool)

  /** The cell of day `day` (from 1): its date key, whether a workout was logged then, whether it is today. */
  function DayCell(year: nat, month: nat, day: nat, today: nat, workoutDates: set<string>): (c: CalendarCell)
    ensures c.Day? && c.day == day && c.date == DateKey(year, month, day)
    ensures c.isWorkout <==> DateKey(year, month, day) in workoutDates
    ensures c.isToday <==> day == today
  {
    var dateStr := DateKey(year, month, day);
    Day(day, dateStr, dateStr in workoutDates, day == today)
  }

  /** `cells` holds `offset` blanks and then the cells of days 1 to `n`. */
  ghost predicate GridUpTo(cells: seq<CalendarCell>, offset: nat, n: nat, year: nat, month: nat, today: nat,
                           workoutDates: set<string>)
  {
    && |cells| == offset + n
    && (forall i :: 0 <= i < offset ==> cells[i] == Blank)
    && (forall i :: offset <= i < |cells| ==> cells[i] == DayCell(year, month, i - offset + 1, today, workoutDates))
  }

  lemma GridExtend(cells: seq<CalendarCell>, offset: nat, n: nat, year: nat, month: nat, today: nat,
                   workoutDates: set<string>)
    requires GridUpTo(cells, offset, n, year, month, today, workoutDates)
    ensures GridUpTo(cells + [DayCell(year, month, n + 1, today, workoutDates)], offset, n + 1, year, month, today, workoutDates)
  {
  }

  /**
   * `renderCalendar`: `StartOffset` blank cells, then one cell per day of the
   * month, numbered from 1, highlighted when a workout was logged that day.
   * `month` counts from 0, as `getMonth` does.
   */
  method RenderCalendar(year: nat, month: nat, daysInMonth: nat, firstDay: int, today: nat,
                        workoutDates: set<string>)
    returns (cells: seq<CalendarCell>)
    requires 0 <= firstDay < 7
    ensures |cells| == StartOffset(firstDay) + daysInMonth
    ensures forall i :: 0 <= i < StartOffset(firstDay) ==> cells[i] == Blank
    ensures forall i :: StartOffset(firstDay) <= i < |cells| ==>
      cells[i] == DayCell(year, month + 1, i - StartOffset(firstDay) + 1, today, workoutDates)
  {
    var startOffset := StartOffset(firstDay);
    cells := [];
    for i := 0 to startOffset
      invariant |cells| == i
      invariant forall j :: 0 <= j < i ==> cells[j] == Blank
    {
      cells := cells + [Blank];
    }
    for d := 1 to daysInMonth + 1
      invariant GridUpTo(cells, startOffset, d - 1, year, month + 1, today, workoutDates)
    {
      GridExtend(cells, startOffset, d - 1, year, month + 1, today, workoutDates);
      cells := cells + [DayCell(year, month + 1, d, today, workoutDates)];
    }
  }

  const MsPerDay := 86400000

  /** Division rounded up (`Math.ceil` of a quotient) for a positive divisor. */
  function CeilDiv(a: int, b: int): (q: int)
    requires b > 0
    ensures (q - 1) * b < a <= q * b
  {
    (a + b - 1) / b
  }

  /**
   * `getDaysRemaining`: nothing without an end date; otherwise whole days to
   * the end, rounded up, negative once it has passed. `endMs` stands for the
   * parsed end date.
   */
  function DaysRemaining(settings: UserSettings, endMs: int, nowMs: int): (r: Option<int>)
    ensures r.None? <==> settings.membershipEndDate.None? || settings.membershipEndDate == Some("")
    ensures r.Some? ==> (r.value - 1) * MsPerDay < endMs - nowMs <= r.value * MsPerDay
  {
    if settings.membershipEndDate.None? || settings.membershipEndDate == Some("") then None
    else Some(CeilDiv(endMs - nowMs, MsPerDay))
  }

  /** The membership warning shows exactly when at most six full days are left. */
  lemma MembershipWarning(settings: UserSettings, endMs: int, nowMs: int)
    requires DaysRemaining(settings, endMs, nowMs).Some?
    ensures DaysRemaining(settings, endMs, nowMs).value < 7 <==> endMs - nowMs <= 6 * MsPerDay
  {
    var q := DaysRemaining(settings, endMs, nowMs).value;
    if q < 7 {
      assert q * MsPerDay <= 6 * MsPerDay;
    } else {
      assert (q - 1) * MsPerDay >= 6 * MsPerDay;
    }
  }
}
