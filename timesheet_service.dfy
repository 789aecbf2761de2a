/**
 * The entry store: an append-only table of timesheet rows and the three
 * time-windowed queries over it (this week, this month, one user's last days).
 *
 * Time is local wall-clock time in integer microseconds since 1970-01-01 00:00,
 * the resolution of a Python `datetime`.  The weekday follows from the day
 * number (1970-01-01 was a Thursday); the day of the month comes from an
 * abstract calendar.
 */
module TimesheetService {
  import opened Json

  const MicrosPerDay: int := 86_400_000_000

  /** Day number of an instant (floor division: days before 1970 are negative). */
  function Day(t: int): int { t / MicrosPerDay }

  /** `datetime.weekday()`: Monday is 0, Sunday is 6. */
  function Weekday(day: int): (w: int)
    ensures 0 <= w < 7
  {
    (day + 3) % 7
  }

  /** Day 4 (1970-01-05) was a Monday, and each day's weekday follows the
      day before it's, wrapping from Sunday to Monday. */
  lemma WeekdayCycle(d: int)
    ensures Weekday(4) == 0
    ensures Weekday(d + 1) == (Weekday(d) + 1) % 7
    ensures Weekday(d + 7) == Weekday(d)
  {
  }

  predicate IsMidnight(t: int) { t % MicrosPerDay == 0 }

  /**
   * The calendar functions the queries rely on: the day of the month of a day
   * number, and `strftime('%Y-%m-%d %H:%M')` of an instant.
   */
  datatype Calendar = Calendar(dayOfMonth: int -> int, stamp: int -> string)

  /** Days of a month run 1, 2, 3, ...: a day that is not the first of its
      month follows the day before it. */
  ghost predicate ConsistentCalendar(cal: Calendar) {
    forall d :: 1 <= cal.dayOfMonth(d) <= 31 && (cal.dayOfMonth(d) > 1 ==> cal.dayOfMonth(d - 1) == cal.dayOfMonth(d) - 1)
  }

  /** One persisted timesheet entry. */
  datatype Row = Row(
    userId: string,
    username: string,
    channelId: string,
    clientName: string,
    hours: real,
    proofUrl: Option<string>,
    submittedAt: int)

  /** The dictionary the weekly and monthly queries return per row. */
  datatype ReportEntry = ReportEntry(
    username: string,
    clientName: string,
    hours: real,
    proofUrl: Option<string>,
    submissionDate: string)

  /**
   * Midnight of the most recent Monday (today when today is a Monday): the
   * cutoff of the weekly query.
   */
  function WeekStart(now: int): (r: int)
    ensures r <= now < r + 7 * MicrosPerDay
    ensures IsMidnight(r) && Weekday(Day(r)) == 0
    ensures forall m :: m <= now && IsMidnight(m) && Weekday(Day(m)) == 0 ==> m <= r
  {
    var today := Day(now);
    var r := (today - Weekday(today)) * MicrosPerDay;
    assert Day(r) == today - Weekday(today);
    forall m | m <= now && IsMidnight(m) && Weekday(Day(m)) == 0 ensures m <= r {
      MondayBefore(m, today);
    }
    r
  }

  lemma MondayBefore(m: int, today: int)
    requires IsMidnight(m) && Weekday(Day(m)) == 0 && Day(m) <= today
    ensures m <= (today - Weekday(today)) * MicrosPerDay
  {
    var dm := Day(m);
    assert m == dm * MicrosPerDay;
    var k := (today - dm) / 7;
    assert (today - dm) % 7 == Weekday(today) by {
      assert (dm + 3) % 7 == 0;
    }
    assert dm <= today - Weekday(today);
  }

  /** The days from the first of the month up to `d` count 1, 2, ... */
  lemma {:induction false} DaysOfMonthCount(cal: Calendar, d: int, k: nat)
    requires ConsistentCalendar(cal)
    requires k < cal.dayOfMonth(d)
    ensures cal.dayOfMonth(d - k) == cal.dayOfMonth(d) - k
  {
    if k > 0 {
      DaysOfMonthCount(cal, d, k - 1);
      assert cal.dayOfMonth(d - (k - 1)) > 1;
      assert d - (k - 1) - 1 == d - k;
    }
  }

  /**
   * Midnight of the first day of the current month: the cutoff of the monthly
   * query.
   */
  function MonthStart(now: int, cal: Calendar): (r: int)
    requires ConsistentCalendar(cal)
    ensures r <= now < r + 31 * MicrosPerDay
    ensures IsMidnight(r) && cal.dayOfMonth(Day(r)) == 1
    ensures forall m :: m <= now && IsMidnight(m) && cal.dayOfMonth(Day(m)) == 1 ==> m <= r
  {
    var today := Day(now);
    var first := today - (cal.dayOfMonth(today) - 1);
    var r := first * MicrosPerDay;
    assert Day(r) == first;
    DaysOfMonthCount(cal, today, cal.dayOfMonth(today) - 1);
    forall m | m <= now && IsMidnight(m) && cal.dayOfMonth(Day(m)) == 1 ensures m <= r {
      assert m == Day(m) * MicrosPerDay;
      if Day(m) > first {
        DaysOfMonthCount(cal, today, today - Day(m));
      }
    }
    r
  }

  /** The two filters the queries apply to `submission_date` and `user_id`. */
  datatype Filter =
    | SubmittedSince(cutoff: int)
    | UserSubmittedSince(userId: string, cutoff: int)

  predicate Keeps(f: Filter, row: Row) {
    match f
    case SubmittedSince(cutoff) => row.submittedAt >= cutoff
    case UserSubmittedSince(userId, cutoff) => row.userId == userId && row.submittedAt >= cutoff
  }

  /** The rows the filter accepts, in stored order. */
  function Select(rows: seq<Row>, f: Filter): (r: seq<Row>)
    ensures forall x :: x in r <==> x in rows && Keeps(f, x)
    ensures forall x :: multiset(r)[x] == if Keeps(f, x) then multiset(rows)[x] else 0
  {
    if rows == [] then []
    else
      var init := rows[..|rows| - 1];
      var last := rows[|rows| - 1];
      assert rows == init + [last];
      Select(init, f) + if Keeps(f, last) then [last] else []
  }

  /** The dictionary one row contributes to a weekly or monthly report. */
  function Project(row: Row, cal: Calendar): ReportEntry {
    ReportEntry(row.username, row.clientName, row.hours, row.proofUrl, cal.stamp(row.submittedAt))
  }

  function ProjectAll(rows: seq<Row>, cal: Calendar): (r: seq<ReportEntry>)
    ensures |r| == |rows|
    ensures forall k :: 0 <= k < |rows| ==> r[k] == Project(rows[k], cal)
    ensures forall e :: e in r <==> exists row :: row in rows && e == Project(row, cal)
  {
    var r := seq(|rows|, k requires 0 <= k < |rows| => Project(rows[k], cal));
    forall e ensures e in r <==> exists row :: row in rows && e == Project(row, cal) {
      if e in r {
        var k :| 0 <= k < |r| && r[k] == e;
        assert rows[k] in rows;
      }
      if exists row :: row in rows && e == Project(row, cal) {
        var row :| row in rows && e == Project(row, cal);
        var k :| 0 <= k < |rows| && rows[k] == row;
        assert r[k] == e;
      }
    }
    r
  }

  /** `sel` holds the rows of `rows` submitted at or after `cutoff`, each as
      many times as it is stored, in any order. */
  ghost predicate InWindow(sel: seq<Row>, rows: seq<Row>, cutoff: int) {
    forall x :: multiset(sel)[x] == if x.submittedAt >= cutoff then multiset(rows)[x] else 0
  }

  /** `r` projects `sel` entry by entry. */
  ghost predicate ProjectionOf(r: seq<ReportEntry>, sel: seq<Row>, cal: Calendar) {
    |r| == |sel| && forall k :: 0 <= k < |r| ==> r[k] == Project(sel[k], cal)
  }

  /** The store: rows are added one at a time and never changed or removed. */
  class EntryStore {
    var rows: seq<Row>

    constructor ()
      ensures rows == []
    {
      rows := [];
    }

    /** `create_entry`: insert one row stamped with the insertion time. */
    method CreateEntry(userId: string, username: string, channelId: string, clientName: string,
                       hours: real, proofUrl: Option<string>, now: int) returns (row: Row)
      modifies this
      ensures row == Row(userId, username, channelId, clientName, hours, proofUrl, now)
      ensures rows == old(rows) + [row]
    {
      row := Row(userId, username, channelId, clientName, hours, proofUrl, now);
      rows := rows + [row];
    }

    /** `get_weekly_entries`: the rows submitted since this week's Monday midnight,
        each projected once per time it is stored. The query has no ordering, so
        the contract fixes the selected rows as a multiset and leaves their order
        open. */
    function WeeklyEntries(now: int, cal: Calendar): (r: seq<ReportEntry>)
      reads this
      ensures forall e :: e in r <==> exists row :: row in rows && row.submittedAt >= WeekStart(now) && e == Project(row, cal)
      ensures |r| == |Select(rows, SubmittedSince(WeekStart(now)))|
      ensures exists sel :: InWindow(sel, rows, WeekStart(now)) && ProjectionOf(r, sel, cal)
    {
      var sel := Select(rows, SubmittedSince(WeekStart(now)));
      assert InWindow(sel, rows, WeekStart(now));
      var r := ProjectAll(sel, cal);
      assert ProjectionOf(r, sel, cal);
      r
    }

    /** `get_monthly_entries`: the rows submitted since the first of this month,
        each projected once per time it is stored, in an order left open. */
    function MonthlyEntries(now: int, cal: Calendar): (r: seq<ReportEntry>)
      reads this
      requires ConsistentCalendar(cal)
      ensures forall e :: e in r <==> exists row :: row in rows && row.submittedAt >= MonthStart(now, cal) && e == Project(row, cal)
      ensures |r| == |Select(rows, SubmittedSince(MonthStart(now, cal)))|
      ensures exists sel :: InWindow(sel, rows, MonthStart(now, cal)) && ProjectionOf(r, sel, cal)
    {
      var sel := Select(rows, SubmittedSince(MonthStart(now, cal)));
      assert InWindow(sel, rows, MonthStart(now, cal));
      var r := ProjectAll(sel, cal);
      assert ProjectionOf(r, sel, cal);
      r
    }

    /** `get_user_entries`: one user's rows of the last `days` days (the rows
        themselves, not projections). */
    function UserEntries(userId: string, days: int, now: int): (r: seq<Row>)
      reads this
      ensures forall x :: x in r <==> x in rows && x.userId == userId && x.submittedAt >= now - days * MicrosPerDay
      ensures forall x :: multiset(r)[x] == if x.userId == userId && x.submittedAt >= now - days * MicrosPerDay then multiset(rows)[x] else 0
    {
      Select(rows, UserSubmittedSince(userId, now - days * MicrosPerDay))
    }
  }
}
