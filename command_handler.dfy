/**
 * The three slash commands: `/timesheet` shows the initial form to anyone;
 * the weekly and monthly reports are shown only to the configured manager.
 */
module CommandHandler {
  import opened Json
  import opened TimesheetService
  import opened BlockBuilder
  import opened Responses

  /** The payload the router builds from a command's form fields. */
  datatype CommandPayload = CommandPayload(
    userId: Option<string>,
    channelId: Option<string>,
    text: Option<string>,
    triggerId: Option<string>)

  const NoPermission := "⚠️ You don't have permission to view reports."
  const WeeklyTitle := "\U{1F4CA} Weekly Timesheet Report"
  const MonthlyTitle := "\U{1F4CA} Monthly Timesheet Report"

  /** `handle_timesheet_command`: the initial form, ephemeral, whoever asks. */
  function HandleTimesheetCommand(p: CommandPayload): (r: Response)
    ensures r.Ephemeral? && r.text == "Fill your timesheet"
    ensures |r.blocks| == 18 && r.blocks[2] == CountPicker()
    ensures forall i, o :: 0 <= i < 3 && 0 <= o < 5 ==> r.blocks[3 + 5 * i + o] == PreviewGroup(i)[o]
  {
    InitialFormShape();
    Ephemeral(InitialForm(), "Fill your timesheet")
  }

  /** Only the user whose id is the configured manager's may see reports; a
      command without a user id is refused. */
  predicate IsManager(p: CommandPayload, managerId: string) {
    p.userId == Some(managerId)
  }

  /** `handle_weekly_report`. */
  function HandleWeeklyReport(p: CommandPayload, managerId: string, store: EntryStore, now: int, cal: Calendar, rt: Runtime): (r: Response)
    reads store
    ensures !IsManager(p, managerId) ==> r == EphemeralText(NoPermission)
    ensures IsManager(p, managerId) ==>
      r.Ephemeral? && r.text == "Weekly Report" && [Header(WeeklyTitle), Divider] <= r.blocks
  {
    if !IsManager(p, managerId) then EphemeralText(NoPermission)
    else Ephemeral(Report(store.WeeklyEntries(now, cal), WeeklyTitle, rt), "Weekly Report")
  }

  /** `handle_monthly_report`. */
  function HandleMonthlyReport(p: CommandPayload, managerId: string, store: EntryStore, now: int, cal: Calendar, rt: Runtime): (r: Response)
    reads store
    requires ConsistentCalendar(cal)
    ensures !IsManager(p, managerId) ==> r == EphemeralText(NoPermission)
    ensures IsManager(p, managerId) ==>
      r.Ephemeral? && r.text == "Monthly Report" && [Header(MonthlyTitle), Divider] <= r.blocks
  {
    if !IsManager(p, managerId) then EphemeralText(NoPermission)
    else Ephemeral(Report(store.MonthlyEntries(now, cal), MonthlyTitle, rt), "Monthly Report")
  }

  /** A refused report says nothing about the store: two stores give the same
      answer. */
  lemma RefusalRevealsNothing(p: CommandPayload, managerId: string, s1: EntryStore, s2: EntryStore,
                              now: int, cal: Calendar, rt: Runtime)
    requires !IsManager(p, managerId) && ConsistentCalendar(cal)
    ensures HandleWeeklyReport(p, managerId, s1, now, cal, rt) == HandleWeeklyReport(p, managerId, s2, now, cal, rt)
    ensures HandleMonthlyReport(p, managerId, s1, now, cal, rt) == HandleMonthlyReport(p, managerId, s2, now, cal, rt)
  {
  }

  /** Report entry k's three blocks. */
  predicate ShowsAt(blocks: seq<Block>, k: nat, e: ReportEntry, rt: Runtime) {
    5 + 3 * k <= |blocks| && forall o :: 0 <= o < 3 ==> blocks[2 + 3 * k + o] == ReportGroup(e, rt)[o]
  }

  /** Every row stored since `cutoff` has its group in the report, at some
      position k. */
  lemma RowShown(rows: seq<Row>, cutoff: int, title: string, cal: Calendar, rt: Runtime, row: Row)
    returns (k: nat)
    requires row in rows && row.submittedAt >= cutoff
    ensures var entries := ProjectAll(Select(rows, SubmittedSince(cutoff)), cal);
      k < |entries| && entries[k] == Project(row, cal) && ShowsAt(Report(entries, title, rt), k, entries[k], rt)
  {
    var entries := ProjectAll(Select(rows, SubmittedSince(cutoff)), cal);
    assert Keeps(SubmittedSince(cutoff), row);
    assert Project(row, cal) in entries;
    k :| 0 <= k < |entries| && entries[k] == Project(row, cal);
    ReportEnds(entries, title, rt);
    forall o | 0 <= o < 3 ensures Report(entries, title, rt)[2 + 3 * k + o] == ReportGroup(entries[k], rt)[o] {
      ReportGroupAt(entries, title, rt, k, o);
    }
  }

  /** Every group in the report is that of a row stored since `cutoff`. */
  lemma GroupFromRow(rows: seq<Row>, cutoff: int, title: string, cal: Calendar, rt: Runtime, k: nat)
    returns (row: Row)
    requires k < |ProjectAll(Select(rows, SubmittedSince(cutoff)), cal)|
    ensures var entries := ProjectAll(Select(rows, SubmittedSince(cutoff)), cal);
      row in rows && row.submittedAt >= cutoff && entries[k] == Project(row, cal) &&
      ShowsAt(Report(entries, title, rt), k, entries[k], rt)
  {
    var selected := Select(rows, SubmittedSince(cutoff));
    var entries := ProjectAll(selected, cal);
    row := selected[k];
    assert row in selected;
    ReportEnds(entries, title, rt);
    forall o | 0 <= o < 3 ensures Report(entries, title, rt)[2 + 3 * k + o] == ReportGroup(entries[k], rt)[o] {
      ReportGroupAt(entries, title, rt, k, o);
    }
  }

  /** `blocks` lists exactly the rows stored since `cutoff`, as `entries`:
      each such row's group is in it, and each group in it is such a row's. */
  predicate Covers(rows: seq<Row>, cutoff: int, entries: seq<ReportEntry>, blocks: seq<Block>, cal: Calendar, rt: Runtime) {
    (forall row :: row in rows && row.submittedAt >= cutoff ==>
      exists k :: 0 <= k < |entries| && entries[k] == Project(row, cal) && ShowsAt(blocks, k, entries[k], rt)) &&
    (forall k :: 0 <= k < |entries| ==>
      ShowsAt(blocks, k, entries[k], rt) &&
      exists row :: row in rows && row.submittedAt >= cutoff && entries[k] == Project(row, cal))
  }

  /** A report over the rows stored since `cutoff` lists exactly those rows. */
  lemma ReportCovers(rows: seq<Row>, cutoff: int, title: string, cal: Calendar, rt: Runtime)
    ensures var entries := ProjectAll(Select(rows, SubmittedSince(cutoff)), cal);
      Covers(rows, cutoff, entries, Report(entries, title, rt), cal, rt)
  {
    var entries := ProjectAll(Select(rows, SubmittedSince(cutoff)), cal);
    forall row | row in rows && row.submittedAt >= cutoff
      ensures exists k :: 0 <= k < |entries| && entries[k] == Project(row, cal) && ShowsAt(Report(entries, title, rt), k, entries[k], rt)
    {
      var k := RowShown(rows, cutoff, title, cal, rt, row);
    }
    forall k | 0 <= k < |entries|
      ensures ShowsAt(Report(entries, title, rt), k, entries[k], rt) &&
        exists row :: row in rows && row.submittedAt >= cutoff && entries[k] == Project(row, cal)
    {
      var row := GroupFromRow(rows, cutoff, title, cal, rt, k);
    }
  }

  /** For the manager, the weekly report lists exactly the rows stored since
      this week's Monday midnight. */
  lemma WeeklyReportCoversWeek(p: CommandPayload, managerId: string, store: EntryStore, now: int, cal: Calendar, rt: Runtime)
    requires IsManager(p, managerId)
    ensures Covers(store.rows, WeekStart(now), store.WeeklyEntries(now, cal),
                   HandleWeeklyReport(p, managerId, store, now, cal, rt).blocks, cal, rt)
  {
    ReportCovers(store.rows, WeekStart(now), WeeklyTitle, cal, rt);
  }

  /** For the manager, the monthly report lists exactly the rows stored since
      the first of this month. */
  lemma MonthlyReportCoversMonth(p: CommandPayload, managerId: string, store: EntryStore, now: int, cal: Calendar, rt: Runtime)
    requires IsManager(p, managerId) && ConsistentCalendar(cal)
    ensures Covers(store.rows, MonthStart(now, cal), store.MonthlyEntries(now, cal),
                   HandleMonthlyReport(p, managerId, store, now, cal, rt).blocks, cal, rt)
  {
    ReportCovers(store.rows, MonthStart(now, cal), MonthlyTitle, cal, rt);
  }
}
