/**
 * The interaction dispatcher: block actions and view submissions, dispatched
 * on the first action's `action_id`.  Showing the entry form reads the chosen
 * count from the payload's nested state; submitting scans the index-numbered
 * groups `client_block_0, client_block_1, ...` up to the first missing index,
 * persisting one row per group, then confirms by direct message.
 */
module InteractionHandler {
  import opened Json
  import opened Naming
  import opened TimesheetService
  import opened BlockBuilder
  import opened Responses
  import opened SlackService

  // ---------------------------------------------------------------------------
  // Dispatch

  /** `payload.get('actions', [{}])[0].get('action_id', '')`. */
  function ActionId(payload: Value): (r: Result<Value>)
    ensures !payload.Obj? ==> r == Raise(AttributeError)
    ensures r.Ok? ==> payload.Obj?
    ensures payload.Obj? && "actions" !in payload.fields ==> r == Ok(Str(""))
  {
    var actions :- Get(payload, "actions", Arr([EmptyObj]));
    var first :- First(actions);
    Get(first, "action_id", Str(""))
  }

  datatype Route = ShowFormsRoute | SubmitRoute | AcknowledgeRoute | UnknownRoute

  function RouteOf(actionId: Value): (r: Route)
    ensures r == ShowFormsRoute <==> actionId == Str("show_entry_forms")
    ensures r == SubmitRoute <==> actionId == Str("submit_timesheet")
    ensures r == AcknowledgeRoute <==> actionId == Str("entry_count_select")
  {
    if actionId == Str("show_entry_forms") then ShowFormsRoute
    else if actionId == Str("submit_timesheet") then SubmitRoute
    else if actionId == Str("entry_count_select") then AcknowledgeRoute
    else UnknownRoute
  }

  /** A payload without `actions` gets the action id "" and so "Unknown action";
      a present but empty `actions` list raises IndexError, which the handler
      does not catch. */
  lemma ActionIdDefaults(payload: Value)
    requires payload.Obj?
    ensures "actions" !in payload.fields ==> ActionId(payload) == Ok(Str("")) && RouteOf(Str("")) == UnknownRoute
    ensures "actions" in payload.fields && payload.fields["actions"] == Arr([]) ==> ActionId(payload) == Raise(IndexError)
  {
  }

  // ---------------------------------------------------------------------------
  // Showing the entry form

  /** `int(state.values.entry_count_block.entry_count_select.selected_option.value)`,
      each step a `.get` with a default; the count defaults to 1.  A
      `selected_option` that is present but null has no `.get`, so it raises
      AttributeError and ends in the error text. */
  function SelectedCount(payload: Value, rt: Runtime): (r: Result<int>)
    ensures !payload.Obj? ==> r == Raise(AttributeError)
    ensures payload.Obj? && "state" !in payload.fields ==> r == Ok(1)
  {
    var state :- Get(payload, "state", EmptyObj);
    var values :- Get(state, "values", EmptyObj);
    var block :- Get(values, "entry_count_block", EmptyObj);
    var select :- Get(block, "entry_count_select", EmptyObj);
    var option :- Get(select, "selected_option", EmptyObj);
    var value :- Get(option, "value", Num(1.0));
    IntOf(value, rt)
  }

  function ShowFormsError(e: Exception, rt: Runtime): string {
    "❌ Error: " + rt.describe(e) + "\n\nPlease try again."
  }

  /** `_handle_show_forms`: the entry form for the selected count, replacing
      the original message; any exception becomes an ephemeral error text. */
  function ShowForms(payload: Value, rt: Runtime): (r: Response)
    ensures r.ReplaceOriginal? <==> SelectedCount(payload, rt).Ok?
    ensures r.EphemeralText? <==> SelectedCount(payload, rt).Raise?
  {
    match SelectedCount(payload, rt)
    case Ok(n) => ReplaceOriginal(EntryForms(n))
    case Raise(e) => EphemeralText(ShowFormsError(e, rt))
  }

  /** A payload without a selection gets a one-entry form. */
  lemma SelectedCountDefault(payload: Value, rt: Runtime)
    requires payload.Obj? && "state" !in payload.fields
    ensures SelectedCount(payload, rt) == Ok(1)
    ensures ShowForms(payload, rt) == ReplaceOriginal(EntryForms(1))
  {
    assert Truncate(1.0) == 1;
  }

  /** The path `state.values.entry_count_block.entry_count_select.selected_option`
      leads through dicts to `option`. */
  predicate HasSelectedOption(payload: Value, option: Value) {
    payload.Obj? && "state" in payload.fields &&
    var state := payload.fields["state"];
    state.Obj? && "values" in state.fields &&
    var values := state.fields["values"];
    values.Obj? && "entry_count_block" in values.fields &&
    var block := values.fields["entry_count_block"];
    block.Obj? && "entry_count_select" in block.fields &&
    var select := block.fields["entry_count_select"];
    select.Obj? && "selected_option" in select.fields && select.fields["selected_option"] == option
  }

  /** A selected option without a `value` gives a one-entry form; a null
      option raises AttributeError and gives the error text. */
  lemma SelectedOptionDefault(payload: Value, rt: Runtime, option: Value)
    requires HasSelectedOption(payload, option)
    ensures option.Obj? && "value" !in option.fields ==>
      SelectedCount(payload, rt) == Ok(1) && ShowForms(payload, rt) == ReplaceOriginal(EntryForms(1))
    ensures option == Null ==>
      SelectedCount(payload, rt) == Raise(AttributeError) &&
      ShowForms(payload, rt) == EphemeralText(ShowFormsError(AttributeError, rt))
  {
    assert Truncate(1.0) == 1;
  }

  /** A selected option whose value is "n" gives the form with n entry
      groups, whatever else the option holds (its "text", for one). */
  lemma SelectedOptionCount(payload: Value, rt: Runtime, option: Value, n: nat)
    requires PythonParsing(rt)
    requires HasSelectedOption(payload, option)
    requires option.Obj? && "value" in option.fields && option.fields["value"] == Str(NatToString(n))
    ensures SelectedCount(payload, rt) == Ok(n)
    ensures ShowForms(payload, rt) == ReplaceOriginal(EntryForms(n))
    ensures |ShowForms(payload, rt).blocks| == 3 + 5 * n
  {
  }

  /** A selected value `int()` accepts as n yields exactly max(n, 0) entry groups
      and one submit button; one it rejects yields an error text and no blocks. */
  lemma ShowFormsResult(payload: Value, rt: Runtime)
    ensures SelectedCount(payload, rt).Ok? ==>
      var n := SelectedCount(payload, rt).value;
      ShowForms(payload, rt).ReplaceOriginal? &&
      |ShowForms(payload, rt).blocks| == 3 + 5 * GroupCount(n) &&
      (forall i, o :: 0 <= i < GroupCount(n) && 0 <= o < 5 ==> ShowForms(payload, rt).blocks[2 + 5 * i + o] == EntryGroup(i)[o]) &&
      ShowForms(payload, rt).blocks[|ShowForms(payload, rt).blocks| - 1] == SubmitActions
    ensures SelectedCount(payload, rt).Raise? ==>
      ShowForms(payload, rt) == EphemeralText(ShowFormsError(SelectedCount(payload, rt).exc, rt)) &&
      "❌ Error: " <= ShowForms(payload, rt).text
  {
    match SelectedCount(payload, rt)
    case Ok(n) => EntryFormsShape(n);
    case Raise(e) =>
  }

  // ---------------------------------------------------------------------------
  // Submitting

  /** What `_handle_submit` reads from the payload before its scan. */
  datatype Submitter = Submitter(userId: Value, userName: Value, channelId: Value, state: Value, messageTs: Value)

  function ReadSubmitter(payload: Value): Result<Submitter> {
    var user :- At(payload, "user");
    var userId :- At(user, "id");
    var name :- Get(user, "name", Str("Unknown"));
    var userName :- Get(user, "username", name);
    var channel :- Get(payload, "channel", EmptyObj);
    var channelId :- Get(channel, "id", Str("unknown"));
    var state :- Get(payload, "state", EmptyObj);
    var values :- Get(state, "values", EmptyObj);
    var message :- Get(payload, "message", EmptyObj);
    var ts :- Get(message, "ts", Null);
    Ok(Submitter(userId, userName, channelId, values, ts))
  }

  /** The submitter is the payload's `user.id`; a payload without `user`
      raises KeyError before anything is read or stored. */
  lemma ReadSubmitterUser(payload: Value)
    ensures var r := ReadSubmitter(payload);
      r.Ok? ==>
        payload.Obj? && "user" in payload.fields && payload.fields["user"].Obj? &&
        "id" in payload.fields["user"].fields && r.value.userId == payload.fields["user"].fields["id"]
    ensures payload.Obj? && "user" !in payload.fields ==> ReadSubmitter(payload) == Raise(KeyError)
  {
  }

  /** `state_values[client_block_i][client_input_i]['value']`. */
  function ClientValue(state: Value, i: nat): (r: Result<Value>)
    ensures r.Ok? ==> state.Obj? && ClientBlockId(i) in state.fields
    ensures state.Obj? && ClientBlockId(i) !in state.fields ==> r == Raise(KeyError)
  {
    var block :- At(state, ClientBlockId(i));
    var input :- At(block, ClientInputId(i));
    At(input, "value")
  }

  /** `state_values[hours_block_i][hours_input_i].get('value', '0')`. */
  function HoursValue(state: Value, i: nat): (r: Result<Value>)
    ensures r.Ok? ==> state.Obj? && HoursBlockId(i) in state.fields
    ensures state.Obj? && HoursBlockId(i) !in state.fields ==> r == Raise(KeyError)
  {
    var block :- At(state, HoursBlockId(i));
    var input :- At(block, HoursInputId(i));
    Get(input, "value", Str("0"))
  }

  /** The `files` list of group i's proof input, each step defaulting. */
  function ProofFiles(state: Value, i: nat): Result<Value> {
    var block :- Get(state, ProofBlockId(i), EmptyObj);
    var input :- Get(block, ProofInputId(i), EmptyObj);
    Get(input, "files", Arr([]))
  }

  /** The proof URL of group i: the first uploaded file's `url_private` when a
      file is attached and the platform's lookup finds it, otherwise None. */
  function ProofUrl(state: Value, i: nat, slack: SlackClient): (r: Result<Value>)
    ensures r.Ok? && r.value != Null ==> ProofFiles(state, i).Ok? && Truthy(ProofFiles(state, i).value)
    ensures r.Ok? && !slack.available ==> r.value == Null
  {
    var files :- ProofFiles(state, i);
    if !Truthy(files) then Ok(Null)
    else
      var file :- First(files);
      var fileId :- At(file, "id");
      match slack.FileInfo(fileId)
      case Some(info) => if Truthy(info) then Get(info, "url_private", Null) else Ok(Null)
      case None => Ok(Null)
  }

  /** Group i read from the state and turned into the row `create_entry`
      inserts. */
  function ReadGroup(sub: Submitter, slack: SlackClient, rt: Runtime, now: int, i: nat): (r: Result<Row>)
    ensures r.Ok? ==> sub.state.Obj? && ClientBlockId(i) in sub.state.fields && r.value.submittedAt == now
  {
    var client :- ClientValue(sub.state, i);
    var hoursValue :- HoursValue(sub.state, i);
    var hours :- FloatOf(hoursValue, rt);
    var proof :- ProofUrl(sub.state, i, slack);
    var userId :- AsText(sub.userId);
    var userName :- AsText(sub.userName);
    var channelId :- AsText(sub.channelId);
    var clientName :- AsText(client);
    var proofUrl :- AsOptionalText(proof);
    Ok(Row(userId, userName, channelId, clientName, hours, proofUrl, now))
  }

  /** An hours input without a `value` key reads as "0", which is 0 hours. */
  lemma HoursDefaultsToZero(sub: Submitter, slack: SlackClient, rt: Runtime, now: int, i: nat)
    requires PythonParsing(rt)
    requires sub.state.Obj? && HoursBlockId(i) in sub.state.fields
    requires var block := sub.state.fields[HoursBlockId(i)];
      block.Obj? && HoursInputId(i) in block.fields &&
      block.fields[HoursInputId(i)].Obj? && "value" !in block.fields[HoursInputId(i)].fields
    ensures HoursValue(sub.state, i) == Ok(Str("0"))
    ensures FloatOf(HoursValue(sub.state, i).value, rt) == Ok(0.0)
    ensures ReadGroup(sub, slack, rt, now, i).Ok? ==> ReadGroup(sub, slack, rt, now, i).value.hours == 0.0
  {
  }

  /** A persisted row carries the group's client text, its hours as `float()`
      reads them and the first file's URL; an hours value `float()` rejects
      (a non-numeric string, or None) makes the whole group raise. */
  lemma ReadGroupFields(sub: Submitter, slack: SlackClient, rt: Runtime, now: int, i: nat)
    ensures var r := ReadGroup(sub, slack, rt, now, i);
      r.Ok? ==>
        ClientValue(sub.state, i) == Ok(Str(r.value.clientName)) &&
        HoursValue(sub.state, i).Ok? && FloatOf(HoursValue(sub.state, i).value, rt) == Ok(r.value.hours) &&
        ProofUrl(sub.state, i, slack) == Ok(if r.value.proofUrl.Some? then Str(r.value.proofUrl.value) else Null) &&
        sub.userId == Str(r.value.userId)
    ensures ClientValue(sub.state, i).Ok? && HoursValue(sub.state, i).Ok? ==>
      var hours := FloatOf(HoursValue(sub.state, i).value, rt);
      hours.Raise? ==> ReadGroup(sub, slack, rt, now, i) == Raise(hours.exc)
  {
  }

  /** Only the first attached file counts: groups whose file lists start with
      the same file get the same URL; no file, or a lookup that fails, gives
      None; a file the lookup finds gives its `url_private`. */
  lemma ProofUrlFirstFileOnly(s1: Value, s2: Value, i: nat, slack: SlackClient)
    ensures ProofFiles(s1, i) == Ok(Arr([])) ==> ProofUrl(s1, i, slack) == Ok(Null)
    ensures (ProofFiles(s1, i).Ok? && ProofFiles(s1, i).value.Arr? && ProofFiles(s2, i).Ok? && ProofFiles(s2, i).value.Arr?) ==>
      var a := ProofFiles(s1, i).value.items;
      var b := ProofFiles(s2, i).value.items;
      (a != [] && b != [] && a[0] == b[0] ==> ProofUrl(s1, i, slack) == ProofUrl(s2, i, slack))
    ensures (ProofFiles(s1, i).Ok? && ProofFiles(s1, i).value.Arr? && ProofFiles(s1, i).value.items != []) ==>
      var file := ProofFiles(s1, i).value.items[0];
      (file.Obj? && "id" in file.fields && slack.FileInfo(file.fields["id"]).None? ==> ProofUrl(s1, i, slack) == Ok(Null)) &&
      (file.Obj? && "id" in file.fields && slack.FileInfo(file.fields["id"]).Some? ==>
        var info := slack.FileInfo(file.fields["id"]).value;
        ProofUrl(s1, i, slack) == if Truthy(info) then Get(info, "url_private", Null) else Ok(Null))
  {
  }

  // The scan, over the outcome of each index.  An outcome is Ok(None) when
  // the group is absent, Ok(Some(row)) when it was read, or the exception its
  // membership test or its reading raised.

  /** Outcome of a scan: the rows it persisted, and the exception that stopped
      it if one did. */
  datatype Scan = Scan(rows: seq<Row>, failure: Option<Exception>)

  type Step = nat -> Result<Option<Row>>

  predicate IsRow(o: Result<Option<Row>>) { o.Ok? && o.value.Some? }

  /** Indices 0 .. n-1 all yield rows. */
  ghost predicate AllRows(step: Step, n: nat) {
    forall j :: 0 <= j < n ==> IsRow(step(j))
  }

  /** No run of rows from index 0 is longer than `bound`. */
  ghost predicate Bounded(step: Step, bound: nat) {
    forall n: nat :: AllRows(step, n) ==> n <= bound
  }

  /** Every row the outcomes yield is stamped with `now`. */
  ghost predicate Stamped(step: Step, now: int) {
    forall j :: IsRow(step(j)) ==> step(j).value.value.submittedAt == now
  }

  /** The scan from index i: one row per index in order, until the first
      index without a row. */
  function ScanWith(step: Step, bound: nat, i: nat): Scan
    requires AllRows(step, i) && Bounded(step, bound)
    decreases bound - i
  {
    match step(i)
    case Raise(e) => Scan([], Some(e))
    case Ok(None) => Scan([], None)
    case Ok(Some(row)) =>
      assert AllRows(step, i + 1);
      var rest := ScanWith(step, bound, i + 1);
      Scan([row] + rest.rows, rest.failure)
  }

  /** The row at position j - i of a scan from i is index j's. */
  lemma {:induction false} ScanWithRow(step: Step, bound: nat, i: nat, j: nat)
    requires AllRows(step, i) && Bounded(step, bound)
    requires i <= j < i + |ScanWith(step, bound, i).rows|
    ensures step(j) == Ok(Some(ScanWith(step, bound, i).rows[j - i]))
    decreases j - i
  {
    if j > i {
      assert AllRows(step, i + 1);
      ScanWithRow(step, bound, i + 1, j);
    }
  }

  /** A scan stops at the first index without a row: an absent group when it
      has no failure, the group that raised when it has one. */
  lemma {:induction false} ScanWithEnd(step: Step, bound: nat, i: nat)
    requires AllRows(step, i) && Bounded(step, bound)
    ensures var r := ScanWith(step, bound, i);
      step(i + |r.rows|) == if r.failure.Some? then Raise(r.failure.value) else Ok(None)
    decreases bound - i
  {
    if IsRow(step(i)) {
      assert AllRows(step, i + 1);
      ScanWithEnd(step, bound, i + 1);
    }
  }

  /** The outcome of group j in `_handle_submit`'s loop. */
  function Outcome(sub: Submitter, slack: SlackClient, rt: Runtime, now: int, j: nat): (r: Result<Option<Row>>)
    ensures r == Ok(None) <==> Contains(sub.state, ClientBlockId(j)) == Ok(false)
  {
    var present :- Contains(sub.state, ClientBlockId(j));
    if !present then Ok(None)
    else
      var row :- ReadGroup(sub, slack, rt, now, j);
      Ok(Some(row))
  }

  function GroupSteps(sub: Submitter, slack: SlackClient, rt: Runtime, now: int): Step {
    (j: nat) => Outcome(sub, slack, rt, now, j)
  }

  /** The number of keys in the state: a bound on the consecutive groups. */
  function ScanBound(state: Value): nat {
    if state.Obj? then |state.fields.Keys| else 0
  }

  /** Consecutive groups from 0 have distinct keys, so there are no more of
      them than the state has keys: the submit loop terminates. */
  lemma GroupStepsBounded(sub: Submitter, slack: SlackClient, rt: Runtime, now: int)
    ensures Bounded(GroupSteps(sub, slack, rt, now), ScanBound(sub.state))
  {
    var step := GroupSteps(sub, slack, rt, now);
    forall n: nat | AllRows(step, n) ensures n <= ScanBound(sub.state) {
      if n > 0 {
        assert IsRow(step(0));
        forall j | 0 <= j < n ensures ClientBlockId(j) in sub.state.fields {
          assert IsRow(step(j));
        }
        ClientKeysBound(sub.state.fields, n);
      }
    }
  }

  lemma GroupStepsStamped(sub: Submitter, slack: SlackClient, rt: Runtime, now: int)
    ensures Stamped(GroupSteps(sub, slack, rt, now), now)
  {
  }

  /** The whole scan of a submission. */
  function ScanGroups(sub: Submitter, slack: SlackClient, rt: Runtime, now: int): Scan {
    GroupStepsBounded(sub, slack, rt, now);
    ScanWith(GroupSteps(sub, slack, rt, now), ScanBound(sub.state), 0)
  }

  /** Group j's row is at position j of the scan, and the group after the last
      row is absent (no failure) or raised the failure. */
  lemma ScanGroupsFacts(sub: Submitter, slack: SlackClient, rt: Runtime, now: int)
    ensures var sc := ScanGroups(sub, slack, rt, now);
      (forall j :: 0 <= j < |sc.rows| ==>
        Contains(sub.state, ClientBlockId(j)) == Ok(true) && ReadGroup(sub, slack, rt, now, j) == Ok(sc.rows[j])) &&
      (sc.failure.None? ==> Contains(sub.state, ClientBlockId(|sc.rows|)) == Ok(false)) &&
      (sc.failure.Some? ==>
        Contains(sub.state, ClientBlockId(|sc.rows|)) == Raise(sc.failure.value) ||
        (Contains(sub.state, ClientBlockId(|sc.rows|)) == Ok(true) &&
         ReadGroup(sub, slack, rt, now, |sc.rows|) == Raise(sc.failure.value)))
  {
    var sc := ScanGroups(sub, slack, rt, now);
    forall j | 0 <= j < |sc.rows|
      ensures Contains(sub.state, ClientBlockId(j)) == Ok(true) && ReadGroup(sub, slack, rt, now, j) == Ok(sc.rows[j])
    {
      ScanGroupsRow(sub, slack, rt, now, j);
    }
    ScanGroupsEnd(sub, slack, rt, now);
    OutcomeEnd(sub, slack, rt, now, |sc.rows|, sc.failure);
  }

  /** Group j's row is at position j of the scan. */
  lemma ScanGroupsRow(sub: Submitter, slack: SlackClient, rt: Runtime, now: int, j: nat)
    requires j < |ScanGroups(sub, slack, rt, now).rows|
    ensures Contains(sub.state, ClientBlockId(j)) == Ok(true)
    ensures ReadGroup(sub, slack, rt, now, j) == Ok(ScanGroups(sub, slack, rt, now).rows[j])
  {
    var step := GroupSteps(sub, slack, rt, now);
    GroupStepsBounded(sub, slack, rt, now);
    ScanWithRow(step, ScanBound(sub.state), 0, j);
    assert step(j) == Outcome(sub, slack, rt, now, j);
    OutcomeRow(sub, slack, rt, now, j, ScanGroups(sub, slack, rt, now).rows[j]);
  }

  /** The group after the last row yields no row: absent, or the failure. */
  lemma ScanGroupsEnd(sub: Submitter, slack: SlackClient, rt: Runtime, now: int)
    ensures var sc := ScanGroups(sub, slack, rt, now);
      Outcome(sub, slack, rt, now, |sc.rows|) == if sc.failure.Some? then Raise(sc.failure.value) else Ok(None)
  {
    var step := GroupSteps(sub, slack, rt, now);
    GroupStepsBounded(sub, slack, rt, now);
    ScanWithEnd(step, ScanBound(sub.state), 0);
    assert step(|ScanGroups(sub, slack, rt, now).rows|) == Outcome(sub, slack, rt, now, |ScanGroups(sub, slack, rt, now).rows|);
  }

  /** A group that yields a row is present and reads as that row. */
  lemma OutcomeRow(sub: Submitter, slack: SlackClient, rt: Runtime, now: int, j: nat, row: Row)
    requires Outcome(sub, slack, rt, now, j) == Ok(Some(row))
    ensures Contains(sub.state, ClientBlockId(j)) == Ok(true) && ReadGroup(sub, slack, rt, now, j) == Ok(row)
  {
  }

  /** A group that yields no row is absent, or raised in its membership test
      or in its reading. */
  lemma OutcomeEnd(sub: Submitter, slack: SlackClient, rt: Runtime, now: int, j: nat, failure: Option<Exception>)
    requires Outcome(sub, slack, rt, now, j) == if failure.Some? then Raise(failure.value) else Ok(None)
    ensures failure.None? ==> Contains(sub.state, ClientBlockId(j)) == Ok(false)
    ensures failure.Some? ==>
      Contains(sub.state, ClientBlockId(j)) == Raise(failure.value) ||
      (Contains(sub.state, ClientBlockId(j)) == Ok(true) && ReadGroup(sub, slack, rt, now, j) == Raise(failure.value))
  {
  }

  /** Groups 0 .. n-1 present and readable, group n absent: exactly n rows,
      group j's row at position j, and no failure. */
  lemma ScanPersistsAllGroups(sub: Submitter, slack: SlackClient, rt: Runtime, now: int, n: nat)
    requires sub.state.Obj? && ClientBlockId(n) !in sub.state.fields
    requires forall j :: 0 <= j < n ==> ClientBlockId(j) in sub.state.fields && ReadGroup(sub, slack, rt, now, j).Ok?
    ensures var sc := ScanGroups(sub, slack, rt, now);
      sc.failure.None? && |sc.rows| == n &&
      forall j :: 0 <= j < n ==> sc.rows[j] == ReadGroup(sub, slack, rt, now, j).value
  {
    ScanGroupsFacts(sub, slack, rt, now);
    var sc := ScanGroups(sub, slack, rt, now);
    if |sc.rows| > n {
      assert false;
    }
  }

  /** A missing group k ends the scan: nothing at or after index k is persisted. */
  lemma ScanStopsAtGap(sub: Submitter, slack: SlackClient, rt: Runtime, now: int, k: nat)
    requires sub.state.Obj? && ClientBlockId(k) !in sub.state.fields
    ensures |ScanGroups(sub, slack, rt, now).rows| <= k
  {
    ScanGroupsFacts(sub, slack, rt, now);
    if |ScanGroups(sub, slack, rt, now).rows| > k {
      assert false;
    }
  }

  const SubmittedText := "✅ *Timesheet Submitted Successfully!*"
  const ConfirmationHeader := "✅ Timesheet submitted successfully!\n\n"

  function SubmittedBlocks(): seq<Block> { [Section(SubmittedText)] }

  function SubmitFailed(e: Exception, rt: Runtime): Response {
    FieldErrors(map["hours_block_0" := "Submission failed: " + rt.describe(e)])
  }

  /** One line of the confirmation message. */
  function ConfirmationLine(idx: nat, row: Row, rt: Runtime): string {
    NatToString(idx) + ". " + row.clientName + " - " + rt.showFloat(row.hours) + " hours\n"
  }

  /** The lines for `rows`, numbered from `start`. */
  function ConfirmationLines(rows: seq<Row>, start: nat, rt: Runtime): string {
    if rows == [] then "" else ConfirmationLine(start, rows[0], rt) + ConfirmationLines(rows[1..], start + 1, rt)
  }

  /** Appending a row appends its line, numbered after the rows before it. */
  lemma {:induction false} ConfirmationLinesAppend(rows: seq<Row>, row: Row, start: nat, rt: Runtime)
    ensures ConfirmationLines(rows + [row], start, rt) == ConfirmationLines(rows, start, rt) + ConfirmationLine(start + |rows|, row, rt)
  {
    if rows == [] {
      assert [row][1..] == [];
    } else {
      assert (rows + [row])[1..] == rows[1..] + [row];
      ConfirmationLinesAppend(rows[1..], row, start + 1, rt);
    }
  }

  /** Everything one submission does, as a value: the rows it persists, the
      direct message and message update it asks for, and its response. */
  datatype Submission = Submission(
    rows: seq<Row>,
    dm: Option<DirectMessage>,
    update: Option<MessageUpdate>,
    reply: Response)

  /** The direct message confirming `rows`, numbered from 1. */
  function ConfirmationText(rows: seq<Row>, rt: Runtime): string {
    ConfirmationHeader + ConfirmationLines(rows, 1, rt)
  }

  function ConfirmationDm(sub: Submitter, rows: seq<Row>, rt: Runtime): DirectMessage {
    DirectMessage(sub.userId, [Section(ConfirmationText(rows, rt))], "Timesheet submitted")
  }

  /** The original message is updated only when its channel and timestamp are
      both truthy. */
  function ConfirmationUpdate(sub: Submitter): Option<MessageUpdate> {
    if Truthy(sub.channelId) && Truthy(sub.messageTs)
    then Some(MessageUpdate(sub.channelId, sub.messageTs, SubmittedBlocks(), "Timesheet submitted"))
    else None
  }

  function Submit(payload: Value, slack: SlackClient, rt: Runtime, now: int): (s: Submission)
    ensures s.dm.Some? <==> s.reply == UpdateView(SubmittedBlocks())
    ensures s.update.Some? ==> s.dm.Some?
    ensures s.dm.Some? ==> s.dm.value.blocks == [Section(ConfirmationText(s.rows, rt))]
  {
    match ReadSubmitter(payload)
    case Raise(e) => Submission([], None, None, SubmitFailed(e, rt))
    case Ok(sub) =>
      var sc := ScanGroups(sub, slack, rt, now);
      if sc.failure.Some? then Submission(sc.rows, None, None, SubmitFailed(sc.failure.value, rt))
      else Submission(sc.rows, Some(ConfirmationDm(sub, sc.rows, rt)), ConfirmationUpdate(sub), UpdateView(SubmittedBlocks()))
  }

  /** An exception at group k leaves the k rows before it persisted (no
      rollback) and answers with a field error on the first hours input. */
  lemma SubmitKeepsRowsBeforeFailure(payload: Value, slack: SlackClient, rt: Runtime, now: int, k: nat)
    requires ReadSubmitter(payload).Ok?
    requires var sub := ReadSubmitter(payload).value;
      sub.state.Obj? && ClientBlockId(k) in sub.state.fields && ReadGroup(sub, slack, rt, now, k).Raise? &&
      forall j :: 0 <= j < k ==> ClientBlockId(j) in sub.state.fields && ReadGroup(sub, slack, rt, now, j).Ok?
    ensures var sub := ReadSubmitter(payload).value;
      var s := Submit(payload, slack, rt, now);
      |s.rows| == k && (forall j :: 0 <= j < k ==> s.rows[j] == ReadGroup(sub, slack, rt, now, j).value) &&
      s.reply == SubmitFailed(ReadGroup(sub, slack, rt, now, k).exc, rt) &&
      s.reply.errors.Keys == {"hours_block_0"} && s.dm.None? && s.update.None?
  {
    var sub := ReadSubmitter(payload).value;
    ScanGroupsFacts(sub, slack, rt, now);
    var sc := ScanGroups(sub, slack, rt, now);
    if |sc.rows| > k {
      assert false;
    }
  }

  /** Concatenated rows get the lines of the first part, then those of the
      second numbered on from where the first stopped. */
  lemma {:induction false} ConfirmationLinesConcat(a: seq<Row>, b: seq<Row>, start: nat, rt: Runtime)
    ensures ConfirmationLines(a + b, start, rt) == ConfirmationLines(a, start, rt) + ConfirmationLines(b, start + |a|, rt)
  {
    if a == [] {
      assert a + b == b;
    } else {
      var head := ConfirmationLine(start, a[0], rt);
      assert (a + b)[0] == a[0];
      assert (a + b)[1..] == a[1..] + b;
      ConfirmationLinesConcat(a[1..], b, start + 1, rt);
      calc {
        ConfirmationLines(a + b, start, rt);
        head + ConfirmationLines(a[1..] + b, start + 1, rt);
        head + (ConfirmationLines(a[1..], start + 1, rt) + ConfirmationLines(b, start + |a|, rt));
        { ConcatAssoc(head, ConfirmationLines(a[1..], start + 1, rt), ConfirmationLines(b, start + |a|, rt)); }
        (head + ConfirmationLines(a[1..], start + 1, rt)) + ConfirmationLines(b, start + |a|, rt);
      }
    }
  }

  /** Row k's line, numbered k + 1, follows the lines of the rows before it:
      the message lists every row, in order, numbered from 1. */
  lemma ConfirmationListsRow(rows: seq<Row>, rt: Runtime, k: nat)
    requires k < |rows|
    ensures ConfirmationText(rows[..k], rt) + ConfirmationLine(k + 1, rows[k], rt) <= ConfirmationText(rows, rt)
  {
    assert rows == rows[..k] + rows[k..];
    ConfirmationLinesConcat(rows[..k], rows[k..], 1, rt);
    assert rows[k..][1..] == rows[k + 1..];
  }

  /** On success every persisted row, group j's at position j, has its
      numbered line in the direct message; the original message is updated
      exactly when its channel and timestamp are both truthy. */
  lemma SubmitSucceeds(payload: Value, slack: SlackClient, rt: Runtime, now: int, k: nat)
    requires ReadSubmitter(payload).Ok?
    requires ScanGroups(ReadSubmitter(payload).value, slack, rt, now).failure.None?
    ensures var sub := ReadSubmitter(payload).value;
      var s := Submit(payload, slack, rt, now);
      s.reply == UpdateView(SubmittedBlocks()) && s.dm.Some? && s.dm.value.user == sub.userId &&
      (s.update.Some? <==> Truthy(sub.channelId) && Truthy(sub.messageTs)) &&
      Contains(sub.state, ClientBlockId(|s.rows|)) == Ok(false) &&
      (k < |s.rows| ==>
        ReadGroup(sub, slack, rt, now, k) == Ok(s.rows[k]) &&
        ConfirmationText(s.rows[..k], rt) + ConfirmationLine(k + 1, s.rows[k], rt) <= s.dm.value.blocks[0].markdown)
  {
    var sub := ReadSubmitter(payload).value;
    ScanGroupsFacts(sub, slack, rt, now);
    var rows := ScanGroups(sub, slack, rt, now).rows;
    if k < |rows| {
      ConfirmationListsRow(rows, rt, k);
    }
  }

  /** The loop of `_handle_submit`, over the outcome of each group: create one
      entry per group until the first absent index, stopping at the first
      exception with the entries created so far kept. */
  method PersistGroups(step: Step, bound: nat, store: EntryStore, now: int)
    returns (entries: seq<Row>, failure: Option<Exception>)
    requires Bounded(step, bound) && Stamped(step, now)
    modifies store
    ensures Scan(entries, failure) == ScanWith(step, bound, 0)
    ensures store.rows == old(store.rows) + entries
  {
    entries := [];
    var i: nat := 0;
    while true
      invariant AllRows(step, i) && |entries| == i
      invariant ScanWith(step, bound, 0) == Scan(entries + ScanWith(step, bound, i).rows, ScanWith(step, bound, i).failure)
      invariant store.rows == old(store.rows) + entries
      decreases bound - i
    {
      // the loop test `client_block_{i} in values`, then the reading of group i
      var outcome := step(i);
      if outcome.Raise? {
        return entries, Some(outcome.exc);
      }
      if outcome.value.None? {
        break;
      }
      var g := outcome.value.value;
      var row := store.CreateEntry(g.userId, g.username, g.channelId, g.clientName, g.hours, g.proofUrl, now);
      assert AllRows(step, i + 1);
      assert entries + ScanWith(step, bound, i).rows == (entries + [row]) + ScanWith(step, bound, i + 1).rows;
      entries := entries + [row];
      i := i + 1;
    }
    failure := None;
  }

  /** The confirmation text, one numbered line per entry. */
  method BuildConfirmationText(entries: seq<Row>, rt: Runtime) returns (text: string)
    ensures text == ConfirmationText(entries, rt)
  {
    text := ConfirmationHeader;
    assert entries[..0] == [];
    for k := 0 to |entries|
      invariant text == ConfirmationText(entries[..k], rt)
    {
      assert entries[..k + 1] == entries[..k] + [entries[k]];
      ConfirmationTextAppend(entries[..k], entries[k], rt);
      text := text + ConfirmationLine(k + 1, entries[k], rt);
    }
    assert entries[..|entries|] == entries;
  }

  /** Appending a row appends its line to the confirmation text. */
  lemma ConfirmationTextAppend(rows: seq<Row>, row: Row, rt: Runtime)
    ensures ConfirmationText(rows + [row], rt) == ConfirmationText(rows, rt) + ConfirmationLine(|rows| + 1, row, rt)
  {
    ConfirmationLinesAppend(rows, row, 1, rt);
    var lines := ConfirmationLines(rows, 1, rt);
    var line := ConfirmationLine(|rows| + 1, row, rt);
    ConcatAssoc(ConfirmationHeader, lines, line);
  }

  /** `_handle_submit`. */
  method HandleSubmit(payload: Value, store: EntryStore, slack: SlackClient, rt: Runtime, now: int)
    returns (r: Response)
    modifies store, slack
    ensures var s := Submit(payload, slack, rt, now);
      r == s.reply &&
      store.rows == old(store.rows) + s.rows &&
      slack.sentDms == old(slack.sentDms) + (if s.dm.Some? && slack.available then [s.dm.value] else []) &&
      slack.updates == old(slack.updates) + (if s.update.Some? && slack.available then [s.update.value] else [])
  {
    var sub: Submitter;
    match ReadSubmitter(payload) {
      case Raise(e) => return SubmitFailed(e, rt);
      case Ok(s) => sub := s;
    }
    GroupStepsBounded(sub, slack, rt, now);
    GroupStepsStamped(sub, slack, rt, now);
    var entries, failure := PersistGroups(GroupSteps(sub, slack, rt, now), ScanBound(sub.state), store, now);
    if failure.Some? {
      return SubmitFailed(failure.value, rt);
    }

    var text := BuildConfirmationText(entries, rt);
    var _ := slack.SendDm(sub.userId, [Section(text)], "Timesheet submitted");
    if Truthy(sub.channelId) && Truthy(sub.messageTs) {
      var _ := slack.UpdateMessage(sub.channelId, sub.messageTs, SubmittedBlocks(), "Timesheet submitted");
    }
    r := UpdateView(SubmittedBlocks());
  }

  /** What `handle_interaction` does, as a value: an exception reading the
      action id propagates; otherwise each route's submission (only submit
      persists or messages anything). */
  function Dispatch(payload: Value, slack: SlackClient, rt: Runtime, now: int): (r: Result<Submission>)
    ensures r.Raise? <==> ActionId(payload).Raise?
    ensures r.Ok? && (r.value.rows != [] || r.value.dm.Some? || r.value.update.Some?) ==>
      ActionId(payload) == Ok(Str("submit_timesheet"))
  {
    var actionId :- ActionId(payload);
    match RouteOf(actionId)
    case SubmitRoute => Ok(Submit(payload, slack, rt, now))
    case ShowFormsRoute => Ok(Submission([], None, None, ShowForms(payload, rt)))
    case AcknowledgeRoute => Ok(Submission([], None, None, Empty))
    case UnknownRoute => Ok(Submission([], None, None, Text("Unknown action")))
  }

  /** Only a submission writes to the store or the platform. */
  lemma DispatchWritesOnlyOnSubmit(payload: Value, slack: SlackClient, rt: Runtime, now: int)
    requires Dispatch(payload, slack, rt, now).Ok?
    requires RouteOf(ActionId(payload).value) != SubmitRoute
    ensures var s := Dispatch(payload, slack, rt, now).value;
      s.rows == [] && s.dm.None? && s.update.None?
    ensures ActionId(payload).value == Str("") ==> Dispatch(payload, slack, rt, now).value.reply == Text("Unknown action")
  {
  }

  /** `handle_interaction`. */
  method HandleInteraction(payload: Value, store: EntryStore, slack: SlackClient, rt: Runtime, now: int)
    returns (r: Result<Response>)
    modifies store, slack
    ensures var d := Dispatch(payload, slack, rt, now);
      match d
      case Raise(e) =>
        r == Raise(e) && store.rows == old(store.rows) &&
        slack.sentDms == old(slack.sentDms) && slack.updates == old(slack.updates)
      case Ok(s) =>
        r == Ok(s.reply) && store.rows == old(store.rows) + s.rows &&
        slack.sentDms == old(slack.sentDms) + (if s.dm.Some? && slack.available then [s.dm.value] else []) &&
        slack.updates == old(slack.updates) + (if s.update.Some? && slack.available then [s.update.value] else [])
  {
    var actionId := ActionId(payload);
    if actionId.Raise? {
      return Raise(actionId.exc);
    }
    var route := RouteOf(actionId.value);
    if route == ShowFormsRoute {
      r := Ok(ShowForms(payload, rt));
    } else if route == SubmitRoute {
      var response := HandleSubmit(payload, store, slack, rt, now);
      r := Ok(response);
    } else if route == AcknowledgeRoute {
      r := Ok(Empty);
    } else {
      r := Ok(Text("Unknown action"));
    }
  }
}
