/**
 * The form and report renderer: lists of chat-client blocks for the initial
 * entry-count picker, the N-entry form and a report.
 *
 * Each builder is specified by a function (`InitialForm`, `EntryForms`,
 * `Report`) and implemented, as in the source, by a method that starts a list
 * and grows it in a loop.
 */
module BlockBuilder {
  import opened Json
  import opened Naming
  import opened TimesheetService

  datatype SelectOption = SelectOption(text: string, value: string)

  datatype Button = Button(text: string, actionId: string, style: string)

  /** The interactive element inside an input block. */
  datatype Element =
    | StaticSelect(actionId: string, placeholder: string, options: seq<SelectOption>)
    | PlainTextInput(actionId: string, placeholder: string, multiline: bool)
    | NumberInput(actionId: string, placeholder: string, decimalAllowed: bool)
    | FileInput(actionId: string, filetypes: seq<string>, maxFiles: nat)

  datatype Block =
    | Header(title: string)                 // header block, plain text
    | Section(markdown: string)             // section block with one mrkdwn text
    | Fields(fields: seq<string>)           // section block with mrkdwn fields
    | Divider
    | Input(blockId: string, element: Element, caption: string, isOptional: bool)
    | Actions(buttons: seq<Button>)

  // ---------------------------------------------------------------------------
  // The initial form

  const IntroText := "*\U{1F4DD} Timesheet Submission*\nPlease fill in your timesheet details."

  /** The options of the count selector: "1", "2", "3", each shown as its value. */
  function CountOptions(): (r: seq<SelectOption>)
    ensures r == [SelectOption("1", "1"), SelectOption("2", "2"), SelectOption("3", "3")]
  {
    seq(3, k requires 0 <= k < 3 => SelectOption(NatToString(k + 1), NatToString(k + 1)))
  }

  function CountPicker(): Block {
    Input("entry_count_block",
          StaticSelect("entry_count_select", "Select number of entries", CountOptions()),
          "Number of entries", false)
  }

  function EntryTitle(i: nat): Block { Section("*Entry #" + NatToString(i + 1) + "*") }

  /** Groups 0 .. n-1 of a form, one after the other: what a loop
      `for i in range(n): blocks.extend(group(i))` appends. */
  function Groups(group: nat -> seq<Block>, n: nat): seq<Block> {
    if n == 0 then [] else Groups(group, n - 1) + group(n - 1)
  }

  /** Concatenation is associative. */
  lemma ConcatAssoc<T>(x: seq<T>, y: seq<T>, z: seq<T>)
    ensures x + (y + z) == (x + y) + z
  {
  }

  /** Position k of the middle part of a three-part concatenation. */
  lemma FramedAt<T>(head: seq<T>, mid: seq<T>, tail: seq<T>, k: nat)
    requires k < |mid|
    ensures |head + mid + tail| == |head| + |mid| + |tail|
    ensures (head + mid + tail)[|head| + k] == mid[k]
  {
  }

  /** With five-block groups, n groups make 5n blocks. */
  lemma {:induction false} GroupsLength(group: nat -> seq<Block>, n: nat)
    requires forall j :: |group(j)| == 5
    ensures |Groups(group, n)| == 5 * n
  {
    if n > 0 {
      GroupsLength(group, n - 1);
    }
  }

  /** Block o of group i sits at 5i + o. */
  lemma {:induction false} GroupsAt(group: nat -> seq<Block>, n: nat, i: nat, o: nat)
    requires forall j :: |group(j)| == 5
    requires i < n && o < 5
    ensures |Groups(group, n)| == 5 * n
    ensures Groups(group, n)[5 * i + o] == group(i)[o]
  {
    GroupsLength(group, n);
    GroupsLength(group, n - 1);
    assert Groups(group, n) == Groups(group, n - 1) + group(n - 1);
    if i < n - 1 {
      GroupsAt(group, n - 1, i, o);
    }
  }

  /** Groups without an actions block make a run without one. */
  lemma {:induction false} GroupsNoActions(group: nat -> seq<Block>, n: nat)
    requires forall j, o :: 0 <= o < |group(j)| ==> !group(j)[o].Actions?
    ensures forall k :: 0 <= k < |Groups(group, n)| ==> !Groups(group, n)[k].Actions?
  {
    if n > 0 {
      var prev := Groups(group, n - 1);
      GroupsNoActions(group, n - 1);
      forall k | 0 <= k < |Groups(group, n)| ensures !Groups(group, n)[k].Actions? {
        if k >= |prev| {
          assert Groups(group, n)[k] == group(n - 1)[k - |prev|];
        } else {
          assert Groups(group, n)[k] == prev[k];
        }
      }
    }
  }

  /** Preview group i of the initial form: client, hours, optional description. */
  function PreviewGroup(i: nat): (g: seq<Block>)
    ensures |g| == 5
  {
    [ EntryTitle(i),
      Input(ClientBlockId(i), PlainTextInput(ClientInputId(i), "Enter client name", false), "Client Name", false),
      Input(HoursBlockId(i), NumberInput(HoursInputId(i), "Enter hours", true), "Hours", false),
      Input(DescriptionBlockId(i), PlainTextInput(DescriptionInputId(i), "Enter work description", true), "Description", true),
      Divider ]
  }

  /** `build_initial_form`, as a value. */
  function InitialForm(): (r: seq<Block>)
    ensures |r| == 18 && r[2] == CountPicker()
  {
    GroupsLength(PreviewGroup, 3);
    [Section(IntroText), Divider, CountPicker()] + Groups(PreviewGroup, 3)
  }

  method BuildInitialForm() returns (blocks: seq<Block>)
    ensures blocks == InitialForm()
  {
    blocks := [Section(IntroText), Divider, CountPicker()];
    for i := 0 to 3
      invariant blocks == [Section(IntroText), Divider, CountPicker()] + Groups(PreviewGroup, i)
    {
      ConcatAssoc([Section(IntroText), Divider, CountPicker()], Groups(PreviewGroup, i), PreviewGroup(i));
      blocks := blocks + PreviewGroup(i);
    }
  }

  /** The initial form is 18 blocks: intro, divider, the count selector, then
      three five-block preview groups. */
  lemma InitialFormShape()
    ensures |InitialForm()| == 18
    ensures InitialForm()[0] == Section(IntroText) && InitialForm()[1] == Divider && InitialForm()[2] == CountPicker()
    ensures forall i, o :: 0 <= i < 3 && 0 <= o < 5 ==> InitialForm()[3 + 5 * i + o] == PreviewGroup(i)[o]
    ensures InitialForm()[2].element.actionId == "entry_count_select"
    ensures InitialForm()[2].element.options == [SelectOption("1", "1"), SelectOption("2", "2"), SelectOption("3", "3")]
  {
    var previews := Groups(PreviewGroup, 3);
    GroupsLength(PreviewGroup, 3);
    assert InitialForm() == [Section(IntroText), Divider, CountPicker()] + previews;
    forall i, o | 0 <= i < 3 && 0 <= o < 5 ensures InitialForm()[3 + 5 * i + o] == PreviewGroup(i)[o] {
      GroupsAt(PreviewGroup, 3, i, o);
    }
  }

  // ---------------------------------------------------------------------------
  // The entry form

  const FormHeading := Section("*\U{1F4CB} Fill in your timesheet entries*")
  const SubmitButton := Button("Submit Timesheet", "submit_timesheet", "primary")
  const SubmitActions := Actions([SubmitButton])
  const ProofFiletypes: seq<string> := ["jpg", "jpeg", "png", "pdf"]

  /** Group i of the entry form: client, hours, optional proof file, divider.
      Its names are the ones the submit handler reads back. */
  function EntryGroup(i: nat): (g: seq<Block>)
    ensures |g| == 5
  {
    [ EntryTitle(i),
      Input(ClientBlockId(i), PlainTextInput(ClientInputId(i), "Enter client name", false), "Client Name", false),
      Input(HoursBlockId(i), NumberInput(HoursInputId(i), "Enter hours", true), "Hours", false),
      Input(ProofBlockId(i), FileInput(ProofInputId(i), ProofFiletypes, 1), "Proof (Image/PDF)", true),
      Divider ]
  }

  /** `range(num_entries)` is empty for a count that is not positive. */
  function GroupCount(n: int): nat { if n > 0 then n else 0 }

  /** `build_entry_forms(num_entries)`, as a value. */
  function EntryForms(n: int): (r: seq<Block>)
    ensures |r| == 3 + 5 * GroupCount(n)
    ensures r[0] == FormHeading && r[1] == Divider && r[|r| - 1] == SubmitActions
  {
    GroupsLength(EntryGroup, GroupCount(n));
    [FormHeading, Divider] + Groups(EntryGroup, GroupCount(n)) + [SubmitActions]
  }

  method BuildEntryForms(n: int) returns (blocks: seq<Block>)
    ensures blocks == EntryForms(n)
  {
    blocks := [FormHeading, Divider];
    for i := 0 to GroupCount(n)
      invariant blocks == [FormHeading, Divider] + Groups(EntryGroup, i)
    {
      ConcatAssoc([FormHeading, Divider], Groups(EntryGroup, i), EntryGroup(i));
      blocks := blocks + EntryGroup(i);
    }
    blocks := blocks + [SubmitActions];
  }

  /** Block o of group i sits at position 2 + 5 * i + o of the entry form. */
  lemma EntryFormsBlockAt(n: int, i: nat, o: nat)
    requires i < GroupCount(n) && o < 5
    ensures |EntryForms(n)| == 3 + 5 * GroupCount(n)
    ensures EntryForms(n)[2 + 5 * i + o] == EntryGroup(i)[o]
  {
    GroupsAt(EntryGroup, GroupCount(n), i, o);
    FramedAt([FormHeading, Divider], Groups(EntryGroup, GroupCount(n)), [SubmitActions], 5 * i + o);
  }

  /** The entry form has 2 + 5 * max(n, 0) + 1 blocks; block o of group i sits
      at 2 + 5 * i + o; a count that is not positive leaves heading, divider
      and button only. */
  lemma EntryFormsShape(n: int)
    ensures |EntryForms(n)| == 3 + 5 * GroupCount(n)
    ensures EntryForms(n)[0] == FormHeading && EntryForms(n)[1] == Divider
    ensures EntryForms(n)[|EntryForms(n)| - 1] == SubmitActions
    ensures forall i, o :: 0 <= i < GroupCount(n) && 0 <= o < 5 ==> EntryForms(n)[2 + 5 * i + o] == EntryGroup(i)[o]
    ensures n <= 0 ==> EntryForms(n) == [FormHeading, Divider, SubmitActions]
  {
    GroupsLength(EntryGroup, GroupCount(n));
    assert EntryForms(n) == [FormHeading, Divider] + Groups(EntryGroup, GroupCount(n)) + [SubmitActions];
    forall i, o | 0 <= i < GroupCount(n) && 0 <= o < 5 ensures EntryForms(n)[2 + 5 * i + o] == EntryGroup(i)[o] {
      EntryFormsBlockAt(n, i, o);
    }
  }

  /** The submit button is the last block and the only actions block. */
  lemma EntryFormsSingleActions(n: int)
    ensures EntryForms(n)[|EntryForms(n)| - 1] == SubmitActions
    ensures SubmitActions.buttons[0].actionId == "submit_timesheet" && |SubmitActions.buttons| == 1
    ensures forall k :: 0 <= k < |EntryForms(n)| - 1 ==> !EntryForms(n)[k].Actions?
  {
    var groups := Groups(EntryGroup, GroupCount(n));
    forall j, o | 0 <= o < |EntryGroup(j)| ensures !EntryGroup(j)[o].Actions? {
      assert o in {0, 1, 2, 3, 4};
    }
    GroupsNoActions(EntryGroup, GroupCount(n));
    assert EntryForms(n) == [FormHeading, Divider] + groups + [SubmitActions];
    forall k | 0 <= k < |EntryForms(n)| - 1 ensures !EntryForms(n)[k].Actions? {
      if k >= 2 {
        assert EntryForms(n)[k] == groups[k - 2];
      }
    }
  }

  /** The form carries, for every i < n, the client and hours inputs and the
      optional proof upload under the names the submit handler looks up; the
      proof upload takes one jpg, jpeg, png or pdf file. */
  lemma EntryFormsNames(n: int, i: nat)
    requires i < GroupCount(n)
    ensures 6 + 5 * i < |EntryForms(n)|
    ensures EntryForms(n)[3 + 5 * i] == Input(ClientBlockId(i), PlainTextInput(ClientInputId(i), "Enter client name", false), "Client Name", false)
    ensures EntryForms(n)[4 + 5 * i] == Input(HoursBlockId(i), NumberInput(HoursInputId(i), "Enter hours", true), "Hours", false)
    ensures EntryForms(n)[5 + 5 * i] == Input(ProofBlockId(i), FileInput(ProofInputId(i), ["jpg", "jpeg", "png", "pdf"], 1), "Proof (Image/PDF)", true)
  {
    EntryFormsBlockAt(n, i, 1);
    EntryFormsBlockAt(n, i, 2);
    EntryFormsBlockAt(n, i, 3);
  }

  /** The block id of the input at offset o (1, 2 or 3) of entry group i. */
  function FieldBlockId(i: nat, o: nat): string {
    if o == 1 then ClientBlockId(i) else if o == 2 then HoursBlockId(i) else ProofBlockId(i)
  }

  /** Which field an input block of entry group i is: the block id it
      carries, by offset. */
  lemma EntryGroupInput(i: nat, o: nat)
    requires o < 5 && EntryGroup(i)[o].Input?
    ensures 1 <= o <= 3
    ensures EntryGroup(i)[o].blockId == FieldBlockId(i, o)
  {
  }

  /** Different fields, or the same field of different groups, have
      different block ids. */
  lemma FieldBlockIdsDistinct(i1: nat, o1: nat, i2: nat, o2: nat)
    requires 1 <= o1 <= 3 && 1 <= o2 <= 3
    requires i1 != i2 || o1 != o2
    ensures FieldBlockId(i1, o1) != FieldBlockId(i2, o2)
  {
    BlockIdsDistinct(i1, i2);
    BlockIdsDistinct(i2, i1);
  }

  /** Group and offset of a position inside the groups. */
  lemma Position(k: nat, g: nat) returns (i: nat, o: nat)
    requires k < 5 * g
    ensures k == 5 * i + o && o < 5 && i < g
  {
    i, o := k / 5, k % 5;
  }

  /** An input block of a form laid out as heading, divider, g groups of five
      and the submit button lies inside group i at offset o. */
  lemma GroupPosition(blocks: seq<Block>, g: nat, k: nat) returns (i: nat, o: nat)
    requires |blocks| == 3 + 5 * g
    requires blocks[0] == FormHeading && blocks[1] == Divider && blocks[|blocks| - 1] == SubmitActions
    requires k < |blocks| && blocks[k].Input?
    ensures k == 2 + 5 * i + o && o < 5 && i < g
  {
    assert 2 <= k < 2 + 5 * g;
    i, o := Position(k - 2, g);
  }

  /** Where an input block of the entry form sits: field o of group i. */
  lemma EntryFormsInputAt(n: int, k: nat) returns (i: nat, o: nat)
    requires k < |EntryForms(n)| && EntryForms(n)[k].Input?
    ensures k == 2 + 5 * i + o && 1 <= o <= 3
    ensures EntryForms(n)[k].blockId == FieldBlockId(i, o)
  {
    i, o := GroupPosition(EntryForms(n), GroupCount(n), k);
    EntryFormsBlockAt(n, i, o);
    EntryGroupInput(i, o);
  }

  /** No two input blocks of the entry form share a block id. */
  lemma EntryFormsBlockIdsUnique(n: int, k1: nat, k2: nat)
    requires k1 < k2 < |EntryForms(n)|
    requires EntryForms(n)[k1].Input? && EntryForms(n)[k2].Input?
    ensures EntryForms(n)[k1].blockId != EntryForms(n)[k2].blockId
  {
    var i1, o1 := EntryFormsInputAt(n, k1);
    var i2, o2 := EntryFormsInputAt(n, k2);
    FieldBlockIdsDistinct(i1, o1, i2, o2);
  }

  // ---------------------------------------------------------------------------
  // The report

  const NoEntriesText := "_No timesheet entries found for this period._"

  /** The proof line links the URL when `proof_url` is truthy. */
  function ProofText(e: ReportEntry): (t: string)
    ensures e.proofUrl.Some? && e.proofUrl.value != "" ==> t == "<" + e.proofUrl.value + "|View Proof>"
    ensures e.proofUrl.None? || e.proofUrl.value == "" ==> t == "_No proof attached_"
  {
    if e.proofUrl.Some? && e.proofUrl.value != "" then "<" + e.proofUrl.value + "|View Proof>"
    else "_No proof attached_"
  }

  /** The three blocks one entry contributes to a report. */
  function ReportGroup(e: ReportEntry, rt: Runtime): (g: seq<Block>)
    ensures |g| == 3
  {
    [ Fields(["*User:*\n" + e.username, "*Client:*\n" + e.clientName,
              "*Hours:*\n" + rt.showFloat(e.hours), "*Date:*\n" + e.submissionDate]),
      Section("*Proof:* " + ProofText(e)),
      Divider ]
  }

  function ReportRows(entries: seq<ReportEntry>, rt: Runtime): (r: seq<Block>)
    ensures |r| == 3 * |entries|
  {
    if entries == [] then []
    else ReportRows(entries[..|entries| - 1], rt) + ReportGroup(entries[|entries| - 1], rt)
  }

  /** `sum(entry['hours'] for entry in entries)`, exact. */
  function TotalHours(entries: seq<ReportEntry>): (r: real)
    ensures (forall k :: 0 <= k < |entries| ==> entries[k].hours >= 0.0) ==> r >= 0.0
  {
    if entries == [] then 0.0 else TotalHours(entries[..|entries| - 1]) + entries[|entries| - 1].hours
  }

  function TotalSection(total: real, rt: Runtime): Block {
    Section("*Total Hours:* " + rt.showFloat(total))
  }

  /** `build_report_blocks(entries, title)`, as a value. */
  function Report(entries: seq<ReportEntry>, title: string, rt: Runtime): (r: seq<Block>)
    ensures |r| >= 3 && r[0] == Header(title) && r[1] == Divider
  {
    if entries == [] then [Header(title), Divider, Section(NoEntriesText)]
    else [Header(title), Divider] + ReportRows(entries, rt) + [TotalSection(TotalHours(entries), rt)]
  }

  method BuildReportBlocks(entries: seq<ReportEntry>, title: string, rt: Runtime) returns (blocks: seq<Block>)
    ensures blocks == Report(entries, title, rt)
  {
    blocks := [Header(title), Divider];
    if entries == [] {
      blocks := blocks + [Section(NoEntriesText)];
      return;
    }
    for k := 0 to |entries|
      invariant blocks == [Header(title), Divider] + ReportRows(entries[..k], rt)
    {
      ReportRowsSnoc(entries, k, rt);
      ConcatAssoc([Header(title), Divider], ReportRows(entries[..k], rt), ReportGroup(entries[k], rt));
      blocks := blocks + ReportGroup(entries[k], rt);
    }
    assert entries[..|entries|] == entries;
    var total := TotalHours(entries);
    blocks := blocks + [TotalSection(total, rt)];
  }

  /** One more entry adds its group at the end. */
  lemma ReportRowsSnoc(entries: seq<ReportEntry>, k: nat, rt: Runtime)
    requires k < |entries|
    ensures ReportRows(entries[..k + 1], rt) == ReportRows(entries[..k], rt) + ReportGroup(entries[k], rt)
  {
    assert entries[..k + 1][..k] == entries[..k];
  }

  /** Block o of entry k's group sits at 3k + o. */
  lemma {:induction false} ReportRowsAt(entries: seq<ReportEntry>, rt: Runtime, k: nat, o: nat)
    requires k < |entries| && o < 3
    ensures |ReportRows(entries, rt)| == 3 * |entries|
    ensures ReportRows(entries, rt)[3 * k + o] == ReportGroup(entries[k], rt)[o]
  {
    var init := entries[..|entries| - 1];
    var rows := ReportRows(init, rt);
    var last := ReportGroup(entries[|entries| - 1], rt);
    assert ReportRows(entries, rt) == rows + last;
    if k < |entries| - 1 {
      ReportRowsAt(init, rt, k, o);
      assert init[k] == entries[k];
      assert (rows + last)[3 * k + o] == rows[3 * k + o];
    } else {
      assert (rows + last)[|rows| + o] == last[o];
    }
  }

  /** The sum over a concatenation is the sum of the sums. */
  lemma {:induction false} TotalHoursAppend(a: seq<ReportEntry>, b: seq<ReportEntry>)
    ensures TotalHours(a + b) == TotalHours(a) + TotalHours(b)
  {
    if b != [] {
      var b' := b[..|b| - 1];
      assert (a + b)[..|a + b| - 1] == a + b';
      TotalHoursAppend(a, b');
    } else {
      assert a + b == a;
    }
  }

  /** The total splits at any entry: the hours before it, its own hours, and
      the hours after it. */
  lemma {:induction false} TotalHoursIsSum(entries: seq<ReportEntry>, k: nat)
    requires k < |entries|
    ensures TotalHours(entries) == TotalHours(entries[..k]) + entries[k].hours + TotalHours(entries[k + 1..])
  {
    assert entries == entries[..k] + [entries[k]] + entries[k + 1..];
    TotalHoursAppend(entries[..k] + [entries[k]], entries[k + 1..]);
    TotalHoursAppend(entries[..k], [entries[k]]);
    assert [entries[k]][..0] == [];
  }

  /** Taking the last element off one of two permutations of each other, and
      the same element off the other, leaves permutations of each other. */
  lemma RemoveMatching<T>(a: seq<T>, b: seq<T>, k: nat)
    requires a != [] && k < |b| && b[k] == a[|a| - 1]
    requires multiset(a) == multiset(b)
    ensures multiset(a[..|a| - 1]) == multiset(b[..k] + b[k + 1..])
  {
    var x := b[k];
    assert a == a[..|a| - 1] + [x];
    assert b == b[..k] + [x] + b[k + 1..];
    var m1 := multiset(a[..|a| - 1]);
    var m2 := multiset(b[..k] + b[k + 1..]);
    assert m1 + multiset{x} == m2 + multiset{x};
    forall y ensures m1[y] == m2[y] {
      assert (m1 + multiset{x})[y] == (m2 + multiset{x})[y];
    }
  }

  /** The total does not depend on the order of the entries. */
  lemma {:induction false} TotalHoursPermutation(a: seq<ReportEntry>, b: seq<ReportEntry>)
    requires multiset(a) == multiset(b)
    ensures TotalHours(a) == TotalHours(b)
    decreases |a|
  {
    if a != [] {
      var x := a[|a| - 1];
      assert x in multiset(b);
      var k :| 0 <= k < |b| && b[k] == x;
      RemoveMatching(a, b, k);
      TotalHoursPermutation(a[..|a| - 1], b[..k] + b[k + 1..]);
      TotalHoursIsSum(b, k);
      TotalHoursAppend(b[..k], b[k + 1..]);
    } else {
      assert |b| == |multiset(b)| == 0;
    }
  }

  /** A non-empty report has 2 + 3 * |entries| + 1 blocks and ends with the
      total of all hours. */
  lemma ReportEnds(entries: seq<ReportEntry>, title: string, rt: Runtime)
    requires entries != []
    ensures |Report(entries, title, rt)| == 3 + 3 * |entries|
    ensures Report(entries, title, rt)[2 + 3 * |entries|] == TotalSection(TotalHours(entries), rt)
  {
    assert Report(entries, title, rt) == [Header(title), Divider] + ReportRows(entries, rt) + [TotalSection(TotalHours(entries), rt)];
  }

  /** Block o of entry k's group sits at 2 + 3k + o of the report. */
  lemma ReportGroupAt(entries: seq<ReportEntry>, title: string, rt: Runtime, k: nat, o: nat)
    requires k < |entries| && o < 3
    ensures |Report(entries, title, rt)| == 3 + 3 * |entries|
    ensures Report(entries, title, rt)[2 + 3 * k + o] == ReportGroup(entries[k], rt)[o]
  {
    var rows := ReportRows(entries, rt);
    ReportRowsAt(entries, rt, k, o);
    assert Report(entries, title, rt) == [Header(title), Divider] + rows + [TotalSection(TotalHours(entries), rt)];
    assert Report(entries, title, rt)[2 + 3 * k + o] == rows[3 * k + o];
  }

  /** An empty report is the title, a divider and the "no entries" notice; a
      non-empty one has 2 + 3 * |entries| + 1 blocks, block o of entry k's group
      at 2 + 3k + o in input order, and ends with the total of all hours. */
  lemma ReportShape(entries: seq<ReportEntry>, title: string, rt: Runtime)
    ensures entries == [] ==> Report(entries, title, rt) == [Header(title), Divider, Section(NoEntriesText)]
    ensures entries != [] ==>
      |Report(entries, title, rt)| == 3 + 3 * |entries| &&
      Report(entries, title, rt)[0] == Header(title) && Report(entries, title, rt)[1] == Divider &&
      (forall k, o :: 0 <= k < |entries| && 0 <= o < 3 ==> Report(entries, title, rt)[2 + 3 * k + o] == ReportGroup(entries[k], rt)[o]) &&
      Report(entries, title, rt)[2 + 3 * |entries|] == TotalSection(TotalHours(entries), rt)
  {
    if entries != [] {
      ReportEnds(entries, title, rt);
      forall k, o | 0 <= k < |entries| && 0 <= o < 3
        ensures Report(entries, title, rt)[2 + 3 * k + o] == ReportGroup(entries[k], rt)[o]
      {
        ReportGroupAt(entries, title, rt, k, o);
      }
    }
  }
}
