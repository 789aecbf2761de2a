# TimesheetBot request logic in Dafny

This project is a verified model of the request-to-response logic of TimesheetBot. TimesheetBot is a Slack bot: team members use it to log hours per client, and a manager uses it to get weekly and monthly reports. The model covers five parts:

- **Signature gate and router** (`SlackRouter`). Every endpoint checks the request's Slack signature first. The timestamp header must be within 300 seconds of the clock, and the signature header must equal `"v0=" + hex(HMAC-SHA256(secret, "v0:" + ts + ":" + body))`. A request that passes is dispatched by payload `type` or to a command handler.
- **Interaction dispatcher** (`InteractionHandler`). It dispatches on the first action's `action_id`:
  - showing the entry form reads the chosen count from the payload's nested state;
  - submitting scans the groups `client_block_0`, `client_block_1`, … up to the first missing index and stores one row per group;
  - it then sends a numbered confirmation by direct message and updates the original message;
  - any exception becomes a field error on `hours_block_0`. Rows stored before the exception are kept.
- **Command dispatcher** (`CommandHandler`). `/timesheet` shows the initial form to anyone. The weekly and monthly reports are shown only to the configured manager.
- **Entry store** (`TimesheetService`). It is an append-only table of rows with three time-windowed queries: this week since Monday midnight, this month since the first, and one user's last N days.
- **Block builder** (`BlockBuilder`). It builds the block lists for the initial picker, the N-entry form and a report ending in a total.

Some supporting modules:

- `Json` models decoded payloads as JSON values, together with the Python dictionary and list operations the handlers use. Each returns a `Result`, so an exception is a value.
- `Naming` defines the index-suffixed field names that connect the form to the submit handler.
- `Responses` holds the response bodies.
- `SlackService` models the platform calls as a collaborator class that records what it was asked to send.

Builders whose source grows a list in a loop are modelled as methods. Each such method is proved equal to a specification function, and the lemmas are stated about that function. The store and the Slack collaborator are classes with mutable fields. Everything else is functions.

Two behaviours of the code are worth stating outright:

- `view_submission` has no separate modal path (app/routers/slack_router.py:81-85). It goes to the same `handle_interaction` as block actions. So a modal submission without an `actions` list gets "Unknown action".
- Hours that `float()` rejects do not default to 0 (app/handlers/interaction_handler.py:252-253). They raise, and the whole submission answers with the field error. Only a missing `value` key defaults to `"0"`.

The model assumes only three facts about Python's `int()` and `float()` on strings (`Json.PythonParsing`): `int("")` raises, `float("0")` is 0.0, and `int(str(n))` is n for every n ≥ 0. Lemmas that need them say so in their `requires`.

## Model

| member | source | states |
|---|---|---|
| Json.Get | app/handlers/interaction_handler.py:20 | `d.get(k, default)` succeeds iff the value is a dict, and yields the field when it is present and the default otherwise |
| Json.At | app/handlers/interaction_handler.py:242 | `d[k]` succeeds iff the value is a dict holding the key, and yields that field |
| Json.First | app/handlers/interaction_handler.py:20 | `x[0]` on a list gives its first item, and raises IndexError on an empty list |
| Json.Contains | app/handlers/interaction_handler.py:250 | `k in x` is key membership for a dict; it raises TypeError exactly for values that are not dict, list or string |
| Json.AsText | app/services/timesheet_service.py:19-26 | a text column accepts exactly a string, and stores that string |
| Json.AsOptionalText | app/services/timesheet_service.py:25 | the nullable proof column accepts exactly None or a string |
| Json.Truncate | app/handlers/interaction_handler.py:47 | `int()` of a float truncates toward zero; the result is within 1 of the input, on the input's side of zero |
| Json.IntOf | app/handlers/interaction_handler.py:47 | `int(v)`: a string succeeds iff it parses; None, a list or a dict raise TypeError; a number is truncated |
| Json.FloatOf | app/handlers/interaction_handler.py:253 | `float(v)`: a string succeeds iff it parses; None, a list or a dict raise TypeError; a number is kept |
| Naming.NatToString | app/utils/block_builder.py:47 | `str(i)` is a non-empty string of decimal digits, and has one digit exactly when i < 10 |
| Naming.NatToStringInjective | app/utils/block_builder.py:134 | distinct indices give distinct decimal strings, so `client_block_{i}` names one group |
| Naming.BlockIdsDistinct | app/utils/block_builder.py:134-167 | client, hours and proof block ids are pairwise distinct across kinds, and within one kind they are equal only for equal indices |
| Naming.ClientKeysBound | app/handlers/interaction_handler.py:250 | a state holding `client_block_0 .. client_block_{n-1}` has at least n keys (the submit loop terminates) |
| TimesheetService.Weekday | app/services/timesheet_service.py:34 | `weekday()` is in 0..6 |
| TimesheetService.WeekdayCycle | app/services/timesheet_service.py:34 | day 4 (1970-01-05) is weekday 0, a Monday, and each next day is the next weekday, Sunday wrapping to Monday |
| TimesheetService.WeekStart | app/services/timesheet_service.py:34-35 | the weekly cutoff is a Monday midnight no later than now and less than 7 days before it, and no later Monday midnight is ≤ now |
| TimesheetService.MonthStart | app/services/timesheet_service.py:54-55 | the monthly cutoff is midnight of a first-of-month day no later than now and less than 31 days before it, and no later such midnight is ≤ now |
| TimesheetService.Select | app/services/timesheet_service.py:37-39 | the query result holds exactly the rows the filter keeps, each with its multiplicity in the table |
| TimesheetService.ProjectAll | app/services/timesheet_service.py:41-50 | one dictionary per row, in order, each the row's username, client, hours, proof URL and formatted date |
| TimesheetService.EntryStore.CreateEntry | app/services/timesheet_service.py:10-30 | adds exactly one row carrying the given fields and the insertion time, and leaves every existing row unchanged |
| TimesheetService.EntryStore.WeeklyEntries | app/services/timesheet_service.py:33-50 | exactly the projections of the rows submitted at or after this week's Monday midnight, one per such row: the selected rows equal the stored rows in the window as a multiset, so a row stored twice is reported twice; their order is left open |
| TimesheetService.EntryStore.MonthlyEntries | app/services/timesheet_service.py:53-70 | exactly the projections of the rows submitted at or after the first of this month, one per such row: the selected rows equal the stored rows in the window as a multiset, so a row stored twice is reported twice; their order is left open |
| TimesheetService.EntryStore.UserEntries | app/services/timesheet_service.py:73-78 | exactly the rows of the given user submitted within the last `days` days, with their multiplicities |
| BlockBuilder.CountOptions | app/utils/block_builder.py:28-31 | the count selector offers "1", "2", "3" in that order, each shown as its value |
| BlockBuilder.InitialForm | app/utils/block_builder.py:6-106 | the initial form has 18 blocks, with the count selector third |
| BlockBuilder.BuildInitialForm | app/utils/block_builder.py:6-106 | the loop builds the intro, divider and picker followed by three preview groups |
| BlockBuilder.GroupsLength | app/utils/block_builder.py:41-104 | n five-block groups, appended one after another, make 5n blocks |
| BlockBuilder.GroupsAt | app/utils/block_builder.py:41-104 | block o of group i sits at position 5i + o of the appended groups |
| BlockBuilder.GroupsNoActions | app/utils/block_builder.py:123-183 | groups without an actions block append to blocks without one |
| BlockBuilder.InitialFormShape | app/utils/block_builder.py:6-106 | 18 blocks: intro, divider, the `entry_count_select` picker with options 1..3, then block o of preview group i at 3 + 5i + o |
| BlockBuilder.EntryForms | app/utils/block_builder.py:109-200 | the entry form has 3 + 5·max(n,0) blocks: the heading and a divider first, the submit button last |
| BlockBuilder.BuildEntryForms | app/utils/block_builder.py:109-200 | the loop builds the heading, divider, max(n, 0) entry groups and the submit button |
| BlockBuilder.EntryFormsShape | app/utils/block_builder.py:109-200 | 3 + 5·max(n,0) blocks, block o of group i at 2 + 5i + o, the submit button last; n ≤ 0 gives heading, divider and button only |
| BlockBuilder.EntryFormsBlockAt | app/utils/block_builder.py:123-183 | block o of entry group i sits at 2 + 5i + o of the entry form |
| BlockBuilder.EntryGroupInput | app/utils/block_builder.py:132-179 | the input blocks of a group are its offsets 1, 2 and 3, carrying the client, hours and proof block ids |
| BlockBuilder.FieldBlockIdsDistinct | app/utils/block_builder.py:132-179 | two fields differing in group or in kind have different block ids |
| BlockBuilder.GroupPosition | app/utils/block_builder.py:109-200 | an input block of a form laid out as heading, divider, groups and button lies at 2 + 5i + o inside group i |
| BlockBuilder.EntryFormsInputAt | app/utils/block_builder.py:123-183 | every input block of the entry form is field o (1 to 3) of some group i, at 2 + 5i + o, with that field's block id |
| BlockBuilder.EntryFormsSingleActions | app/utils/block_builder.py:185-198 | the last block is the only actions block, and its single button has action id `submit_timesheet` |
| BlockBuilder.EntryFormsNames | app/utils/block_builder.py:132-179 | group i carries `client_block_i`/`client_input_i`, `hours_block_i`/`hours_input_i` with decimals allowed, and an optional `proof_block_i`/`proof_input_i` taking one jpg, jpeg, png or pdf file |
| BlockBuilder.EntryFormsBlockIdsUnique | app/utils/block_builder.py:123-183 | no two input blocks of the entry form share a block id |
| BlockBuilder.ProofText | app/utils/block_builder.py:228 | the proof line links the URL as "View Proof" iff the proof URL is truthy, and the placeholder otherwise |
| BlockBuilder.ReportRows | app/utils/block_builder.py:227-261 | every entry contributes exactly three blocks |
| BlockBuilder.TotalHours | app/utils/block_builder.py:263 | the total of non-negative hours is non-negative |
| BlockBuilder.Report | app/utils/block_builder.py:203-215 | every report starts with the title header and a divider |
| BlockBuilder.BuildReportBlocks | app/utils/block_builder.py:203-272 | the loop builds the report: the notice when there are no entries, otherwise the entry groups and the total |
| BlockBuilder.ReportRowsSnoc | app/utils/block_builder.py:227-261 | one more entry appends its three blocks at the end |
| BlockBuilder.ReportRowsAt | app/utils/block_builder.py:227-261 | block o of entry k's group sits at 3k + o |
| BlockBuilder.TotalHoursAppend | app/utils/block_builder.py:263 | the sum over a concatenation is the sum of the two sums |
| BlockBuilder.TotalHoursIsSum | app/utils/block_builder.py:263 | the total splits at any entry k: the hours before k, plus entry k's hours, plus the hours after k |
| BlockBuilder.TotalHoursPermutation | app/utils/block_builder.py:263 | entries that are a permutation of each other have the same total, so the total does not depend on the order the store returns |
| BlockBuilder.ReportShape | app/utils/block_builder.py:203-270 | no entries: exactly header, divider and the "no entries" notice; otherwise 3 + 3·len blocks, block o of entry k's group at 2 + 3k + o in input order, and the total of all hours last |
| BlockBuilder.ReportEnds | app/utils/block_builder.py:263-270 | a non-empty report has 3 + 3·len blocks and ends with the total section |
| BlockBuilder.ReportGroupAt | app/utils/block_builder.py:227-261 | block o of entry k's group sits at 2 + 3k + o of the report |
| SlackService.SlackClient.constructor | app/services/slack_service.py:13-14 | a client with the given file directory and availability, and nothing sent yet |
| SlackService.SlackClient.FileInfo | app/services/slack_service.py:57-63 | the lookup returns the file iff the platform answers and knows the id, and returns None otherwise |
| SlackService.SlackClient.SendDm | app/services/slack_service.py:65-80 | returns True iff the platform answers; exactly then the message is delivered once |
| SlackService.SlackClient.UpdateMessage | app/services/slack_service.py:28-39 | returns True iff the platform answers; exactly then the update is delivered once |
| InteractionHandler.ActionId | app/handlers/interaction_handler.py:20 | a payload that is not a dict raises AttributeError; one without `actions` gets the action id "" |
| InteractionHandler.RouteOf | app/handlers/interaction_handler.py:25-35 | the show-forms, submit and dropdown routes are taken exactly for their three action ids; any other id is unknown |
| InteractionHandler.ActionIdDefaults | app/handlers/interaction_handler.py:20-35 | no `actions` key gives action id "" and so "Unknown action"; an empty `actions` list raises IndexError |
| InteractionHandler.Dispatch | app/handlers/interaction_handler.py:19-35 | an exception comes only from reading the action id; only the `submit_timesheet` action stores rows or sends anything |
| InteractionHandler.DispatchWritesOnlyOnSubmit | app/handlers/interaction_handler.py:19-35 | every route but submit stores nothing and messages no one; action id "" answers "Unknown action" |
| InteractionHandler.HandleInteraction | app/handlers/interaction_handler.py:19-35 | an exception reading the action id propagates with no effect; otherwise the reply, stored rows, DMs and updates are those of the routed action |
| InteractionHandler.SelectedCount | app/handlers/interaction_handler.py:42-47 | a payload that is not a dict raises AttributeError; one without `state` selects 1 entry |
| InteractionHandler.SelectedCountDefault | app/handlers/interaction_handler.py:42-47 | with no state the count is 1, and the reply is the one-entry form replacing the original |
| InteractionHandler.SelectedOptionDefault | app/handlers/interaction_handler.py:45-47 | a selected option without `value` selects 1 entry and gets the one-group form; a null option raises AttributeError and gets the error text |
| InteractionHandler.SelectedOptionCount | app/handlers/interaction_handler.py:42-51 | a selected option whose `value` is "n" selects n entries and gets the form with n groups, 3 + 5n blocks, whatever other keys (such as `text`) the option has |
| InteractionHandler.ShowForms | app/handlers/interaction_handler.py:37-69 | the reply replaces the original message exactly when the count is read, and is the ephemeral error text exactly when reading it raises |
| InteractionHandler.ShowFormsResult | app/handlers/interaction_handler.py:37-69 | a count n that parses gives the entry form with block o of group i at 2 + 5i + o for max(n,0) groups, and the submit button last; a count that `int()` rejects gives an ephemeral text starting "❌ Error: " and no blocks |
| InteractionHandler.ReadSubmitterUser | app/handlers/interaction_handler.py:242-246 | the submitter is the payload's `user.id`; a payload without `user` raises KeyError |
| InteractionHandler.ClientValue | app/handlers/interaction_handler.py:251 | the client value is read only from a dict state holding `client_block_i`; a missing block raises KeyError |
| InteractionHandler.HoursValue | app/handlers/interaction_handler.py:252 | the hours value is read only from a dict state holding `hours_block_i`; a missing block raises KeyError |
| InteractionHandler.ProofUrl | app/handlers/interaction_handler.py:255-262 | a URL is found only when files are attached, and never when the platform is unreachable |
| InteractionHandler.ReadGroup | app/handlers/interaction_handler.py:250-272 | a group is read only when the state is a dict holding its `client_block_i`, and its row is stamped with the insertion time |
| InteractionHandler.HoursDefaultsToZero | app/handlers/interaction_handler.py:252-253 | an hours input without a `value` key reads as "0", which `float()` makes 0.0, so the stored row has 0 hours |
| InteractionHandler.ReadGroupFields | app/handlers/interaction_handler.py:251-272 | the row carries the client value, the hours as `float()` reads them, the proof URL and the user id; hours that `float()` rejects make the group raise that exception |
| InteractionHandler.ProofUrlFirstFileOnly | app/handlers/interaction_handler.py:255-262 | an empty files list or a failed lookup gives None; a file the lookup finds gives its `url_private` when the file info is truthy and None otherwise; only the first file counts |
| InteractionHandler.ScanWithRow | app/handlers/interaction_handler.py:248-275 | the scan's row at position j - i is the one index j produced |
| InteractionHandler.ScanWithEnd | app/handlers/interaction_handler.py:250 | the index after the last row is absent when the scan has no failure, and raised the failure otherwise |
| InteractionHandler.GroupStepsBounded | app/handlers/interaction_handler.py:250 | no run of consecutive groups from 0 is longer than the number of state keys |
| InteractionHandler.GroupStepsStamped | app/handlers/interaction_handler.py:264-272 | every row a group yields carries the insertion time |
| InteractionHandler.Outcome | app/handlers/interaction_handler.py:250-275 | a group yields nothing exactly when its `client_block_i` is absent from the state |
| InteractionHandler.OutcomeRow | app/handlers/interaction_handler.py:248-275 | a group that yields a row is present and reads as that row |
| InteractionHandler.OutcomeEnd | app/handlers/interaction_handler.py:248-275 | a group that yields no row is absent, or raised in its membership test or its reading |
| InteractionHandler.ScanGroupsRow | app/handlers/interaction_handler.py:248-275 | row j of the scan is group j's, which is present and readable |
| InteractionHandler.ScanGroupsEnd | app/handlers/interaction_handler.py:248-275 | the group after the last row is absent when there is no failure, and raised the failure otherwise |
| InteractionHandler.ScanGroupsFacts | app/handlers/interaction_handler.py:248-275 | row j of the scan is group j's, which is present and readable; the scan ends at an absent group or at the one that raised |
| InteractionHandler.ScanPersistsAllGroups | app/handlers/interaction_handler.py:248-275 | groups 0..n-1 readable and group n absent give exactly n rows, group j's at position j, and no failure |
| InteractionHandler.ScanStopsAtGap | app/handlers/interaction_handler.py:250 | a missing group k stops the scan, so nothing at or after k is stored |
| InteractionHandler.ConfirmationLinesAppend | app/handlers/interaction_handler.py:278-279 | appending a row appends its line, numbered after the rows before it |
| InteractionHandler.ConfirmationLinesConcat | app/handlers/interaction_handler.py:278-279 | the lines of a concatenation are the first part's lines, then the second part's lines numbered on |
| InteractionHandler.ConfirmationListsRow | app/handlers/interaction_handler.py:277-279 | row k's line, numbered k + 1, follows the header and the lines of rows 0..k-1 |
| InteractionHandler.Submit | app/handlers/interaction_handler.py:240-312 | a confirmation DM is sent exactly when the reply is the success update, it lists exactly the stored rows, and the message is updated only on success |
| InteractionHandler.SubmitSucceeds | app/handlers/interaction_handler.py:277-305 | on success: the update reply, a DM to the submitter listing every stored row numbered from 1, and a message update iff channel and timestamp are both truthy |
| InteractionHandler.SubmitKeepsRowsBeforeFailure | app/handlers/interaction_handler.py:307-312 | an exception at group k keeps the k rows before it, sends nothing, and answers `errors` with the single key `hours_block_0` |
| InteractionHandler.PersistGroups | app/handlers/interaction_handler.py:248-275 | the loop stores one row per group in index order up to the first absent index, stopping at the first exception, and is the scan |
| InteractionHandler.ConfirmationTextAppend | app/handlers/interaction_handler.py:277-279 | appending a row appends its numbered line to the confirmation text |
| InteractionHandler.BuildConfirmationText | app/handlers/interaction_handler.py:277-279 | the accumulated text is the header followed by one numbered line per row |
| InteractionHandler.HandleSubmit | app/handlers/interaction_handler.py:240-312 | the reply, the rows appended to the store, and the DM and update delivered are those of the submission |
| CommandHandler.HandleTimesheetCommand | app/handlers/command_handler.py:21-29 | whatever the payload: ephemeral, text "Fill your timesheet", and the 18-block initial form with its picker and preview groups |
| CommandHandler.HandleWeeklyReport | app/handlers/command_handler.py:31-52 | anyone but the manager, including a missing user id, gets the fixed denial; the manager gets "Weekly Report" with the weekly title header |
| CommandHandler.HandleMonthlyReport | app/handlers/command_handler.py:54-75 | anyone but the manager gets the fixed denial; the manager gets "Monthly Report" with the monthly title header |
| CommandHandler.RefusalRevealsNothing | app/handlers/command_handler.py:32-39 | a refused report is the same whatever the store holds |
| CommandHandler.RowShown | app/handlers/command_handler.py:41-46 | each row stored since the cutoff has its projection's group in the report |
| CommandHandler.GroupFromRow | app/handlers/command_handler.py:41-46 | each group in the report is the projection of a row stored since the cutoff |
| CommandHandler.ReportCovers | app/handlers/command_handler.py:41-46 | for any cutoff, the report on the rows stored since it shows each such row's projection and nothing else |
| CommandHandler.WeeklyReportCoversWeek | app/handlers/command_handler.py:31-52 | for the manager, the weekly report shows exactly the rows stored since Monday midnight, in both directions |
| CommandHandler.MonthlyReportCoversMonth | app/handlers/command_handler.py:54-75 | for the manager, the monthly report shows exactly the rows stored since the first of the month, in both directions |
| SlackRouter.Distance | app/routers/slack_router.py:25 | `abs(a - b)`: non-negative, and one of the two differences |
| SlackRouter.ExpectedSignature | app/routers/slack_router.py:28-33 | the expected signature starts with `v0=` |
| SlackRouter.VerifySignature | app/routers/slack_router.py:20-35 | a timestamp `int()` rejects raises ValueError; true iff the timestamp parses, is within 300 s of the clock, and the signature equals `v0=` + HMAC of `v0:ts:body` |
| SlackRouter.SignedRequestAccepted | app/routers/slack_router.py:25-35 | a correctly signed request exactly 300 s old still passes |
| SlackRouter.StaleRequestRefused | app/routers/slack_router.py:25-26 | a timestamp more than 300 s away fails whatever the signature |
| SlackRouter.Guard | app/routers/slack_router.py:43-44 | a request passes exactly when its signature verifies; otherwise the answer is 403, or 500 when the timestamp does not parse |
| SlackRouter.MissingTimestampIsServerError | app/routers/slack_router.py:20-25 | a request without a timestamp header raises ValueError in `int("")`, so the events, timesheet, weekly and monthly endpoints answer 500 (the interactions endpoint does too, by `HandleInteractions`' contract on the `Guard` value) |
| SlackRouter.HandleEvents | app/routers/slack_router.py:38-58 | unverified requests are refused before decoding; `url_verification` echoes the challenge; other events answer `{"status": "ok"}` |
| SlackRouter.EventReplyAnswers | app/routers/slack_router.py:46-58 | a payload that is not a dict raises AttributeError; otherwise the challenge is echoed exactly for `url_verification`, and the status is answered otherwise |
| SlackRouter.HandleInteractions | app/routers/slack_router.py:61-87 | unverified requests are refused with no effect; `block_actions` and `view_submission` both go to the interaction handler; other types answer `{"status": "ok"}`; only a handled submission adds to the direct messages and message updates sent |
| SlackRouter.HandleTimesheetEndpoint | app/routers/slack_router.py:114-135 | unverified requests are refused; verified ones get the ephemeral initial form: 18 blocks, the count picker third and the three preview groups after it |
| SlackRouter.HandleWeeklyEndpoint | app/routers/slack_router.py:137-154 | unverified requests are refused; a verified request is denied iff its `user_id` form field is not the manager's |
| SlackRouter.HandleMonthlyEndpoint | app/routers/slack_router.py:157-187 | unverified requests are refused; a verified request is denied iff its `user_id` form field is not the manager's |
| SlackRouter.UnverifiedNeverServed | app/routers/slack_router.py:38-187 | no command or events endpoint answers an unverified request with anything but 403, or 500 for an unparseable timestamp |

## Left out

- HTTP framework objects, async/await, logging, and database sessions and transactions. Each request is one sequential call. Concurrency between requests is not modelled.
- Reading the raw body, decoding bytes, and parsing the form. A request is given as a header map, a body string and a form map. Header-name case-insensitivity is not modelled: header keys are matched exactly.
- HMAC-SHA256 and hex encoding are an uninterpreted function parameter. `hmac.compare_digest` is modelled as string equality, so its constant-time behaviour is not expressed. A signature header with non-ASCII characters makes `compare_digest` raise TypeError (a 500); the model answers 403 instead.
- `int()`, `float()`, `str()` of a float or an exception, and `json.loads` are function parameters (`Runtime`).
  - Hours and totals are exact reals, so float rounding is not modelled.
  - The text of the rendered floats and exception messages is left open. Messages are modelled per exception kind only: in the source, `str(e)` of a KeyError names the missing key (`'hours_block_1'` or `'client_block_0'`), so two failures of one kind at different fields give different replies. The model gives them the same reply.
- `time.time()` is a real parameter, and `datetime.now()` is an integer count of local microseconds.
  - Time zones and `strftime` are an abstract `Calendar`.
  - The day of the month is constrained only by `ConsistentCalendar`.
- TimesheetService.EntryStore.WeeklyEntries: the source calls `datetime.now()` twice when computing the cutoff. The model reads the clock once, so a call that straddles midnight is not modelled.
- The store's `submission_date` column default is taken to be the insertion time. Every row of one submission carries the same `now`. app/models/timesheet.py is not part of this model.
- TimesheetService.EntryStore.CreateEntry: the insert cannot fail in the model. A `db.commit()` that raises during a submission (app/services/timesheet_service.py:28) would be caught at app/handlers/interaction_handler.py:307 like any other exception; that path is not modelled.
- TimesheetService.Select: the queries have no `order_by` (app/services/timesheet_service.py:37-39, 57-59, 75-78), so the database decides the row order. The model returns rows in insertion order, and the "input order" of `ReportShape` is that order. `TotalHoursPermutation` shows the total does not depend on it.
- TimesheetService.EntryStore.UserEntries: the default `days = 7` (app/services/timesheet_service.py:73) is not modelled; callers pass `days` explicitly.
- Column types: storing a value that is not a string in a text column is modelled as a TypeError at insert (`AsText`). The real column coercion is not part of this model.
- app/services/slack_service.py is modelled only through the three calls the handlers make (file lookup, DM, message update). Whether the platform answers is one fixed flag per client, and `post_message`, `get_channel_members`, `get_user_info` and `open_modal` are not part of this model.
- app/utils/scheduler.py (the cron reminder jobs) is not part of this model. Its `send_weekly_reminder` relies on a `slack_service` attribute whose creation is commented out at app/utils/scheduler.py:14.
- app/routers/slack_router_demo.py and the commented-out copies of `_handle_submit` (app/handlers/interaction_handler.py:72-237) are not modelled, because they are never executed.
- The JSON body of the `/events` endpoint is decoded from the raw body with the same `loadJson` parameter. The event's type is only logged, so the model checks only that reading it does not raise.
