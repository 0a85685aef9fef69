# Lab-report task routing rule, modelled in Dafny

This project models the `LabReportTasks` protocol: a clinical-workflow rule that
runs when one of a patient's lab reports changes. It resolves the changed
report from the host's field-change record. It checks whether the report's
reviewers include the generic Canvas Support reviewer. If they do, it builds
one follow-up task for the first care-team member holding the "Central Primary
Care Practitioner" role, or for a fallback staff key, and reports *satisfied*.
Otherwise it reports *not applicable* and emits nothing.

All host data is immutable values:

- the patient, with its key, care-team memberships and lab reports in host order;
- the field-change record: `Absent`, or `Present` with a string map;
- the task request;
- the protocol result.

Every step is a pure function. Time is an integer number of seconds passed in
as `now`.

Modules:

- `LabDomain` (`domain.dfy`): the module constants and the datatypes.
- `CareTeam` (`care_team.dfy`): assignee selection and the fallback.
- `LabReports` (`lab_reports.dfy`): report resolution and the applicability test.
- `TaskRequests` (`task_requests.dfy`): the task title and the task request.
- `LabReportProtocol` (`protocol.dfy`): the evaluation and the behaviour of each branch.

The satisfied-branch narrative is `Task created`, with no final period
(protocols/LabReportAssignmentTask.py:90).

A lab report's `id` here is the record's `report` entry, the value the host
query `filter(report=...)` matches (protocols/LabReportAssignmentTask.py:72).

## Model

| member | source | states |
|---|---|---|
| CareTeam.FirstHolderIndex | protocols/LabReportAssignmentTask.py:42-47 | It finds the position of the first member whose role code AND role display both match. It returns none exactly when no member matches both. |
| CareTeam.AppropriateMember | protocols/LabReportAssignmentTask.py:38-47 | It returns the staff key of the first member in care-team order that holds the role. It returns None exactly when no member holds it. |
| CareTeam.Assignee | protocols/LabReportAssignmentTask.py:53 | The assignee is the first holder's key when that key is non-empty. It is the fallback key when nobody holds the role or the holder's key is empty. It is never empty. |
| CareTeam.FallbackAssigneeIsCreator | protocols/LabReportAssignmentTask.py:14-19 | When no member holds the role, the assignee equals the bot key that creates the task. |
| CareTeam.NonHolderIsSkipped | protocols/LabReportAssignmentTask.py:43-46 | A member in front who does not match both fields, a partial match included, never changes the selection. |
| CareTeam.EarliestHolderWins | protocols/LabReportAssignmentTask.py:43-46 | Once some member qualifies, members appended after it never displace it. |
| LabReports.LastIndexWithId | protocols/LabReportAssignmentTask.py:72 | It finds the position of the last report with the given id, with no later report carrying that id. It returns none exactly when no report has the id. |
| LabReports.LastWithId | protocols/LabReportAssignmentTask.py:72 | `filter(report=id).last()` returns the last report with that id. It returns None exactly when no report carries the id. |
| LabReports.GetLabReport | protocols/LabReportAssignmentTask.py:68-74 | An absent or empty record gives no report. A non-empty record without `canvas_id` is a fault. Otherwise the result is the last report whose id is the record's `canvas_id`, and it is none exactly when no report has that id. |
| LabReports.AnyReviewerHasKey | protocols/LabReportAssignmentTask.py:80 | `any(...)` over the reviewers is true exactly when some reviewer carries the key. |
| LabReports.RoutedToSupport | protocols/LabReportAssignmentTask.py:79-83 | A report is routed to support exactly when it exists and some reviewer is the support key. No report means false. |
| LabReports.IsAssignedToCanvasSupport | protocols/LabReportAssignmentTask.py:76-83 | It faults exactly when `canvas_id` is missing from a non-empty record. It is false without a record. It is true exactly when the last report with the record's id has the support reviewer. |
| LabReports.LatestReportWins | protocols/LabReportAssignmentTask.py:72 | A report appended later with the same id supersedes every earlier report with that id. |
| LabReports.OtherReportIgnored | protocols/LabReportAssignmentTask.py:72 | Appending a report with a different id leaves the resolution unchanged. |
| TaskRequests.TaskTitle | protocols/LabReportAssignmentTask.py:55 | The title is the fixed prefix, then exactly the report id, then the fixed suffix. |
| TaskRequests.ReportIdOfTitle | protocols/LabReportAssignmentTask.py:55 | Parsing a title gives back an id whose title is that string. It gives none exactly when no id produces the string. |
| TaskRequests.TitleRoundTrip | protocols/LabReportAssignmentTask.py:55 | The report id can always be recovered from its task title. |
| TaskRequests.TitleInjective | protocols/LabReportAssignmentTask.py:55 | Distinct report ids never produce the same title. |
| TaskRequests.TitleReportId | protocols/LabReportAssignmentTask.py:54 | The title id is the record's `canvas_id`. It is the empty string for an absent or empty record. It is a fault for a non-empty record without `canvas_id`. |
| TaskRequests.CreateTask | protocols/LabReportAssignmentTask.py:49-66 | The task has status `OPEN`, the bot as creator, labels exactly `["Urgent"]` and the patient's key. It is created at `now` and due one week later. It is assigned to `Assignee` of the care team, and its title is exactly the title built from the record's id. It faults only on a missing `canvas_id`. |
| LabReportProtocol.Evaluate | protocols/LabReportAssignmentTask.py:85-94 | At most one task is emitted, and status is satisfied exactly when one is. Satisfied holds exactly when the applicability test is true. Each branch carries its fixed narrative. The one task has the fields above, and its title is exactly the title of the record's `canvas_id`. |
| LabReportProtocol.AbsentChangeCreatesNoTask | protocols/LabReportAssignmentTask.py:70-74 | With no field-change record, or an empty one, the result is not applicable with no task. |
| LabReportProtocol.UnknownReportCreatesNoTask | protocols/LabReportAssignmentTask.py:68-94 | When no report carries the changed id, the result is not applicable with no task. |
| LabReportProtocol.ClinicianReviewedReportCreatesNoTask | protocols/LabReportAssignmentTask.py:76-94 | When the resolved report has no support reviewer, the result is not applicable with no task. |
| LabReportProtocol.SupportReportAssignsFirstHolder | protocols/LabReportAssignmentTask.py:38-94 | A support-routed report with a first qualifying member whose staff key is non-empty gives satisfied and exactly one task, assigned to that member's key. An empty first-holder key falls back instead (see `CareTeam.Assignee`). |
| LabReportProtocol.SupportReportFallsBack | protocols/LabReportAssignmentTask.py:49-94 | A support-routed report with no qualifying member gives satisfied and exactly one task. That task is assigned to the fallback key, which is also its creator. |
| LabReportProtocol.TaskTitleNamesResolvedReport | protocols/LabReportAssignmentTask.py:54-72 | For a non-empty record with `canvas_id`, evaluation never faults. Whenever it emits a task, a report was resolved, and the task title is exactly the title of that report's id. |

## Left out

- Host framework: the `ClinicalQualityMeasure` base class, the `Meta` metadata and the change-type trigger are out of the model. They are host configuration with no decision logic.
- Host calls: the internals of `ProtocolResult.add_narrative` and `set_updates` are out of the model. The result is a status plus the list of narratives added. The updates are the list handed back in `Evaluation`.
- `create_task_payload`: this is a host builder, modelled as the `TaskRequest` record constructor with the same fields.
- Time arithmetic: `arrow` date arithmetic and ISO-8601 formatting are out of the model. Time is integer seconds, and one week is 604800 seconds. `arrow.now()` is local time and `shift(weeks=1)` adds calendar time, so across a daylight-saving change the real gap is 604800 ± 3600 elapsed seconds.
- Clock reads: the source reads the clock twice, once for `due` and once for `created`. The model reads it once, as `now`, so "due is exactly one week after created" holds only under that single reading.
- Report order: the model does not cover the host query's ordering. Sequence order stands in for host order, both for `last()` over lab reports and for the first-match scan of the care team.
- Missing dictionary keys: host records missing `careTeamMemberships`, `role`, `code`, `display`, `staff`, `key` or `reviewers` are not modelled. Every record here has typed fields. Only the missing `canvas_id` entry is modelled, as the `MissingCanvasId` fault.
- Report truthiness: an empty lab-report dictionary would be falsy in Python, but it cannot reach the check at protocols/LabReportAssignmentTask.py:81-82. A report returned by `filter(report=report_id).last()` (:72) contains its `report` entry, so it is a non-empty dictionary, and that branch only ever sees `None`.
- Field-change values: `canvas_id` and each report's `report` entry are strings compared with string equality. A non-string value could change the title's formatting, and also whether `filter(report=...)` at protocols/LabReportAssignmentTask.py:72 matches, since in Python `5 != '5'`. Neither effect is modelled.
- Purity: "evaluation never modifies the patient, care team or reports" has no contract. Every input is an immutable value, and the only outputs are the returned `Evaluation` and its at most one update, so it holds by construction.
