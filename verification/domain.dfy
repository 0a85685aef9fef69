/** Configuration constants and value types of the lab-report routing rule.
    Everything the host platform hands to the rule (patient, care team, lab
    reports, the field-change record) and everything the rule hands back (the
    task request and the protocol result) is an immutable value here. */
module LabDomain {

  /** Staff member who receives the task when no care-team member qualifies. */
  const FALLBACK_STAFF_KEY: string := "5eede137ecfe4124b8b773040e33be14"
  /** Reviewer key that marks a report as routed to the generic support queue. */
  const CANVAS_SUPPORT_KEY: string := "4150cd20de8a470aa570a852859ac87e"
  const ROLE_DISPLAY: string := "Central Primary Care Practitioner"
  const ROLE_CODE: string := "central_primary_care_practitioner"
  const TASK_LABELS: seq<string> := ["Urgent"]
  /** The automation identity recorded as the creator of every task. */
  const CANVAS_BOT_KEY: string := "5eede137ecfe4124b8b773040e33be14"

  /** Key of the field-change record that names the changed report. */
  const CANVAS_ID_FIELD: string := "canvas_id"
  const OPEN_STATUS: string := "OPEN"
  /** One week, the due-date offset, with time measured in seconds. */
  const SECONDS_PER_WEEK: int := 604800

  const NARRATIVE_TASK_CREATED: string := "Task created"
  const NARRATIVE_NOT_APPLICABLE: string := "Report not assigned to Canvas Support, no task created."

  datatype Option<T> = None | Some(value: T)

  /** The one fault the rule can raise: a non-empty field-change record
      without a `canvas_id` entry (a KeyError in the host). */
  datatype Fault = MissingCanvasId

  /** Either a value or the fault that stopped the evaluation; failure-compatible,
      so a caller propagates the fault with `:-`. */
  datatype Result<T> = Ok(value: T) | Err(fault: Fault) {

    predicate IsFailure() {
      Err?
    }

    function PropagateFailure<U>(): Result<U>
      requires Err?
    {
      Err(fault)
    }

    function Extract(): T
      requires Ok?
    {
      value
    }
  }

  datatype Role = Role(code: string, display: string)
  datatype Staff = Staff(key: string)
  datatype CareTeamMembership = CareTeamMembership(role: Role, staff: Staff)

  datatype Reviewer = Reviewer(key: string)
  /** A lab report; `id` is the record's `report` entry, the value the host
      query filters on. */
  datatype LabReport = LabReport(id: string, reviewers: seq<Reviewer>)

  /** Read-only patient context: identity, care team in host order, and the
      lab reports in host order. */
  datatype Patient = Patient(key: string, careTeam: seq<CareTeamMembership>, labReports: seq<LabReport>)

  /** The host's diff describing what changed; it may be missing altogether. */
  datatype FieldChanges = Absent | Present(fields: map<string, string>)

  /** Python truthiness of the field-change record: present and non-empty. */
  predicate Truthy(fc: FieldChanges) {
    fc.Present? && fc.fields != map[]
  }

  /** True when reading `canvas_id` from the record would raise. */
  predicate LacksCanvasId(fc: FieldChanges) {
    Truthy(fc) && CANVAS_ID_FIELD !in fc.fields
  }

  /** The outbound task-creation payload; times are seconds on the host clock. */
  datatype TaskRequest = TaskRequest(
    patientKey: string,
    createdByKey: string,
    status: string,
    title: string,
    assigneeIdentifier: string,
    due: int,
    created: int,
    labels: seq<string>)

  datatype Status = Satisfied | NotApplicable

  /** The protocol result: a status and the narratives added to it in order. */
  datatype ProtocolResult = ProtocolResult(status: Status, narratives: seq<string>)

  /** Everything one evaluation produces: the result and the updates handed to
      the host's side channel. */
  datatype Evaluation = Evaluation(result: ProtocolResult, updates: seq<TaskRequest>)
}
