/** The rule evaluator (`compute_results`): resolve the changed report, test
    applicability, and either emit one task and report satisfied, or emit
    nothing and report not applicable. */
module LabReportProtocol {
  import opened LabDomain
  import opened CareTeam
  import opened LabReports
  import opened TaskRequests

  /** One evaluation of the rule for a patient, a field-change record and the
      evaluation time `now`. */
  function Evaluate(patient: Patient, fc: FieldChanges, now: int): (r: Result<Evaluation>)
    ensures r.Err? <==> LacksCanvasId(fc)
    ensures r.Ok? ==> |r.value.updates| <= 1
    ensures r.Ok? ==> (r.value.result.status == Satisfied <==> |r.value.updates| == 1)
    ensures r.Ok? ==> (r.value.result.status == Satisfied <==> IsAssignedToCanvasSupport(patient, fc) == Ok(true))
    ensures r.Ok? && r.value.result.status == Satisfied ==>
      r.value.result.narratives == [NARRATIVE_TASK_CREATED]
    ensures r.Ok? && r.value.result.status == NotApplicable ==>
      r.value.result.narratives == [NARRATIVE_NOT_APPLICABLE]
    ensures r.Ok? && r.value.result.status == Satisfied ==>
      && var t := r.value.updates[0];
      && t.patientKey == patient.key
      && t.createdByKey == CANVAS_BOT_KEY
      && t.status == OPEN_STATUS
      && t.labels == ["Urgent"]
      && t.created == now
      && t.due == now + SECONDS_PER_WEEK
      && t.assigneeIdentifier == Assignee(patient.careTeam)
      && t.title == TaskTitle(fc.fields[CANVAS_ID_FIELD])
  {
    var applicable :- IsAssignedToCanvasSupport(patient, fc);
    if applicable then
      // Applicability implies a `canvas_id`, so building the task cannot fault.
      var task := CreateTask(patient, fc, now).Extract();
      Ok(Evaluation(ProtocolResult(Satisfied, [NARRATIVE_TASK_CREATED]), [task]))
    else
      Ok(Evaluation(ProtocolResult(NotApplicable, [NARRATIVE_NOT_APPLICABLE]), []))
  }

  /** The outcome of an evaluation that creates no task. */
  const NoTask: Evaluation := Evaluation(ProtocolResult(NotApplicable, [NARRATIVE_NOT_APPLICABLE]), [])

  /** Without a (non-empty) field-change record there is no report, hence no task. */
  lemma AbsentChangeCreatesNoTask(patient: Patient, fc: FieldChanges, now: int)
    requires !Truthy(fc)
    ensures Evaluate(patient, fc, now) == Ok(NoTask)
  {
  }

  /** A change naming an id that no report of the patient carries creates no task. */
  lemma UnknownReportCreatesNoTask(patient: Patient, fc: FieldChanges, now: int)
    requires Truthy(fc) && CANVAS_ID_FIELD in fc.fields
    requires forall j :: 0 <= j < |patient.labReports| ==> patient.labReports[j].id != fc.fields[CANVAS_ID_FIELD]
    ensures Evaluate(patient, fc, now) == Ok(NoTask)
  {
  }

  /** A report whose reviewers do not include the support key creates no task. */
  lemma ClinicianReviewedReportCreatesNoTask(patient: Patient, fc: FieldChanges, now: int, i: int)
    requires Truthy(fc) && CANVAS_ID_FIELD in fc.fields
    requires IsLastWithId(patient.labReports, fc.fields[CANVAS_ID_FIELD], i)
    requires forall k :: 0 <= k < |patient.labReports[i].reviewers| ==>
      patient.labReports[i].reviewers[k].key != CANVAS_SUPPORT_KEY
    ensures Evaluate(patient, fc, now) == Ok(NoTask)
  {
  }

  /** A support-routed report whose first qualifying care-team member has a
      non-empty staff key: exactly one task, assigned to that member. */
  lemma SupportReportAssignsFirstHolder(patient: Patient, fc: FieldChanges, now: int, i: int, k: int, m: int)
    requires Truthy(fc) && CANVAS_ID_FIELD in fc.fields
    requires IsLastWithId(patient.labReports, fc.fields[CANVAS_ID_FIELD], i)
    requires 0 <= k < |patient.labReports[i].reviewers|
    requires patient.labReports[i].reviewers[k].key == CANVAS_SUPPORT_KEY
    requires IsFirstHolder(patient.careTeam, m) && patient.careTeam[m].staff.key != ""
    ensures Evaluate(patient, fc, now).Ok?
    ensures Evaluate(patient, fc, now).value.result.status == Satisfied
    ensures |Evaluate(patient, fc, now).value.updates| == 1
    ensures Evaluate(patient, fc, now).value.updates[0].assigneeIdentifier == patient.careTeam[m].staff.key
  {
  }

  /** A support-routed report and nobody holding the role: exactly one task,
      assigned to the fallback key, which is also its creator. */
  lemma SupportReportFallsBack(patient: Patient, fc: FieldChanges, now: int, i: int, k: int)
    requires Truthy(fc) && CANVAS_ID_FIELD in fc.fields
    requires IsLastWithId(patient.labReports, fc.fields[CANVAS_ID_FIELD], i)
    requires 0 <= k < |patient.labReports[i].reviewers|
    requires patient.labReports[i].reviewers[k].key == CANVAS_SUPPORT_KEY
    requires forall j :: 0 <= j < |patient.careTeam| ==> !HoldsRole(patient.careTeam[j])
    ensures Evaluate(patient, fc, now).Ok?
    ensures Evaluate(patient, fc, now).value.result.status == Satisfied
    ensures |Evaluate(patient, fc, now).value.updates| == 1
    ensures Evaluate(patient, fc, now).value.updates[0].assigneeIdentifier == FALLBACK_STAFF_KEY
    ensures Evaluate(patient, fc, now).value.updates[0].createdByKey == FALLBACK_STAFF_KEY
  {
  }

  /** The emitted task names the report that triggered it: its title carries
      the id of the resolved report (distinct ids give distinct titles, by
      `TitleInjective`). */
  lemma TaskTitleNamesResolvedReport(patient: Patient, fc: FieldChanges, now: int)
    requires Truthy(fc) && CANVAS_ID_FIELD in fc.fields
    ensures Evaluate(patient, fc, now).Ok?
    ensures Evaluate(patient, fc, now).value.updates != [] ==>
      && GetLabReport(patient.labReports, fc).value.Some?
      && TaskTitle(GetLabReport(patient.labReports, fc).value.value.id) == Evaluate(patient, fc, now).value.updates[0].title
  {
  }
}
