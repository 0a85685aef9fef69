/** Building the follow-up task request (`create_task`). */
module TaskRequests {
  import opened LabDomain
  import opened CareTeam

  const TITLE_PREFIX: string := "Lab Report "
  const TITLE_SUFFIX: string := " assigned to Canvas Support."

  /** The task title embedding the report id. */
  function TaskTitle(reportId: string): (t: string)
    ensures |t| == |TITLE_PREFIX| + |reportId| + |TITLE_SUFFIX|
    ensures t[..|TITLE_PREFIX|] == TITLE_PREFIX
    ensures t[|TITLE_PREFIX|..|TITLE_PREFIX| + |reportId|] == reportId
    ensures t[|TITLE_PREFIX| + |reportId|..] == TITLE_SUFFIX
  {
    TITLE_PREFIX + reportId + TITLE_SUFFIX
  }

  /** Recovers the report id from a task title; None for any string that is
      not shaped like a task title. */
  function ReportIdOfTitle(title: string): (r: Option<string>)
    ensures r.Some? ==> TaskTitle(r.value) == title
    ensures r.None? ==> forall id :: TaskTitle(id) != title
  {
    if |title| >= |TITLE_PREFIX| + |TITLE_SUFFIX|
       && title[..|TITLE_PREFIX|] == TITLE_PREFIX
       && title[|title| - |TITLE_SUFFIX|..] == TITLE_SUFFIX
    then
      var id := title[|TITLE_PREFIX|..|title| - |TITLE_SUFFIX|];
      assert TITLE_PREFIX + id + TITLE_SUFFIX == title by {
        assert title == title[..|TITLE_PREFIX|] + title[|TITLE_PREFIX|..|title| - |TITLE_SUFFIX|] + title[|title| - |TITLE_SUFFIX|..];
      }
      Some(id)
    else None
  }

  /** Every title names its report id, and ReportIdOfTitle reads it back. */
  lemma TitleRoundTrip(reportId: string)
    ensures ReportIdOfTitle(TaskTitle(reportId)) == Some(reportId)
  {
  }

  /** Distinct reports never share a task title. */
  lemma TitleInjective(a: string, b: string)
    requires TaskTitle(a) == TaskTitle(b)
    ensures a == b
  {
  }

  /** The report id used in the title: the record's `canvas_id`, the empty
      string when the record is absent or empty, a fault when it is
      non-empty without `canvas_id`. */
  function TitleReportId(fc: FieldChanges): (r: Result<string>)
    ensures r.Err? <==> LacksCanvasId(fc)
    ensures !Truthy(fc) ==> r == Ok("")
    ensures Truthy(fc) && CANVAS_ID_FIELD in fc.fields ==> r == Ok(fc.fields[CANVAS_ID_FIELD])
  {
    if Truthy(fc) then
      if CANVAS_ID_FIELD in fc.fields then Ok(fc.fields[CANVAS_ID_FIELD]) else Err(MissingCanvasId)
    else Ok("")
  }

  /** The single task request, with the clock read once as `now`. */
  function CreateTask(patient: Patient, fc: FieldChanges, now: int): (r: Result<TaskRequest>)
    ensures r.Err? <==> LacksCanvasId(fc)
    ensures r.Ok? ==>
      && r.value.patientKey == patient.key
      && r.value.createdByKey == CANVAS_BOT_KEY
      && r.value.status == OPEN_STATUS
      && r.value.labels == ["Urgent"]
      && r.value.created == now
      && r.value.due == r.value.created + SECONDS_PER_WEEK
      && r.value.assigneeIdentifier == Assignee(patient.careTeam)
      && r.value.assigneeIdentifier != ""
      && TitleReportId(fc).Ok?
      && r.value.title == TaskTitle(TitleReportId(fc).value)
  {
    var reportId :- TitleReportId(fc);
    Ok(TaskRequest(
      patientKey := patient.key,
      createdByKey := CANVAS_BOT_KEY,
      status := OPEN_STATUS,
      title := TaskTitle(reportId),
      assigneeIdentifier := Assignee(patient.careTeam),
      due := now + SECONDS_PER_WEEK,
      created := now,
      labels := TASK_LABELS))
  }
}
