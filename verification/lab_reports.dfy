/** Resolving the changed lab report (`get_lab_report`) and deciding whether
    it was routed to the support reviewer (`is_assigned_to_canvas_support`). */
module LabReports {
  import opened LabDomain

  /** `i` is the position of the last report whose id is `id`. */
  ghost predicate IsLastWithId(reports: seq<LabReport>, id: string, i: int) {
    && 0 <= i < |reports|
    && reports[i].id == id
    && forall j :: i < j < |reports| ==> reports[j].id != id
  }

  /** Position of the last report with the given id, scanning back to front. */
  function LastIndexWithId(reports: seq<LabReport>, id: string): (r: Option<nat>)
    ensures r.Some? ==> IsLastWithId(reports, id, r.value)
    ensures r.None? ==> forall j :: 0 <= j < |reports| ==> reports[j].id != id
  {
    if |reports| == 0 then None
    else if reports[|reports| - 1].id == id then Some(|reports| - 1)
    else LastIndexWithId(reports[..|reports| - 1], id)
  }

  /** The host's `filter(report=id).last()`: the last report with that id. */
  function LastWithId(reports: seq<LabReport>, id: string): (r: Option<LabReport>)
    ensures r.None? <==> forall j :: 0 <= j < |reports| ==> reports[j].id != id
    ensures forall i :: IsLastWithId(reports, id, i) ==> r == Some(reports[i])
  {
    match LastIndexWithId(reports, id)
    case Some(i) => Some(reports[i])
    case None => None
  }

  /** The report that triggered the evaluation. No report when the
      field-change record is absent or empty; a fault when it is non-empty
      but has no `canvas_id`. */
  function GetLabReport(reports: seq<LabReport>, fc: FieldChanges): (r: Result<Option<LabReport>>)
    ensures r.Err? <==> LacksCanvasId(fc)
    ensures !Truthy(fc) ==> r == Ok(None)
    ensures Truthy(fc) && CANVAS_ID_FIELD in fc.fields ==>
      r.Ok? && (r.value.None? <==> forall j :: 0 <= j < |reports| ==> reports[j].id != fc.fields[CANVAS_ID_FIELD])
    ensures Truthy(fc) && CANVAS_ID_FIELD in fc.fields ==>
      forall i :: IsLastWithId(reports, fc.fields[CANVAS_ID_FIELD], i) ==> r == Ok(Some(reports[i]))
  {
    if Truthy(fc) then
      if CANVAS_ID_FIELD in fc.fields then Ok(LastWithId(reports, fc.fields[CANVAS_ID_FIELD]))
      else Err(MissingCanvasId)
    else Ok(None)
  }

  /** Python's `any(reviewer['key'] == key for reviewer in reviewers)`. */
  function AnyReviewerHasKey(reviewers: seq<Reviewer>, key: string): (b: bool)
    ensures b <==> exists i :: 0 <= i < |reviewers| && reviewers[i].key == key
  {
    if |reviewers| == 0 then false
    else reviewers[0].key == key || AnyReviewerHasKey(reviewers[1..], key)
  }

  /** A resolved report is routed to support when one of its reviewers is the
      support key; no report is never routed to support. */
  function RoutedToSupport(report: Option<LabReport>): (b: bool)
    ensures b <==> report.Some? && exists i :: 0 <= i < |report.value.reviewers| && report.value.reviewers[i].key == CANVAS_SUPPORT_KEY
  {
    match report
    case Some(rep) => AnyReviewerHasKey(rep.reviewers, CANVAS_SUPPORT_KEY)
    case None => false
  }

  /** The applicability test of the rule. */
  function IsAssignedToCanvasSupport(patient: Patient, fc: FieldChanges): (r: Result<bool>)
    ensures r.Err? <==> LacksCanvasId(fc)
    ensures !Truthy(fc) ==> r == Ok(false)
    ensures r.Ok? && r.value ==> Truthy(fc) && CANVAS_ID_FIELD in fc.fields
    ensures Truthy(fc) && CANVAS_ID_FIELD in fc.fields ==>
      (r == Ok(true) <==>
        exists i :: IsLastWithId(patient.labReports, fc.fields[CANVAS_ID_FIELD], i)
          && RoutedToSupport(Some(patient.labReports[i])))
  {
    var report :- GetLabReport(patient.labReports, fc);
    Ok(RoutedToSupport(report))
  }

  /** A report appended later with the same id supersedes every earlier one. */
  lemma LatestReportWins(reports: seq<LabReport>, rep: LabReport)
    ensures LastWithId(reports + [rep], rep.id) == Some(rep)
  {
  }

  /** Appending a report with a different id leaves the resolution unchanged. */
  lemma OtherReportIgnored(reports: seq<LabReport>, rep: LabReport, id: string)
    requires rep.id != id
    ensures LastWithId(reports + [rep], id) == LastWithId(reports, id)
  {
  }
}
