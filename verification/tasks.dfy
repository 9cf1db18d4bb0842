/** The background analysis of api/tasks.py, as a later step applied to the report table.
    The detector's output on the stored image is a parameter: `None` when the detector is
    unavailable or fails, otherwise the labels it reported. */
module Tasks {
  import opened Wrappers
  import opened Models
  import opened AiService
  import opened Serializers
  import opened Permissions
  import opened ReportViews

  const ManualReviewRequired: string := "Manual Review Required"

  /** run_ai_analysis: no answer when the detector gave none, else the rule engine's answer. */
  function RunAiAnalysis(detection: Option<Labels>): (ai: Option<Analysis>)
    ensures ai.Some? <==> detection.Some?
    ensures ai.Some? ==> ai.value == DetermineClassificationAndSuggestion(detection.value)
    ensures ai.Some? && |detection.value| == 0 ==> ai.value.classification == Unclassified
    ensures ai.Some? && |detection.value| > 0 ==> ai.value.classification in detection.value
  {
    match detection
    case None => None
    case Some(labels) => Some(DetermineClassificationAndSuggestion(labels))
  }

  /** What the task does to one report row: nothing without an image; with one, the status
      becomes Received and the classification and suggestion are taken from the analysis, or,
      when there is none, the classification says a person must look (the suggestion stays). */
  function ApplyAnalysis(r: Report, ai: Option<Analysis>): (after: Report)
    ensures !HasImage(r) ==> after == r
    ensures HasImage(r) ==> after.status == Received
    ensures HasImage(r) && ai.Some? ==>
      after.aiClassification == Some(ai.value.classification) && after.aiSuggestion == Some(ai.value.suggestion)
    ensures HasImage(r) && ai.None? ==>
      after.aiClassification == Some(ManualReviewRequired) && after.aiSuggestion == r.aiSuggestion
    ensures ChangedFields(r, after) <= {StatusField, AiClassificationField, AiSuggestionField}
  {
    if !HasImage(r) then r
    else match ai
      case Some(a) => r.(aiClassification := Some(a.classification), aiSuggestion := Some(a.suggestion), status := Received)
      case None => r.(status := Received, aiClassification := Some(ManualReviewRequired))
  }

  /** analyze_report_image_task over the report table: the named report, when it has an image,
      becomes the analysis applied to it; no other report changes, and an id with no report
      leaves the table as it was. */
  function AnalyzeReportImageTask(reports: map<ReportId, Report>, id: ReportId, detection: Option<Labels>)
    : (after: map<ReportId, Report>)
    ensures after.Keys == reports.Keys
    ensures forall k :: k in reports && k != id ==> after[k] == reports[k]
    ensures id !in reports ==> after == reports
    ensures id in reports && !HasImage(reports[id]) ==> after == reports
    ensures id in reports && HasImage(reports[id]) ==>
      after[id] == ApplyAnalysis(reports[id], RunAiAnalysis(detection))
    ensures id in reports && HasImage(reports[id]) ==> after[id].status == Received
    ensures id in reports ==> after[id].aiPriority == reports[id].aiPriority
    ensures id in reports && HasImage(reports[id]) && detection.None? ==>
      after[id].aiClassification == Some(ManualReviewRequired)
  {
    if id !in reports then reports
    else
      var r := reports[id];
      if !HasImage(r) then reports
      else
        var after := ApplyAnalysis(r, RunAiAnalysis(detection));
        assert !(AiPriorityField in ChangedFields(r, after));
        reports[id := after]
  }

  /** Running the task twice on the same detector output changes nothing the first run did not. */
  lemma AnalysisIsIdempotent(reports: map<ReportId, Report>, id: ReportId, detection: Option<Labels>)
    ensures AnalyzeReportImageTask(AnalyzeReportImageTask(reports, id, detection), id, detection)
         == AnalyzeReportImageTask(reports, id, detection)
  {
    var once := AnalyzeReportImageTask(reports, id, detection);
    if id in reports && HasImage(reports[id]) {
      assert once[id].image == reports[id].image by {
        assert !(ImageField in ChangedFields(reports[id], once[id]));
      }
      assert once[id := ApplyAnalysis(once[id], RunAiAnalysis(detection))] == once;
    }
  }

  /** The view starts the task on the report it has just saved: a report filed with a photo is
      moved on to Received, and one filed without a photo stays in Pending Analysis, a status the
      workflow has no move out of. */
  lemma CreatedReportIsAnalysedIffPhotographed(u: Requester, input: ReportInput, id: ReportId, uploadId: string,
                                               now: Timestamp, reports: map<ReportId, Report>, detection: Option<Labels>)
    requires CreateReport(u, input, id, uploadId, now).ReportCreated?
    ensures input.image.GetOr(None).Some? ==>
      AnalyzeReportImageTask(reports[id := CreateReport(u, input, id, uploadId, now).report], id, detection)[id].status
        == Received
    ensures input.image.GetOr(None).None? ==>
      AnalyzeReportImageTask(reports[id := CreateReport(u, input, id, uploadId, now).report], id, detection)[id].status
        == PendingAnalysis
  {
  }
}
