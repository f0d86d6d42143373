/** The report-generation stage (backend/agents/alert_generator.py): the
    structured-extraction port turns the message history into an
    `IncidentReport`; the node stores it, derives the one-line action plan
    and appends a completion message, or builds a fixed fallback report when
    the port fails. */
module AlertGenerator {
  import opened Wrappers
  import opened Text
  import opened IncidentState

  /** The tag the notification text starts with on the fallback path. */
  const MmsTag: string := "[SKT 장애알림]"

  const FallbackActionPlan: string := "분석 실패 (수동 점검 필요)"

  const FailureMessage: string := "리포트 생성 중 오류 발생"

  const CompletionPrefix: string := "최종 리포트 생성 완료: "

  /** The fallback notification text: the tag, a fixed notice and the error. */
  function FallbackMms(error: string): string
  {
    MmsTag + " 분석 실패. 수동 점검 요망. (" + error + ")"
  }

  /** The report synthesised when extraction fails. */
  function FallbackReport(error: string): IncidentReport
  {
    IncidentReport("Unknown", "Unknown", "Analysis Failed", ["Manual Check Required"], FallbackMms(error), "N/A")
  }

  /** The fallback report: severity and location "Unknown", root cause
      "Analysis Failed", the single action item "Manual Check Required",
      evidence "N/A", and a notification text that starts with the tag and
      carries the error. */
  lemma FallbackReportSpec(error: string)
    ensures var r := FallbackReport(error);
      && r.severity == "Unknown" && r.location == "Unknown"
      && r.rootCause == "Analysis Failed"
      && r.actionItems == ["Manual Check Required"]
      && r.evidence == "N/A"
      && StartsWith(r.mmsText, MmsTag) && Contains(r.mmsText, error)
  {
    ContainsMiddle(MmsTag + " 분석 실패. 수동 점검 요망. (", error, ")");
  }

  /** `f"[{severity}] {location} - {root_cause}\n조치: {', '.join(action_items)}"`. */
  function ActionPlan(report: IncidentReport): string
  {
    "[" + report.severity + "] " + report.location + " - " + report.rootCause + "\n조치: "
      + Join(report.actionItems, ", ")
  }

  /** The plan opens with the bracketed severity and mentions the location,
      the root cause and every action item. */
  lemma {:induction false} ActionPlanMentions(report: IncidentReport)
    ensures StartsWith(ActionPlan(report), "[" + report.severity + "] ")
    ensures Contains(ActionPlan(report), report.location)
    ensures Contains(ActionPlan(report), report.rootCause)
    ensures forall k :: 0 <= k < |report.actionItems| ==>
      Contains(ActionPlan(report), report.actionItems[k])
  {
    var head := "[" + report.severity + "] ";
    var joined := Join(report.actionItems, ", ");
    var tail := " - " + report.rootCause + "\n조치: " + joined;
    assert ActionPlan(report) == head + report.location + tail;
    ContainsMiddle(head, report.location, tail);
    var front := head + report.location + " - ";
    assert ActionPlan(report) == front + report.rootCause + ("\n조치: " + joined);
    ContainsMiddle(front, report.rootCause, "\n조치: " + joined);
    var body := front + report.rootCause + "\n조치: ";
    assert ActionPlan(report) == body + joined;
    forall k | 0 <= k < |report.actionItems|
      ensures Contains(ActionPlan(report), report.actionItems[k])
    {
      JoinContainsEach(report.actionItems, ", ", k);
      ContainsInConcat(body, joined, report.actionItems[k]);
    }
  }

  /** `alert_generation_node`: asks the extraction port for a report over
      the whole history and stores it, or the fallback report on failure. */
  function AlertGenerationNode(s: State, extract: seq<Message> -> Result<IncidentReport, string>): (u: Update)
    ensures |u.messages| == 1 && u.toolSteps.None?
    ensures u.structuredReport.Some? && u.finalActionPlan.Some? && u.incidentSeverity.Some?
  {
    match extract(s.messages)
    case Success(report) =>
      Update([Human(CompletionPrefix + report.mmsText)], None,
        Some(report), Some(ActionPlan(report)), Some(report.severity))
    case Failure(e) =>
      Update([Human(FailureMessage)], None,
        Some(FallbackReport(e)), Some(FallbackActionPlan), Some("Unknown"))
  }

  /** On both paths the report, the plan and the severity are written and
      exactly one message is appended; on success they come from the
      extracted report and the message carries its notification text, on
      failure they are the fallback report, the fixed plan and "Unknown". */
  lemma AlertGenerationNodeSpec(s: State, extract: seq<Message> -> Result<IncidentReport, string>)
    ensures var u := AlertGenerationNode(s, extract);
      && |u.messages| == 1 && u.messages[0].Human? && u.toolSteps.None?
      && u.structuredReport.Some? && u.finalActionPlan.Some? && u.incidentSeverity.Some?
    ensures var u := AlertGenerationNode(s, extract);
      extract(s.messages).Success? ==>
      var report := extract(s.messages).value;
      && u.structuredReport == Some(report)
      && u.incidentSeverity == Some(report.severity)
      && u.finalActionPlan == Some(ActionPlan(report))
      && u.messages[0].content == CompletionPrefix + report.mmsText
    ensures var u := AlertGenerationNode(s, extract);
      extract(s.messages).Failure? ==>
      var e := extract(s.messages).error;
      && u.structuredReport == Some(FallbackReport(e))
      && u.incidentSeverity == Some("Unknown")
      && u.finalActionPlan == Some(FallbackActionPlan)
      && u.messages[0].content == FailureMessage
      && StartsWith(FallbackReport(e).mmsText, MmsTag) && Contains(FallbackReport(e).mmsText, e)
  {
    if extract(s.messages).Failure? {
      FallbackReportSpec(extract(s.messages).error);
    }
  }

  /** The fallback notification is not held to the 80-character budget the
      prompt asks for: a long enough error text pushes it past it. */
  lemma FallbackMmsUnbounded(error: string)
    requires |error| > 80
    ensures |FallbackReport(error).mmsText| > 80
  {
  }
}
