/** The triage stage (backend/agents/triage_router.py): a node that asks the
    structured-extraction port to classify the raw log, and the keyword
    router that decides whether the run goes on to diagnosis. */
module TriageRouter {
  import opened Wrappers
  import opened Text
  import opened IncidentState

  /** The triage schema; `isIncident` is produced but read by nobody. */
  datatype TriageResult = TriageResult(isIncident: bool, category: string, reason: string)

  /** `state.get("raw_log", "")`. */
  function LogOf(s: State): string
  {
    if s.rawLog.Some? then s.rawLog.value else ""
  }

  /** The human turn the extraction port receives after the system prompt. */
  function TriagePrompt(s: State): string
  {
    "Log: " + LogOf(s)
  }

  function RouterMessage(t: TriageResult): string
  {
    "[Router] 분석결과: " + t.category + " (" + t.reason + ")"
  }

  function RouterErrorMessage(error: string): string
  {
    "[Router Error] " + error + ". Defaulting to Incident."
  }

  /** `triage_log_node`: one message is always appended; on success it
      carries the category and reason and the provisional severity "Unknown"
      is set, on failure it carries the error. */
  function TriageLogNode(s: State, extract: string -> Result<TriageResult, string>): (u: Update)
    ensures |u.messages| == 1
  {
    match extract(TriagePrompt(s))
    case Success(t) =>
      Update([Human(RouterMessage(t))], None, None, None, Some("Unknown"))
    case Failure(e) =>
      Update([Human(RouterErrorMessage(e))], None, None, None, None)
  }

  /** What the triage node writes: exactly one human message, never the
      report keys or `tool_steps`; on success the message reports the
      category and reason and the severity is set to "Unknown"; on failure
      the message carries the error and ends with the escalation notice, and
      the severity is left unset. */
  lemma TriageLogNodeSpec(s: State, extract: string -> Result<TriageResult, string>)
    ensures var u := TriageLogNode(s, extract);
      && |u.messages| == 1 && u.messages[0].Human?
      && u.toolSteps.None? && u.structuredReport.None? && u.finalActionPlan.None?
    ensures var u := TriageLogNode(s, extract);
      extract(TriagePrompt(s)).Success? ==>
      var t := extract(TriagePrompt(s)).value;
      && u.incidentSeverity == Some("Unknown")
      && StartsWith(u.messages[0].content, "[Router] 분석결과: ")
      && Contains(u.messages[0].content, t.category)
      && Contains(u.messages[0].content, t.reason)
    ensures var u := TriageLogNode(s, extract);
      extract(TriagePrompt(s)).Failure? ==>
      && u.incidentSeverity.None?
      && Contains(u.messages[0].content, extract(TriagePrompt(s)).error)
      && EndsWith(u.messages[0].content, "Defaulting to Incident.")
  {
    match extract(TriagePrompt(s))
    case Success(t) => RouterMessageMentions(t);
    case Failure(e) => RouterErrorMessageMentions(e);
  }

  lemma RouterMessageMentions(t: TriageResult)
    ensures StartsWith(RouterMessage(t), "[Router] 분석결과: ")
    ensures Contains(RouterMessage(t), t.category) && Contains(RouterMessage(t), t.reason)
  {
    var head := "[Router] 분석결과: ";
    assert RouterMessage(t) == head + t.category + (" (" + t.reason + ")");
    ContainsMiddle(head, t.category, " (" + t.reason + ")");
    assert RouterMessage(t) == (head + t.category + " (") + t.reason + ")";
    ContainsMiddle(head + t.category + " (", t.reason, ")");
  }

  lemma RouterErrorMessageMentions(e: string)
    ensures Contains(RouterErrorMessage(e), e)
    ensures EndsWith(RouterErrorMessage(e), "Defaulting to Incident.")
  {
    ContainsMiddle("[Router Error] ", e, ". Defaulting to Incident.");
  }

  /** The keywords that send a log to diagnosis, matched case-sensitively. */
  const TriggerKeywords: seq<string> := ["ERROR", "CRITICAL", "Timeout"]

  /** `route_next`: "diagnosis" exactly when some trigger keyword occurs in
      the raw log (at any offset), "end" otherwise. */
  function RouteNext(s: State): (r: string)
    ensures r == "diagnosis" || r == "end"
  {
    var log := LogOf(s);
    if Contains(log, "ERROR") || Contains(log, "CRITICAL") || Contains(log, "Timeout") then "diagnosis" else "end"
  }

  /** The route is "diagnosis" exactly when some trigger keyword occurs in
      the raw log at some offset, and "end" otherwise. */
  lemma RouteNextSpec(s: State)
    ensures RouteNext(s) == "diagnosis" <==>
      exists k, i :: 0 <= k < |TriggerKeywords| && OccursAt(LogOf(s), TriggerKeywords[k], i)
  {
    var log := LogOf(s);
    ContainsIffOccurs(log, "ERROR");
    ContainsIffOccurs(log, "CRITICAL");
    ContainsIffOccurs(log, "Timeout");
    assert forall k :: 0 <= k < |TriggerKeywords| ==>
      TriggerKeywords[k] == "ERROR" || TriggerKeywords[k] == "CRITICAL" || TriggerKeywords[k] == "Timeout";
    assert TriggerKeywords[0] == "ERROR" && TriggerKeywords[1] == "CRITICAL" && TriggerKeywords[2] == "Timeout";
  }

  /** The route reads `raw_log` and nothing else of the state: not the
      triage result, not the messages, not the severity. */
  lemma RouteDependsOnlyOnRawLog(s: State, t: State)
    requires s.rawLog == t.rawLog
    ensures RouteNext(s) == RouteNext(t)
  {
  }

  /** A state without `raw_log` is scanned as the empty log and ends the run. */
  lemma MissingLogEnds(s: State)
    requires s.rawLog.None?
    ensures RouteNext(s) == "end"
  {
    MissingCharNotContained("", "ERROR", 'E');
    MissingCharNotContained("", "CRITICAL", 'C');
    MissingCharNotContained("", "Timeout", 'T');
  }

  /** A log that lacks one letter of each keyword cannot contain any of them. */
  lemma {:induction false} MissingLettersEnd(s: State, e: char, c: char, t: char)
    requires e in "ERROR" && c in "CRITICAL" && t in "Timeout"
    requires e !in LogOf(s) && c !in LogOf(s) && t !in LogOf(s)
    ensures RouteNext(s) == "end"
  {
    MissingCharNotContained(LogOf(s), "ERROR", e);
    MissingCharNotContained(LogOf(s), "CRITICAL", c);
    MissingCharNotContained(LogOf(s), "Timeout", t);
  }

  /** Matching is case-sensitive: lower-case keywords do not route. */
  lemma LowerCaseKeywordsEnd(s: State)
    requires s.rawLog == Some("error") || s.rawLog == Some("critical") || s.rawLog == Some("timeout")
    ensures RouteNext(s) == "end"
  {
    MissingLettersEnd(s, 'E', 'C', 'T');
  }

  /** "Connection Refused" is a keyword of the triage prompt only; the router ignores it. */
  lemma ConnectionRefusedEnds(s: State)
    requires s.rawLog == Some("Connection Refused")
    ensures RouteNext(s) == "end"
  {
    MissingLettersEnd(s, 'E', 'I', 'T');
  }

  /** The log of an unknown scenario ends the run after triage. */
  lemma GeneralErrorEnds(s: State)
    requires s.rawLog == Some("General Error")
    ensures RouteNext(s) == "end"
  {
    MissingLettersEnd(s, 'R', 'R', 'T');
  }

  /** Any log with a keyword at some offset routes to diagnosis. */
  lemma KeywordAtRoutesToDiagnosis(s: State, k: int, i: int)
    requires 0 <= k < |TriggerKeywords| && OccursAt(LogOf(s), TriggerKeywords[k], i)
    ensures RouteNext(s) == "diagnosis"
  {
    RouteNextSpec(s);
  }
}
