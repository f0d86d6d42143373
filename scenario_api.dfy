/** The scenario controller (main.py): the in-process system state that a
    dashboard polls, the scenario trigger that rewrites the node-health map
    and queues one workflow run, the status snapshot, and the background
    job that runs the workflow and turns its streamed events into log lines.

    Wall-clock timestamps are parameters, the background queue is the task
    returned by `SetScenario`, and the AI modules' availability is a flag. */
module ScenarioApi {
  import opened Wrappers
  import opened Text
  import opened IncidentState
  import opened TriageRouter
  import opened AlertGenerator
  import opened IncidentWorkflow

  /** The monitored payment-network nodes (`NODES`). */
  const Nodes: seq<string> := [
    "SKT_Gateway", "금융결제원", "KIS정보통신", "NICE정보통신",
    "신한은행", "국민은행", "우리은행", "하나은행", "농협은행",
    "삼성카드", "현대카드", "신한카드", "KB국민카드"
  ]

  function NodeSet(): set<string>
  {
    set n | n in Nodes
  }

  const SingleFailureLog: string := "[ERROR]" + " TIME:14:05 | BANK:Shinhan | CODE:E-503 | MSG:Service Unavailable"
  const TripleFailureLog: string := "[CRITICAL]" + " Multi-Fail Detected"
  const GeneralErrorLog: string := "General Error"

  /** The nodes a scenario marks as "error" after the reset. */
  function FailedNodes(scenario: string): set<string>
  {
    if scenario == "single_failure" then {"신한은행"}
    else if scenario == "triple_failure" then {"KIS정보통신", "삼성카드", "국민은행"}
    else {}
  }

  /** The synthetic raw log a scenario hands to the workflow. */
  function ScenarioLog(scenario: string): string
  {
    if scenario == "single_failure" then SingleFailureLog
    else if scenario == "triple_failure" then TripleFailureLog
    else GeneralErrorLog
  }

  /** The nodes currently marked "error". */
  function ErrorNodes(nodes: map<string, string>): set<string>
  {
    set n | n in nodes && nodes[n] == "error"
  }

  /** `f"[{ts}] {text}"`. */
  function Stamp(ts: string, text: string): string
  {
    "[" + ts + "] " + text
  }

  /** The `StatusResponse` of `/status`. */
  datatype StatusResponse = StatusResponse(
    timestamp: string,
    nodes: map<string, string>,
    agentLogs: seq<string>,
    scenario: string,
    isProcessing: bool)

  /** A queued call `run_ai_background(scenario_type, error_log)`. */
  datatype BackgroundTask = BackgroundTask(scenarioType: string, errorLog: string)

  /** The inputs a run starts from: one request message, the raw log, no
      tool steps and an empty report. */
  function InitialInputs(errorLog: string): (s: State)
    ensures |s.messages| == 1 && s.rawLog == Some(errorLog)
    ensures s.toolSteps == Some([]) && s.structuredReport.None?
    ensures s.finalActionPlan.None? && s.incidentSeverity.None?
  {
    State([Human("장애 로그 분석 요청")], Some(errorLog), Some([]), None, None, None)
  }

  const StartText: string := "🚀 [시스템] 장애 분석 및 대응 프로세스 시작..."
  const NormalText: string := "🟢 시스템 정상화 완료."

  /** The canned lines of the simulation path, after the start line. */
  function SimulationLines(ts: string, scenarioType: string): (lines: seq<string>)
    ensures |lines| == 8
  {
    [Stamp(ts, "⚠️ [시스템] AI 엔진 연동 불가. 시뮬레이션 모드로 전환."),
     Stamp(ts, "🚦 [라우터] 로그 분석 결과: 'Critical(심각)' 등급 판정.")]
    + (if scenarioType == "single_failure" then
         [Stamp(ts, "🩺 [진단] '신한은행' 응답 지연(3000ms) 확인."),
          Stamp(ts, "🛠️ [도구] 네트워크 상태 점검(Ping) 완료.")]
       else
         [Stamp(ts, "🩺 [진단] 다중 노드 접속 불가 확인."),
          Stamp(ts, "🛠️ [도구] 전체 인프라 헬스체크 수행.")])
    + [Stamp(ts, "📚 [RAG] 에러 코드 기반 SOP 매뉴얼 검색 중..."),
       Stamp(ts, "💡 [결과] SOP 발견: '예비 라인 전환 및 담당자 전파'."),
       Stamp(ts, "📨 [알림] 운영팀 및 담당자에게 SMS 발송 완료."),
       Stamp(ts, "✅ [완료] 장애 대응 조치가 완료되었습니다.")]
  }

  /** One line per tool-result message: its first 30 characters and "...". */
  function ToolLines(ts: string, msgs: seq<Message>): seq<string>
  {
    if msgs == [] then []
    else
      (if msgs[0].ToolResult? then [Stamp(ts, "📚 [도구 결과] " + Take(msgs[0].content, 30) + "...")] else [])
      + ToolLines(ts, msgs[1..])
  }

  function CountToolResults(msgs: seq<Message>): nat
  {
    if msgs == [] then 0 else (if msgs[0].ToolResult? then 1 else 0) + CountToolResults(msgs[1..])
  }

  /** The lines the background job logs for one streamed event. */
  function EventLines(ts: string, e: Event): seq<string>
  {
    var msgs := e.update.messages;
    match e.node
    case Triage => [Stamp(ts, "🚦 [라우터] 로그 유형 분석 중...")]
    case Tools => ToolLines(ts, msgs)
    case Diagnosis =>
      if msgs != [] && msgs[|msgs| - 1].Ai? && msgs[|msgs| - 1].toolCalls == [] then
        [Stamp(ts, "🧠 [진단] 원인 분석 및 추론 중...")]
      else []
    case AlertGen =>
      if e.update.structuredReport.Some? then
        [Stamp(ts, "📨 [리포트] 등급: " + e.update.structuredReport.value.severity + ", MMS 발송 완료."),
         Stamp(ts, "✅ [완료] 워크플로우 종료.")]
      else []
    case End => []
  }

  /** The event mapping of one job, whose lines all carry the stamp `ts`. */
  function EventLinesAt(ts: string): Event -> seq<string>
  {
    e => EventLines(ts, e)
  }

  /** The lines of a sequence of events, in stream order. */
  function EventLog(events: seq<Event>, lines: Event -> seq<string>): seq<string>
  {
    if events == [] then [] else EventLog(events[..|events| - 1], lines) + lines(events[|events| - 1])
  }

  function ErrorLine(ts: string, error: string): string
  {
    Stamp(ts, "❌ [오류] AI 실행 중 예외 발생: " + error)
  }

  /** The run was cut short by the fuel bound: the real job would still be streaming. */
  predicate StillRunning(r: Outcome)
  {
    r.stage != End && r.error.None?
  }

  /** The lines a workflow run adds: those of its events and, if a node
      raised, the error line. */
  function RunLog(ts: string, r: Outcome): seq<string>
  {
    EventLog(r.events, EventLinesAt(ts)) + (if r.error.Some? then [ErrorLine(ts, r.error.value)] else [])
  }

  /** What the log holds once the background job has processed its run. */
  function JobLog(ts: string, scenarioType: string, aiAvailable: bool, r: Outcome): seq<string>
  {
    [Stamp(ts, StartText)] + if aiAvailable then RunLog(ts, r) else SimulationLines(ts, scenarioType)
  }

  /** The log of one more event is the log so far followed by its lines. */
  lemma EventLogSnoc(events: seq<Event>, lines: Event -> seq<string>, i: nat)
    requires i < |events|
    ensures EventLog(events[..i + 1], lines) == EventLog(events[..i], lines) + lines(events[i])
  {
    assert events[..i + 1][..i] == events[..i];
  }

  /** The health map in which exactly the nodes of `failed` are "error". */
  function Health(failed: set<string>): map<string, string>
  {
    map n | n in NodeSet() :: if n in failed then "error" else "normal"
  }

  /** A health map covers every monitored node, holds only "normal" and
      "error", and marks as "error" exactly the failed nodes it was made for. */
  lemma HealthSpec(failed: set<string>)
    requires failed <= NodeSet()
    ensures Health(failed).Keys == NodeSet()
    ensures forall n :: n in Health(failed) ==> Health(failed)[n] == "normal" || Health(failed)[n] == "error"
    ensures ErrorNodes(Health(failed)) == failed
  {
  }

  /** Marking one more monitored node "error" extends the failed set. */
  lemma MarkFailed(failed: set<string>, node: string, k: nat)
    requires k < |Nodes| && Nodes[k] == node
    ensures Health(failed)[node := "error"] == Health(failed + {node})
  {
  }

  /** The in-process `system_state`. */
  class SystemState {
    var nodes: map<string, string>
    var agentLogs: seq<string>
    var scenario: string
    var isProcessing: bool

    /** Every monitored node, and only those, has a health of "normal" or "error". */
    ghost predicate Valid()
      reads this
    {
      && nodes.Keys == NodeSet()
      && forall n :: n in nodes ==> nodes[n] == "normal" || nodes[n] == "error"
    }

    /** The initial state: all nodes normal, no logs, scenario "normal", idle. */
    constructor ()
      ensures Valid()
      ensures forall n :: n in nodes ==> nodes[n] == "normal"
      ensures agentLogs == [] && scenario == "normal" && !isProcessing
    {
      nodes := map n | n in Nodes :: "normal";
      agentLogs := [];
      scenario := "normal";
      isProcessing := false;
    }

    /** `get_status`: the stored state, as it is, stamped with the given time. */
    function GetStatus(timestamp: string): (r: StatusResponse)
      reads this
      ensures r.timestamp == timestamp
      ensures r.nodes == nodes && r.agentLogs == agentLogs
      ensures r.scenario == scenario && r.isProcessing == isProcessing
    {
      StatusResponse(timestamp, nodes, agentLogs, scenario, isProcessing)
    }

    /** Two polls with no change in between differ only in their timestamp. */
    lemma StatusDiffersOnlyInTimestamp(t1: string, t2: string)
      ensures GetStatus(t1).(timestamp := t2) == GetStatus(t2)
    {
    }

    /** Sets every monitored node back to "normal", one node at a time. */
    method ResetNodes()
      requires Valid()
      modifies this
      ensures nodes == Health({})
      ensures agentLogs == old(agentLogs) && scenario == old(scenario) && isProcessing == old(isProcessing)
    {
      for i := 0 to |Nodes|
        invariant nodes.Keys == NodeSet()
        invariant forall k :: 0 <= k < i ==> nodes[Nodes[k]] == "normal"
        invariant agentLogs == old(agentLogs) && scenario == old(scenario) && isProcessing == old(isProcessing)
      {
        nodes := nodes[Nodes[i] := "normal"];
      }
      forall n | n in NodeSet()
        ensures nodes[n] == "normal"
      {
        var k :| 0 <= k < |Nodes| && Nodes[k] == n;
      }
    }

    /** Marks the scenario's failed nodes "error" on a freshly reset map and
        picks the scenario's synthetic log. */
    method MarkScenarioNodes(scenarioType: string) returns (errorLog: string)
      requires nodes == Health({})
      modifies this
      ensures nodes == Health(FailedNodes(scenarioType))
      ensures errorLog == ScenarioLog(scenarioType)
      ensures agentLogs == old(agentLogs) && scenario == old(scenario) && isProcessing == old(isProcessing)
    {
      errorLog := GeneralErrorLog;
      if scenarioType == "single_failure" {
        MarkFailed({}, "신한은행", 4);
        nodes := nodes["신한은행" := "error"];
        assert {} + {"신한은행"} == FailedNodes(scenarioType);
        errorLog := SingleFailureLog;
      } else if scenarioType == "triple_failure" {
        MarkFailed({}, "KIS정보통신", 2);
        nodes := nodes["KIS정보통신" := "error"];
        MarkFailed({} + {"KIS정보통신"}, "삼성카드", 9);
        nodes := nodes["삼성카드" := "error"];
        MarkFailed({} + {"KIS정보통신"} + {"삼성카드"}, "국민은행", 5);
        nodes := nodes["국민은행" := "error"];
        assert {} + {"KIS정보통신"} + {"삼성카드"} + {"국민은행"} == FailedNodes(scenarioType);
        errorLog := TripleFailureLog;
      } else {
        assert FailedNodes(scenarioType) == {};
      }
    }

    /** `set_scenario`: records the scenario, resets every node to "normal",
        marks the scenario's failed nodes "error" and, except for "normal",
        queues one background run on the scenario's log. "normal" instead
        replaces the logs with a single line and queues nothing. */
    method SetScenario(scenarioType: string, now: string) returns (status: string, task: Option<BackgroundTask>)
      requires Valid()
      modifies this
      ensures Valid()
      ensures scenario == scenarioType && isProcessing == old(isProcessing)
      ensures nodes == Health(FailedNodes(scenarioType))
      ensures ErrorNodes(nodes) == FailedNodes(scenarioType)
      ensures scenarioType == "normal" ==>
        status == "ok" && task.None? && agentLogs == [Stamp(now, NormalText)]
      ensures scenarioType != "normal" ==>
        && status == "accepted" && agentLogs == old(agentLogs)
        && task == Some(BackgroundTask(scenarioType, ScenarioLog(scenarioType)))
    {
      scenario := scenarioType;
      ResetNodes();
      var errorLog := MarkScenarioNodes(scenarioType);
      FailedNodeCounts(scenarioType);
      HealthSpec(FailedNodes(scenarioType));
      if scenarioType == "normal" {
        agentLogs := [Stamp(now, NormalText)];
        return "ok", None;
      }
      return "accepted", Some(BackgroundTask(scenarioType, errorLog));
    }

    /** Appends the lines of the streamed events, in order. */
    method AppendEventLog(events: seq<Event>, lines: Event -> seq<string>)
      modifies this
      ensures agentLogs == old(agentLogs) + EventLog(events, lines)
      ensures nodes == old(nodes) && scenario == old(scenario) && isProcessing == old(isProcessing)
    {
      for i := 0 to |events|
        invariant agentLogs == old(agentLogs) + EventLog(events[..i], lines)
        invariant nodes == old(nodes) && scenario == old(scenario) && isProcessing == old(isProcessing)
      {
        EventLogSnoc(events, lines, i);
        agentLogs := agentLogs + lines(events[i]);
      }
      assert events[..|events|] == events;
    }

    /** The branch of the job without the AI modules: the canned lines, then
        the processing flag lowered. */
    method Simulate(scenarioType: string, ts: string)
      modifies this
      ensures agentLogs == old(agentLogs) + SimulationLines(ts, scenarioType) && !isProcessing
      ensures nodes == old(nodes) && scenario == old(scenario)
    {
      agentLogs := agentLogs + SimulationLines(ts, scenarioType);
      isProcessing := false;
    }

    /** The real branch of the job: runs the workflow, logs its events and
        any error, and lowers the processing flag unless the run was cut
        short by the fuel bound. */
    method RunWorkflow(graph: Graph, errorLog: string, fuel: nat, ts: string)
      modifies this
      ensures var r := Run(graph, InitialInputs(errorLog), fuel);
        && agentLogs == old(agentLogs) + RunLog(ts, r)
        && isProcessing == (old(isProcessing) && StillRunning(r))
      ensures nodes == old(nodes) && scenario == old(scenario)
    {
      var run := RunGraph(graph, InitialInputs(errorLog), fuel);
      AppendEventLog(run.events, EventLinesAt(ts));
      if run.error.Some? {
        agentLogs := agentLogs + [ErrorLine(ts, run.error.value)];
      }
      if !StillRunning(run) {
        isProcessing := false;
      }
    }

    /** `run_ai_background`: raises the processing flag, restarts the log
        with the start line and then either writes the canned simulation
        lines or runs the compiled graph on the log, writing the lines of
        each streamed event and, if a node raised, the error line. The flag
        is lowered when the job returns; it stays raised only when the run
        was cut short by the fuel bound, that is, while the real job would
        still be looping. `graph` is the compiled graph the job builds,
        `BuildIncidentGraph(ports)` for the system's ports. */
    method RunAiBackground(scenarioType: string, errorLog: string, aiAvailable: bool,
                           graph: Graph, fuel: nat, ts: string)
      requires Valid()
      modifies this
      ensures Valid() && nodes == old(nodes) && scenario == old(scenario)
      ensures var r := Run(graph, InitialInputs(errorLog), fuel);
        && agentLogs == JobLog(ts, scenarioType, aiAvailable, r)
        && isProcessing == (aiAvailable && StillRunning(r))
    {
      isProcessing := true;
      agentLogs := [];
      agentLogs := agentLogs + [Stamp(ts, StartText)];
      if !aiAvailable {
        Simulate(scenarioType, ts);
        return;
      }
      RunWorkflow(graph, errorLog, fuel, ts);
    }
  }

  // ---------------------------------------------------------------------
  // Properties of the scenario table and the event mapping

  /** "single_failure" fails exactly one node, "triple_failure" exactly three,
      every other scenario none; the failed nodes are monitored nodes. */
  lemma FailedNodeCounts(scenario: string)
    ensures FailedNodes(scenario) <= NodeSet()
    ensures scenario == "single_failure" ==> |FailedNodes(scenario)| == 1
    ensures scenario == "triple_failure" ==> |FailedNodes(scenario)| == 3
    ensures scenario != "single_failure" && scenario != "triple_failure" ==> FailedNodes(scenario) == {}
  {
    assert Nodes[4] == "신한은행";
    assert Nodes[2] == "KIS정보통신" && Nodes[9] == "삼성카드" && Nodes[5] == "국민은행";
    if scenario == "triple_failure" {
      assert "KIS정보통신" != "삼성카드" && "KIS정보통신" != "국민은행" && "삼성카드"[0] != "국민은행"[0];
    }
  }

  /** The single-failure log carries "ERROR" right after its bracket. */
  lemma SingleFailureLogCarriesError()
    ensures OccursAt(SingleFailureLog, "ERROR", 1)
  {
    var t := SingleFailureLog;
    assert t[1] == 'E' && t[2] == 'R' && t[3] == 'R' && t[4] == 'O' && t[5] == 'R';
    assert forall j :: 0 <= j < 5 ==> t[1..6][j] == t[j + 1];
  }

  /** The triple-failure log carries "CRITICAL" right after its bracket. */
  lemma TripleFailureLogCarriesCritical()
    ensures OccursAt(TripleFailureLog, "CRITICAL", 1)
  {
    var t := TripleFailureLog;
    assert t[1] == 'C' && t[2] == 'R' && t[3] == 'I' && t[4] == 'T' && t[5] == 'I' && t[6] == 'C' && t[7] == 'A' && t[8] == 'L';
    assert forall j :: 0 <= j < 8 ==> t[1..9][j] == t[j + 1];
  }

  /** The two failure logs carry a trigger keyword and reach diagnosis; the
      log of any other scenario, "General Error", ends the run after triage. */
  lemma ScenarioLogRoutes(scenario: string)
    ensures scenario == "single_failure" || scenario == "triple_failure" ==>
      RouteNext(InitialInputs(ScenarioLog(scenario))) == "diagnosis"
    ensures scenario != "single_failure" && scenario != "triple_failure" ==>
      RouteNext(InitialInputs(ScenarioLog(scenario))) == "end"
  {
    var s := InitialInputs(ScenarioLog(scenario));
    if scenario == "single_failure" {
      SingleFailureLogCarriesError();
      KeywordAtRoutesToDiagnosis(s, 0, 1);
    } else if scenario == "triple_failure" {
      TripleFailureLogCarriesCritical();
      KeywordAtRoutesToDiagnosis(s, 1, 1);
    } else {
      GeneralErrorEnds(s);
    }
  }

  /** A scenario other than the two failure scenarios queues a run that
      produces no report or plan, whatever the reasoning ports answer: it
      completes right after triage, or, when the chat client cannot be
      built, stops at triage with that error. */
  lemma UnknownScenarioStopsAfterTriage(scenario: string, ports: Ports, fuel: nat)
    requires scenario != "single_failure" && scenario != "triple_failure" && fuel > 0
    ensures var r := Run(BuildIncidentGraph(ports), InitialInputs(ScenarioLog(scenario)), fuel);
      && r.final.structuredReport.None? && r.final.finalActionPlan.None?
      && (ports.clientError.None? ==> Completed(r) && Trace(r.events) == [Triage])
      && (ports.clientError.Some? ==> r.events == [] && r.stage == Triage && r.error == ports.clientError)
  {
    ScenarioLogRoutes(scenario);
    TriageDecides(InitialInputs(ScenarioLog(scenario)), ports, fuel);
    if ports.clientError.None? {
      CompletedRunReports(InitialInputs(ScenarioLog(scenario)), ports, fuel);
    }
  }

  /** Whatever happens in a run, `tool_steps` is still the empty list it was
      started with, and the starting request message is still first. */
  lemma ToolStepsStayEmpty(errorLog: string, ports: Ports, fuel: nat)
    ensures var r := Run(BuildIncidentGraph(ports), InitialInputs(errorLog), fuel);
      r.final.toolSteps == Some([]) && |r.final.messages| >= 1
      && r.final.messages[0] == InitialInputs(errorLog).messages[0]
  {
    RunPreservesHistory(InitialInputs(errorLog), ports, fuel);
  }

  lemma {:induction false} ToolLinesCount(ts: string, msgs: seq<Message>)
    ensures |ToolLines(ts, msgs)| == CountToolResults(msgs)
    ensures forall k :: 0 <= k < |ToolLines(ts, msgs)| ==> StartsWith(ToolLines(ts, msgs)[k], Stamp(ts, "📚 [도구 결과] "))
    decreases |msgs|
  {
    if msgs != [] {
      ToolLinesCount(ts, msgs[1..]);
      var head := if msgs[0].ToolResult? then [Stamp(ts, "📚 [도구 결과] " + Take(msgs[0].content, 30) + "...")] else [];
      assert ToolLines(ts, msgs) == head + ToolLines(ts, msgs[1..]);
      forall k | 0 <= k < |head|
        ensures StartsWith(head[k], Stamp(ts, "📚 [도구 결과] "))
      {
        assert head[k] == Stamp(ts, "📚 [도구 결과] ") + (Take(msgs[0].content, 30) + "...");
      }
    }
  }

  lemma {:induction false} CountToolResultsAll(msgs: seq<Message>)
    requires forall k :: 0 <= k < |msgs| ==> msgs[k].ToolResult?
    ensures CountToolResults(msgs) == |msgs|
    decreases |msgs|
  {
    if msgs != [] {
      CountToolResultsAll(msgs[1..]);
    }
  }

  /** The event mapping: triage logs one line; a tools event one line per
      tool-result message; a diagnosis event one line exactly when its last
      message requests no tools; an alert_gen event two lines exactly when
      the report is non-empty; so a tools event logs as many lines as the
      diagnosis turn before it requested tools. */
  lemma EventLinesCount(ts: string, e: Event)
    ensures e.node == Triage ==> |EventLines(ts, e)| == 1
    ensures e.node == Tools ==> |EventLines(ts, e)| == CountToolResults(e.update.messages)
    ensures e.node == Diagnosis ==>
      var msgs := e.update.messages;
      |EventLines(ts, e)| == (if msgs != [] && msgs[|msgs| - 1].Ai? && msgs[|msgs| - 1].toolCalls == [] then 1 else 0)
    ensures e.node == AlertGen ==> |EventLines(ts, e)| == (if e.update.structuredReport.Some? then 2 else 0)
  {
    ToolLinesCount(ts, e.update.messages);
  }

  /** For the update the tool node returns, one line per requested call. */
  lemma ToolEventLinesMatchCalls(ts: string, ms: seq<Message>, runTool: ToolCall -> string)
    requires EndsWithAi(ms)
    ensures |EventLines(ts, Event(Tools, ToolsNode(ms, runTool)))| == |ms[|ms| - 1].toolCalls|
  {
    ToolsNodeSpec(ms, runTool);
    var u := ToolsNode(ms, runTool);
    CountToolResultsAll(u.messages);
    ToolLinesCount(ts, u.messages);
  }
}
