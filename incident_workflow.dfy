/** The workflow engine (backend/incident_workflow.py): the stage graph
    triage → {diagnosis, END}, diagnosis → {tools, alert_gen},
    tools → diagnosis, alert_gen → END, and the driver that runs a compiled
    graph stage after stage, merging each stage's update into the state.

    The driver is generic in the graph (`Graph`: an entry stage, the node of
    each stage and the conditional edge taken after it), as the compiled
    graph is; `BuildIncidentGraph` is the graph the repository compiles.
    The reasoning ports are parameters (`Ports`). The source sets no bound
    on the diagnosis/tools loop; the driver takes `fuel`, the number of
    stages it is allowed to run, and reports where it stopped. */
module IncidentWorkflow {
  import opened Wrappers
  import opened IncidentState
  import opened TriageRouter
  import opened AlertGenerator

  datatype Stage = Triage | Diagnosis | Tools | AlertGen | End

  /** The stages that have a node (every stage but `End`). */
  type NodeName = st: Stage | st != End witness Triage

  /** The branch tables of the two conditional edges. */
  const TriageEdges: map<string, Stage> := map["diagnosis" := Diagnosis, "end" := End]
  const DiagnosisEdges: map<string, Stage> := map["tools" := Tools, "alert_gen" := AlertGen]

  /** What the tool-augmented chat port answers: text and the tool calls it requests. */
  datatype AiReply = AiReply(content: string, toolCalls: seq<ToolCall>)

  /** The language-reasoning ports and the tool executor, as total functions
      of what they are given. A `Failure` is an exception raised by the port.
      `clientError` is the exception raised while the chat client is being
      built (`get_azure_chat_model()` and `with_structured_output`), which
      triage and alert_gen do before their `try`; for diagnosis any exception,
      that one included, is a `Failure` of `diagnose`. */
  datatype Ports = Ports(
    clientError: Option<string>,
    triage: string -> Result<TriageResult, string>,
    diagnose: seq<Message> -> Result<AiReply, string>,
    runTool: ToolCall -> string,
    report: seq<Message> -> Result<IncidentReport, string>)

  /** The history ends with an assistant turn (it has `tool_calls`). */
  predicate EndsWithAi(ms: seq<Message>)
  {
    |ms| > 0 && ms[|ms| - 1].Ai?
  }

  /** `should_continue`: reads the last message (so the history must end
      with an assistant turn) and asks for the tools stage exactly when it
      carries tool calls. */
  function ShouldContinue(ms: seq<Message>): (r: string)
    requires EndsWithAi(ms)
    ensures r == "tools" || r == "alert_gen"
    ensures r == "tools" <==> ms[|ms| - 1].toolCalls != []
  {
    if ms[|ms| - 1].toolCalls != [] then "tools" else "alert_gen"
  }

  /** `diagnosis_node`: appends the model's reply and nothing else. */
  function DiagnosisNode(reply: AiReply): (u: Update)
    ensures u.messages == [Ai(reply.content, reply.toolCalls)]
    ensures u.toolSteps.None? && u.structuredReport.None?
    ensures u.finalActionPlan.None? && u.incidentSeverity.None?
  {
    Update([Ai(reply.content, reply.toolCalls)], None, None, None, None)
  }

  /** The prebuilt tool node: one tool-result message per tool call of the
      last assistant turn, in the order requested; nothing else is written. */
  function ToolsNode(ms: seq<Message>, runTool: ToolCall -> string): (u: Update)
    requires EndsWithAi(ms)
    ensures u.toolSteps.None? && u.structuredReport.None?
    ensures u.finalActionPlan.None? && u.incidentSeverity.None?
  {
    var calls := ms[|ms| - 1].toolCalls;
    Update(seq(|calls|, k requires 0 <= k < |calls| => ToolResult(runTool(calls[k]), calls[k].id)),
      None, None, None, None)
  }

  /** Each pending tool call gets exactly one result, in the order requested. */
  lemma ToolsNodeSpec(ms: seq<Message>, runTool: ToolCall -> string)
    requires EndsWithAi(ms)
    ensures var calls := ms[|ms| - 1].toolCalls;
      var u := ToolsNode(ms, runTool);
      && |u.messages| == |calls|
      && forall k :: 0 <= k < |calls| ==> u.messages[k] == ToolResult(runTool(calls[k]), calls[k].id)
  {
  }

  /** The error the prebuilt tool node raises when the history does not end
      with an assistant turn. */
  const NoAiMessage: string := "No AIMessage found in input"

  /** The error `should_continue` raises when the last message has no `tool_calls`. */
  const NoToolCallsField: string := "last message has no tool_calls"

  /** The node of a stage applied to the state; `Failure` when it raises.
      Triage and alert_gen catch their extractors' errors and raise only when
      the chat client cannot be built; diagnosis raises what its port raises;
      the tool node raises when the history does not end with an assistant turn. */
  function Step(stage: NodeName, s: State, ports: Ports): (r: Result<Update, string>)
    ensures stage == Triage || stage == AlertGen ==> (r.Success? <==> ports.clientError.None?)
    ensures (stage == Triage || stage == AlertGen) && r.Failure? ==> r.error == ports.clientError.value
    ensures stage == Diagnosis ==> (r.Success? <==> ports.diagnose(s.messages).Success?)
    ensures stage == Diagnosis && r.Failure? ==> r.error == ports.diagnose(s.messages).error
    ensures stage == Tools ==> (r.Success? <==> EndsWithAi(s.messages))
  {
    match stage
    case Triage => if ports.clientError.Some? then Failure(ports.clientError.value) else Success(TriageLogNode(s, ports.triage))
    case Diagnosis =>
      (match ports.diagnose(s.messages)
       case Success(reply) => Success(DiagnosisNode(reply))
       case Failure(e) => Failure(e))
    case Tools => if EndsWithAi(s.messages) then Success(ToolsNode(s.messages, ports.runTool)) else Failure(NoAiMessage)
    case AlertGen => if ports.clientError.Some? then Failure(ports.clientError.value) else Success(AlertGenerationNode(s, ports.report))
  }

  /** The edge taken after a stage has run and its update has been merged;
      `Failure` when the router raises. */
  function Route(stage: NodeName, s: State): (r: Result<Stage, string>)
    ensures stage == Triage ==>
      r.Success? && (r.value == Diagnosis <==> RouteNext(s) == "diagnosis") && (r.value == Diagnosis || r.value == End)
    ensures stage == Diagnosis ==> (r.Success? <==> EndsWithAi(s.messages))
    ensures stage == Diagnosis && r.Success? ==>
      (r.value == Tools <==> s.messages[|s.messages| - 1].toolCalls != []) && (r.value == Tools || r.value == AlertGen)
    ensures stage == Tools ==> r == Success(Diagnosis)
    ensures stage == AlertGen ==> r == Success(End)
  {
    match stage
    case Triage => Success(TriageEdges[RouteNext(s)])
    case Diagnosis => if EndsWithAi(s.messages) then Success(DiagnosisEdges[ShouldContinue(s.messages)]) else Failure(NoToolCallsField)
    case Tools => Success(Diagnosis)
    case AlertGen => Success(End)
  }

  /** A compiled graph: its entry stage, the node of each stage and the
      conditional edge taken after it. */
  datatype Graph = Graph(
    entry: Stage,
    node: (NodeName, State) -> Result<Update, string>,
    edge: (NodeName, State) -> Result<Stage, string>)

  /** `build_incident_graph`: entry at triage, the four nodes and their edges. */
  function BuildIncidentGraph(ports: Ports): (g: Graph)
    ensures g.entry == Triage
  {
    Graph(Triage, (stage: NodeName, s: State) => Step(stage, s, ports), (stage: NodeName, s: State) => Route(stage, s))
  }

  /** One event of `graph.stream`: the node that ran and the update it returned. */
  datatype Event = Event(node: Stage, update: Update)

  /** Where a run stopped: the events streamed, the state reached, the stage
      that would run next (`End` once the run is complete) and, when a
      node or a router raised, its error. */
  datatype Outcome = Outcome(events: seq<Event>, final: State, stage: Stage, error: Option<string>)

  /** The run from `stage` on, with at most `fuel` stages executed. A node or
      a router that raises fails the stage as a whole: nothing of it is
      streamed or merged. */
  function Drive(g: Graph, stage: Stage, s: State, fuel: nat): (r: Outcome)
    ensures |r.events| <= fuel
    ensures r.error.Some? ==> r.stage != End
    ensures r.stage != End && r.error.None? ==> |r.events| == fuel
    decreases fuel
  {
    if stage == End || fuel == 0 then Outcome([], s, stage, None)
    else
      match g.node(stage, s)
      case Failure(e) => Outcome([], s, stage, Some(e))
      case Success(u) =>
        var s' := Apply(s, u);
        match g.edge(stage, s')
        case Failure(e) => Outcome([], s, stage, Some(e))
        case Success(next) =>
          var rest := Drive(g, next, s', fuel - 1);
          Outcome([Event(stage, u)] + rest.events, rest.final, rest.stage, rest.error)
  }

  /** The run from the entry stage: at most `fuel` stages, and fewer only
      when it reached `End` or a node or router raised. */
  function Run(g: Graph, init: State, fuel: nat): (r: Outcome)
    ensures |r.events| <= fuel
    ensures r.stage != End && r.error.None? ==> |r.events| == fuel
  {
    Drive(g, g.entry, init, fuel)
  }

  /** A run is complete when it reached `End` without an error. */
  predicate Completed(r: Outcome)
  {
    r.stage == End && r.error.None?
  }

  /** The stages a run went through, in order. */
  function Trace(events: seq<Event>): (t: seq<Stage>)
    ensures |t| == |events|
    ensures forall k :: 0 <= k < |t| ==> t[k] == events[k].node
  {
    seq(|events|, k requires 0 <= k < |events| => events[k].node)
  }

  /** `graph.stream` on the initial input: starting at the entry stage, each
      iteration runs the current node, follows the edge from the merged
      state, records the event and moves on; it stops at `End`, when a node
      or a router raises, or when the fuel is spent. */
  method RunGraph(g: Graph, init: State, fuel: nat) returns (r: Outcome)
    ensures r == Run(g, init, fuel)
  {
    var stage, s, n := g.entry, init, fuel;
    var events: seq<Event> := [];
    while stage != End && n > 0
      invariant var rest := Drive(g, stage, s, n);
        Run(g, init, fuel) == Outcome(events + rest.events, rest.final, rest.stage, rest.error)
      decreases n
    {
      var step := g.node(stage, s);
      if step.Failure? {
        return Outcome(events, s, stage, Some(step.error));
      }
      var u := step.value;
      var s' := Apply(s, u);
      var route := g.edge(stage, s');
      if route.Failure? {
        return Outcome(events, s, stage, Some(route.error));
      }
      ghost var rest := Drive(g, route.value, s', n - 1);
      assert events + ([Event(stage, u)] + rest.events) == (events + [Event(stage, u)]) + rest.events;
      events := events + [Event(stage, u)];
      s, stage, n := s', route.value, n - 1;
    }
    return Outcome(events, s, stage, None);
  }

  // ---------------------------------------------------------------------
  // Facts about the nodes and edges of a graph

  /** The edges of the incident graph. */
  ghost predicate Shaped(g: Graph)
  {
    && g.entry == Triage
    && (forall s :: g.edge(Triage, s) == Success(Diagnosis) || g.edge(Triage, s) == Success(End))
    && (forall s :: g.edge(Diagnosis, s).Success? ==>
          g.edge(Diagnosis, s).value == Tools || g.edge(Diagnosis, s).value == AlertGen)
    && (forall s :: g.edge(Tools, s) == Success(Diagnosis))
    && (forall s :: g.edge(AlertGen, s) == Success(End))
  }

  /** Triage and alert_gen never raise. */
  ghost predicate CatchesErrors(g: Graph)
  {
    forall s :: g.node(Triage, s).Success? && g.node(AlertGen, s).Success?
  }

  /** Every node that succeeds is followed by an edge that succeeds. */
  ghost predicate RoutesAfterNodes(g: Graph)
  {
    forall stage: NodeName, s {:trigger g.edge(stage, Apply(s, g.node(stage, s).value))} ::
      g.node(stage, s).Success? ==> g.edge(stage, Apply(s, g.node(stage, s).value)).Success?
  }

  /** The tool stage is entered only on a history that ends with an
      assistant turn, and on such a history its node succeeds. */
  ghost predicate FeedsTools(g: Graph)
  {
    && (forall stage: NodeName, s {:trigger g.edge(stage, Apply(s, g.node(stage, s).value))} ::
          g.node(stage, s).Success? ==>
          g.edge(stage, Apply(s, g.node(stage, s).value)) == Success(Tools) ==>
          EndsWithAi(Apply(s, g.node(stage, s).value).messages))
    && (forall s: State :: EndsWithAi(s.messages) ==> g.node(Tools, s).Success?)
  }

  /** No node writes `tool_steps`. */
  ghost predicate WritesNoToolSteps(g: Graph)
  {
    forall stage: NodeName, s :: g.node(stage, s).Success? ==> g.node(stage, s).value.toolSteps.None?
  }

  /** Only alert_gen writes the report and the plan, and it writes them and
      the severity every time. */
  ghost predicate ReportsOnlyAtAlertGen(g: Graph)
  {
    && (forall stage: NodeName, s :: stage != AlertGen && g.node(stage, s).Success? ==>
          g.node(stage, s).value.structuredReport.None? && g.node(stage, s).value.finalActionPlan.None?)
    && (forall s :: g.node(AlertGen, s).Success? ==>
          var u := g.node(AlertGen, s).value;
          u.structuredReport.Some? && u.finalActionPlan.Some? && u.incidentSeverity.Some?)
  }

  /** The incident graph has the shape drawn above, triage and alert_gen
      never raise unless the chat client cannot be built, no node writes
      `tool_steps`, and only alert_gen writes the report fields. */
  lemma IncidentGraphFacts(ports: Ports)
    ensures Shaped(BuildIncidentGraph(ports))
    ensures CatchesErrors(BuildIncidentGraph(ports)) <==> ports.clientError.None?
    ensures WritesNoToolSteps(BuildIncidentGraph(ports))
    ensures ReportsOnlyAtAlertGen(BuildIncidentGraph(ports))
  {
    var g := BuildIncidentGraph(ports);
    var s0 := State([], None, None, None, None, None);
    assert ports.clientError.Some? ==> g.node(Triage, s0).Failure?;
    forall stage: NodeName, s | g.node(stage, s).Success?
      ensures g.node(stage, s).value.toolSteps.None?
      ensures stage != AlertGen ==>
        g.node(stage, s).value.structuredReport.None? && g.node(stage, s).value.finalActionPlan.None?
    {
      if stage == Triage {
        TriageLogNodeSpec(s, ports.triage);
      }
    }
  }

  /** In the incident graph no router raises after a node that succeeded,
      and the tool stage is entered only on a history ending with an
      assistant turn, on which the tool node cannot raise. */
  lemma IncidentGraphRoutes(ports: Ports)
    ensures RoutesAfterNodes(BuildIncidentGraph(ports))
    ensures FeedsTools(BuildIncidentGraph(ports))
  {
    var g := BuildIncidentGraph(ports);
    forall stage: NodeName, s | g.node(stage, s).Success?
      ensures g.edge(stage, Apply(s, g.node(stage, s).value)).Success?
    {
      if stage == Diagnosis {
        var reply := ports.diagnose(s.messages).value;
        var s1 := Apply(s, DiagnosisNode(reply));
        assert s1.messages[|s1.messages| - 1] == Ai(reply.content, reply.toolCalls);
      }
    }
    forall stage: NodeName, s | g.node(stage, s).Success?
      ensures var s1 := Apply(s, g.node(stage, s).value);
        g.edge(stage, s1) == Success(Tools) ==> EndsWithAi(s1.messages)
    {
      var s1 := Apply(s, g.node(stage, s).value);
      assert g.edge(stage, s1) == Route(stage, s1);
    }
  }

  /** The edge after a successful node succeeds, and enters the tool stage
      only on a history ending with an assistant turn. */
  lemma NextStage(g: Graph, stage: NodeName, s: State)
    requires RoutesAfterNodes(g) && FeedsTools(g)
    requires g.node(stage, s).Success?
    ensures var s1 := Apply(s, g.node(stage, s).value);
      g.edge(stage, s1).Success? && (g.edge(stage, s1).value == Tools ==> EndsWithAi(s1.messages))
  {
  }

  lemma ToolsNodeFed(g: Graph, s: State)
    requires FeedsTools(g) && EndsWithAi(s.messages)
    ensures g.node(Tools, s).Success?
  {
  }

  /** When every successful node is followed by a successful edge and the
      tool stage is fed properly, a run stops with an error only because the
      node of the stage it stopped at raised on the state it reached, and
      that stage is never the tool stage. */
  lemma {:induction false} DriveErrsOnlyInNodes(g: Graph, stage: Stage, s: State, fuel: nat)
    requires RoutesAfterNodes(g) && FeedsTools(g)
    requires stage == Tools ==> EndsWithAi(s.messages)
    ensures var r := Drive(g, stage, s, fuel);
      r.error.Some? ==>
      && r.stage != End && r.stage != Tools
      && g.node(r.stage, r.final).Failure? && r.error == Some(g.node(r.stage, r.final).error)
    decreases fuel
  {
    if stage != End && fuel > 0 {
      if g.node(stage, s).Success? {
        var u := g.node(stage, s).value;
        var s1 := Apply(s, u);
        NextStage(g, stage, s);
        var n1 := g.edge(stage, s1).value;
        DriveErrsOnlyInNodes(g, n1, s1, fuel - 1);
        var r1 := Drive(g, n1, s1, fuel - 1);
        assert Drive(g, stage, s, fuel) == Outcome([Event(stage, u)] + r1.events, r1.final, r1.stage, r1.error);
      } else {
        if stage == Tools { ToolsNodeFed(g, s); }
        assert Drive(g, stage, s, fuel) == Outcome([], s, stage, Some(g.node(stage, s).error));
      }
    } else {
      assert Drive(g, stage, s, fuel).error.None?;
    }
  }

  /** Every error that stops a run of the incident graph comes from a port:
      the diagnosis model raised on the history reached, or the chat client
      could not be built at triage or alert_gen. Neither the tool node's nor
      `should_continue`'s own failure can happen in a run, because the tool
      stage is entered only after a diagnosis turn, which ends the history. */
  lemma DriveErrsOnlyAtPorts(ports: Ports, stage: Stage, s: State, fuel: nat)
    requires stage == Tools ==> EndsWithAi(s.messages)
    ensures var r := Drive(BuildIncidentGraph(ports), stage, s, fuel);
      r.error.Some? ==>
      || (r.stage == Diagnosis && ports.diagnose(r.final.messages).Failure?
          && r.error == Some(ports.diagnose(r.final.messages).error))
      || ((r.stage == Triage || r.stage == AlertGen) && r.error == ports.clientError)
  {
    IncidentGraphRoutes(ports);
    DriveErrsOnlyInNodes(BuildIncidentGraph(ports), stage, s, fuel);
  }

  /** The same for a run from the entry stage. */
  lemma RunErrsOnlyAtPorts(init: State, ports: Ports, fuel: nat)
    ensures var r := Run(BuildIncidentGraph(ports), init, fuel);
      r.error.Some? ==>
      || (r.stage == Diagnosis && ports.diagnose(r.final.messages).Failure?
          && r.error == Some(ports.diagnose(r.final.messages).error))
      || ((r.stage == Triage || r.stage == AlertGen) && r.error == ports.clientError)
  {
    DriveErrsOnlyAtPorts(ports, Triage, init, fuel);
  }

  // ---------------------------------------------------------------------
  // The shape of a run

  /** `(diagnosis tools)* diagnosis alert_gen`. */
  predicate DiagnosisTail(t: seq<Stage>)
    decreases |t|
  {
    t == [Diagnosis, AlertGen] ||
    (|t| > 2 && t[0] == Diagnosis && t[1] == Tools && DiagnosisTail(t[2..]))
  }

  /** `triage` alone, or `triage (diagnosis tools)* diagnosis alert_gen`. */
  predicate CompletedTrace(t: seq<Stage>)
  {
    t == [Triage] || (|t| > 1 && t[0] == Triage && DiagnosisTail(t[1..]))
  }

  lemma {:induction false} CompletedFromDiagnosis(g: Graph, s: State, fuel: nat)
    requires Shaped(g)
    requires Completed(Drive(g, Diagnosis, s, fuel))
    ensures DiagnosisTail(Trace(Drive(g, Diagnosis, s, fuel).events))
    decreases fuel
  {
    var r := Drive(g, Diagnosis, s, fuel);
    var u := g.node(Diagnosis, s).value;
    var s1 := Apply(s, u);
    var n1 := g.edge(Diagnosis, s1).value;
    var r1 := Drive(g, n1, s1, fuel - 1);
    assert r.events == [Event(Diagnosis, u)] + r1.events;
    if n1 == AlertGen {
      var u2 := g.node(AlertGen, s1).value;
      var s2 := Apply(s1, u2);
      assert g.edge(AlertGen, s2) == Success(End);
      assert r1.events == [Event(AlertGen, u2)] + Drive(g, End, s2, fuel - 2).events;
      assert Trace(r.events) == [Diagnosis, AlertGen];
    } else {
      var u2 := g.node(Tools, s1).value;
      var s2 := Apply(s1, u2);
      assert g.edge(Tools, s2) == Success(Diagnosis);
      var r2 := Drive(g, Diagnosis, s2, fuel - 2);
      assert r1.events == [Event(Tools, u2)] + r2.events;
      CompletedFromDiagnosis(g, s2, fuel - 2);
      assert Trace(r.events)[2..] == Trace(r2.events);
    }
  }

  lemma CompletedShapeOf(g: Graph, init: State, fuel: nat)
    requires Shaped(g)
    requires Completed(Run(g, init, fuel))
    ensures CompletedTrace(Trace(Run(g, init, fuel).events))
  {
    var r := Run(g, init, fuel);
    var u := g.node(Triage, init).value;
    var s1 := Apply(init, u);
    var n1 := g.edge(Triage, s1).value;
    var r1 := Drive(g, n1, s1, fuel - 1);
    assert r.events == [Event(Triage, u)] + r1.events;
    if n1 == Diagnosis {
      CompletedFromDiagnosis(g, s1, fuel - 1);
      assert Trace(r.events)[1..] == Trace(r1.events);
    } else {
      assert Trace(r.events) == [Triage];
    }
  }

  /** Every completed run goes through `triage` alone or through
      `triage (diagnosis tools)* diagnosis alert_gen`. */
  lemma CompletedRunShape(init: State, ports: Ports, fuel: nat)
    requires Completed(Run(BuildIncidentGraph(ports), init, fuel))
    ensures CompletedTrace(Trace(Run(BuildIncidentGraph(ports), init, fuel).events))
  {
    IncidentGraphFacts(ports);
    CompletedShapeOf(BuildIncidentGraph(ports), init, fuel);
  }

  lemma {:induction false} AlertGenLastInTail(t: seq<Stage>)
    requires DiagnosisTail(t)
    ensures t[|t| - 1] == AlertGen && t[|t| - 2] == Diagnosis
    ensures forall k :: 0 <= k < |t| - 1 ==> t[k] != AlertGen
    decreases |t|
  {
    if t != [Diagnosis, AlertGen] {
      AlertGenLastInTail(t[2..]);
      assert forall k :: 2 <= k < |t| ==> t[k] == t[2..][k - 2];
    }
  }

  /** In a completed run alert_gen runs at most once: only as the last stage,
      right after diagnosis. */
  lemma AlertGenAtMostOnce(t: seq<Stage>)
    requires CompletedTrace(t)
    ensures forall k :: 0 <= k < |t| && t[k] == AlertGen ==> k == |t| - 1 && k > 0 && t[k - 1] == Diagnosis
  {
    if t != [Triage] {
      AlertGenLastInTail(t[1..]);
      assert forall k :: 1 <= k < |t| ==> t[k] == t[1..][k - 1];
    }
  }

  /** Every run begins at triage. When the chat client cannot be built the
      run stops there with that error and streams nothing; otherwise triage
      runs first, and the run completes right after it exactly when the
      route is "end". */
  lemma TriageDecides(init: State, ports: Ports, fuel: nat)
    requires fuel > 0
    ensures var r := Run(BuildIncidentGraph(ports), init, fuel);
      ports.clientError.Some? ==>
      r.events == [] && r.stage == Triage && r.error == ports.clientError && r.final == init
    ensures var r := Run(BuildIncidentGraph(ports), init, fuel);
      ports.clientError.None? ==>
      && |r.events| > 0 && r.events[0].node == Triage
      && (Completed(r) && Trace(r.events) == [Triage] <==> RouteNext(init) == "end")
  {
    var g := BuildIncidentGraph(ports);
    if ports.clientError.Some? {
      assert g.node(Triage, init) == Failure(ports.clientError.value);
      return;
    }
    var u := g.node(Triage, init).value;
    var s1 := Apply(init, u);
    RouteDependsOnlyOnRawLog(init, s1);
    var n1 := g.edge(Triage, s1).value;
    var r1 := Drive(g, n1, s1, fuel - 1);
    assert Run(g, init, fuel).events == [Event(Triage, u)] + r1.events;
  }

  /** The diagnosis model always asks for tools (and never fails). */
  ghost predicate AlwaysCallsTools(ports: Ports)
  {
    forall ms :: ports.diagnose(ms).Success? && ports.diagnose(ms).value.toolCalls != []
  }

  /** From every state, diagnosis succeeds and routes to tools, and the tools
      stage then succeeds and routes back to diagnosis. */
  ghost predicate LoopsForever(g: Graph)
  {
    forall s :: g.node(Diagnosis, s).Success? &&
      var s1 := Apply(s, g.node(Diagnosis, s).value);
      && g.edge(Diagnosis, s1) == Success(Tools)
      && g.node(Tools, s1).Success?
      && g.edge(Tools, Apply(s1, g.node(Tools, s1).value)) == Success(Diagnosis)
  }

  /** A diagnosis model that always requests tools makes the incident graph loop. */
  lemma ToolCallingLoops(ports: Ports)
    requires AlwaysCallsTools(ports)
    ensures LoopsForever(BuildIncidentGraph(ports))
  {
    var g := BuildIncidentGraph(ports);
    forall s
      ensures g.node(Diagnosis, s).Success? &&
        var s1 := Apply(s, g.node(Diagnosis, s).value);
        && g.edge(Diagnosis, s1) == Success(Tools)
        && g.node(Tools, s1).Success?
        && g.edge(Tools, Apply(s1, g.node(Tools, s1).value)) == Success(Diagnosis)
    {
      var reply := ports.diagnose(s.messages).value;
      var s1 := Apply(s, DiagnosisNode(reply));
      assert s1.messages[|s1.messages| - 1] == Ai(reply.content, reply.toolCalls);
    }
  }

  lemma {:induction false} EndlessLoop(g: Graph, s: State, fuel: nat)
    requires LoopsForever(g)
    ensures var r := Drive(g, Diagnosis, s, fuel);
      && r.error.None? && (r.stage == Diagnosis || r.stage == Tools)
      && (forall k :: 0 <= k < |r.events| ==> r.events[k].node == Diagnosis || r.events[k].node == Tools)
      && (|r.events| > 0 ==> r.events[0].node == Diagnosis)
      && (forall k :: 0 <= k < |r.events| - 1 ==> r.events[k].node != r.events[k + 1].node)
    decreases fuel
  {
    if fuel > 0 {
      var u := g.node(Diagnosis, s).value;
      var s1 := Apply(s, u);
      var r1 := Drive(g, Tools, s1, fuel - 1);
      assert Drive(g, Diagnosis, s, fuel).events == [Event(Diagnosis, u)] + r1.events;
      if fuel > 1 {
        var u2 := g.node(Tools, s1).value;
        var s2 := Apply(s1, u2);
        EndlessLoop(g, s2, fuel - 2);
        var r2 := Drive(g, Diagnosis, s2, fuel - 2);
        assert r1.events == [Event(Tools, u2)] + r2.events;
      }
    }
  }

  lemma LoopNeverReportsOf(g: Graph, init: State, fuel: nat)
    requires Shaped(g) && LoopsForever(g)
    ensures var r := Run(g, init, fuel);
      && AlertGen !in Trace(r.events)
      && (Completed(r) ==> Trace(r.events) == [Triage])
  {
    if fuel > 0 && g.node(Triage, init).Success? {
      var u := g.node(Triage, init).value;
      var s1 := Apply(init, u);
      var n1 := g.edge(Triage, s1).value;
      assert g.edge(Triage, s1) == Success(n1);
      var r1 := Drive(g, n1, s1, fuel - 1);
      assert Run(g, init, fuel) == Outcome([Event(Triage, u)] + r1.events, r1.final, r1.stage, r1.error);
      if n1 == Diagnosis {
        EndlessLoop(g, s1, fuel - 1);
        assert Trace(Run(g, init, fuel).events) == [Triage] + Trace(r1.events);
        assert AlertGen !in Trace(r1.events);
      }
    }
  }

  /** Without an iteration cap, a diagnosis model that always requests tools
      keeps the run in the diagnosis/tools loop: alert_gen never runs, and the
      only runs that complete are those triage ends. */
  lemma ToolLoopNeverReports(init: State, ports: Ports, fuel: nat)
    requires AlwaysCallsTools(ports)
    ensures var r := Run(BuildIncidentGraph(ports), init, fuel);
      && AlertGen !in Trace(r.events)
      && (Completed(r) ==> Trace(r.events) == [Triage])
  {
    IncidentGraphFacts(ports);
    ToolCallingLoops(ports);
    LoopNeverReportsOf(BuildIncidentGraph(ports), init, fuel);
  }

  // ---------------------------------------------------------------------
  // What a run does to the state

  /** The history only grows, the raw log is never rewritten, and when no
      node writes `tool_steps` it keeps its initial value. */
  lemma {:induction false} DrivePreservesHistory(g: Graph, stage: Stage, s: State, fuel: nat)
    requires WritesNoToolSteps(g)
    ensures var r := Drive(g, stage, s, fuel);
      && IsPrefix(s.messages, r.final.messages)
      && r.final.rawLog == s.rawLog
      && r.final.toolSteps == s.toolSteps
      && forall k :: 0 <= k < |r.events| ==> r.events[k].update.toolSteps.None?
    decreases fuel
  {
    if stage != End && fuel > 0 && g.node(stage, s).Success? {
      var u := g.node(stage, s).value;
      var s1 := Apply(s, u);
      if g.edge(stage, s1).Success? {
        var n1 := g.edge(stage, s1).value;
        ApplyExtendsHistory(s, u);
        DrivePreservesHistory(g, n1, s1, fuel - 1);
        IsPrefixTransitive(s.messages, s1.messages, Drive(g, n1, s1, fuel - 1).final.messages);
      }
    }
  }

  /** In every run of the incident graph the starting history stays a
      prefix, the raw log is unchanged and `tool_steps` keeps its initial
      value: no stage ever writes it. */
  lemma RunPreservesHistory(init: State, ports: Ports, fuel: nat)
    ensures var r := Run(BuildIncidentGraph(ports), init, fuel);
      && IsPrefix(init.messages, r.final.messages)
      && r.final.rawLog == init.rawLog
      && r.final.toolSteps == init.toolSteps
      && forall k :: 0 <= k < |r.events| ==> r.events[k].update.toolSteps.None?
  {
    IncidentGraphFacts(ports);
    DrivePreservesHistory(BuildIncidentGraph(ports), Triage, init, fuel);
  }

  /** `structured_report` and `final_action_plan` are written by alert_gen
      only: a run that never reached it leaves them as they were. */
  lemma {:induction false} NoReportWithoutAlertGen(g: Graph, stage: Stage, s: State, fuel: nat)
    requires ReportsOnlyAtAlertGen(g)
    requires AlertGen !in Trace(Drive(g, stage, s, fuel).events)
    ensures Drive(g, stage, s, fuel).final.structuredReport == s.structuredReport
    ensures Drive(g, stage, s, fuel).final.finalActionPlan == s.finalActionPlan
    decreases fuel
  {
    if stage != End && fuel > 0 && g.node(stage, s).Success? {
      var u := g.node(stage, s).value;
      var s1 := Apply(s, u);
      if g.edge(stage, s1).Success? {
        var n1 := g.edge(stage, s1).value;
        var r1 := Drive(g, n1, s1, fuel - 1);
        assert Trace(Drive(g, stage, s, fuel).events) == [stage] + Trace(r1.events);
        NoReportWithoutAlertGen(g, n1, s1, fuel - 1);
      }
    }
  }

  /** The last stage of a run decides the report fields: a run whose last
      stage was alert_gen ends with the report, plan and severity all set. */
  lemma {:induction false} ReportAfterAlertGen(g: Graph, stage: Stage, s: State, fuel: nat)
    requires ReportsOnlyAtAlertGen(g)
    requires var t := Trace(Drive(g, stage, s, fuel).events); |t| > 0 && t[|t| - 1] == AlertGen
    ensures var f := Drive(g, stage, s, fuel).final;
      f.structuredReport.Some? && f.finalActionPlan.Some? && f.incidentSeverity.Some?
    decreases fuel
  {
    var u := g.node(stage, s).value;
    var s1 := Apply(s, u);
    var n1 := g.edge(stage, s1).value;
    var r1 := Drive(g, n1, s1, fuel - 1);
    assert Drive(g, stage, s, fuel).events == [Event(stage, u)] + r1.events;
    if r1.events != [] {
      assert Trace(r1.events)[|r1.events| - 1] == AlertGen;
      ReportAfterAlertGen(g, n1, s1, fuel - 1);
    } else {
      assert stage == AlertGen;
      assert r1.final == s1;
    }
  }

  /** A completed run either stopped after triage with no report (the report
      fields as they were given) or went through alert_gen and set them all. */
  lemma CompletedRunReports(init: State, ports: Ports, fuel: nat)
    requires Completed(Run(BuildIncidentGraph(ports), init, fuel))
    ensures var r := Run(BuildIncidentGraph(ports), init, fuel);
      if Trace(r.events) == [Triage] then
        r.final.structuredReport == init.structuredReport && r.final.finalActionPlan == init.finalActionPlan
      else
        r.final.structuredReport.Some? && r.final.finalActionPlan.Some? && r.final.incidentSeverity.Some?
  {
    var g := BuildIncidentGraph(ports);
    IncidentGraphFacts(ports);
    var t := Trace(Run(g, init, fuel).events);
    CompletedRunShape(init, ports, fuel);
    if t == [Triage] {
      NoReportWithoutAlertGen(g, Triage, init, fuel);
    } else {
      AlertGenLastInTail(t[1..]);
      ReportAfterAlertGen(g, Triage, init, fuel);
    }
  }
}
