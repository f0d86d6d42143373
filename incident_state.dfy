/** The state threaded through every stage of one workflow run
    (`IncidentState` in backend/utils/incident_state.py), the partial updates
    the stages return, and the reducer that merges an update into the state. */
module IncidentState {
  import opened Wrappers

  /** A tool invocation requested by the diagnosis model. */
  datatype ToolCall = ToolCall(id: string, name: string, args: string)

  /** The conversation turns the workflow stores: a human turn, an assistant
      turn (possibly carrying tool calls) and a tool result. */
  datatype Message =
    | Human(content: string)
    | Ai(content: string, toolCalls: seq<ToolCall>)
    | ToolResult(content: string, toolCallId: string)

  /** An entry of `tool_steps` (name, arguments, result). */
  datatype ToolStep = ToolStep(name: string, args: string, result: string)

  /** The structured incident report (`IncidentReport` in
      backend/agents/alert_generator.py); `severity` is free text. */
  datatype IncidentReport = IncidentReport(
    severity: string,
    location: string,
    rootCause: string,
    actionItems: seq<string>,
    mmsText: string,
    evidence: string)

  /** The workflow state. A key the run never set is `None`;
      `structuredReport == None` also stands for the empty dict `{}`. */
  datatype State = State(
    messages: seq<Message>,
    rawLog: Option<string>,
    toolSteps: Option<seq<ToolStep>>,
    structuredReport: Option<IncidentReport>,
    finalActionPlan: Option<string>,
    incidentSeverity: Option<string>)

  /** The partial state a node returns: `Some` for each key present in the
      returned dict; an absent `messages` key is the empty list. No node can
      return `raw_log`. */
  datatype Update = Update(
    messages: seq<Message>,
    toolSteps: Option<seq<ToolStep>>,
    structuredReport: Option<IncidentReport>,
    finalActionPlan: Option<string>,
    incidentSeverity: Option<string>)

  /** The `operator.add` reducer annotated on `messages`: the earlier history
      is kept untouched as a prefix and the node's messages follow it, in order. */
  function AddMessages(history: seq<Message>, added: seq<Message>): (r: seq<Message>)
    ensures |r| == |history| + |added|
    ensures r[..|history|] == history
    ensures r[|history|..] == added
  {
    history + added
  }

  function Overwrite<T>(current: Option<T>, written: Option<T>): Option<T>
  {
    if written.Some? then written else current
  }

  /** Merging a node's update into the state: `messages` by the reducer,
      every other key written by the node replaced, every key it does not
      write left as it was. */
  function Apply(s: State, u: Update): (r: State)
    ensures r.messages == AddMessages(s.messages, u.messages)
    ensures r.rawLog == s.rawLog
    ensures r.toolSteps == (if u.toolSteps.Some? then u.toolSteps else s.toolSteps)
    ensures r.structuredReport == (if u.structuredReport.Some? then u.structuredReport else s.structuredReport)
    ensures r.finalActionPlan == (if u.finalActionPlan.Some? then u.finalActionPlan else s.finalActionPlan)
    ensures r.incidentSeverity == (if u.incidentSeverity.Some? then u.incidentSeverity else s.incidentSeverity)
  {
    State(
      AddMessages(s.messages, u.messages),
      s.rawLog,
      Overwrite(s.toolSteps, u.toolSteps),
      Overwrite(s.structuredReport, u.structuredReport),
      Overwrite(s.finalActionPlan, u.finalActionPlan),
      Overwrite(s.incidentSeverity, u.incidentSeverity))
  }

  /** An update that writes no message leaves the history as it was. */
  lemma AddNothing(history: seq<Message>)
    ensures AddMessages(history, []) == history
  {
  }

  /** Merging two updates one after the other is merging their concatenation. */
  lemma AddMessagesAssociative(history: seq<Message>, first: seq<Message>, second: seq<Message>)
    ensures AddMessages(AddMessages(history, first), second) == AddMessages(history, first + second)
  {
  }

  /** Prefix order on message histories. */
  predicate IsPrefix(earlier: seq<Message>, later: seq<Message>)
  {
    |earlier| <= |later| && later[..|earlier|] == earlier
  }

  /** A merge never removes or reorders a message, so histories only grow. */
  lemma ApplyExtendsHistory(s: State, u: Update)
    ensures IsPrefix(s.messages, Apply(s, u).messages)
    ensures |Apply(s, u).messages| == |s.messages| + |u.messages|
  {
  }

  lemma {:induction false} IsPrefixTransitive(a: seq<Message>, b: seq<Message>, c: seq<Message>)
    requires IsPrefix(a, b) && IsPrefix(b, c)
    ensures IsPrefix(a, c)
  {
    assert c[..|a|] == c[..|b|][..|a|];
  }
}
