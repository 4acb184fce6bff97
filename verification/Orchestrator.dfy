/** The orchestration engine as a function of its inputs: what running a tree from a given
    state does. The objects of module Engine are proved to compute it. */
module Orchestrator {
  import opened Prelude
  import opened Conversations
  import opened World

  // ---------- prompt templates ----------

  predicate IsWordChar(c: char) {
    '0' <= c <= '9' || 'A' <= c <= 'Z' || 'a' <= c <= 'z' || c == '_'
  }

  /** The length of the longest prefix of word characters. */
  function WordRun(s: string): (n: nat)
    ensures n <= |s|
    ensures forall k :: 0 <= k < n ==> IsWordChar(s[k])
    ensures n < |s| ==> !IsWordChar(s[n])
  {
    if s != "" && IsWordChar(s[0]) then 1 + WordRun(s[1..]) else 0
  }

  /** The key and the remaining text when s starts with a placeholder. */
  function TakeRef(s: string): (r: Option<(string, string)>)
    ensures r.Some? ==> |r.value.1| < |s|
    ensures r.Some? ==> s == "{" + r.value.0 + "}" + r.value.1
  {
    if s != "" && s[0] == '{' then
      var n := WordRun(s[1..]);
      if 0 < n && 1 + n < |s| && s[1 + n] == '}' then Some((s[1..1 + n], s[n + 2..])) else None
    else None
  }

  /** A reference to an absent or empty key stays as it is written. */
  function RefText(key: string, values: map<string, string>): string {
    if Lookup(values, key) != "" then Lookup(values, key) else "{" + key + "}"
  }

  function ResolveTemplate(tmpl: string, values: map<string, string>): string
    decreases |tmpl|
  {
    if tmpl == "" then ""
    else match TakeRef(tmpl)
      case Some((key, rest)) => RefText(key, values) + ResolveTemplate(rest, values)
      case None => tmpl[..1] + ResolveTemplate(tmpl[1..], values)
  }

  // ---------- results ----------

  datatype NodeResult = NodeResult(response: string, waiting: bool, exitLoop: bool, authRequired: bool)
  {
    /** A sequential node returns such a child result at once. */
    predicate Interrupts() {
      waiting || exitLoop || authRequired
    }
  }

  /** Panicked is an index out of range on a resume path. */
  datatype Outcome = Ok(result: NodeResult) | Failed(error: string) | Panicked
  {
    predicate Waits() {
      Ok? && result.waiting
    }

    predicate Stops() {
      !Ok? || result.Interrupts()
    }
  }

  function Plain(response: string): NodeResult {
    NodeResult(response, false, false, false)
  }

  datatype Resume = Resume(path: seq<nat>, toolResult: string, outputKey: string)

  /** Everything a run reads and writes. saved is the stored copy of the conversation. */
  datatype Ctx = Ctx(
    values: map<string, string>,
    conv: Conv,
    saved: Conv,
    trace: seq<Event>,
    nextId: Id)
  {
    function Set(key: string, value: string): Ctx {
      if key != "" then this.(values := values[key := value]) else this
    }

    function Say(more: seq<Message>): Ctx {
      this.(conv := conv.Append(more))
    }
  }

  // ---------- leaves ----------

  /** What a leaf does once its prompt is resolved: the calls it makes, the records it
      appends, the output it stores and how it ends. */
  datatype Act = Act(calls: seq<Call>, notes: seq<Message>, out: Option<string>, end: End)

  datatype End =
    | Reply(result: NodeResult)
    | Abort(error: string)
    | Pause(tool: string, args: Args, description: string, remoteTaskId: Id, remoteAgent: string)

  function Note(w: World, notice: Notice): Message {
    Text(RoleAssistant, w.render(notice))
  }

  function ModelCall(node: AgentNode, prompt: string, userMessage: string): Call {
    AskModel(node.model, prompt, [LlmMessage(UserTurn, userMessage)], NodeOffer(node.a2a, node.canExitLoop))
  }

  function LlmAct(w: World, node: AgentNode, path: seq<nat>, hist: seq<Event>, prompt: string, userMessage: string,
                  allow: bool): Act {
    if !w.modelReady(node.model) then
      Act([], [], None, Abort(w.render(ModelUnavailable(node.name))))
    else
      var ask := ModelCall(node, prompt, userMessage);
      match w.llm(hist, ask)
      case LlmError(e) =>
        var error := w.render(ModelFailed(node.name, e));
        Act([ask], [Text(RoleAssistant, error)], None, Reply(Plain(error)))
      case LlmText(text) =>
        Act([ask], [Note(w, Prefixed(node.name, text))], Some(text), Reply(Plain(text)))
      case LlmTool(name, args) =>
        if name == EXIT_LOOP then
          Act([ask], [Note(w, ExitLoopCalled(node.name))], None, Reply(NodeResult("", false, true, false)))
        else if HasPrefix(name, A2A_PREFIX) then
          LlmDelegate(w, node, path, hist + [Event(path, ask)], ask, name, args, allow)
        else
          LlmUseTool(w, node, path, hist + [Event(path, ask)], ask, name, args, allow)
  }

  function LlmDelegate(w: World, node: AgentNode, path: seq<nat>, hist: seq<Event>, ask: Call, name: string,
                      args: Args, allow: bool): Act {
    var agent := TrimPrefix(name, A2A_PREFIX);
    if agent !in w.clients then
      var error := w.render(AgentMissing(node.name, agent));
      Act([ask], [Text(RoleAssistant, error)], None, Reply(Plain(error)))
    else if w.clients[agent] && !allow then
      Act([ask], [], None, Pause(name, args, w.render(DelegateRequest(node.name, agent, "")), NO_ID, ""))
    else
      var text := MessageArg(args);
      Delegate(w, node, hist, [ask], agent, name, args, text, false)
  }

  /** The shared tail of a delegation, from SendMessage on. An a2a node also logs the result. */
  function Delegate(w: World, node: AgentNode, hist: seq<Event>, before: seq<Call>, agent: string, name: string,
                    args: Args, text: string, log: bool): Act {
    var calls := before + [SendTask(agent, text)];
    var called := [CallRecord(name, args)];
    match w.send(hist, agent, text)
    case RemoteError(e) =>
      var error := w.render(AgentFailed(node.name, e));
      Act(calls, called + [ResultRecord(name, error, true)], None, Reply(Plain(error)))
    case RemoteTask(task) =>
      match task.state
      case InputRequired =>
        Act(calls, called, None, Pause(name, args, w.render(ProxyRequest(node.name, agent, "")), task.id, agent))
      case AuthRequired =>
        var response := if task.message.Some? then task.message.value else w.render(AuthNeeded(node.name, agent));
        Act(calls, called + [Text(RoleAssistant, response)], None, Reply(NodeResult(response, false, false, true)))
      case _ =>
        Act(calls,
            called + [ResultRecord(name, task.text, task.state.TaskFailed?)]
            + (if log then [Note(w, Prefixed(node.name, task.text))] else []),
            Some(task.text), Reply(Plain(task.text)))
  }

  function LlmUseTool(w: World, node: AgentNode, path: seq<nat>, hist: seq<Event>, ask: Call, name: string,
                      args: Args, allow: bool): Act {
    if name !in w.tools then
      var error := w.render(ToolMissing(node.name, name));
      Act([ask], [Text(RoleAssistant, error)], None, Reply(Plain(error)))
    else if w.tools[name].destructive && !allow then
      Act([ask], [CallRecord(name, args)], None, Pause(name, args, w.render(ToolRequest(name, args)), NO_ID, ""))
    else
      var calls := [ask, RunTool(name, args)];
      var called := [CallRecord(name, args)];
      match w.runTool(hist, name, args)
      case ToolAuthRequired =>
        var response := w.render(AuthNeeded(node.name, w.tools[name].server));
        Act(calls, called + [Text(RoleAssistant, response)], None, Reply(NodeResult(response, false, false, true)))
      case ToolFailed(e) =>
        var error := w.render(ToolBroken(node.name, e));
        Act(calls, called + [ResultRecord(name, error, true)], None, Reply(Plain(error)))
      case ToolOk(text, isError) =>
        Act(calls, called + [ResultRecord(name, text, isError), Note(w, Prefixed(node.name, text))],
            Some(text), Reply(Plain(text)))
  }

  function A2AAct(w: World, node: AgentNode, hist: seq<Event>, prompt: string, userMessage: string, allow: bool): Act {
    var text := if node.prompt != "" then prompt else userMessage;
    if node.name !in w.clients then
      Act([], [], None, Abort(w.render(AgentMissing("", node.name))))
    else
      var name := A2A_PREFIX + node.name;
      var args: Args := map["message" := Str(text)];
      if node.destructiveHint && !allow then
        Act([], [CallRecord(name, args)], None,
            Pause(name, args, w.render(DelegateRequest(node.name, node.name, text)), NO_ID, ""))
      else
        Delegate(w, node, hist, [], node.name, name, args, text, true)
  }

  function LeafAct(w: World, node: AgentNode, path: seq<nat>, hist: seq<Event>, prompt: string, userMessage: string,
                   allow: bool): Act {
    if node.kind == A2A then A2AAct(w, node, hist, prompt, userMessage, allow)
    else LlmAct(w, node, path, hist, prompt, userMessage, allow)
  }

  /** Records the approval, the position to resume from and a copy of the session, and saves. */
  function PauseForApproval(w: World, node: AgentNode, c: Ctx, path: seq<nat>, userMessage: string,
                            p: End): (Ctx, Outcome)
    requires p.Pause?
  {
    var pending := Pending(c.nextId, p.tool, p.args, p.description, p.remoteTaskId, p.remoteAgent);
    var response := w.render(ApprovalNeeded(p.description, c.nextId));
    var conv := c.conv.SetWaiting(pending)
                .(pipeline := Some(Pipeline(path, node.outputKey, c.values, userMessage)))
                .AddMessage(RoleAssistant, response);
    (c.(conv := conv, saved := conv, nextId := c.nextId + 1),
     Ok(NodeResult(response, true, false, false)))
  }

  function Perform(w: World, node: AgentNode, c: Ctx, path: seq<nat>, userMessage: string, act: Act): (Ctx, Outcome) {
    var c1 := c.(trace := c.trace + At(path, act.calls)).Say(act.notes);
    match act.end
    case Abort(error) => (c1, Failed(error))
    case Reply(result) => (if act.out.Some? then c1.Set(node.outputKey, act.out.value) else c1, Ok(result))
    case Pause(_, _, _, _, _) => PauseForApproval(w, node, c1, path, userMessage, act.end)
  }

  function ExecLeaf(w: World, node: AgentNode, c: Ctx, userMessage: string, path: seq<nat>,
                    allow: bool): (Ctx, Outcome) {
    var prompt := ResolveTemplate(node.prompt, c.values);
    Perform(w, node, c, path, userMessage, LeafAct(w, node, path, c.trace, prompt, userMessage, allow))
  }

  /** The paused node stores the approved call's result and replies with it. */
  function ResumeLeaf(w: World, node: AgentNode, c: Ctx, r: Resume): (Ctx, Outcome) {
    (c.Set(r.outputKey, r.toolResult).Say([Note(w, OperationDone(node.name, r.toolResult))]),
     Ok(Plain(r.toolResult)))
  }

  // ---------- trees ----------

  function ExecNode(w: World, node: AgentNode, c: Ctx, userMessage: string, resume: Option<Resume>, path: seq<nat>,
                    allow: bool): (Ctx, Outcome)
    decreases node, 3
  {
    match node.kind
    case Sequential => ExecSequential(w, node, c, userMessage, resume, path, allow)
    case Parallel => ExecParallel(w, node, c, userMessage, path, 0, [])
    case Loop => ExecLoop(w, node, c, userMessage, path, MaxIterations(node), None)
    case _ =>
      if resume.Some? && resume.value.path == [] then ResumeLeaf(w, node, c, resume.value)
      else ExecLeaf(w, node, c, userMessage, path, allow)
  }

  function ExecSequential(w: World, node: AgentNode, c: Ctx, userMessage: string, resume: Option<Resume>,
                      path: seq<nat>, allow: bool): (Ctx, Outcome)
    decreases node, 2
  {
    if resume.Some? && resume.value.path != [] then
      var i := resume.value.path[0];
      if i >= |node.agents| then (c, Panicked)
      else
        var r := resume.value.(path := resume.value.path[1..]);
        var (c1, o) := ExecNode(w, node.agents[i], c, userMessage, Some(r), path + [i], allow);
        if o.Stops() then (c1, o)
        else SeqFrom(w, node, c1, userMessage, path, allow, i + 1, None)
    else SeqFrom(w, node, c, userMessage, path, allow, 0, None)
  }

  function LastOr(last: Option<NodeResult>): Outcome {
    if last.Some? then Ok(last.value) else Ok(Plain(""))
  }

  function SeqFrom(w: World, node: AgentNode, c: Ctx, userMessage: string, path: seq<nat>, allow: bool, i: nat,
                   last: Option<NodeResult>): (Ctx, Outcome)
    requires i <= |node.agents|
    decreases node, 1, |node.agents| - i
  {
    if i == |node.agents| then (c, LastOr(last))
    else
      var (c1, o) := ExecNode(w, node.agents[i], c, userMessage, None, path + [i], allow);
      if o.Stops() then (c1, o)
      else SeqFrom(w, node, c1, userMessage, path, allow, i + 1, Some(o.result))
  }

  function NonEmpty(responses: seq<string>): seq<string> {
    if responses == [] then []
    else (if responses[0] != "" then [responses[0]] else []) + NonEmpty(responses[1..])
  }

  /** The children from i on, in index order: one of the schedules of the concurrent children.
      Module ScheduleProofs compares the others with it. */
  function ExecParallel(w: World, node: AgentNode, c: Ctx, userMessage: string, path: seq<nat>, i: nat,
                      responses: seq<string>): (Ctx, Outcome)
    requires i <= |node.agents|
    decreases node, 1, |node.agents| - i
  {
    if i == |node.agents| then (c, Ok(Plain(Join(NonEmpty(responses), "\n"))))
    else
      var (c1, o) := ExecNode(w, node.agents[i], c, userMessage, None, path + [i], true);
      if !o.Ok? then (c1, o)
      else ExecParallel(w, node, c1, userMessage, path, i + 1, responses + [o.result.response])
  }

  const DEFAULT_LOOP_MAX_ITERATIONS := 10

  function MaxIterations(node: AgentNode): nat {
    if node.maxIterations == 0 then DEFAULT_LOOP_MAX_ITERATIONS
    else if node.maxIterations < 0 then 0
    else node.maxIterations
  }

  datatype Round = Done(last: Option<NodeResult>) | Exit(outcome: Outcome)

  function ExecLoop(w: World, node: AgentNode, c: Ctx, userMessage: string, path: seq<nat>, rounds: nat,
                    last: Option<NodeResult>): (Ctx, Outcome)
    decreases node, 2, rounds
  {
    if rounds == 0 then (c, LastOr(last))
    else
      var (c1, round) := LoopRound(w, node, c, userMessage, path, 0, last);
      match round
      case Exit(o) => (c1, o)
      case Done(last1) => ExecLoop(w, node, c1, userMessage, path, rounds - 1, last1)
  }

  /** One pass over the children from i on. Waiting and auth-required results do not stop it. */
  function LoopRound(w: World, node: AgentNode, c: Ctx, userMessage: string, path: seq<nat>, i: nat,
                     last: Option<NodeResult>): (Ctx, Round)
    requires i <= |node.agents|
    decreases node, 1, |node.agents| - i
  {
    if i == |node.agents| then (c, Done(last))
    else
      var (c1, o) := ExecNode(w, node.agents[i], c, userMessage, None, path + [i], true);
      if !o.Ok? then (c1, Exit(o))
      else if o.result.exitLoop then (c1, Exit(Ok(Plain(o.result.response))))
      else LoopRound(w, node, c1, userMessage, path, i + 1, Some(o.result))
  }

  /** The loop from the middle of a round. */
  function LoopFrom(w: World, node: AgentNode, c: Ctx, userMessage: string, path: seq<nat>, rounds: nat, i: nat,
                    last: Option<NodeResult>): (Ctx, Outcome)
    requires i <= |node.agents| && rounds > 0
  {
    var (c1, round) := LoopRound(w, node, c, userMessage, path, i, last);
    match round
    case Exit(o) => (c1, o)
    case Done(last1) => ExecLoop(w, node, c1, userMessage, path, rounds - 1, last1)
  }
}
