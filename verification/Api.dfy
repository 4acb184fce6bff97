/** The agent's two entry points: a user message, and the answer to an approval. */
module Api {
  import opened Prelude
  import opened Conversations
  import opened World
  import opened Orchestrator
  import opened SimpleAgent

  datatype Config = Config(system: string, root: Option<AgentNode>)
  {
    predicate IsSimple() {
      root.None? || (root.value.kind == LLM && root.value.agents == [])
    }
  }

  const APPROVED_TEXT := "[APPROVAL]: Approved"

  const REJECTED_TEXT := "[APPROVAL]: Rejected"

  const ANSWER_APPROVED := "approved"

  const ANSWER_REJECTED := "rejected"

  /** Error answers carry no result; what the handler holds in memory is dropped. */
  datatype Reply = Replied(result: NodeResult) | Error(error: string) | Crashed

  function FromOutcome(o: Outcome): Reply {
    match o
    case Ok(result) => Replied(result)
    case Failed(e) => Error(e)
    case Panicked => Crashed
  }

  /** The pipeline of a tree, from the top or from a saved position. */
  function RunTree(w: World, root: AgentNode, c: Ctx, userMessage: string, resume: Option<Resume>): (Ctx, Outcome) {
    ExecNode(w, root, c, userMessage, resume, [], false)
  }

  function RunSimple(w: World, cfg: Config, c: Ctx): (Ctx, Reply) {
    var (c1, result) := SimpleLoop(w, cfg.system, c, MAX_TOOL_ITERATIONS);
    (c1, Replied(result))
  }

  function ProcessOrchestrated(w: World, root: AgentNode, c: Ctx, userMessage: string): (Ctx, Reply) {
    var (c1, o) := RunTree(w, root, c.(values := map[]), userMessage, None);
    match o
    case Ok(result) => (Save(c1), Replied(result))
    case Failed(e) =>
      var text := w.render(PipelineError(e));
      (Save(c1.Say([Text(RoleAssistant, text)])), Replied(Plain(text)))
    case Panicked => (c1, Crashed)
  }

  function ProcessMessage(w: World, cfg: Config, c: Ctx, userMessage: string): (Ctx, Reply) {
    if c.conv.status == WaitingApproval then
      (c, Replied(NodeResult(w.render(AlreadyWaiting), true, false, false)))
    else
      var c1 := c.Say([Text(RoleUser, userMessage)]);
      if cfg.IsSimple() then RunSimple(w, cfg, c1)
      else ProcessOrchestrated(w, cfg.root.value, c1, userMessage)
  }

  /** Resumes the paused pipeline with the approved call's result. After a proxy approval the
      result is put into the session before the run as well as by the resumed node. */
  function ResumePipeline(w: World, cfg: Config, c: Ctx, pl: Pipeline, result: string, viaProxy: bool): (Ctx, Reply) {
    if cfg.root.None? then (c, FromOutcome(Panicked))
    else
      var loaded := c.(values := pl.session);
      var c1 := if viaProxy then loaded.Set(pl.outputKey, result) else loaded;
      var (c2, o) := RunTree(w, cfg.root.value, c1, pl.userMessage, Some(Resume(pl.path, result, pl.outputKey)));
      if o.Ok? then (Save(c2), Replied(o.result)) else (c2, FromOutcome(o))
  }

  function Continue(w: World, cfg: Config, c: Ctx, pl: Option<Pipeline>, result: string, viaProxy: bool): (Ctx, Reply) {
    if pl.Some? then ResumePipeline(w, cfg, c, pl.value, result, viaProxy) else RunSimple(w, cfg, c)
  }

  function LogAt(c: Ctx, pl: Option<Pipeline>, call: Call): Ctx {
    c.(trace := c.trace + [if pl.Some? then Event(pl.value.path, call) else ChatEvent(call)])
  }

  function FromTurn(turn: Turn): (Ctx, Reply)
    requires turn.Over?
  {
    (turn.c, Replied(turn.result))
  }

  function Cleared(c: Ctx): Ctx {
    c.(conv := c.conv.ResolveApproval().(pipeline := None))
  }

  function Reject(w: World, c: Ctx, p: Pending, pl: Option<Pipeline>): (Ctx, Reply) {
    var text := w.render(Cancelled);
    var c1 := Save(c.Say([Text(RoleUser, REJECTED_TEXT), Text(RoleAssistant, text)]));
    (if p.IsProxy() && p.remoteAgent in w.clients
     then LogAt(c1, pl, ContinueTask(p.remoteAgent, p.remoteTaskId, ANSWER_REJECTED)) else c1,
     Replied(Plain(text)))
  }

  /** An approved proxy goes to the remote agent; its answer decides what happens here. */
  function ApproveProxy(w: World, cfg: Config, c: Ctx, p: Pending, pl: Option<Pipeline>): (Ctx, Reply) {
    if p.remoteAgent !in w.clients then (c, Error(w.render(AgentMissing("", p.remoteAgent))))
    else
      AfterProxy(w, cfg, LogAt(c, pl, ContinueTask(p.remoteAgent, p.remoteTaskId, ANSWER_APPROVED)), p, pl,
                 w.resumeTask(c.trace, p.remoteAgent, p.remoteTaskId, ANSWER_APPROVED))
  }

  function AfterProxy(w: World, cfg: Config, c: Ctx, p: Pending, pl: Option<Pipeline>,
                      reply: RemoteReply): (Ctx, Reply) {
    match reply
    case RemoteError(e) => (c, Error(w.render(ApprovalFailed(e))))
    case RemoteTask(task) =>
      match task.state
      case InputRequired =>
        FromTurn(RequestApproval(w, c, p.toolName, p.toolArgs, ProxyDescription(w, p.remoteAgent, task), task.id,
                                 p.remoteAgent, []))
      case AuthRequired => FromTurn(AnswerAuth(c, AuthText(w, p.remoteAgent, task)))
      case _ =>
        Continue(w, cfg, c.Say([ResultRecord(p.toolName, task.text, task.state.TaskFailed?)]), pl, task.text, true)
  }

  /** An approved local call is made; a simple agent also survives its failure. */
  function ApproveLocal(w: World, cfg: Config, c: Ctx, p: Pending, pl: Option<Pipeline>): (Ctx, Reply) {
    if HasPrefix(p.toolName, A2A_PREFIX) then
      var agent := TrimPrefix(p.toolName, A2A_PREFIX);
      if agent !in w.clients then (c, Error(w.render(AgentMissing("", agent))))
      else
        var text := MessageArg(p.toolArgs);
        AfterSend(w, cfg, LogAt(c, pl, SendTask(agent, text)), p, pl, w.send(c.trace, agent, text))
    else
      AfterTool(w, cfg, LogAt(c, pl, RunTool(p.toolName, p.toolArgs)), p, pl,
                w.runTool(c.trace, p.toolName, p.toolArgs))
  }

  function AfterTool(w: World, cfg: Config, c: Ctx, p: Pending, pl: Option<Pipeline>, reply: ToolReply): (Ctx, Reply) {
    match reply
    case ToolAuthRequired =>
      var server := if p.toolName in w.tools then w.tools[p.toolName].server else p.toolName;
      FromTurn(AnswerAuth(c, w.render(AuthNeeded("", server))))
    case ToolFailed(e) =>
      if pl.Some? then (c, Error(w.render(ToolBroken("", e))))
      else RunSimple(w, cfg, c.Say([ResultRecord(p.toolName, w.render(ToolBroken("", e)), true)]))
    case ToolOk(text, isError) => Continue(w, cfg, c.Say([ResultRecord(p.toolName, text, isError)]), pl, text, false)
  }

  /** Whatever state the delegated task is in, its text is taken as the result. */
  function AfterSend(w: World, cfg: Config, c: Ctx, p: Pending, pl: Option<Pipeline>,
                     reply: RemoteReply): (Ctx, Reply) {
    match reply
    case RemoteError(e) =>
      if pl.Some? then (c, Error(w.render(AgentFailed("", e))))
      else RunSimple(w, cfg, c.Say([ResultRecord(p.toolName, w.render(AgentFailed("", e)), true)]))
    case RemoteTask(task) =>
      Continue(w, cfg, c.Say([ResultRecord(p.toolName, task.text, task.state.TaskFailed?)]), pl, task.text, false)
  }

  /** c holds the conversation found by the approval's UUID. */
  function ResolveApproval(w: World, cfg: Config, c: Ctx, approved: bool): (Ctx, Reply) {
    if c.conv.pending.None? then (c, Error("no pending approval found"))
    else
      var p, pl := c.conv.pending.value, c.conv.pipeline;
      var c1 := Cleared(c);
      if !approved then Reject(w, c1, p, pl)
      else
        var c2 := c1.Say([Text(RoleUser, APPROVED_TEXT)]);
        if p.IsProxy() then ApproveProxy(w, cfg, c2, p, pl) else ApproveLocal(w, cfg, c2, p, pl)
  }
}
