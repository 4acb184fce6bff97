/** The single-model agent: ask the model, run one tool, ask again. */
module SimpleAgent {
  import opened Prelude
  import opened Conversations
  import opened World
  import opened Orchestrator
  import opened Transcript

  const MAX_TOOL_ITERATIONS := 10

  /** How one model call ends: the loop goes on, the turn is over, or a remote agent is asked. */
  datatype Turn =
    | Again(c: Ctx)
    | Over(c: Ctx, result: NodeResult)
    | Ask(c: Ctx, agent: string, text: string, tool: string, args: Args)

  function Save(c: Ctx): Ctx {
    c.(saved := c.conv)
  }

  /** Adds an assistant message, saves, and answers with that message. */
  function Answer(c: Ctx, text: string): Turn {
    Over(Save(c.Say([Text(RoleAssistant, text)])), Plain(text))
  }

  function AnswerAuth(c: Ctx, text: string): Turn {
    Over(Save(c.Say([Text(RoleAssistant, text)])), NodeResult(text, false, false, true))
  }

  /** Sets the pending approval, then the given records, then the request for approval. */
  function RequestApproval(w: World, c: Ctx, tool: string, args: Args, description: string, taskId: Id, agent: string,
                      records: seq<Message>): Turn {
    var response := w.render(ApprovalNeeded(description, c.nextId));
    var conv := c.conv.SetWaiting(Pending(c.nextId, tool, args, description, taskId, agent))
                .Append(records + [Text(RoleAssistant, response)]);
    Over(c.(conv := conv, saved := conv, nextId := c.nextId + 1), NodeResult(response, true, false, false))
  }

  function ModelAsk(system: string, c: Ctx): Call {
    AskModel("", system, LlmMessages(c.conv.messages), FullOffer)
  }

  function Log(c: Ctx, call: Call): Ctx {
    c.(trace := c.trace + [ChatEvent(call)])
  }

  /** A call to a remote agent, up to asking it. */
  function DelegateStep(w: World, c: Ctx, tool: string, args: Args): Turn {
    var agent := TrimPrefix(tool, A2A_PREFIX);
    if agent !in w.clients then Answer(c, w.render(AgentMissing("", agent)))
    else if w.clients[agent] then
      RequestApproval(w, c, tool, args, w.render(DelegateRequest("", agent, MessageArg(args))), NO_ID, "",
                      [CallRecord(tool, args)])
    else Ask(c.Say([CallRecord(tool, args)]), agent, MessageArg(args), tool, args)
  }

  function ToolStep(w: World, c: Ctx, tool: string, args: Args): Turn {
    if tool !in w.tools then Answer(c, w.render(ToolMissing("", tool)))
    else if w.tools[tool].destructive then
      RequestApproval(w, c, tool, args, w.render(ToolRequest(tool, args)), NO_ID, "", [CallRecord(tool, args)])
    else
      ToolReplied(w, Log(c.Say([CallRecord(tool, args)]), RunTool(tool, args)), tool, w.runTool(c.trace, tool, args))
  }

  /** A tool's failure is a result like any other; a demand for authentication ends the turn. */
  function ToolReplied(w: World, c: Ctx, tool: string, reply: ToolReply): Turn
    requires tool in w.tools
  {
    match reply
    case ToolAuthRequired => AnswerAuth(c, w.render(AuthNeeded("", w.tools[tool].server)))
    case ToolFailed(e) => Again(c.Say([ResultRecord(tool, w.render(ToolBroken("", e)), true)]))
    case ToolOk(text, isError) => Again(c.Say([ResultRecord(tool, text, isError)]))
  }

  /** One round of the loop, up to the reply of a remote agent if one is asked. */
  function TakeTurn(w: World, system: string, c: Ctx): Turn {
    var ask := ModelAsk(system, c);
    var c1 := Log(c, ask);
    match w.llm(c.trace, ask)
    case LlmError(e) => Answer(c1, w.render(ModelFailed("", e)))
    case LlmText(text) => Answer(c1, text)
    case LlmTool(tool, args) =>
      if HasPrefix(tool, A2A_PREFIX) then DelegateStep(w, c1, tool, args) else ToolStep(w, c1, tool, args)
  }

  /** What the agent makes of a remote agent's reply. */
  function AfterReply(w: World, c: Ctx, agent: string, tool: string, args: Args, reply: RemoteReply): Turn {
    match reply
    case RemoteError(e) => Again(c.Say([ResultRecord(tool, w.render(AgentFailed("", e)), true)]))
    case RemoteTask(task) =>
      match task.state
      case InputRequired =>
        RequestApproval(w, c, tool, args, ProxyDescription(w, agent, task), task.id, agent, [])
      case AuthRequired => AnswerAuth(c, AuthText(w, agent, task))
      case _ => Again(c.Say([ResultRecord(tool, task.text, task.state.TaskFailed?)]))
  }

  function ProxyDescription(w: World, agent: string, task: Task): string {
    w.render(ProxyRequest("", agent, if task.message.Some? then task.message.value else ""))
  }

  function AuthText(w: World, agent: string, task: Task): string {
    if task.message.Some? then task.message.value else w.render(AuthNeeded("", agent))
  }

  /** The loop with remote agents as oracles. */
  function SimpleLoop(w: World, system: string, c: Ctx, rounds: nat): (Ctx, NodeResult)
    decreases rounds
  {
    if rounds == 0 then
      var over := Answer(c, w.render(IterationCap));
      (over.c, over.result)
    else
      match AskedOracle(w, TakeTurn(w, system, c))
      case Again(c1) => SimpleLoop(w, system, c1, rounds - 1)
      case Over(c1, result) => (c1, result)
      case Ask(c1, _, _, _, _) => (c1, Plain(""))
  }

  /** Sends the turn's question, if it has one, to the oracle. */
  function AskedOracle(w: World, turn: Turn): (r: Turn)
    ensures !r.Ask?
  {
    if turn.Ask? then
      AfterReply(w, Log(turn.c, SendTask(turn.agent, turn.text)), turn.agent, turn.tool, turn.args,
                 w.send(turn.c.trace, turn.agent, turn.text))
    else turn
  }

  /** The loop, one round at a time. */
  lemma SimpleLoopStep(w: World, system: string, c: Ctx, rounds: nat, asked: Turn)
    requires rounds > 0 && asked == AskedOracle(w, TakeTurn(w, system, c))
    ensures asked.Again? ==> SimpleLoop(w, system, c, rounds) == SimpleLoop(w, system, asked.c, rounds - 1)
    ensures asked.Over? ==> SimpleLoop(w, system, c, rounds) == (asked.c, asked.result)
    ensures !asked.Ask?
  {
  }

  lemma SimpleLoopEnds(w: World, system: string, c: Ctx)
    ensures SimpleLoop(w, system, c, 0)
            == (Answer(c, w.render(IterationCap)).c, Answer(c, w.render(IterationCap)).result)
  {
  }
}
