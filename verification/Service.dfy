/** The agent's entry points over the mutable objects: the single-model loop, messages and answers. */
module Service {
  import opened Prelude
  import opened Conversations
  import opened World
  import opened Orchestrator
  import opened Transcript
  import opened SimpleAgent
  import opened Api
  import opened Engine

  class Server {
    const cfg: Config
    const agent: Agent

    constructor (cfg: Config, agent: Agent)
      ensures this.cfg == cfg && this.agent == agent
    {
      this.cfg, this.agent := cfg, agent;
    }

    ghost predicate Stored(conv: Conversation)
      reads agent.storage, conv
    {
      conv.id in agent.storage.convs
    }

    /** What the functions of Api see; there is no session between runs. */
    ghost function View(conv: Conversation): Ctx
      reads agent, agent.storage, conv
      requires Stored(conv)
    {
      Ctx(map[], conv.View(), agent.storage.convs[conv.id], agent.trace, agent.nextId)
    }

    twostate predicate OnlySaved(conv: Conversation)
      reads agent.storage, conv
    {
      && conv.id == old(conv.id) && conv.id in agent.storage.convs
      && agent.storage.convs == old(agent.storage.convs)[conv.id := agent.storage.convs[conv.id]]
    }

    method Say(conv: Conversation, text: string)
      requires Stored(conv)
      modifies agent.storage, conv
      ensures OnlySaved(conv)
      ensures View(conv) == Save(old(View(conv)).Say([Text(RoleAssistant, text)]))
    {
      conv.AddMessage(RoleAssistant, text);
      agent.storage.Save(conv);
    }

    method Request(conv: Conversation, tool: string, args: Args, description: string, taskId: Id, agentName: string,
                   record: bool)
      returns (result: NodeResult)
      requires Stored(conv)
      modifies agent`nextId, agent.storage, conv
      ensures OnlySaved(conv)
      ensures Over(View(conv), result)
              == RequestApproval(agent.w, old(View(conv)), tool, args, description, taskId, agentName,
                                 if record then [CallRecord(tool, args)] else [])
    {
      ghost var before := conv.messages;
      var uuid := agent.nextId;
      agent.nextId := agent.nextId + 1;
      conv.SetWaitingApproval(uuid, tool, args, description);
      conv.SetRemote(taskId, agentName);
      if record {
        conv.AddToolCall(tool, args);
      }
      var response := agent.w.render(ApprovalNeeded(description, uuid));
      conv.AddMessage(RoleAssistant, response);
      assert conv.messages
             == before + ((if record then [CallRecord(tool, args)] else []) + [Text(RoleAssistant, response)]);
      agent.storage.Save(conv);
      result := NodeResult(response, true, false, false);
    }

    /** One pass through the loop body: nothing when the loop goes on. */
    method TurnOnce(conv: Conversation) returns (over: Option<NodeResult>)
      requires Stored(conv)
      modifies agent, agent.storage, conv
      ensures OnlySaved(conv)
      ensures AskedOracle(agent.w, TakeTurn(agent.w, cfg.system, old(View(conv))))
              == if over.Some? then Over(View(conv), over.value) else Again(View(conv))
    {
      var messages := ConvertToLLMMessages(conv.messages);
      var ask := AskModel("", cfg.system, messages, FullOffer);
      var reply := agent.w.llm(agent.trace, ask);
      agent.trace := agent.trace + [ChatEvent(ask)];
      match reply
      case LlmError(e) =>
        var errorMsg := agent.w.render(ModelFailed("", e));
        Say(conv, errorMsg);
        over := Some(Plain(errorMsg));
      case LlmText(text) =>
        Say(conv, text);
        over := Some(Plain(text));
      case LlmTool(tool, args) =>
        if HasPrefix(tool, A2A_PREFIX) {
          over := DelegateTurn(conv, tool, args);
        } else {
          over := ToolTurn(conv, tool, args);
        }
    }

    /** The a2a_ branch of the loop body. */
    method DelegateTurn(conv: Conversation, tool: string, args: Args) returns (over: Option<NodeResult>)
      requires Stored(conv)
      modifies agent, agent.storage, conv
      ensures OnlySaved(conv)
      ensures AskedOracle(agent.w, DelegateStep(agent.w, old(View(conv)), tool, args))
              == if over.Some? then Over(View(conv), over.value) else Again(View(conv))
    {
      var agentName := TrimPrefix(tool, A2A_PREFIX);
      if agentName !in agent.w.clients {
        var errorMsg := agent.w.render(AgentMissing("", agentName));
        Say(conv, errorMsg);
        return Some(Plain(errorMsg));
      }
      if agent.w.clients[agentName] {
        var result := Request(conv, tool, args, agent.w.render(DelegateRequest("", agentName, MessageArg(args))), NO_ID,
                              "", true);
        return Some(result);
      }
      var message := MessageArg(args);
      conv.AddToolCall(tool, args);
      var reply := agent.w.send(agent.trace, agentName, message);
      agent.trace := agent.trace + [ChatEvent(SendTask(agentName, message))];
      over := TakeReply(conv, agentName, tool, args, reply);
    }

    method TakeReply(conv: Conversation, agentName: string, tool: string, args: Args,
                     reply: RemoteReply) returns (over: Option<NodeResult>)
      requires Stored(conv)
      modifies agent, agent.storage, conv
      ensures OnlySaved(conv)
      ensures AfterReply(agent.w, old(View(conv)), agentName, tool, args, reply)
              == if over.Some? then Over(View(conv), over.value) else Again(View(conv))
    {
      match reply
      case RemoteError(e) =>
        conv.AddToolResult(tool, agent.w.render(AgentFailed("", e)), true);
        over := None;
      case RemoteTask(task) =>
        if task.state.InputRequired? {
          var result := Request(conv, tool, args, ProxyDescription(agent.w, agentName, task), task.id, agentName,
                                false);
          over := Some(result);
        } else if task.state.AuthRequired? {
          var response := AuthText(agent.w, agentName, task);
          Say(conv, response);
          over := Some(NodeResult(response, false, false, true));
        } else {
          conv.AddToolResult(tool, task.text, task.state.TaskFailed?);
          over := None;
        }
    }

    /** The MCP branch of the loop body. */
    method ToolTurn(conv: Conversation, tool: string, args: Args) returns (over: Option<NodeResult>)
      requires Stored(conv)
      modifies agent, agent.storage, conv
      ensures OnlySaved(conv)
      ensures ToolStep(agent.w, old(View(conv)), tool, args)
              == if over.Some? then Over(View(conv), over.value) else Again(View(conv))
    {
      if tool !in agent.w.tools {
        var errorMsg := agent.w.render(ToolMissing("", tool));
        Say(conv, errorMsg);
        return Some(Plain(errorMsg));
      }
      if agent.w.tools[tool].destructive {
        var result := Request(conv, tool, args, agent.w.render(ToolRequest(tool, args)), NO_ID, "", true);
        return Some(result);
      }
      conv.AddToolCall(tool, args);
      var reply := agent.w.runTool(agent.trace, tool, args);
      agent.trace := agent.trace + [ChatEvent(RunTool(tool, args))];
      match reply
      case ToolAuthRequired =>
        var response := agent.w.render(AuthNeeded("", agent.w.tools[tool].server));
        Say(conv, response);
        over := Some(NodeResult(response, false, false, true));
      case ToolFailed(e) =>
        conv.AddToolResult(tool, agent.w.render(ToolBroken("", e)), true);
        over := None;
      case ToolOk(text, isError) =>
        conv.AddToolResult(tool, text, isError);
        over := None;
    }

    /** The rest of the loop after one round, which left after. */
    lemma RoundLeaves(before: Ctx, after: Ctx, over: Option<NodeResult>, rounds: nat)
      requires rounds > 0
      requires AskedOracle(agent.w, TakeTurn(agent.w, cfg.system, before))
               == if over.Some? then Over(after, over.value) else Again(after)
      ensures SimpleLoop(agent.w, cfg.system, before, rounds)
              == if over.Some? then (after, over.value) else SimpleLoop(agent.w, cfg.system, after, rounds - 1)
    {
      SimpleLoopStep(agent.w, cfg.system, before, rounds, AskedOracle(agent.w, TakeTurn(agent.w, cfg.system, before)));
    }

    method ProcessSimpleMessage(conv: Conversation) returns (result: NodeResult)
      requires Stored(conv)
      modifies agent, agent.storage, conv
      ensures OnlySaved(conv)
      ensures (View(conv), result) == SimpleLoop(agent.w, cfg.system, old(View(conv)), MAX_TOOL_ITERATIONS)
    {
      hide TakeTurn, AskedOracle, SimpleLoop;
      ghost var total := SimpleLoop(agent.w, cfg.system, View(conv), MAX_TOOL_ITERATIONS);
      for round := 0 to MAX_TOOL_ITERATIONS
        invariant OnlySaved(conv)
        invariant SimpleLoop(agent.w, cfg.system, View(conv), MAX_TOOL_ITERATIONS - round) == total
      {
        ghost var before := View(conv);
        var over := TurnOnce(conv);
        RoundLeaves(before, View(conv), over, MAX_TOOL_ITERATIONS - round);
        if over.Some? {
          return over.value;
        }
      }
      result := SayCap(conv);
    }

    method SayCap(conv: Conversation) returns (result: NodeResult)
      requires Stored(conv)
      modifies agent.storage, conv
      ensures OnlySaved(conv)
      ensures (View(conv), result) == SimpleLoop(agent.w, cfg.system, old(View(conv)), 0)
    {
      SimpleLoopEnds(agent.w, cfg.system, View(conv));
      var response := agent.w.render(IterationCap);
      Say(conv, response);
      result := Plain(response);
    }

    /** Runs the tree on a session of its own and saves what it did. */
    method RunPipeline(root: AgentNode, conv: Conversation, session: map<string, string>, userMessage: string,
                       resume: Option<Resume>)
      returns (o: Outcome)
      requires Stored(conv)
      modifies agent, agent.storage, conv
      ensures OnlySaved(conv)
      ensures var (c, o1) := RunTree(agent.w, root, old(View(conv)).(values := session), userMessage, resume);
              o == o1 && View(conv) == c.(values := map[])
    {
      var state := new SessionState();
      state.Load(session);
      assert map[] + session == session;
      o := agent.ExecuteNode(root, state, userMessage, conv, resume, [], false);
    }

    method ProcessOrchestrated(root: AgentNode, conv: Conversation, userMessage: string) returns (reply: Reply)
      requires Stored(conv)
      modifies agent, agent.storage, conv
      ensures OnlySaved(conv)
      ensures Answers((View(conv), reply), Api.ProcessOrchestrated(agent.w, root, old(View(conv)), userMessage))
    {
      var o := RunPipeline(root, conv, map[], userMessage, None);
      match o
      case Panicked => reply := Crashed;
      case Failed(e) =>
        var errorMsg := agent.w.render(PipelineError(e));
        Say(conv, errorMsg);
        reply := Replied(Plain(errorMsg));
      case Ok(result) =>
        agent.storage.Save(conv);
        reply := Replied(result);
    }

    /** Equal but for the session, which does not outlive the run. */
    ghost predicate Answers(a: (Ctx, Reply), b: (Ctx, Reply)) {
      a.0 == b.0.(values := map[]) && a.1 == b.1
    }

    method ProcessMessage(conv: Conversation, userMessage: string) returns (reply: Reply)
      requires Stored(conv)
      modifies agent, agent.storage, conv
      ensures OnlySaved(conv)
      ensures Answers((View(conv), reply), Api.ProcessMessage(agent.w, cfg, old(View(conv)), userMessage))
    {
      if conv.status == WaitingApproval {
        return Replied(NodeResult(agent.w.render(AlreadyWaiting), true, false, false));
      }
      conv.AddMessage(RoleUser, userMessage);
      if cfg.IsSimple() {
        SimpleKeepsSession(agent.w, cfg.system, View(conv), MAX_TOOL_ITERATIONS);
        var result := ProcessSimpleMessage(conv);
        reply := Replied(result);
      } else {
        reply := ProcessOrchestrated(cfg.root.value, conv, userMessage);
      }
    }

    lemma TurnKeepsSession(w: World, system: string, c: Ctx)
      ensures AskedOracle(w, TakeTurn(w, system, c)).c.values == c.values
    {
    }

    lemma {:induction false} SimpleKeepsSession(w: World, system: string, c: Ctx, rounds: nat)
      ensures SimpleLoop(w, system, c, rounds).0.values == c.values
      decreases rounds
    {
      hide SimpleLoop, AskedOracle, TakeTurn;
      if rounds == 0 {
        SimpleLoopEnds(w, system, c);
      } else {
        var asked := AskedOracle(w, TakeTurn(w, system, c));
        TurnKeepsSession(w, system, c);
        SimpleLoopStep(w, system, c, rounds, asked);
        if asked.Again? {
          SimpleKeepsSession(w, system, asked.c, rounds - 1);
        }
      }
    }

    // ---------- answers to approvals ----------

    method RunOn(conv: Conversation) returns (reply: Reply)
      requires Stored(conv)
      modifies agent, agent.storage, conv
      ensures OnlySaved(conv)
      ensures Answers((View(conv), reply), RunSimple(agent.w, cfg, old(View(conv))))
    {
      SimpleKeepsSession(agent.w, cfg.system, View(conv), MAX_TOOL_ITERATIONS);
      var result := ProcessSimpleMessage(conv);
      reply := Replied(result);
    }

    /** Goes on with the approved call's result: the paused pipeline, or the loop. */
    method GoOn(conv: Conversation, pl: Option<Pipeline>, result: string, viaProxy: bool) returns (reply: Reply)
      requires Stored(conv)
      modifies agent, agent.storage, conv
      ensures OnlySaved(conv)
      ensures Answers((View(conv), reply), Continue(agent.w, cfg, old(View(conv)), pl, result, viaProxy))
    {
      if pl.None? {
        reply := RunOn(conv);
      } else if cfg.root.None? {
        reply := Crashed;
      } else {
        var session := pl.value.session;
        if viaProxy && pl.value.outputKey != "" {
          session := session[pl.value.outputKey := result];
        }
        var o := RunPipeline(cfg.root.value, conv, session, pl.value.userMessage,
                             Some(Resume(pl.value.path, result, pl.value.outputKey)));
        if o.Ok? {
          agent.storage.Save(conv);
          reply := Replied(o.result);
        } else {
          reply := FromOutcome(o);
        }
      }
    }

    method LogCall(pl: Option<Pipeline>, call: Call)
      modifies agent`trace
      ensures agent.trace == old(agent.trace) + [if pl.Some? then Event(pl.value.path, call) else ChatEvent(call)]
    {
      agent.trace := agent.trace + [if pl.Some? then Event(pl.value.path, call) else ChatEvent(call)];
    }

    method SayAuth(conv: Conversation, response: string) returns (reply: Reply)
      requires Stored(conv)
      modifies agent.storage, conv
      ensures OnlySaved(conv)
      ensures (View(conv), reply) == FromTurn(AnswerAuth(old(View(conv)), response))
    {
      Say(conv, response);
      reply := Replied(NodeResult(response, false, false, true));
    }

    method AfterProxyReply(conv: Conversation, p: Pending, pl: Option<Pipeline>, remote: RemoteReply)
      returns (reply: Reply)
      requires Stored(conv)
      modifies agent, agent.storage, conv
      ensures OnlySaved(conv)
      ensures Answers((View(conv), reply), AfterProxy(agent.w, cfg, old(View(conv)), p, pl, remote))
    {
      match remote
      case RemoteError(e) => reply := Error(agent.w.render(ApprovalFailed(e)));
      case RemoteTask(task) =>
        if task.state.InputRequired? {
          var result := Request(conv, p.toolName, p.toolArgs, ProxyDescription(agent.w, p.remoteAgent, task), task.id,
                                p.remoteAgent, false);
          reply := Replied(result);
        } else if task.state.AuthRequired? {
          reply := SayAuth(conv, AuthText(agent.w, p.remoteAgent, task));
        } else {
          conv.AddToolResult(p.toolName, task.text, task.state.TaskFailed?);
          reply := GoOn(conv, pl, task.text, true);
        }
    }

    method AfterToolReply(conv: Conversation, p: Pending, pl: Option<Pipeline>, tool: ToolReply) returns (reply: Reply)
      requires Stored(conv)
      modifies agent, agent.storage, conv
      ensures OnlySaved(conv)
      ensures Answers((View(conv), reply), AfterTool(agent.w, cfg, old(View(conv)), p, pl, tool))
    {
      match tool
      case ToolAuthRequired =>
        var server := if p.toolName in agent.w.tools then agent.w.tools[p.toolName].server else p.toolName;
        reply := SayAuth(conv, agent.w.render(AuthNeeded("", server)));
      case ToolFailed(e) =>
        if pl.Some? {
          reply := Error(agent.w.render(ToolBroken("", e)));
        } else {
          conv.AddToolResult(p.toolName, agent.w.render(ToolBroken("", e)), true);
          reply := RunOn(conv);
        }
      case ToolOk(text, isError) =>
        conv.AddToolResult(p.toolName, text, isError);
        reply := GoOn(conv, pl, text, false);
    }

    method AfterSendReply(conv: Conversation, p: Pending, pl: Option<Pipeline>, remote: RemoteReply)
      returns (reply: Reply)
      requires Stored(conv)
      modifies agent, agent.storage, conv
      ensures OnlySaved(conv)
      ensures Answers((View(conv), reply), AfterSend(agent.w, cfg, old(View(conv)), p, pl, remote))
    {
      match remote
      case RemoteError(e) =>
        if pl.Some? {
          reply := Error(agent.w.render(AgentFailed("", e)));
        } else {
          conv.AddToolResult(p.toolName, agent.w.render(AgentFailed("", e)), true);
          reply := RunOn(conv);
        }
      case RemoteTask(task) =>
        conv.AddToolResult(p.toolName, task.text, task.state.TaskFailed?);
        reply := GoOn(conv, pl, task.text, false);
    }

    /** conv is the conversation the approval's UUID was found in. */
    method ResolveApproval(conv: Conversation, approved: bool) returns (reply: Reply)
      requires Stored(conv)
      modifies agent, agent.storage, conv
      ensures OnlySaved(conv)
      ensures Answers((View(conv), reply), Api.ResolveApproval(agent.w, cfg, old(View(conv)), approved))
    {
      if conv.pending.None? {
        return Error("no pending approval found");
      }
      var p, pl := conv.pending.value, conv.pipeline;
      conv.ResolveApproval();
      conv.pipeline := None;
      if !approved {
        reply := RejectIt(conv, p, pl);
        return;
      }
      conv.AddMessage(RoleUser, APPROVED_TEXT);
      if p.IsProxy() {
        if p.remoteAgent !in agent.w.clients {
          return Error(agent.w.render(AgentMissing("", p.remoteAgent)));
        }
        var remote := agent.w.resumeTask(agent.trace, p.remoteAgent, p.remoteTaskId, ANSWER_APPROVED);
        LogCall(pl, ContinueTask(p.remoteAgent, p.remoteTaskId, ANSWER_APPROVED));
        reply := AfterProxyReply(conv, p, pl, remote);
      } else {
        reply := ApproveIt(conv, p, pl);
      }
    }

    method ApproveIt(conv: Conversation, p: Pending, pl: Option<Pipeline>) returns (reply: Reply)
      requires Stored(conv)
      modifies agent, agent.storage, conv
      ensures OnlySaved(conv)
      ensures Answers((View(conv), reply), ApproveLocal(agent.w, cfg, old(View(conv)), p, pl))
    {
      if HasPrefix(p.toolName, A2A_PREFIX) {
        var agentName := TrimPrefix(p.toolName, A2A_PREFIX);
        if agentName !in agent.w.clients {
          return Error(agent.w.render(AgentMissing("", agentName)));
        }
        var message := MessageArg(p.toolArgs);
        var remote := agent.w.send(agent.trace, agentName, message);
        LogCall(pl, SendTask(agentName, message));
        reply := AfterSendReply(conv, p, pl, remote);
      } else {
        var tool := agent.w.runTool(agent.trace, p.toolName, p.toolArgs);
        LogCall(pl, RunTool(p.toolName, p.toolArgs));
        reply := AfterToolReply(conv, p, pl, tool);
      }
    }

    /** The rejection is saved before it is forwarded. */
    method RejectIt(conv: Conversation, p: Pending, pl: Option<Pipeline>) returns (reply: Reply)
      requires Stored(conv)
      modifies agent, agent.storage, conv
      ensures OnlySaved(conv)
      ensures Answers((View(conv), reply), Reject(agent.w, old(View(conv)), p, pl))
    {
      ghost var before := conv.messages;
      var response := agent.w.render(Cancelled);
      conv.AddMessage(RoleUser, REJECTED_TEXT);
      conv.AddMessage(RoleAssistant, response);
      assert conv.messages == before + [Text(RoleUser, REJECTED_TEXT), Text(RoleAssistant, response)];
      agent.storage.Save(conv);
      if p.IsProxy() && p.remoteAgent in agent.w.clients {
        LogCall(pl, ContinueTask(p.remoteAgent, p.remoteTaskId, ANSWER_REJECTED));
      }
      reply := Replied(Plain(response));
    }

    /** Finds the waiting conversation, loads it and answers; an unknown UUID changes nothing. */
    method AnswerApproval(uuid: Id, approved: bool) returns (conv: Option<Conversation>, reply: Reply)
      requires forall id :: id in agent.storage.convs ==> agent.storage.convs[id].id == id
      modifies agent, agent.storage
      ensures conv.None? ==>
                && unchanged(agent) && unchanged(agent.storage) && reply.Error?
                && forall id :: id in agent.storage.convs ==>
                     agent.storage.convs[id].pending.None? || agent.storage.convs[id].pending.value.uuid != uuid
      ensures conv.Some? ==>
                && fresh(conv.value) && Stored(conv.value) && conv.value.id in old(agent.storage.convs)
                && var c := old(agent.storage.convs)[conv.value.id];
                  && c.pending.Some? && c.pending.value.uuid == uuid
                  && agent.storage.convs == old(agent.storage.convs)[c.id := agent.storage.convs[c.id]]
                  && Answers((View(conv.value), reply),
                             Api.ResolveApproval(agent.w, cfg, Ctx(map[], c, c, old(agent.trace), old(agent.nextId)),
                                                 approved))
    {
      var found := agent.storage.FindByApprovalUUID(uuid);
      if found.None? {
        return None, Error("no conversation found with approval UUID");
      }
      var c := new Conversation.Load(found.value);
      reply := ResolveApproval(c, approved);
      conv := Some(c);
    }
  }
}
