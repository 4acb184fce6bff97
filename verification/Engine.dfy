/** The agent object: it mutates the session, the conversation and the store as it runs, and
    computes what the functions of Orchestrator say. */
module Engine {
  import opened Prelude
  import opened Conversations
  import opened World
  import opened Orchestrator

  class SessionState {
    var values: map<string, string>

    constructor ()
      ensures values == map[]
    {
      values := map[];
    }

    method Get(key: string) returns (value: string)
      ensures value == Lookup(values, key)
    {
      value := if key in values then values[key] else "";
    }

    method Set(key: string, value: string)
      modifies this
      ensures values == old(values)[key := value]
    {
      values := values[key := value];
    }

    /** Adds to what is there, as a resumed run does to an empty state. */
    method Load(data: map<string, string>)
      modifies this
      ensures values == old(values) + data
    {
      values := values + data;
    }
  }

  /** The stored conversations, by id. */
  class Storage {
    var convs: map<Id, Conv>

    method Save(conv: Conversation)
      modifies this
      ensures convs == old(convs)[conv.id := conv.View()]
    {
      convs := convs[conv.id := conv.View()];
    }

    /** Scans the stored conversations for the one whose pending approval has this UUID. */
    method FindByApprovalUUID(uuid: Id) returns (r: Option<Conv>)
      ensures r.Some? ==>
                exists id ::
                  id in convs && convs[id] == r.value && r.value.pending.Some? && r.value.pending.value.uuid == uuid
      ensures r.None? ==> forall id :: id in convs && convs[id].pending.Some? ==> convs[id].pending.value.uuid != uuid
    {
      var left := convs.Keys;
      while left != {}
        invariant left <= convs.Keys
        invariant forall id :: id in convs && id !in left && convs[id].pending.Some? ==>
                    convs[id].pending.value.uuid != uuid
        decreases |left|
      {
        var id :| id in left;
        if convs[id].pending.Some? && convs[id].pending.value.uuid == uuid {
          return Some(convs[id]);
        }
        left := left - {id};
      }
      return None;
    }
  }

  // ---------- acts, one call at a time ----------

  lemma DelegateBefore(w: World, node: AgentNode, hist: seq<Event>, ask: Call, agent: string, name: string,
                      args: Args, text: string)
    ensures var act := Delegate(w, node, hist, [], agent, name, args, text, false);
            Delegate(w, node, hist, [ask], agent, name, args, text, false) == act.(calls := [ask] + act.calls)
  {
  }

  /** An act whose first call has already been made. */
  lemma PerformRest(w: World, node: AgentNode, c: Ctx, path: seq<nat>, userMessage: string, ask: Call, act: Act,
                    rest: Act)
    requires act == rest.(calls := [ask] + rest.calls)
    ensures Perform(w, node, c, path, userMessage, act)
            == Perform(w, node, c.(trace := c.trace + [Event(path, ask)]), path, userMessage, rest)
  {
    assert c.trace + At(path, act.calls) == c.trace + [Event(path, ask)] + At(path, rest.calls);
  }

  lemma NonEmptyStep(ordered: seq<string>, i: nat, before: seq<string>)
    requires i < |ordered|
    ensures before + NonEmpty(ordered[i..])
            == (if ordered[i] != "" then before + [ordered[i]] else before) + NonEmpty(ordered[i + 1..])
  {
    assert ordered[i..][0] == ordered[i] && ordered[i..][1..] == ordered[i + 1..];
  }

  lemma NonEmptyEnds(ordered: seq<string>, before: seq<string>)
    ensures before + NonEmpty(ordered[|ordered|..]) == before
  {
  }

  lemma NoText(text: string, values: map<string, string>)
    ensures ResolveTemplate("", values) == "" && "" + ResolveTemplate(text, values) == ResolveTemplate(text, values)
    ensures text + "" == text
  {
  }

  /** The first piece of a template, resolved. */
  lemma PieceResolves(done: string, rest: string, piece: string, after: string, values: map<string, string>)
    requires rest != ""
    requires var ref := TakeRef(rest);
             if ref.Some? then piece == RefText(ref.value.0, values) && after == ref.value.1
             else piece == rest[..1] && after == rest[1..]
    ensures done + ResolveTemplate(rest, values) == (done + piece) + ResolveTemplate(after, values)
  {
    hide WordRun, RefText;
    assert ResolveTemplate(rest, values) == piece + ResolveTemplate(after, values);
    Associate(done, piece, ResolveTemplate(after, values));
  }

  lemma Associate(a: string, b: string, c: string)
    ensures a + (b + c) == (a + b) + c
  {
  }

  class Agent {
    const w: World
    const storage: Storage
    var trace: seq<Event>
    var nextId: Id

    constructor (w: World, storage: Storage)
      ensures this.w == w && this.storage == storage && trace == [] && nextId == 1
    {
      this.w, this.storage := w, storage;
      trace, nextId := [], 1;
    }

    ghost predicate Stored(conv: Conversation)
      reads storage, conv
    {
      conv.id in storage.convs
    }

    /** What the functions of Orchestrator see of a run. */
    ghost function View(state: SessionState, conv: Conversation): Ctx
      reads this, storage, state, conv
      requires Stored(conv)
    {
      Ctx(state.values, conv.View(), storage.convs[conv.id], trace, nextId)
    }

    /** Only this conversation's stored copy may have changed. */
    twostate predicate OnlySaved(conv: Conversation)
      reads storage, conv
    {
      && conv.id == old(conv.id) && conv.id in storage.convs
      && storage.convs == old(storage.convs)[conv.id := storage.convs[conv.id]]
    }

    method Ask(path: seq<nat>, ask: Call) returns (reply: LlmReply)
      modifies this`trace
      ensures reply == w.llm(old(trace), ask) && trace == old(trace) + [Event(path, ask)]
    {
      reply := w.llm(trace, ask);
      trace := trace + [Event(path, ask)];
    }

    method Send(path: seq<nat>, agent: string, text: string) returns (reply: RemoteReply)
      modifies this`trace
      ensures reply == w.send(old(trace), agent, text) && trace == old(trace) + [Event(path, SendTask(agent, text))]
    {
      reply := w.send(trace, agent, text);
      trace := trace + [Event(path, SendTask(agent, text))];
    }

    method CallTool(path: seq<nat>, name: string, args: Args) returns (reply: ToolReply)
      modifies this`trace
      ensures reply == w.runTool(old(trace), name, args) && trace == old(trace) + [Event(path, RunTool(name, args))]
    {
      reply := w.runTool(trace, name, args);
      trace := trace + [Event(path, RunTool(name, args))];
    }

    method ExecuteNode(node: AgentNode, state: SessionState, userMessage: string, conv: Conversation,
                       resume: Option<Resume>, path: seq<nat>, allow: bool)
      returns (o: Outcome)
      requires Stored(conv)
      modifies this, storage, state, conv
      ensures OnlySaved(conv)
      ensures (View(state, conv), o) == ExecNode(w, node, old(View(state, conv)), userMessage, resume, path, allow)
      decreases node, 3
    {
      match node.kind
      case Sequential => o := ExecuteSequential(node, state, userMessage, conv, resume, path, allow);
      case Parallel => o := ExecuteParallel(node, state, userMessage, conv, path);
      case Loop => o := ExecuteLoop(node, state, userMessage, conv, path);
      case A2A => o := ExecuteA2ANode(node, state, userMessage, conv, resume, path, allow);
      case _ => o := ExecuteLLMNode(node, state, userMessage, conv, resume, path, allow);
    }

    method ExecuteSequential(node: AgentNode, state: SessionState, userMessage: string, conv: Conversation,
                        resume: Option<Resume>, path: seq<nat>, allow: bool)
      returns (o: Outcome)
      requires Stored(conv)
      modifies this, storage, state, conv
      ensures OnlySaved(conv)
      ensures (View(state, conv), o)
              == ExecSequential(w, node, old(View(state, conv)), userMessage, resume, path, allow)
      decreases node, 2
    {
      var startIndex := 0;
      if resume.Some? && resume.value.path != [] {
        startIndex := resume.value.path[0];
        if startIndex >= |node.agents| {
          return Panicked;
        }
        var childResume := resume.value.(path := resume.value.path[1..]);
        o := ExecuteNode(node.agents[startIndex], state, userMessage, conv, Some(childResume), path + [startIndex],
                         allow);
        if o.Stops() {
          return;
        }
        startIndex := startIndex + 1;
      }
      ghost var total := SeqFrom(w, node, View(state, conv), userMessage, path, allow, startIndex, None);
      var lastResult: Option<NodeResult> := None;
      var i := startIndex;
      while i < |node.agents|
        invariant startIndex <= i <= |node.agents| && OnlySaved(conv)
        invariant SeqFrom(w, node, View(state, conv), userMessage, path, allow, i, lastResult) == total
      {
        o := ExecuteNode(node.agents[i], state, userMessage, conv, None, path + [i], allow);
        if !o.Ok? {
          return;
        }
        lastResult := Some(o.result);
        if o.result.waiting || o.result.exitLoop || o.result.authRequired {
          return;
        }
        i := i + 1;
      }
      if lastResult.None? {
        return Ok(Plain(""));
      }
      return Ok(lastResult.value);
    }

    /** One schedule of the concurrent children: in index order. */
    method ExecuteParallel(node: AgentNode, state: SessionState, userMessage: string, conv: Conversation,
                           path: seq<nat>)
      returns (o: Outcome)
      requires Stored(conv)
      modifies this, storage, state, conv
      ensures OnlySaved(conv)
      ensures (View(state, conv), o) == ExecParallel(w, node, old(View(state, conv)), userMessage, path, 0, [])
      decreases node, 2
    {
      ghost var total := ExecParallel(w, node, View(state, conv), userMessage, path, 0, []);
      var ordered: seq<string> := [];
      for i := 0 to |node.agents|
        invariant OnlySaved(conv)
        invariant ExecParallel(w, node, View(state, conv), userMessage, path, i, ordered) == total
      {
        o := ExecuteNode(node.agents[i], state, userMessage, conv, None, path + [i], true);
        if !o.Ok? {
          return;
        }
        ordered := ordered + [o.result.response];
      }
      var responses := KeepNonEmpty(ordered);
      o := Ok(Plain(Join(responses, "\n")));
    }

    method KeepNonEmpty(ordered: seq<string>) returns (responses: seq<string>)
      ensures responses == NonEmpty(ordered)
    {
      hide NonEmpty;
      responses := [];
      assert ordered[0..] == ordered;
      for i := 0 to |ordered|
        invariant responses + NonEmpty(ordered[i..]) == NonEmpty(ordered)
      {
        NonEmptyStep(ordered, i, responses);
        if ordered[i] != "" {
          responses := responses + [ordered[i]];
        }
      }
      NonEmptyEnds(ordered, responses);
    }

    method ExecuteLoop(node: AgentNode, state: SessionState, userMessage: string, conv: Conversation, path: seq<nat>)
      returns (o: Outcome)
      requires Stored(conv)
      modifies this, storage, state, conv
      ensures OnlySaved(conv)
      ensures (View(state, conv), o)
              == ExecLoop(w, node, old(View(state, conv)), userMessage, path, MaxIterations(node), None)
      decreases node, 2
    {
      var maxIter := node.maxIterations;
      if maxIter == 0 {
        maxIter := DEFAULT_LOOP_MAX_ITERATIONS;
      }
      ghost var total := ExecLoop(w, node, View(state, conv), userMessage, path, MaxIterations(node), None);
      var lastResult: Option<NodeResult> := None;
      var iter := 0;
      while iter < maxIter
        invariant 0 <= iter <= MaxIterations(node) && OnlySaved(conv)
        invariant ExecLoop(w, node, View(state, conv), userMessage, path, MaxIterations(node) - iter, lastResult)
                  == total
      {
        for i := 0 to |node.agents|
          invariant OnlySaved(conv)
          invariant LoopFrom(w, node, View(state, conv), userMessage, path, MaxIterations(node) - iter, i, lastResult)
                    == total
        {
          o := ExecuteNode(node.agents[i], state, userMessage, conv, None, path + [i], true);
          if !o.Ok? {
            return;
          }
          lastResult := Some(o.result);
          if o.result.exitLoop {
            return Ok(Plain(o.result.response));
          }
        }
        iter := iter + 1;
      }
      if lastResult.None? {
        return Ok(Plain(""));
      }
      return Ok(lastResult.value);
    }

    /** The paused node stores the tool result and replies with it. */
    method ResumeNode(node: AgentNode, state: SessionState, conv: Conversation, resume: Resume) returns (o: Outcome)
      requires Stored(conv)
      modifies state, conv
      ensures conv.id == old(conv.id)
      ensures (View(state, conv), o) == ResumeLeaf(w, node, old(View(state, conv)), resume)
    {
      if resume.outputKey != "" {
        state.Set(resume.outputKey, resume.toolResult);
      }
      conv.AddMessage(RoleAssistant, w.render(OperationDone(node.name, resume.toolResult)));
      o := Ok(Plain(resume.toolResult));
    }

    method Pause(node: AgentNode, state: SessionState, conv: Conversation, path: seq<nat>, userMessage: string,
                 toolName: string, toolArgs: Args, description: string, remoteTaskId: Id, remoteAgent: string)
      returns (o: Outcome)
      requires Stored(conv)
      modifies this`nextId, storage, conv
      ensures OnlySaved(conv)
      ensures (View(state, conv), o)
              == PauseForApproval(w, node, old(View(state, conv)), path, userMessage,
                                  End.Pause(toolName, toolArgs, description, remoteTaskId, remoteAgent))
    {
      var uuid := nextId;
      nextId := nextId + 1;
      conv.SetWaitingApproval(uuid, toolName, toolArgs, description);
      conv.pipeline := Some(Pipeline(path, node.outputKey, state.values, userMessage));
      var responseText := w.render(ApprovalNeeded(description, uuid));
      conv.AddMessage(RoleAssistant, responseText);
      storage.Save(conv);
      if remoteTaskId != NO_ID || remoteAgent != "" {
        conv.SetRemote(remoteTaskId, remoteAgent);
        storage.Save(conv);
      }
      o := Ok(NodeResult(responseText, true, false, false));
    }

    /** Replaces the placeholders from left to right. */
    method ResolvePrompt(tmpl: string, state: SessionState) returns (text: string)
      ensures text == ResolveTemplate(tmpl, state.values)
    {
      text := "";
      var rest := tmpl;
      hide ResolveTemplate, WordRun;
      NoText(tmpl, state.values);
      while rest != ""
        invariant text + ResolveTemplate(rest, state.values) == ResolveTemplate(tmpl, state.values)
        decreases |rest|
      {
        var piece, after := rest[..1], rest[1..];
        var ref := TakeRef(rest);
        if ref.Some? {
          var value := state.Get(ref.value.0);
          piece, after := if value != "" then value else "{" + ref.value.0 + "}", ref.value.1;
        }
        PieceResolves(text, rest, piece, after, state.values);
        text, rest := text + piece, after;
      }
      NoText(text, state.values);
    }

    method ExecuteLLMNode(node: AgentNode, state: SessionState, userMessage: string, conv: Conversation,
                        resume: Option<Resume>, path: seq<nat>, allow: bool)
      returns (o: Outcome)
      requires Stored(conv) && node.IsLeaf() && node.kind != A2A
      modifies this, storage, state, conv
      ensures OnlySaved(conv)
      ensures (View(state, conv), o) == ExecNode(w, node, old(View(state, conv)), userMessage, resume, path, allow)
      decreases node, 0
    {
      if resume.Some? && resume.value.path == [] {
        o := ResumeNode(node, state, conv, resume.value);
        return;
      }
      var prompt := ResolvePrompt(node.prompt, state);
      ghost var c := View(state, conv);
      ghost var act := LlmAct(w, node, path, c.trace, prompt, userMessage, allow);
      if !w.modelReady(node.model) {
        assert c.trace + At(path, []) == c.trace && c.conv.messages + [] == c.conv.messages;
        return Failed(w.render(ModelUnavailable(node.name)));
      }
      var ask := ModelCall(node, prompt, userMessage);
      var reply := Ask(path, ask);
      match reply
      case LlmError(e) =>
        OneCall(c, path, ask);
        var errorMsg := w.render(ModelFailed(node.name, e));
        conv.AddMessage(RoleAssistant, errorMsg);
        o := Ok(Plain(errorMsg));
      case LlmText(text) =>
        OneCall(c, path, ask);
        conv.AddMessage(RoleAssistant, w.render(Prefixed(node.name, text)));
        if node.outputKey != "" {
          state.Set(node.outputKey, text);
        }
        o := Ok(Plain(text));
      case LlmTool(name, args) =>
        if name == EXIT_LOOP {
          OneCall(c, path, ask);
          conv.AddMessage(RoleAssistant, w.render(ExitLoopCalled(node.name)));
          o := Ok(NodeResult("", false, true, false));
        } else if HasPrefix(name, A2A_PREFIX) {
          o := DelegateFromModel(node, state, userMessage, conv, path, ask, name, args, allow, c);
        } else {
          o := UseTool(node, state, userMessage, conv, path, ask, name, args, allow, c);
        }
    }

    lemma OneCall(c: Ctx, path: seq<nat>, ask: Call)
      ensures c.trace + At(path, [ask]) == c.trace + [Event(path, ask)]
    {
    }

    /** An a2a_ tool call of a model; c is the context before the model was asked. */
    method DelegateFromModel(node: AgentNode, state: SessionState, userMessage: string, conv: Conversation,
                             path: seq<nat>, ghost ask: Call, name: string, args: Args, allow: bool, ghost c: Ctx)
      returns (o: Outcome)
      requires Stored(conv) && View(state, conv) == c.(trace := c.trace + [Event(path, ask)])
      modifies this, storage, state, conv
      ensures OnlySaved(conv)
      ensures (View(state, conv), o)
              == Perform(w, node, c, path, userMessage,
                         LlmDelegate(w, node, path, c.trace + [Event(path, ask)], ask, name, args, allow))
    {
      OneCall(c, path, ask);
      var agentName := TrimPrefix(name, A2A_PREFIX);
      if agentName !in w.clients {
        var errorMsg := w.render(AgentMissing(node.name, agentName));
        conv.AddMessage(RoleAssistant, errorMsg);
        return Ok(Plain(errorMsg));
      }
      if w.clients[agentName] && !allow {
        assert c.conv.messages + [] == c.conv.messages;
        o := Pause(node, state, conv, path, userMessage, name, args,
                   w.render(DelegateRequest(node.name, agentName, "")), NO_ID, "");
        return;
      }
      var message := MessageArg(args);
      ghost var rest := Delegate(w, node, c.trace + [Event(path, ask)], [], agentName, name, args, message, false);
      DelegateBefore(w, node, c.trace + [Event(path, ask)], ask, agentName, name, args, message);
      PerformRest(w, node, c, path, userMessage, ask, rest.(calls := [ask] + rest.calls), rest);
      o := SendAndRecord(node, state, userMessage, conv, path, agentName, name, args, message, false);
    }

    /** The call, its record, and what the reply's state asks for. */
    method SendAndRecord(node: AgentNode, state: SessionState, userMessage: string, conv: Conversation, path: seq<nat>,
                         agentName: string, name: string, args: Args, message: string, log: bool)
      returns (o: Outcome)
      requires Stored(conv)
      modifies this, storage, state, conv
      ensures OnlySaved(conv)
      ensures (View(state, conv), o)
              == Perform(w, node, old(View(state, conv)), path, userMessage,
                         Delegate(w, node, old(trace), [], agentName, name, args, message, log))
    {
      ghost var c := View(state, conv);
      OneCall(c, path, SendTask(agentName, message));
      assert [] + [SendTask(agentName, message)] == [SendTask(agentName, message)];
      conv.AddToolCall(name, args);
      var reply := Send(path, agentName, message);
      match reply
      case RemoteError(e) =>
        var errorMsg := w.render(AgentFailed(node.name, e));
        conv.AddToolResult(name, errorMsg, true);
        assert conv.messages == c.conv.messages + ([CallRecord(name, args)] + [ResultRecord(name, errorMsg, true)]);
        o := Ok(Plain(errorMsg));
      case RemoteTask(task) =>
        if task.state.InputRequired? {
          o := Pause(node, state, conv, path, userMessage, name, args, w.render(ProxyRequest(node.name, agentName, "")),
                     task.id, agentName);
        } else if task.state.AuthRequired? {
          var response := w.render(AuthNeeded(node.name, agentName));
          if task.message.Some? {
            response := task.message.value;
          }
          conv.AddMessage(RoleAssistant, response);
          assert conv.messages == c.conv.messages + ([CallRecord(name, args)] + [Text(RoleAssistant, response)]);
          o := Ok(NodeResult(response, false, false, true));
        } else {
          o := Record(node, state, conv, name, args, task, log, c.conv.messages);
        }
    }

    method Record(node: AgentNode, state: SessionState, conv: Conversation, name: string, args: Args, task: Task,
                  log: bool, ghost before: seq<Message>)
      returns (o: Outcome)
      requires conv.messages == before + [CallRecord(name, args)]
      modifies state, conv
      ensures o == Ok(Plain(task.text))
      ensures state.values
              == if node.outputKey != "" then old(state.values)[node.outputKey := task.text] else old(state.values)
      ensures conv.View() == old(conv.View()).(messages := before +
                ([CallRecord(name, args)] + [ResultRecord(name, task.text, task.state.TaskFailed?)]
                 + (if log then [Note(w, Prefixed(node.name, task.text))] else [])))
    {
      conv.AddToolResult(name, task.text, task.state.TaskFailed?);
      if log {
        conv.AddMessage(RoleAssistant, w.render(Prefixed(node.name, task.text)));
      }
      if node.outputKey != "" {
        state.Set(node.outputKey, task.text);
      }
      o := Ok(Plain(task.text));
    }

    method UseTool(node: AgentNode, state: SessionState, userMessage: string, conv: Conversation, path: seq<nat>,
                   ghost ask: Call, name: string, args: Args, allow: bool, ghost c: Ctx)
      returns (o: Outcome)
      requires Stored(conv) && View(state, conv) == c.(trace := c.trace + [Event(path, ask)])
      modifies this, storage, state, conv
      ensures OnlySaved(conv)
      ensures (View(state, conv), o)
              == Perform(w, node, c, path, userMessage,
                         LlmUseTool(w, node, path, c.trace + [Event(path, ask)], ask, name, args, allow))
    {
      OneCall(c, path, ask);
      if name !in w.tools {
        var errorMsg := w.render(ToolMissing(node.name, name));
        conv.AddMessage(RoleAssistant, errorMsg);
        return Ok(Plain(errorMsg));
      }
      conv.AddToolCall(name, args);
      if w.tools[name].destructive && !allow {
        o := Pause(node, state, conv, path, userMessage, name, args, w.render(ToolRequest(name, args)), NO_ID, "");
        return;
      }
      assert c.trace + At(path, [ask, RunTool(name, args)])
             == c.trace + [Event(path, ask)] + [Event(path, RunTool(name, args))];
      var reply := CallTool(path, name, args);
      match reply
      case ToolAuthRequired =>
        var response := w.render(AuthNeeded(node.name, w.tools[name].server));
        conv.AddMessage(RoleAssistant, response);
        assert conv.messages == c.conv.messages + ([CallRecord(name, args)] + [Text(RoleAssistant, response)]);
        o := Ok(NodeResult(response, false, false, true));
      case ToolFailed(e) =>
        var errorMsg := w.render(ToolBroken(node.name, e));
        conv.AddToolResult(name, errorMsg, true);
        assert conv.messages == c.conv.messages + ([CallRecord(name, args)] + [ResultRecord(name, errorMsg, true)]);
        o := Ok(Plain(errorMsg));
      case ToolOk(text, isError) =>
        conv.AddToolResult(name, text, isError);
        conv.AddMessage(RoleAssistant, w.render(Prefixed(node.name, text)));
        assert conv.messages
               == c.conv.messages
                  + ([CallRecord(name, args)]
                     + [ResultRecord(name, text, isError), Note(w, Prefixed(node.name, text))]);
        if node.outputKey != "" {
          state.Set(node.outputKey, text);
        }
        o := Ok(Plain(text));
    }

    method ExecuteA2ANode(node: AgentNode, state: SessionState, userMessage: string, conv: Conversation,
                        resume: Option<Resume>, path: seq<nat>, allow: bool)
      returns (o: Outcome)
      requires Stored(conv) && node.kind == A2A
      modifies this, storage, state, conv
      ensures OnlySaved(conv)
      ensures (View(state, conv), o) == ExecNode(w, node, old(View(state, conv)), userMessage, resume, path, allow)
      decreases node, 0
    {
      if resume.Some? && resume.value.path == [] {
        o := ResumeNode(node, state, conv, resume.value);
        return;
      }
      var message := userMessage;
      if node.prompt != "" {
        message := ResolvePrompt(node.prompt, state);
      }
      ghost var c := View(state, conv);
      assert c.trace + At(path, []) == c.trace && c.conv.messages + [] == c.conv.messages;
      if node.name !in w.clients {
        return Failed(w.render(AgentMissing("", node.name)));
      }
      var toolName := A2A_PREFIX + node.name;
      var toolArgs: Args := map["message" := Str(message)];
      if node.destructiveHint && !allow {
        conv.AddToolCall(toolName, toolArgs);
        o := Pause(node, state, conv, path, userMessage, toolName, toolArgs,
                   w.render(DelegateRequest(node.name, node.name, message)), NO_ID, "");
        return;
      }
      o := SendAndRecord(node, state, userMessage, conv, path, node.name, toolName, toolArgs, message, true);
    }
  }
}
