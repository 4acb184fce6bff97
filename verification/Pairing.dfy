/** Which results answer which calls when trees run: exactly when a transcript stays well paired, and
    trees whose transcripts always do. */
module Pairing {
  import opened Prelude
  import opened Conversations
  import opened World
  import opened Orchestrator
  import opened RunInduction
  import opened SimpleAgent
  import opened Api
  import opened Lifecycle
  import opened Records
  import opened Chat
  import opened Release

  predicate Broke(c: Conv) {
    Scan(c.messages) == Broken
  }

  // ---------- runs and turns keep what they find ----------

  /** The conversation is as well paired as it was, and so is its stored copy if there is a new one. */
  predicate PairingKept(c: Ctx, d: Ctx) {
    && (Broke(d.conv) <==> Broke(c.conv))
    && (d.saved == c.saved || (Broke(d.saved) <==> Broke(c.conv)))
  }

  /** Texts, and a call that is answered at once or last. */
  predicate SelfPaired(notes: seq<Message>) {
    || |notes| == 0
    || (|notes| == 1 && !notes[0].ResultRecord?)
    || (|notes| == 2 && notes[0].CallRecord? && !notes[1].CallRecord?
        && (notes[1].ResultRecord? ==> notes[1].name == notes[0].name))
    || (|notes| == 3 && notes[0].CallRecord? && notes[1].ResultRecord? && notes[1].name == notes[0].name
        && notes[2].Text?)
  }

  lemma {:induction false} ScanAppend(ms: seq<Message>, notes: seq<Message>)
    ensures Scan(ms + notes) == ScanFrom(Scan(ms), notes)
  {
    if notes == [] {
      assert ms + notes == ms;
    } else {
      assert (ms + notes)[..|ms + notes| - 1] == ms + notes[..|notes| - 1];
      ScanAppend(ms, notes[..|notes| - 1]);
    }
  }

  function ScanFrom(p: Chat.Pairing, notes: seq<Message>): Chat.Pairing {
    if notes == [] then p else PairStep(ScanFrom(p, notes[..|notes| - 1]), notes[|notes| - 1])
  }

  lemma NotesKeep(ms: seq<Message>, notes: seq<Message>)
    requires SelfPaired(notes)
    ensures Scan(ms + notes) == Broken <==> Scan(ms) == Broken
  {
    ScanAppend(ms, notes);
    var p := Scan(ms);
    if |notes| > 0 {
      assert ScanFrom(p, notes[..1]) == PairStep(p, notes[0]) by { assert notes[..1][..0] == []; }
      assert |notes| > 1 ==> ScanFrom(p, notes[..2]) == PairStep(ScanFrom(p, notes[..1]), notes[1]) by {
        assert |notes| > 1 ==> notes[..2][..1] == notes[..1];
      }
      assert |notes| > 2 ==> ScanFrom(p, notes[..3]) == PairStep(ScanFrom(p, notes[..2]), notes[2]) by {
        assert |notes| > 2 ==> notes[..3][..2] == notes[..2];
      }
      assert notes[..|notes|] == notes;
    }
  }

  lemma DelegateSelfPaired(w: World, node: AgentNode, hist: seq<Event>, before: seq<Call>, agent: string, name: string,
                           args: Args, text: string, log: bool)
    ensures SelfPaired(Delegate(w, node, hist, before, agent, name, args, text, log).notes)
  {
  }

  lemma UseToolSelfPaired(w: World, node: AgentNode, path: seq<nat>, hist: seq<Event>, ask: Call, name: string,
                          args: Args, allow: bool)
    ensures SelfPaired(LlmUseTool(w, node, path, hist, ask, name, args, allow).notes)
  {
  }

  lemma LlmSelfPaired(w: World, node: AgentNode, path: seq<nat>, hist: seq<Event>, prompt: string, userMessage: string,
                      allow: bool)
    ensures SelfPaired(LlmAct(w, node, path, hist, prompt, userMessage, allow).notes)
  {
    var ask := ModelCall(node, prompt, userMessage);
    var reply := w.llm(hist, ask);
    if reply.LlmTool? {
      var hist1 := hist + [Event(path, ask)];
      UseToolSelfPaired(w, node, path, hist1, ask, reply.name, reply.args, allow);
      DelegateSelfPaired(w, node, hist1, [ask], TrimPrefix(reply.name, A2A_PREFIX), reply.name, reply.args,
                         MessageArg(reply.args), false);
    }
    hide Delegate, LlmUseTool;
  }

  lemma ActSelfPaired(w: World, node: AgentNode, path: seq<nat>, hist: seq<Event>, prompt: string, userMessage: string,
                      allow: bool)
    ensures SelfPaired(LeafAct(w, node, path, hist, prompt, userMessage, allow).notes)
  {
    if node.kind == A2A {
      var text := if node.prompt != "" then prompt else userMessage;
      DelegateSelfPaired(w, node, hist, [], node.name, A2A_PREFIX + node.name, map["message" := Str(text)], text, true);
    } else {
      LlmSelfPaired(w, node, path, hist, prompt, userMessage, allow);
    }
    hide Delegate, LlmAct;
  }

  lemma SayKeeps(ms: seq<Message>, content: string)
    ensures Scan(ms + [Text(RoleAssistant, content)]) == Scan(ms)
    ensures Scan(ms + [Text(RoleUser, content)]) == Scan(ms)
  {
    ScanSnoc(ms, Text(RoleAssistant, content));
    ScanSnoc(ms, Text(RoleUser, content));
  }

  lemma PerformKeepsPairing(w: World, node: AgentNode, c: Ctx, path: seq<nat>, userMessage: string, act: Act)
    requires SelfPaired(act.notes)
    ensures PairingKept(c, Perform(w, node, c, path, userMessage, act).0)
  {
    hide Scan, SelfPaired, At;
    NotesKeep(c.conv.messages, act.notes);
    if act.end.Pause? {
      SayKeeps(c.conv.messages + act.notes, w.render(ApprovalNeeded(act.end.description, c.nextId)));
    }
  }

  lemma LeafKeepsPairing(w: World, node: AgentNode, c: Ctx, userMessage: string, path: seq<nat>, allow: bool)
    ensures PairingKept(c, ExecLeaf(w, node, c, userMessage, path, allow).0)
  {
    var prompt := ResolveTemplate(node.prompt, c.values);
    ActSelfPaired(w, node, path, c.trace, prompt, userMessage, allow);
    PerformKeepsPairing(w, node, c, path, userMessage, LeafAct(w, node, path, c.trace, prompt, userMessage, allow));
    hide LeafAct, Perform, SelfPaired, ResolveTemplate, PairingKept;
  }

  /** Any run of any tree leaves a transcript as well paired as it found it. */
  lemma RunsKeepPairing(w: World, root: AgentNode, c: Ctx, userMessage: string, resume: Option<Resume>, allow: bool)
    ensures PairingKept(c, ExecNode(w, root, c, userMessage, resume, [], allow).0)
  {
    forall q | Reached(root, q)
      ensures LeafHolds(w, LeafAt(root, q), [] + q, userMessage, ResumeKeys(resume), PairingKept)
    {
      forall c, allow
        ensures PairingKept(c, ExecLeaf(w, LeafAt(root, q), c, userMessage, [] + q, allow).0)
      {
        LeafKeepsPairing(w, LeafAt(root, q), c, userMessage, [] + q, allow);
      }
      forall c, r
        ensures PairingKept(c, ResumeLeaf(w, LeafAt(root, q), c, r).0)
      {
        SayKeeps(c.conv.messages, w.render(OperationDone(LeafAt(root, q).name, r.toolResult)));
      }
    }
    NodeInduct(w, root, c, userMessage, resume, [], allow, ResumeKeys(resume), PairingKept);
  }

  // ---------- the loop ----------

  /** A waiting conversation ends with the call its approval is for. */
  predicate Awaits(c: Conv) {
    c.pending.Some? ==> Scan(c.messages) == Awaiting(c.pending.value.toolName)
  }

  /** What a turn makes of a conversation with nothing pending. */
  predicate TurnPairs(c: Ctx, d: Ctx) {
    && PairingKept(c, d)
    && (!Broke(c.conv) && c.conv.pending.None? ==>
          Awaits(d.conv) && (d.saved == c.saved || Awaits(d.saved)))
  }

  lemma CallThen(ms: seq<Message>, name: string, args: Args, m: Message)
    requires m.Text? || (m.ResultRecord? && m.name == name)
    ensures Scan(ms + [CallRecord(name, args)]) == if Scan(ms) == Broken then Broken else Awaiting(name)
    ensures Scan(ms + [CallRecord(name, args)] + [m]) ==
            if Scan(ms) == Broken then Broken else if m.Text? then Awaiting(name) else Answered
    ensures ms + [CallRecord(name, args), m] == ms + [CallRecord(name, args)] + [m]
  {
    ScanSnoc(ms, CallRecord(name, args));
    ScanSnoc(ms + [CallRecord(name, args)], m);
  }

  lemma AnswerPairs(c: Ctx, text: string)
    ensures TurnPairs(c, Answer(c, text).c) && TurnPairs(c, AnswerAuth(c, text).c)
  {
    SayKeeps(c.conv.messages, text);
  }

  lemma ToolStepPairs(w: World, c: Ctx, tool: string, args: Args)
    ensures TurnPairs(c, ToolStep(w, c, tool, args).c)
    ensures c.conv.pending.None? && ToolStep(w, c, tool, args).Again? ==>
              ToolStep(w, c, tool, args).c.conv.pending.None?
  {
    var ms := c.conv.messages;
    if tool !in w.tools {
      AnswerPairs(c, w.render(ToolMissing("", tool)));
    } else if w.tools[tool].destructive {
      var response := w.render(ApprovalNeeded(w.render(ToolRequest(tool, args)), c.nextId));
      CallThen(ms, tool, args, Text(RoleAssistant, response));
      assert [CallRecord(tool, args)] + [Text(RoleAssistant, response)]
             == [CallRecord(tool, args), Text(RoleAssistant, response)];
    } else {
      match w.runTool(c.trace, tool, args)
      case ToolAuthRequired =>
        CallThen(ms, tool, args, Text(RoleAssistant, w.render(AuthNeeded("", w.tools[tool].server))));
      case ToolFailed(e) => CallThen(ms, tool, args, ResultRecord(tool, w.render(ToolBroken("", e)), true));
      case ToolOk(text, isError) => CallThen(ms, tool, args, ResultRecord(tool, text, isError));
    }
  }

  /** The remote agent's reply to a call that has been recorded. */
  lemma ReplyPairs(w: World, c: Ctx, d: Ctx, agent: string, tool: string, args: Args, reply: RemoteReply)
    requires d.conv == c.conv.AddToolCall(tool, args) && d.saved == c.saved
    ensures TurnPairs(c, AfterReply(w, d, agent, tool, args, reply).c)
    ensures c.conv.pending.None? && AfterReply(w, d, agent, tool, args, reply).Again? ==>
              AfterReply(w, d, agent, tool, args, reply).c.conv.pending.None?
  {
    var ms := c.conv.messages;
    match reply
    case RemoteError(e) => CallThen(ms, tool, args, ResultRecord(tool, w.render(AgentFailed("", e)), true));
    case RemoteTask(task) =>
      if task.state.InputRequired? {
        var response := w.render(ApprovalNeeded(ProxyDescription(w, agent, task), d.nextId));
        CallThen(ms, tool, args, Text(RoleAssistant, response));
        assert [] + [Text(RoleAssistant, response)] == [Text(RoleAssistant, response)];
      } else if task.state.AuthRequired? {
        CallThen(ms, tool, args, Text(RoleAssistant, AuthText(w, agent, task)));
      } else {
        CallThen(ms, tool, args, ResultRecord(tool, task.text, task.state.TaskFailed?));
      }
  }

  lemma DelegatePairs(w: World, c: Ctx, tool: string, args: Args)
    ensures var asked := AskedOracle(w, DelegateStep(w, c, tool, args));
            TurnPairs(c, asked.c) && (c.conv.pending.None? && asked.Again? ==> asked.c.conv.pending.None?)
  {
    var agent := TrimPrefix(tool, A2A_PREFIX);
    if agent !in w.clients {
      AnswerPairs(c, w.render(AgentMissing("", agent)));
    } else if w.clients[agent] {
      var response := w.render(ApprovalNeeded(w.render(DelegateRequest("", agent, MessageArg(args))), c.nextId));
      CallThen(c.conv.messages, tool, args, Text(RoleAssistant, response));
      assert [CallRecord(tool, args)] + [Text(RoleAssistant, response)]
             == [CallRecord(tool, args), Text(RoleAssistant, response)];
    } else {
      var c1 := c.Say([CallRecord(tool, args)]);
      ReplyPairs(w, c, Log(c1, SendTask(agent, MessageArg(args))), agent, tool, args,
                 w.send(c1.trace, agent, MessageArg(args)));
    }
  }

  lemma AskedPairs(w: World, system: string, c: Ctx, asked: Turn)
    requires asked == AskedOracle(w, TakeTurn(w, system, c))
    ensures TurnPairs(c, asked.c) && (c.conv.pending.None? && asked.Again? ==> asked.c.conv.pending.None?)
  {
    var ask := ModelAsk(system, c);
    var c1 := Log(c, ask);
    match w.llm(c.trace, ask)
    case LlmError(e) => AnswerPairs(c1, w.render(ModelFailed("", e)));
    case LlmText(text) => AnswerPairs(c1, text);
    case LlmTool(tool, args) =>
      if HasPrefix(tool, A2A_PREFIX) {
        DelegatePairs(w, c1, tool, args);
      } else {
        ToolStepPairs(w, c1, tool, args);
      }
  }

  lemma TurnPairsThen(c: Ctx, c1: Ctx, d: Ctx)
    requires TurnPairs(c, c1) && (c.conv.pending.None? ==> c1.conv.pending.None?) && TurnPairs(c1, d)
    ensures TurnPairs(c, d)
  {
  }

  lemma {:induction false} LoopPairs(w: World, system: string, c: Ctx, rounds: nat)
    ensures TurnPairs(c, SimpleLoop(w, system, c, rounds).0)
    decreases rounds
  {
    hide *;
    if rounds == 0 {
      SimpleLoopEnds(w, system, c);
      AnswerPairs(c, w.render(IterationCap));
    } else {
      var asked := AskedOracle(w, TakeTurn(w, system, c));
      AskedPairs(w, system, c, asked);
      SimpleLoopStep(w, system, c, rounds, asked);
      if asked.Again? {
        LoopPairs(w, system, asked.c, rounds - 1);
        TurnPairsThen(c, asked.c, SimpleLoop(w, system, asked.c, rounds - 1).0);
      }
    }
  }

  // ---------- answers to approvals ----------

  /** The grant records a result for the call it was for. */
  predicate GivesResult(w: World, c: Ctx)
    requires c.conv.pending.Some?
  {
    var p := c.conv.pending.value;
    if p.IsProxy() then
      p.remoteAgent in w.clients && ProxyAnswer(w, c).RemoteTask?
      && !ProxyAnswer(w, c).task.state.InputRequired? && !ProxyAnswer(w, c).task.state.AuthRequired?
    else if HasPrefix(p.toolName, A2A_PREFIX) then
      var agent := TrimPrefix(p.toolName, A2A_PREFIX);
      agent in w.clients && (c.conv.pipeline.Some? ==> w.send(c.trace, agent, MessageArg(p.toolArgs)).RemoteTask?)
    else
      var reply := w.runTool(c.trace, p.toolName, p.toolArgs);
      reply.ToolOk? || (reply.ToolFailed? && c.conv.pipeline.None?)
  }

  /** d's conversation is well paired unless bad; so is its stored copy, if it is not c's. */
  predicate PairsUnless(c: Ctx, d: Ctx, bad: bool) {
    && (Broke(d.conv) <==> bad)
    && (d.saved == c.saved || (Broke(d.saved) <==> bad))
  }

  lemma ContinuePairs(w: World, cfg: Config, c: Ctx, pl: Option<Pipeline>, result: string, viaProxy: bool)
    ensures PairsUnless(c, Continue(w, cfg, c, pl, result, viaProxy).0, Broke(c.conv))
  {
    if pl.None? {
      LoopPairs(w, cfg.system, c, MAX_TOOL_ITERATIONS);
    } else if cfg.root.Some? {
      var loaded := c.(values := pl.value.session);
      var c1 := if viaProxy then loaded.Set(pl.value.outputKey, result) else loaded;
      RunsKeepPairing(w, cfg.root.value, c1, pl.value.userMessage,
                      Some(Resume(pl.value.path, result, pl.value.outputKey)), false);
    }
  }

  /** A result breaks the pairing exactly when the last record is not its call. */
  lemma ResultThenPairs(w: World, cfg: Config, c: Ctx, pl: Option<Pipeline>, tool: string, text: string, isError: bool,
                        result: string, viaProxy: bool)
    requires !Broke(c.conv)
    ensures PairsUnless(c, Continue(w, cfg, c.Say([ResultRecord(tool, text, isError)]), pl, result, viaProxy).0,
                        Scan(c.conv.messages) != Awaiting(tool))
  {
    ScanSnoc(c.conv.messages, ResultRecord(tool, text, isError));
    ContinuePairs(w, cfg, c.Say([ResultRecord(tool, text, isError)]), pl, result, viaProxy);
  }

  lemma ProxyPairs(w: World, cfg: Config, c: Ctx, p: Pending, pl: Option<Pipeline>)
    requires !Broke(c.conv)
    ensures var reply := w.resumeTask(c.trace, p.remoteAgent, p.remoteTaskId, ANSWER_APPROVED);
            var given := p.remoteAgent in w.clients && reply.RemoteTask? && !reply.task.state.InputRequired?
                && !reply.task.state.AuthRequired?;
            PairsUnless(c, ApproveProxy(w, cfg, c, p, pl).0, given && Scan(c.conv.messages) != Awaiting(p.toolName))
  {
    hide Scan, Continue;
    var reply := w.resumeTask(c.trace, p.remoteAgent, p.remoteTaskId, ANSWER_APPROVED);
    if p.remoteAgent in w.clients && reply.RemoteTask? {
      var task, ms := reply.task, c.conv.messages;
      var c1 := LogAt(c, pl, ContinueTask(p.remoteAgent, p.remoteTaskId, ANSWER_APPROVED));
      if task.state.InputRequired? {
        var response := w.render(ApprovalNeeded(ProxyDescription(w, p.remoteAgent, task), c.nextId));
        SayKeeps(ms, response);
        assert [] + [Text(RoleAssistant, response)] == [Text(RoleAssistant, response)];
      } else if task.state.AuthRequired? {
        SayKeeps(ms, AuthText(w, p.remoteAgent, task));
      } else {
        ResultThenPairs(w, cfg, c1, pl, p.toolName, task.text, task.state.TaskFailed?, task.text, true);
      }
    }
  }

  lemma ToolPairs(w: World, cfg: Config, c: Ctx, p: Pending, pl: Option<Pipeline>, reply: ToolReply)
    requires !Broke(c.conv)
    ensures PairsUnless(c, AfterTool(w, cfg, c, p, pl, reply).0,
                        (reply.ToolOk? || (reply.ToolFailed? && pl.None?))
                        && Scan(c.conv.messages) != Awaiting(p.toolName))
  {
    match reply
    case ToolAuthRequired =>
      var server := if p.toolName in w.tools then w.tools[p.toolName].server else p.toolName;
      SayKeeps(c.conv.messages, w.render(AuthNeeded("", server)));
    case ToolFailed(e) =>
      if pl.None? {
        ResultThenPairs(w, cfg, c, None, p.toolName, w.render(ToolBroken("", e)), true, "", false);
      }
    case ToolOk(text, isError) => ResultThenPairs(w, cfg, c, pl, p.toolName, text, isError, text, false);
  }

  lemma SendPairs(w: World, cfg: Config, c: Ctx, p: Pending, pl: Option<Pipeline>, reply: RemoteReply)
    requires !Broke(c.conv)
    ensures PairsUnless(c, AfterSend(w, cfg, c, p, pl, reply).0,
                        (pl.Some? ==> reply.RemoteTask?) && Scan(c.conv.messages) != Awaiting(p.toolName))
  {
    match reply
    case RemoteError(e) =>
      if pl.None? {
        ResultThenPairs(w, cfg, c, None, p.toolName, w.render(AgentFailed("", e)), true, "", false);
      }
    case RemoteTask(task) =>
      ResultThenPairs(w, cfg, c, pl, p.toolName, task.text, task.state.TaskFailed?, task.text, false);
  }

  /** A grant leaves a well-paired transcript well paired exactly when it records no result, or the
      last record before it is the call that the result is for. */
  lemma GrantPairsExactly(w: World, cfg: Config, c: Ctx)
    requires c.conv.pending.Some? && !Broke(c.conv)
    ensures PairsUnless(c, ResolveApproval(w, cfg, c, true).0,
                        GivesResult(w, c) && Scan(c.conv.messages) != Awaiting(c.conv.pending.value.toolName))
  {
    var p, pl := c.conv.pending.value, c.conv.pipeline;
    var c2 := Cleared(c).Say([Text(RoleUser, APPROVED_TEXT)]);
    SayKeeps(c.conv.messages, APPROVED_TEXT);
    var r := ResolveApproval(w, cfg, c, true);
    if p.IsProxy() {
      ProxyPairs(w, cfg, c2, p, pl);
    } else if HasPrefix(p.toolName, A2A_PREFIX) {
      var agent, text := TrimPrefix(p.toolName, A2A_PREFIX), MessageArg(p.toolArgs);
      if agent in w.clients {
        SendPairs(w, cfg, LogAt(c2, pl, SendTask(agent, text)), p, pl, w.send(c2.trace, agent, text));
      }
    } else {
      ToolPairs(w, cfg, LogAt(c2, pl, RunTool(p.toolName, p.toolArgs)), p, pl,
                w.runTool(c2.trace, p.toolName, p.toolArgs));
    }
  }

  /** The condition, on the stored transcript: its last record is a call to the approval's tool. */
  lemma AwaitingExactly(ms: seq<Message>, name: string)
    requires Scan(ms) != Broken
    ensures Scan(ms) == Awaiting(name) <==> exists i :: LastIsCall(ms, i, name)
  {
    if Scan(ms) == Awaiting(name) {
      var i := ScanFindsCall(ms, name);
    }
    if i :| LastIsCall(ms, i, name) {
      LastCallAwaits(ms, i, name);
    }
  }

  // ---------- every run ----------

  ghost predicate AllPaired(s: Sys) {
    forall id :: id in s.store ==> Paired(s.store[id].messages)
  }

  /** The request grants an approval whose call gives a result, and the last record of the stored
      transcript is not that call. */
  ghost predicate GrantsUncalled(w: World, s: Sys, request: Request) {
    && request.ApprovalAnswer? && request.approved && FindByUuid(s.store, request.uuid).Some?
    && var c := s.store[FindByUuid(s.store, request.uuid).value];
      GivesResult(w, Open(s, c)) && !(exists i :: LastIsCall(c.messages, i, c.pending.value.toolName))
  }

  /** Such a grant whose result is stored: the run resumed with it may fail and store nothing. */
  ghost predicate Mispairs(w: World, cfg: Config, s: Sys, request: Request) {
    GrantsUncalled(w, s, request) && Step(w, cfg, s, request).store != s.store
  }

  lemma MessageKeepsPairing(w: World, cfg: Config, c: Ctx, text: string)
    requires !Broke(c.conv) && c.saved == c.conv
    ensures !Broke(ProcessMessage(w, cfg, c, text).0.saved)
  {
    if c.conv.status != WaitingApproval {
      var c1 := c.Say([Text(RoleUser, text)]);
      SayKeeps(c.conv.messages, text);
      if cfg.IsSimple() {
        LoopPairs(w, cfg.system, c1, MAX_TOOL_ITERATIONS);
      } else {
        var (c2, o) := RunTree(w, cfg.root.value, c1.(values := map[]), text, None);
        RunsKeepPairing(w, cfg.root.value, c1.(values := map[]), text, None, false);
        if o.Failed? {
          SayKeeps(c2.conv.messages, w.render(PipelineError(o.error)));
        }
      }
    }
  }

  lemma RejectKeepsPairing(w: World, cfg: Config, c: Ctx)
    requires c.conv.pending.Some? && !Broke(c.conv)
    ensures !Broke(ResolveApproval(w, cfg, c, false).0.saved)
  {
    var ms, text := c.conv.messages, w.render(Cancelled);
    SayKeeps(ms, REJECTED_TEXT);
    SayKeeps(ms + [Text(RoleUser, REJECTED_TEXT)], text);
    AppendTwo(ms, Text(RoleUser, REJECTED_TEXT), Text(RoleAssistant, text));
  }

  lemma StoredPairs(s: Sys, request: Request, c: Conv, r: (Ctx, Reply))
    requires AllPaired(s) && c.id in s.store && s.store[c.id] == c
    ensures AllPaired(Close(s, request, c, r)) <==> !Broke(r.0.saved)
  {
    var s2 := Close(s, request, c, r);
    ScanIsPairing(r.0.saved.messages);
    assert s2.store[c.id] == r.0.saved;
  }

  lemma StartPairs(w: World, cfg: Config, s: Sys)
    requires AllPaired(s)
    ensures AllPaired(Step(w, cfg, s, Start))
  {
    var c := NewConv(s.nextId, cfg.system);
    assert [] + c.messages == c.messages;
    NotesKeep([], c.messages);
    ScanIsPairing(c.messages);
  }

  lemma GrantStepPairs(w: World, cfg: Config, s: Sys, uuid: Id)
    requires StoreValid(s) && AllPaired(s) && FindByUuid(s.store, uuid).Some?
    ensures AllPaired(Step(w, cfg, s, ApprovalAnswer(uuid, true))) <==> !Mispairs(w, cfg, s, ApprovalAnswer(uuid, true))
  {
    var c := s.store[FindByUuid(s.store, uuid).value];
    var r := ResolveApproval(w, cfg, Open(s, c), true);
    ScanIsPairing(c.messages);
    AwaitingExactly(c.messages, c.pending.value.toolName);
    GrantPairsExactly(w, cfg, Open(s, c));
    StoredPairs(s, ApprovalAnswer(uuid, true), c, r);
    var s2 := Step(w, cfg, s, ApprovalAnswer(uuid, true));
    assert s2.store == s.store[c.id := r.0.saved] && s2.store[c.id] == r.0.saved;
    assert s.store[c.id := c] == s.store;
  }

  lemma StepPairsExactly(w: World, cfg: Config, s: Sys, request: Request)
    requires StoreValid(s) && AllPaired(s)
    ensures AllPaired(Step(w, cfg, s, request)) <==> !Mispairs(w, cfg, s, request)
  {
    match request
    case Start => StartPairs(w, cfg, s);
    case UserMessage(id, text) =>
      if id in s.store && text != "" {
        var c := s.store[id];
        ScanIsPairing(c.messages);
        MessageKeepsPairing(w, cfg, Open(s, c), text);
        StoredPairs(s, request, c, ProcessMessage(w, cfg, Open(s, c), text));
      }
    case ApprovalAnswer(uuid, approved) =>
      var found := FindByUuid(s.store, uuid);
      if found.Some? {
        if approved {
          GrantStepPairs(w, cfg, s, uuid);
        } else {
          var c := s.store[found.value];
          ScanIsPairing(c.messages);
          RejectKeepsPairing(w, cfg, Open(s, c));
          StoredPairs(s, request, c, ResolveApproval(w, cfg, Open(s, c), false));
        }
      }
  }

  lemma LastPairsExactly(w: World, cfg: Config, requests: seq<Request>)
    requires requests != [] && AllPaired(Serve(w, cfg, requests[..|requests| - 1]))
    ensures AllPaired(Serve(w, cfg, requests))
            <==> !Mispairs(w, cfg, Serve(w, cfg, requests[..|requests| - 1]), requests[|requests| - 1])
  {
    ServeKeeps(w, cfg, requests[..|requests| - 1]);
    StepPairsExactly(w, cfg, Serve(w, cfg, requests[..|requests| - 1]), requests[|requests| - 1]);
  }

  /** Over every run of any agent, simple or orchestrated: every stored transcript stays well paired
      exactly when no request grants an approval whose result does not answer the last record. */
  lemma {:induction false} PairingLastsExactly(w: World, cfg: Config, requests: seq<Request>)
    ensures (forall n :: 0 <= n <= |requests| ==> AllPaired(Serve(w, cfg, requests[..n])))
            <==> (forall n :: 0 <= n < |requests| ==> !Mispairs(w, cfg, Serve(w, cfg, requests[..n]), requests[n]))
  {
    if requests == [] {
      assert requests[..0] == [];
    } else {
      hide *;
      var last := |requests| - 1;
      PairingLastsExactly(w, cfg, requests[..last]);
      PrefixesSplit(requests);
      if AllPaired(Serve(w, cfg, requests[..last])) {
        LastPairsExactly(w, cfg, requests);
      }
    }
  }

  /** With a tree that always answers, a given result is always stored. */
  lemma GivenResultIsStored(w: World, cfg: Config, requests: seq<Request>, uuid: Id)
    requires Tame(w, cfg) && FindByUuid(Serve(w, cfg, requests).store, uuid).Some?
    requires var s := Serve(w, cfg, requests); GivesResult(w, Open(s, s.store[FindByUuid(s.store, uuid).value]))
    ensures Step(w, cfg, Serve(w, cfg, requests), ApprovalAnswer(uuid, true)).store != Serve(w, cfg, requests).store
  {
    GrantSettlesExactly(w, cfg, requests, uuid);
  }

  /** For simple agents and for trees that always answer, the stored records before each grant and the
      answer of the granted call decide: every transcript stays well paired exactly when no grant gives
      a result while the last record is not its call. */
  lemma TamePairingLastsExactly(w: World, cfg: Config, requests: seq<Request>)
    requires Tame(w, cfg)
    ensures (forall n :: 0 <= n <= |requests| ==> AllPaired(Serve(w, cfg, requests[..n])))
            <==> (forall n :: 0 <= n < |requests| ==> !GrantsUncalled(w, Serve(w, cfg, requests[..n]), requests[n]))
  {
    hide Serve, Tame, AllPaired, Step;
    PairingLastsExactly(w, cfg, requests);
    forall n | 0 <= n < |requests|
      ensures var s := Serve(w, cfg, requests[..n]);
              Mispairs(w, cfg, s, requests[n]) <==> GrantsUncalled(w, s, requests[n])
    {
      if GrantsUncalled(w, Serve(w, cfg, requests[..n]), requests[n]) {
        GivenResultIsStored(w, cfg, requests[..n], requests[n].uuid);
      }
    }
  }

  // ---------- trees whose transcripts are always paired ----------

  /** No parallel or loop nodes, and models only where no remote agent is marked destructive. */
  predicate Accountable(w: World, node: AgentNode) {
    if node.IsLeaf() then node.kind == A2A || forall x :: x in w.clients ==> !w.clients[x]
    else node.kind == Sequential && forall i :: 0 <= i < |node.agents| ==> Accountable(w, node.agents[i])
  }

  /** From a well-paired conversation with nothing pending: well paired, and waiting for its last call
      exactly when the run waits; nothing else has been stored. */
  ghost predicate RunAwaits(c: Ctx, r: (Ctx, Outcome)) {
    && !Broke(r.0.conv) && Awaits(r.0.conv) && (r.0.conv.pending.Some? ==> r.1.Waits())
    && (r.0.saved == c.saved || (!Broke(r.0.saved) && Awaits(r.0.saved)))
  }

  lemma PauseAwaits(w: World, node: AgentNode, path: seq<nat>, hist: seq<Event>, prompt: string, userMessage: string,
                    ms: seq<Message>)
    requires Accountable(w, node) && node.IsLeaf() && Scan(ms) != Broken
    ensures var act := LeafAct(w, node, path, hist, prompt, userMessage, false);
            act.end.Pause? ==> |act.notes| == 1 && Scan(ms + act.notes) == Awaiting(act.end.tool)
  {
    var act := LeafAct(w, node, path, hist, prompt, userMessage, false);
    if act.end.Pause? {
      assert |act.notes| == 1 && act.notes[0].CallRecord? && act.notes[0].name == act.end.tool;
      assert act.notes == [act.notes[0]];
      ScanSnoc(ms, act.notes[0]);
    }
  }

  lemma LeafAwaits(w: World, node: AgentNode, c: Ctx, userMessage: string, path: seq<nat>)
    requires Accountable(w, node) && node.IsLeaf() && !Broke(c.conv) && c.conv.pending.None?
    ensures RunAwaits(c, ExecLeaf(w, node, c, userMessage, path, false))
  {
    var prompt := ResolveTemplate(node.prompt, c.values);
    var act := LeafAct(w, node, path, c.trace, prompt, userMessage, false);
    ActSelfPaired(w, node, path, c.trace, prompt, userMessage, false);
    NotesKeep(c.conv.messages, act.notes);
    PauseAwaits(w, node, path, c.trace, prompt, userMessage, c.conv.messages);
    if act.end.Pause? {
      SayKeeps(c.conv.messages + act.notes, w.render(ApprovalNeeded(act.end.description, c.nextId)));
    }
  }

  lemma AwaitsThen(c: Ctx, c1: Ctx, r: (Ctx, Outcome))
    requires RunAwaits(c1, r) && (c1.saved == c.saved || (!Broke(c1.saved) && Awaits(c1.saved)))
    ensures RunAwaits(c, r)
  {
  }

  lemma StillAwaits(c: Ctx, o: Outcome)
    requires !Broke(c.conv) && c.conv.pending.None?
    ensures RunAwaits(c, (c, o))
  {
  }

  lemma ResumeAwaits(w: World, node: AgentNode, c: Ctx, r: Resume)
    requires !Broke(c.conv) && c.conv.pending.None?
    ensures RunAwaits(c, ResumeLeaf(w, node, c, r))
  {
    SayKeeps(c.conv.messages, w.render(OperationDone(node.name, r.toolResult)));
  }

  lemma {:induction false} NodeAwaits(w: World, node: AgentNode, c: Ctx, userMessage: string, resume: Option<Resume>,
                                      path: seq<nat>)
    requires Accountable(w, node) && !Broke(c.conv) && c.conv.pending.None?
    ensures RunAwaits(c, ExecNode(w, node, c, userMessage, resume, path, false))
    decreases node, 3
  {
    hide Broke, Awaits, ResumeLeaf, ExecLeaf;
    if node.IsLeaf() {
      if resume.Some? && resume.value.path == [] {
        ResumeAwaits(w, node, c, resume.value);
      } else {
        LeafAwaits(w, node, c, userMessage, path);
      }
    } else if resume.Some? && resume.value.path != [] {
      var i := resume.value.path[0];
      if i < |node.agents| {
        var r := Some(resume.value.(path := resume.value.path[1..]));
        var (c1, o) := ExecNode(w, node.agents[i], c, userMessage, r, path + [i], false);
        NodeAwaits(w, node.agents[i], c, userMessage, r, path + [i]);
        if !o.Stops() {
          SeqAwaits(w, node, c1, userMessage, path, i + 1, None);
          AwaitsThen(c, c1, SeqFrom(w, node, c1, userMessage, path, false, i + 1, None));
        }
      } else {
        StillAwaits(c, Panicked);
      }
    } else {
      SeqAwaits(w, node, c, userMessage, path, 0, None);
    }
  }

  lemma {:induction false} SeqAwaits(w: World, node: AgentNode, c: Ctx, userMessage: string, path: seq<nat>, i: nat,
                                     last: Option<NodeResult>)
    requires Accountable(w, node) && node.kind == Sequential && i <= |node.agents| && !Broke(c.conv)
    requires c.conv.pending.None?
    ensures RunAwaits(c, SeqFrom(w, node, c, userMessage, path, false, i, last))
    decreases node, 1, |node.agents| - i
  {
    hide Broke, Awaits;
    if i < |node.agents| {
      var (c1, o) := ExecNode(w, node.agents[i], c, userMessage, None, path + [i], false);
      NodeAwaits(w, node.agents[i], c, userMessage, None, path + [i]);
      if !o.Stops() {
        SeqAwaits(w, node, c1, userMessage, path, i + 1, Some(o.result));
        AwaitsThen(c, c1, SeqFrom(w, node, c1, userMessage, path, false, i + 1, Some(o.result)));
      }
    } else {
      StillAwaits(c, LastOr(last));
    }
  }

  /** A conversation of such an agent, as stored. */
  predicate WellAwaited(c: Conv) {
    !Broke(c) && Awaits(c)
  }

  ghost predicate AccountableAgent(w: World, cfg: Config) {
    !cfg.IsSimple() && Accountable(w, cfg.root.value)
  }

  lemma MessageAwaits(w: World, cfg: Config, c: Ctx, text: string)
    requires AccountableAgent(w, cfg) && WellAwaited(c.conv) && c.saved == c.conv && c.conv.StatusAgrees()
    ensures WellAwaited(ProcessMessage(w, cfg, c, text).0.saved)
  {
    if c.conv.status != WaitingApproval {
      var c1 := c.Say([Text(RoleUser, text)]).(values := map[]);
      SayKeeps(c.conv.messages, text);
      var (c2, o) := RunTree(w, cfg.root.value, c1, text, None);
      NodeAwaits(w, cfg.root.value, c1, text, None, []);
      if o.Failed? {
        SayKeeps(c2.conv.messages, w.render(PipelineError(o.error)));
      }
    }
  }

  lemma ContinueAwaits(w: World, cfg: Config, c: Ctx, pl: Option<Pipeline>, result: string, viaProxy: bool)
    requires AccountableAgent(w, cfg) && !Broke(c.conv) && c.conv.pending.None? && WellAwaited(c.saved)
    ensures WellAwaited(Continue(w, cfg, c, pl, result, viaProxy).0.saved)
  {
    if pl.None? {
      LoopPairs(w, cfg.system, c, MAX_TOOL_ITERATIONS);
    } else {
      var loaded := c.(values := pl.value.session);
      var c1 := if viaProxy then loaded.Set(pl.value.outputKey, result) else loaded;
      NodeAwaits(w, cfg.root.value, c1, pl.value.userMessage, Some(Resume(pl.value.path, result, pl.value.outputKey)),
                 []);
    }
  }

  lemma ResultAwaits(w: World, cfg: Config, c: Ctx, pl: Option<Pipeline>, tool: string, text: string, isError: bool,
                     result: string, viaProxy: bool)
    requires AccountableAgent(w, cfg) && Scan(c.conv.messages) == Awaiting(tool) && c.conv.pending.None?
    requires WellAwaited(c.saved)
    ensures WellAwaited(Continue(w, cfg, c.Say([ResultRecord(tool, text, isError)]), pl, result, viaProxy).0.saved)
  {
    ScanSnoc(c.conv.messages, ResultRecord(tool, text, isError));
    ContinueAwaits(w, cfg, c.Say([ResultRecord(tool, text, isError)]), pl, result, viaProxy);
  }

  lemma ProxyAwaits(w: World, cfg: Config, c: Ctx, p: Pending, pl: Option<Pipeline>)
    requires AccountableAgent(w, cfg) && Scan(c.conv.messages) == Awaiting(p.toolName) && c.conv.pending.None?
    requires WellAwaited(c.saved)
    ensures WellAwaited(ApproveProxy(w, cfg, c, p, pl).0.saved)
  {
    var reply := w.resumeTask(c.trace, p.remoteAgent, p.remoteTaskId, ANSWER_APPROVED);
    if p.remoteAgent in w.clients && reply.RemoteTask? {
      var task, ms := reply.task, c.conv.messages;
      var c1 := LogAt(c, pl, ContinueTask(p.remoteAgent, p.remoteTaskId, ANSWER_APPROVED));
      if task.state.InputRequired? {
        var response := w.render(ApprovalNeeded(ProxyDescription(w, p.remoteAgent, task), c.nextId));
        SayKeeps(ms, response);
        assert [] + [Text(RoleAssistant, response)] == [Text(RoleAssistant, response)];
      } else if task.state.AuthRequired? {
        SayKeeps(ms, AuthText(w, p.remoteAgent, task));
      } else {
        ResultAwaits(w, cfg, c1, pl, p.toolName, task.text, task.state.TaskFailed?, task.text, true);
      }
    }
  }

  lemma LocalAwaits(w: World, cfg: Config, c: Ctx, p: Pending, pl: Option<Pipeline>)
    requires AccountableAgent(w, cfg) && Scan(c.conv.messages) == Awaiting(p.toolName) && c.conv.pending.None?
    requires WellAwaited(c.saved)
    ensures WellAwaited(ApproveLocal(w, cfg, c, p, pl).0.saved)
  {
    var c1 := LogAt(c, pl, ApprovedCall(p.toolName, p.toolArgs));
    if HasPrefix(p.toolName, A2A_PREFIX) {
      match w.send(c.trace, TrimPrefix(p.toolName, A2A_PREFIX), MessageArg(p.toolArgs))
      case RemoteError(e) => ResultAwaits(w, cfg, c1, None, p.toolName, w.render(AgentFailed("", e)), true, "", false);
      case RemoteTask(task) =>
        ResultAwaits(w, cfg, c1, pl, p.toolName, task.text, task.state.TaskFailed?, task.text, false);
    } else {
      match w.runTool(c.trace, p.toolName, p.toolArgs)
      case ToolAuthRequired =>
        var server := if p.toolName in w.tools then w.tools[p.toolName].server else p.toolName;
        SayKeeps(c.conv.messages, w.render(AuthNeeded("", server)));
      case ToolFailed(e) => ResultAwaits(w, cfg, c1, None, p.toolName, w.render(ToolBroken("", e)), true, "", false);
      case ToolOk(text, isError) => ResultAwaits(w, cfg, c1, pl, p.toolName, text, isError, text, false);
    }
  }

  lemma ResolveAwaits(w: World, cfg: Config, c: Ctx, approved: bool)
    requires AccountableAgent(w, cfg) && WellAwaited(c.conv) && c.saved == c.conv && c.conv.pending.Some?
    ensures WellAwaited(ResolveApproval(w, cfg, c, approved).0.saved)
  {
    if approved {
      var c2 := Cleared(c).Say([Text(RoleUser, APPROVED_TEXT)]);
      SayKeeps(c.conv.messages, APPROVED_TEXT);
      if c.conv.pending.value.IsProxy() {
        ProxyAwaits(w, cfg, c2, c.conv.pending.value, c.conv.pipeline);
      } else {
        LocalAwaits(w, cfg, c2, c.conv.pending.value, c.conv.pipeline);
      }
    } else {
      RejectKeepsPairing(w, cfg, c);
    }
  }

  lemma {:induction false} ServeAwaits(w: World, cfg: Config, requests: seq<Request>)
    requires AccountableAgent(w, cfg)
    ensures forall id :: id in Serve(w, cfg, requests).store ==> WellAwaited(Serve(w, cfg, requests).store[id])
  {
    if requests != [] {
      var front, request := requests[..|requests| - 1], requests[|requests| - 1];
      var s := Serve(w, cfg, front);
      ServeAwaits(w, cfg, front);
      ServeKeeps(w, cfg, front);
      match request
      case Start =>
        var c := NewConv(s.nextId, cfg.system);
        assert [] + c.messages == c.messages;
        NotesKeep([], c.messages);
      case UserMessage(id, text) =>
        if id in s.store {
          MessageAwaits(w, cfg, Open(s, s.store[id]), text);
        }
      case ApprovalAnswer(uuid, approved) =>
        var found := FindByUuid(s.store, uuid);
        if found.Some? {
          ResolveAwaits(w, cfg, Open(s, s.store[found.value]), approved);
        }
    }
  }

  /** In every reachable store of an orchestrated agent without parallel and loop nodes whose models can
      reach no destructive agent: each result answers the latest call before it, no call is answered
      twice, and a pending approval is for the one call still unanswered. */
  lemma OrchestratedResultsAnswerCalls(w: World, cfg: Config, requests: seq<Request>, id: Id)
    requires AccountableAgent(w, cfg) && id in Serve(w, cfg, requests).store
    ensures var c := Serve(w, cfg, requests).store[id];
            && Paired(c.messages)
            && (c.pending.Some? ==> exists i :: LastIsCall(c.messages, i, c.pending.value.toolName))
  {
    ServeAwaits(w, cfg, requests);
    var c := Serve(w, cfg, requests).store[id];
    ScanIsPairing(c.messages);
    if c.pending.Some? {
      AwaitingExactly(c.messages, c.pending.value.toolName);
    }
  }
}
