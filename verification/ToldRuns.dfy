/** Recorded results are what the outside said, in every reachable store; and the model is shown them. */
module ToldRuns {
  import opened Prelude
  import opened Conversations
  import opened World
  import opened Orchestrator
  import opened Transcript
  import opened SimpleAgent
  import opened Api
  import opened Lifecycle
  import opened Chat
  import opened Told

  // ---------- answers to approvals ----------

  /** The new conversation is fine, and so is its stored copy if there is a new one. */
  ghost predicate EndsFine(w: World, strict: bool, c: Ctx, d: Ctx) {
    && c.trace <= d.trace && Fine(w, strict, d.trace, d.conv)
    && (d.saved == c.saved || Fine(w, strict, d.trace, d.saved))
  }

  lemma ContinueFine(w: World, cfg: Config, strict: bool, c: Ctx, pl: Option<Pipeline>, result: string, viaProxy: bool)
    requires Fine(w, strict, c.trace, c.conv) && c.conv.pending.None? && (strict ==> pl.None?)
    ensures EndsFine(w, strict, c, Continue(w, cfg, c, pl, result, viaProxy).0)
  {
    hide Fine;
    if pl.None? {
      LoopFine(w, strict, cfg.system, c, MAX_TOOL_ITERATIONS);
    } else if cfg.root.Some? {
      var loaded := c.(values := pl.value.session);
      var c1 := if viaProxy then loaded.Set(pl.value.outputKey, result) else loaded;
      var r := Resume(pl.value.path, result, pl.value.outputKey);
      RunsRecordAnswers(w, cfg.root.value, c1, pl.value.userMessage, Some(r), false);
    }
  }

  /** One more event and a result it gave, for the last recorded call. */
  lemma ResultFine(w: World, strict: bool, c: Ctx, c1: Ctx, m: Message, record: Option<(string, Args)>)
    requires Fine(w, strict, c.trace, c.conv) && |c1.trace| == |c.trace| + 1 && c.trace <= c1.trace
    requires c1.conv.messages == c.conv.messages && c1.conv.pending.None?
    requires Gave(w, c.trace, c1.trace[|c.trace|].call, m)
    requires strict ==> IsCallOf(c1.trace[|c.trace|].call, LastCall(c.conv.messages))
    ensures Fine(w, strict, c1.trace, c1.Say([m]).conv)
  {
    hide WasTold, LastCall;
    var k := |c.trace|;
    assert c1.trace[..k] == c.trace;
    ToldLater(w, strict, c.trace, c1.trace, c.conv.messages, k, k);
    ToldResult(w, strict, c1.trace, c.conv.messages, m, k, |c1.trace|);
  }

  /** The granted call is the last recorded one: known of simple agents. */
  predicate Called(strict: bool, c: Ctx, p: Pending) {
    strict ==> LastCall(c.conv.messages) == Some((p.toolName, p.toolArgs))
  }

  lemma RunOnFine(w: World, cfg: Config, strict: bool, c: Ctx, c1: Ctx, m: Message, pl: Option<Pipeline>,
                  result: string, viaProxy: bool)
    requires Fine(w, strict, c.trace, c.conv) && |c1.trace| == |c.trace| + 1 && c.trace <= c1.trace
    requires c1.conv == c.conv && c1.saved == c.saved && c.conv.pending.None? && (strict ==> pl.None?)
    requires Gave(w, c.trace, c1.trace[|c.trace|].call, m)
    requires strict ==> IsCallOf(c1.trace[|c.trace|].call, LastCall(c.conv.messages))
    ensures EndsFine(w, strict, c, Continue(w, cfg, c1.Say([m]), pl, result, viaProxy).0)
  {
    hide Fine, Gave, LastCall, Continue;
    ResultFine(w, strict, c, c1, m, LastCall(c.conv.messages));
    ContinueFine(w, cfg, strict, c1.Say([m]), pl, result, viaProxy);
  }

  /** A remote agent's further demand records no result. */
  lemma DemandFine(w: World, cfg: Config, strict: bool, c: Ctx, c1: Ctx, p: Pending, pl: Option<Pipeline>, task: Task)
    requires Fine(w, strict, c.trace, c.conv) && c.conv.pending.None? && Called(strict, c, p)
    requires c.trace <= c1.trace && c1.conv == c.conv && c1.saved == c.saved
    requires task.state.InputRequired? || task.state.AuthRequired?
    ensures EndsFine(w, strict, c, AfterProxy(w, cfg, c1, p, pl, RemoteTask(task)).0)
  {
    hide WasTold, LastCall, Continue;
    ToldLater(w, strict, c.trace, c1.trace, c.conv.messages, |c.trace|, |c1.trace|);
    if task.state.InputRequired? {
      var response := w.render(ApprovalNeeded(ProxyDescription(w, p.remoteAgent, task), c1.nextId));
      ToldSay(w, strict, c1.trace, c.conv.messages, Text(RoleAssistant, response), |c1.trace|);
      assert [] + [Text(RoleAssistant, response)] == [Text(RoleAssistant, response)];
    } else {
      ToldSay(w, strict, c1.trace, c.conv.messages, Text(RoleAssistant, AuthText(w, p.remoteAgent, task)), |c1.trace|);
    }
  }

  lemma ProxyFine(w: World, cfg: Config, strict: bool, c: Ctx, p: Pending, pl: Option<Pipeline>)
    requires Fine(w, strict, c.trace, c.conv) && c.conv.pending.None? && (strict ==> pl.None?) && Called(strict, c, p)
    ensures EndsFine(w, strict, c, ApproveProxy(w, cfg, c, p, pl).0)
  {
    if p.remoteAgent in w.clients {
      var call := ContinueTask(p.remoteAgent, p.remoteTaskId, ANSWER_APPROVED);
      var c1 := LogAt(c, pl, call);
      assert c1.trace[|c.trace|].call == call;
      var reply := w.resumeTask(c.trace, p.remoteAgent, p.remoteTaskId, ANSWER_APPROVED);
      if reply.RemoteTask? {
        var task := reply.task;
        if task.state.InputRequired? || task.state.AuthRequired? {
          hide Fine, AfterProxy, EndsFine;
          DemandFine(w, cfg, strict, c, c1, p, pl, task);
        } else {
          hide Fine, LastCall, Continue, EndsFine;
          RunOnFine(w, cfg, strict, c, c1, ResultRecord(p.toolName, task.text, task.state.TaskFailed?), pl, task.text,
                    true);
        }
      } else {
        hide LastCall;
        ToldLater(w, strict, c.trace, c1.trace, c.conv.messages, |c.trace|, |c1.trace|);
      }
    }
  }

  lemma ToolFine(w: World, cfg: Config, strict: bool, c: Ctx, p: Pending, pl: Option<Pipeline>)
    requires Fine(w, strict, c.trace, c.conv) && c.conv.pending.None? && (strict ==> pl.None?) && Called(strict, c, p)
    ensures var c1 := LogAt(c, pl, RunTool(p.toolName, p.toolArgs));
            EndsFine(w, strict, c, AfterTool(w, cfg, c1, p, pl, w.runTool(c.trace, p.toolName, p.toolArgs)).0)
  {
    hide WasTold, LastCall, Continue, RunSimple;
    var c1 := LogAt(c, pl, RunTool(p.toolName, p.toolArgs));
    assert c1.trace[|c.trace|].call == RunTool(p.toolName, p.toolArgs);
    ToldLater(w, strict, c.trace, c1.trace, c.conv.messages, |c.trace|, |c1.trace|);
    match w.runTool(c.trace, p.toolName, p.toolArgs)
    case ToolAuthRequired =>
      var server := if p.toolName in w.tools then w.tools[p.toolName].server else p.toolName;
      ToldSay(w, strict, c1.trace, c.conv.messages, Text(RoleAssistant, w.render(AuthNeeded("", server))), |c1.trace|);
    case ToolFailed(e) =>
      if pl.None? {
        RunOnFine(w, cfg, strict, c, c1, ResultRecord(p.toolName, w.render(ToolBroken("", e)), true), None, "", false);
        ContinueLoops(w, cfg, c1.Say([ResultRecord(p.toolName, w.render(ToolBroken("", e)), true)]));
      }
    case ToolOk(text, isError) =>
      RunOnFine(w, cfg, strict, c, c1, ResultRecord(p.toolName, text, isError), pl, text, false);
  }

  lemma ContinueLoops(w: World, cfg: Config, c: Ctx)
    ensures Continue(w, cfg, c, None, "", false) == RunSimple(w, cfg, c)
  {
  }

  lemma SendFine(w: World, cfg: Config, strict: bool, c: Ctx, p: Pending, pl: Option<Pipeline>, agent: string,
                 text: string)
    requires Fine(w, strict, c.trace, c.conv) && c.conv.pending.None? && (strict ==> pl.None?) && Called(strict, c, p)
    requires p.toolName == "a2a_" + agent && IsMessageOf(p.toolArgs, text)
    ensures var c1 := LogAt(c, pl, SendTask(agent, text));
            EndsFine(w, strict, c, AfterSend(w, cfg, c1, p, pl, w.send(c.trace, agent, text)).0)
  {
    hide WasTold, LastCall, Continue, RunSimple;
    var c1 := LogAt(c, pl, SendTask(agent, text));
    assert c1.trace[|c.trace|].call == SendTask(agent, text);
    ToldLater(w, strict, c.trace, c1.trace, c.conv.messages, |c.trace|, |c1.trace|);
    match w.send(c.trace, agent, text)
    case RemoteError(e) =>
      if pl.None? {
        RunOnFine(w, cfg, strict, c, c1, ResultRecord(p.toolName, w.render(AgentFailed("", e)), true), None, "", false);
        ContinueLoops(w, cfg, c1.Say([ResultRecord(p.toolName, w.render(AgentFailed("", e)), true)]));
      }
    case RemoteTask(task) =>
      RunOnFine(w, cfg, strict, c, c1, ResultRecord(p.toolName, task.text, task.state.TaskFailed?), pl, task.text,
                false);
  }

  lemma GrantFine(w: World, cfg: Config, strict: bool, c: Ctx)
    requires Fine(w, strict, c.trace, c.conv) && c.conv.pending.Some? && (strict ==> c.conv.pipeline.None?)
    ensures EndsFine(w, strict, c, ResolveApproval(w, cfg, c, true).0)
  {
    hide WasTold, LastCall, ApproveProxy, AfterTool, AfterSend;
    var p, pl := c.conv.pending.value, c.conv.pipeline;
    var c2 := Cleared(c).Say([Text(RoleUser, APPROVED_TEXT)]);
    ToldSay(w, strict, c.trace, c.conv.messages, Text(RoleUser, APPROVED_TEXT), |c.trace|);
    if p.IsProxy() {
      ProxyFine(w, cfg, strict, c2, p, pl);
    } else if HasPrefix(p.toolName, A2A_PREFIX) {
      var agent := TrimPrefix(p.toolName, A2A_PREFIX);
      assert p.toolName == "a2a_" + agent;
      SendFine(w, cfg, strict, c2, p, pl, agent, MessageArg(p.toolArgs));
    } else {
      ToolFine(w, cfg, strict, c2, p, pl);
    }
  }

  lemma RejectFine(w: World, cfg: Config, strict: bool, c: Ctx)
    requires Fine(w, strict, c.trace, c.conv) && c.conv.pending.Some?
    ensures var d := ResolveApproval(w, cfg, c, false).0; c.trace <= d.trace && Fine(w, strict, d.trace, d.saved)
  {
    hide WasTold, LastCall;
    var d := ResolveApproval(w, cfg, c, false).0;
    var ms, rejected, text := c.conv.messages, Text(RoleUser, REJECTED_TEXT), Text(RoleAssistant, w.render(Cancelled));
    ToldLater(w, strict, c.trace, d.trace, ms, |c.trace|, |d.trace|);
    ToldSay(w, strict, d.trace, ms, rejected, |d.trace|);
    ToldSay(w, strict, d.trace, ms + [rejected], text, |d.trace|);
    AppendTwo(ms, rejected, text);
  }

  /** A run that keeps an old stored copy, or leaves a new one. */
  lemma SavedFine(w: World, strict: bool, c: Ctx, d: Ctx)
    requires c.trace <= d.trace && Fine(w, strict, c.trace, c.saved)
    requires d.saved == c.saved || Fine(w, strict, d.trace, d.saved)
    ensures Fine(w, strict, d.trace, d.saved)
  {
    if d.saved == c.saved {
      FineLater(w, strict, c.trace, d.trace, c.saved);
    }
  }

  lemma MessageFine(w: World, cfg: Config, c: Ctx, text: string)
    requires Fine(w, cfg.IsSimple(), c.trace, c.conv) && c.conv.StatusAgrees() && c.saved == c.conv
    ensures var d := ProcessMessage(w, cfg, c, text).0; c.trace <= d.trace && Fine(w, cfg.IsSimple(), d.trace, d.saved)
  {
    hide WasTold, LastCall, ExecNode, SimpleLoop;
    var d := ProcessMessage(w, cfg, c, text).0;
    if c.conv.status != WaitingApproval {
      var c1 := c.Say([Text(RoleUser, text)]);
      ToldSay(w, cfg.IsSimple(), c.trace, c.conv.messages, Text(RoleUser, text), |c.trace|);
      if cfg.IsSimple() {
        LoopFine(w, true, cfg.system, c1, MAX_TOOL_ITERATIONS);
      } else {
        RunsRecordAnswers(w, cfg.root.value, c1.(values := map[]), text, None, false);
        var (c2, o) := ExecNode(w, cfg.root.value, c1.(values := map[]), text, None, [], false);
        if o.Failed? {
          ToldSay(w, false, c2.trace, c2.conv.messages, Text(RoleAssistant, w.render(PipelineError(o.error))),
                  |c2.trace|);
        }
      }
      SavedFine(w, cfg.IsSimple(), c, d);
    }
  }

  // ---------- every reachable store ----------

  ghost predicate AllFine(w: World, cfg: Config, s: Sys) {
    forall id :: id in s.store ==> Fine(w, cfg.IsSimple(), s.trace, s.store[id])
  }

  /** A simple agent's conversations have no pipeline. */
  ghost predicate Plainly(cfg: Config, s: Sys) {
    cfg.IsSimple() ==> forall id :: id in s.store ==> s.store[id].pipeline.None?
  }

  lemma StoreFine(w: World, cfg: Config, s: Sys, request: Request, c: Conv, r: (Ctx, Reply))
    requires AllFine(w, cfg, s) && s.trace <= r.0.trace && Fine(w, cfg.IsSimple(), r.0.trace, r.0.saved)
    ensures AllFine(w, cfg, Close(s, request, c, r))
  {
    var s2 := Close(s, request, c, r);
    forall id | id in s2.store
      ensures Fine(w, cfg.IsSimple(), s2.trace, s2.store[id])
    {
      if id != c.id {
        FineLater(w, cfg.IsSimple(), s.trace, s2.trace, s.store[id]);
      }
    }
    hide Fine;
  }

  lemma StartFine(w: World, cfg: Config, s: Sys)
    requires AllFine(w, cfg, s)
    ensures AllFine(w, cfg, Step(w, cfg, s, Start))
  {
    var c := NewConv(s.nextId, cfg.system);
    assert WasTold(w, cfg.IsSimple(), s.trace, [], |s.trace|);
    if c.messages != [] {
      ToldSay(w, cfg.IsSimple(), s.trace, [], c.messages[0], |s.trace|);
      assert [] + [c.messages[0]] == c.messages;
    }
  }

  lemma StepFine(w: World, cfg: Config, s: Sys, request: Request)
    requires AllFine(w, cfg, s) && StoreValid(s) && Plainly(cfg, s)
    ensures AllFine(w, cfg, Step(w, cfg, s, request))
  {
    hide Fine, ProcessMessage, ResolveApproval;
    match request
    case Start => StartFine(w, cfg, s);
    case UserMessage(id, text) =>
      if id in s.store && text != "" {
        var c := s.store[id];
        MessageFine(w, cfg, Open(s, c), text);
        StoreFine(w, cfg, s, request, c, ProcessMessage(w, cfg, Open(s, c), text));
      }
    case ApprovalAnswer(uuid, approved) =>
      var found := FindByUuid(s.store, uuid);
      if found.Some? {
        var c := Open(s, s.store[found.value]);
        if approved {
          GrantFine(w, cfg, cfg.IsSimple(), c);
          SavedFine(w, cfg.IsSimple(), c, ResolveApproval(w, cfg, c, true).0);
        } else {
          RejectFine(w, cfg, cfg.IsSimple(), c);
        }
        StoreFine(w, cfg, s, request, s.store[found.value], ResolveApproval(w, cfg, c, approved));
      }
  }

  lemma {:induction false} ServeFine(w: World, cfg: Config, requests: seq<Request>)
    ensures AllFine(w, cfg, Serve(w, cfg, requests))
  {
    if requests != [] {
      var front := requests[..|requests| - 1];
      ServeFine(w, cfg, front);
      ServeKeeps(w, cfg, front);
      if cfg.IsSimple() {
        ServeChats(w, cfg, front);
      }
      StepFine(w, cfg, Serve(w, cfg, front), requests[|requests| - 1]);
    }
  }

  /** In every reachable store, of simple agents and of trees: each recorded result is what the outside
      answered to a call, after the calls made until then, and later results stem from later calls. A
      simple agent's result stems from the call recorded before it, with its arguments. */
  lemma ResultsAreTold(w: World, cfg: Config, requests: seq<Request>, id: Id)
    requires id in Serve(w, cfg, requests).store
    ensures var s := Serve(w, cfg, requests); WasTold(w, cfg.IsSimple(), s.trace, s.store[id].messages, |s.trace|)
  {
    ServeFine(w, cfg, requests);
  }

  /** One result at a time. */
  lemma {:induction false} ToldAt(w: World, strict: bool, trace: seq<Event>, ms: seq<Message>, upto: nat, j: nat)
    returns (k: nat)
    requires WasTold(w, strict, trace, ms, upto) && j < |ms| && ms[j].ResultRecord?
    ensures GaveAt(w, strict, trace, ms[..j], ms[j], k, upto)
  {
    var front, m := ms[..|ms| - 1], ms[|ms| - 1];
    if j == |front| {
      k :| GaveAt(w, strict, trace, front, m, k, upto) && WasTold(w, strict, trace, front, k);
    } else if m.ResultRecord? {
      var later :| GaveAt(w, strict, trace, front, m, later, upto) && WasTold(w, strict, trace, front, later);
      k := ToldAt(w, strict, trace, front, later, j);
      assert front[..j] == ms[..j];
    } else {
      k := ToldAt(w, strict, trace, front, upto, j);
      assert front[..j] == ms[..j];
    }
  }

  // ---------- what the model is shown next ----------

  predicate EndsWith(s: string, t: string) {
    |t| <= |s| && s[|s| - |t|..] == t
  }

  /** The call, and right after it a model call whose last message is the user's and ends with the result. */
  predicate ShownNext(trace: seq<Event>, k: nat, call: Call, name: string, result: string) {
    && k + 1 < |trace| && trace[k].call == call && trace[k + 1].call.AskModel?
    && var shown := trace[k + 1].call.messages;
      && shown != [] && shown[|shown| - 1].role == UserTurn
      && EndsWith(shown[|shown| - 1].content, "Tool \"" + name + "\" returned:\n" + result)
  }

  lemma ShowsResult(ms: seq<Message>, name: string, result: string, isError: bool)
    ensures var shown := LlmMessages(ms + [ResultRecord(name, result, isError)]);
            && shown != [] && shown[|shown| - 1].role == UserTurn
            && EndsWith(shown[|shown| - 1].content, "Tool \"" + name + "\" returned:\n" + result)
  {
    var m := ResultRecord(name, result, isError);
    var text := "Tool \"" + name + "\" returned:\n" + result;
    var v := LlmMessage(UserTurn, text);
    VisibleSnoc(ms, m);
    MergeSnoc(Visible(ms), v);
  }

  lemma MergeSnoc(vs: seq<LlmMessage>, v: LlmMessage)
    ensures var out := MergeAll(vs + [v]);
            out != [] && out[|out| - 1].role == v.role && EndsWith(out[|out| - 1].content, v.content)
  {
    assert (vs + [v])[..|vs|] == vs;
  }

  lemma LoopAsksFirst(w: World, system: string, c: Ctx, rounds: nat)
    requires rounds > 0
    ensures var d := SimpleLoop(w, system, c, rounds).0;
            && |c.trace| < |d.trace| && d.trace[|c.trace|].call.AskModel? && c.trace <= d.trace
            && d.trace[|c.trace|].call.messages == LlmMessages(c.conv.messages)
  {
    hide LlmMessages, SimpleLoop, DelegateStep, ToolStep, AfterReply;
    var asked := AskedOracle(w, TakeTurn(w, system, c));
    SimpleLoopStep(w, system, c, rounds, asked);
    TurnAsks(w, system, c);
    if asked.Again? {
      LoopGrows(w, system, asked.c, rounds - 1);
    }
  }

  lemma TurnAsks(w: World, system: string, c: Ctx)
    ensures var d := AskedOracle(w, TakeTurn(w, system, c)).c;
            c.trace + [ChatEvent(AskModel("", system, LlmMessages(c.conv.messages), FullOffer))] <= d.trace
  {
    hide LlmMessages;
  }

  lemma {:induction false} LoopGrows(w: World, system: string, c: Ctx, rounds: nat)
    ensures c.trace <= SimpleLoop(w, system, c, rounds).0.trace
    decreases rounds
  {
    hide *;
    if rounds == 0 {
      SimpleLoopEnds(w, system, c);
      assert Answer(c, w.render(IterationCap)).c.trace == c.trace by { AnswerTrace(c, w.render(IterationCap)); }
    } else {
      var asked := AskedOracle(w, TakeTurn(w, system, c));
      SimpleLoopStep(w, system, c, rounds, asked);
      TurnAsks(w, system, c);
      if asked.Again? {
        LoopGrows(w, system, asked.c, rounds - 1);
      }
    }
  }

  lemma AnswerTrace(c: Ctx, text: string)
    ensures Answer(c, text).c.trace == c.trace
  {
  }

  /** The loop after a recorded result begins by showing it. */
  lemma ResultIsShown(w: World, cfg: Config, c: Ctx, c1: Ctx, call: Call, name: string, result: string, isError: bool)
    requires c1.trace == c.trace + [ChatEvent(call)]
    ensures ShownNext(RunSimple(w, cfg, c1.Say([ResultRecord(name, result, isError)])).0.trace, |c.trace|, call, name,
                      result)
  {
    hide LlmMessages, SimpleLoop, EndsWith;
    ShowsResult(c1.conv.messages, name, result, isError);
    LoopAsksFirst(w, cfg.system, c1.Say([ResultRecord(name, result, isError)]), MAX_TOOL_ITERATIONS);
  }

  /** What granting the pending approval shows the model next, by kind of approval. */
  ghost predicate GrantShows(w: World, c: Ctx, trace: seq<Event>, agent: string, text: string)
    requires c.conv.pending.Some?
  {
    var p := c.conv.pending.value;
    var tool, sent := w.runTool(c.trace, p.toolName, p.toolArgs), w.send(c.trace, agent, text);
    var passed := w.resumeTask(c.trace, p.remoteAgent, p.remoteTaskId, "approved");
    && (!p.IsProxy() && !HasPrefix(p.toolName, "a2a_") && tool.ToolOk? ==>
          ShownNext(trace, |c.trace|, RunTool(p.toolName, p.toolArgs), p.toolName, tool.text))
    && (!p.IsProxy() && p.toolName == "a2a_" + agent && agent in w.clients && IsMessageOf(p.toolArgs, text)
        && sent.RemoteTask? ==>
          ShownNext(trace, |c.trace|, SendTask(agent, text), p.toolName, sent.task.text))
    && (p.IsProxy() && p.remoteAgent in w.clients && passed.RemoteTask?
        && !passed.task.state.InputRequired? && !passed.task.state.AuthRequired? ==>
          ShownNext(trace, |c.trace|, ContinueTask(p.remoteAgent, p.remoteTaskId, "approved"), p.toolName,
                    passed.task.text))
  }

  lemma GrantIsShown(w: World, cfg: Config, c: Ctx, agent: string, text: string)
    requires c.conv.pending.Some? && c.conv.pipeline.None?
    ensures GrantShows(w, c, ResolveApproval(w, cfg, c, true).0.trace, agent, text)
  {
    hide ShownNext, RunSimple;
    var p := c.conv.pending.value;
    assert p.toolName == "a2a_" + agent ==> HasPrefix(p.toolName, A2A_PREFIX);
    var c2 := Cleared(c).Say([Text(RoleUser, APPROVED_TEXT)]);
    if p.IsProxy() {
      var reply := w.resumeTask(c.trace, p.remoteAgent, p.remoteTaskId, ANSWER_APPROVED);
      if p.remoteAgent in w.clients && reply.RemoteTask? {
        var call := ContinueTask(p.remoteAgent, p.remoteTaskId, ANSWER_APPROVED);
        ResultIsShown(w, cfg, c, LogAt(c2, None, call), call, p.toolName, reply.task.text,
                      reply.task.state.TaskFailed?);
      }
    } else if HasPrefix(p.toolName, A2A_PREFIX) {
      var to, message := TrimPrefix(p.toolName, A2A_PREFIX), MessageArg(p.toolArgs);
      assert p.toolName == "a2a_" + to;
      var reply := w.send(c.trace, to, message);
      if p.toolName == "a2a_" + agent {
        assert agent == p.toolName[4..] == to;
      }
      if to in w.clients && reply.RemoteTask? {
        var call := SendTask(to, message);
        ResultIsShown(w, cfg, c, LogAt(c2, None, call), call, p.toolName, reply.task.text,
                      reply.task.state.TaskFailed?);
      }
    } else {
      var reply := w.runTool(c.trace, p.toolName, p.toolArgs);
      if reply.ToolOk? {
        var call := RunTool(p.toolName, p.toolArgs);
        ResultIsShown(w, cfg, c, LogAt(c2, None, call), call, p.toolName, reply.text, reply.isError);
      }
    }
  }

  /** In every reachable store of a simple agent: right after a granted call that answered, the model is
      asked, and the last thing it is shown is that answer. */
  lemma GrantedAnswerIsShown(w: World, cfg: Config, requests: seq<Request>, uuid: Id, agent: string, text: string)
    requires cfg.IsSimple() && FindByUuid(Serve(w, cfg, requests).store, uuid).Some?
    ensures var s := Serve(w, cfg, requests);
            var c := Open(s, s.store[FindByUuid(s.store, uuid).value]);
            GrantShows(w, c, Step(w, cfg, s, ApprovalAnswer(uuid, true)).trace, agent, text)
  {
    ServeChats(w, cfg, requests);
    var s := Serve(w, cfg, requests);
    GrantIsShown(w, cfg, Open(s, s.store[FindByUuid(s.store, uuid).value]), agent, text);
  }
}
