/** What the two entry points keep, for simple and for orchestrated agents. */
module ApiFacts {
  import opened Prelude
  import opened Conversations
  import opened World
  import opened Orchestrator
  import opened RunFacts
  import opened SimpleAgent
  import opened Api

  /** The event needed no approval: it is not marked, or lies under a parallel or loop node. */
  predicate Gated(w: World, cfg: Config, e: Event) {
    match e
    case ChatEvent(call) => !Marked(w, call)
    case Event(_, call) => call.ContinueTask? || (cfg.root.Some? && Legit(w, cfg.root.value, [], false, e))
  }

  predicate Grew(c: Ctx, c2: Ctx) {
    c.trace <= c2.trace && KeepsConv(c, c2)
  }

  /** Grew, and every new event from position lo on needed no approval. */
  ghost predicate GrewGated(w: World, cfg: Config, c: Ctx, c2: Ctx) {
    Grew(c, c2) && forall k :: |c.trace| <= k < |c2.trace| ==> Gated(w, cfg, c2.trace[k])
  }

  lemma GrewTrans(w: World, cfg: Config, a: Ctx, b: Ctx, c: Ctx)
    requires GrewGated(w, cfg, a, b) && GrewGated(w, cfg, b, c)
    ensures GrewGated(w, cfg, a, c)
  {
    forall k | |a.trace| <= k < |c.trace|
      ensures Gated(w, cfg, c.trace[k])
    {
      if k < |b.trace| {
        assert c.trace[k] == b.trace[k];
      }
    }
  }

  /** Ends of a turn have been saved; a question to a remote agent is not a marked one. */
  predicate TurnSaved(turn: Turn) {
    turn.Over? ==> turn.c.saved == turn.c.conv
  }

  /** A round of the loop grew gated, saved if it ended, and asks unmarked questions only. */
  ghost predicate TurnGrew(w: World, cfg: Config, c: Ctx, turn: Turn) {
    GrewGated(w, cfg, c, turn.c) && TurnSaved(turn) && (turn.Ask? ==> !Marked(w, SendTask(turn.agent, turn.text)))
  }

  lemma DelegateStepGrows(w: World, cfg: Config, c: Ctx, tool: string, args: Args)
    ensures TurnGrew(w, cfg, c, DelegateStep(w, c, tool, args))
  {
  }

  lemma ToolStepGrows(w: World, cfg: Config, c: Ctx, tool: string, args: Args)
    ensures TurnGrew(w, cfg, c, ToolStep(w, c, tool, args))
  {
  }

  lemma LogGrows(w: World, cfg: Config, c: Ctx, call: Call, turn: Turn)
    requires !Marked(w, call) && TurnGrew(w, cfg, Log(c, call), turn)
    ensures TurnGrew(w, cfg, c, turn)
  {
    GrewTrans(w, cfg, c, Log(c, call), turn.c);
  }

  lemma TakeTurnGrows(w: World, cfg: Config, c: Ctx)
    ensures TurnGrew(w, cfg, c, TakeTurn(w, cfg.system, c))
  {
    var ask := ModelAsk(cfg.system, c);
    var c1 := Log(c, ask);
    match w.llm(c.trace, ask)
    case LlmTool(tool, args) =>
      if HasPrefix(tool, A2A_PREFIX) {
        DelegateStepGrows(w, cfg, c1, tool, args);
      } else {
        ToolStepGrows(w, cfg, c1, tool, args);
      }
      LogGrows(w, cfg, c, ask, TakeTurn(w, cfg.system, c));
    case _ => LogGrows(w, cfg, c, ask, TakeTurn(w, cfg.system, c));
  }

  lemma AfterReplyGrows(w: World, cfg: Config, c: Ctx, agent: string, tool: string, args: Args, reply: RemoteReply)
    ensures var turn := AfterReply(w, c, agent, tool, args, reply);
            GrewGated(w, cfg, c, turn.c) && TurnSaved(turn)
  {
  }

  lemma AskedOracleGrows(w: World, cfg: Config, c: Ctx)
    ensures var turn := AskedOracle(w, TakeTurn(w, cfg.system, c));
            GrewGated(w, cfg, c, turn.c) && TurnSaved(turn)
  {
    TakeTurnGrows(w, cfg, c);
    var turn := TakeTurn(w, cfg.system, c);
    if turn.Ask? {
      var c1 := Log(turn.c, SendTask(turn.agent, turn.text));
      var reply := w.send(turn.c.trace, turn.agent, turn.text);
      GrewTrans(w, cfg, c, turn.c, c1);
      AfterReplyGrows(w, cfg, c1, turn.agent, turn.tool, turn.args, reply);
      GrewTrans(w, cfg, c, c1, AfterReply(w, c1, turn.agent, turn.tool, turn.args, reply).c);
    }
  }

  lemma AnswerGrows(w: World, cfg: Config, c: Ctx, text: string)
    ensures GrewGated(w, cfg, c, Answer(c, text).c) && Answer(c, text).c.saved == Answer(c, text).c.conv
  {
  }

  lemma {:induction false} SimpleLoopGrows(w: World, cfg: Config, c: Ctx, rounds: nat)
    ensures var (c1, result) := SimpleLoop(w, cfg.system, c, rounds);
            GrewGated(w, cfg, c, c1) && c1.saved == c1.conv
    decreases rounds
  {
    hide SimpleLoop, AskedOracle, TakeTurn, GrewGated, Answer;
    if rounds == 0 {
      SimpleLoopEnds(w, cfg.system, c);
      AnswerGrows(w, cfg, c, w.render(IterationCap));
    } else {
      var asked := AskedOracle(w, TakeTurn(w, cfg.system, c));
      AskedOracleGrows(w, cfg, c);
      SimpleLoopStep(w, cfg.system, c, rounds, asked);
      if asked.Again? {
        SimpleLoopGrows(w, cfg, asked.c, rounds - 1);
        GrewTrans(w, cfg, c, asked.c, SimpleLoop(w, cfg.system, asked.c, rounds - 1).0);
      }
    }
  }

  lemma RunTreeGrows(w: World, cfg: Config, c: Ctx, userMessage: string, resume: Option<Resume>)
    requires cfg.root.Some?
    ensures GrewGated(w, cfg, c, RunTree(w, cfg.root.value, c, userMessage, resume).0)
  {
    NodeKeeps(w, cfg.root.value, c, userMessage, resume, [], false);
  }

  lemma ProcessMessageGrows(w: World, cfg: Config, c: Ctx, userMessage: string)
    ensures var (c1, reply) := ProcessMessage(w, cfg, c, userMessage);
            GrewGated(w, cfg, c, c1)
  {
    var c1 := c.Say([Text(RoleUser, userMessage)]);
    if c.conv.status == WaitingApproval {
    } else if cfg.IsSimple() {
      SimpleLoopGrows(w, cfg, c1, MAX_TOOL_ITERATIONS);
    } else {
      RunTreeGrows(w, cfg, c1.(values := map[]), userMessage, None);
    }
  }

  // ---------- answers to approvals ----------

  /** Nothing but a save can make a reply: a reply means the stored copy is the current one. */
  ghost predicate Settled(w: World, cfg: Config, c: Ctx, r: (Ctx, Reply)) {
    GrewGated(w, cfg, c, r.0) && (r.1.Replied? ==> r.0.saved == r.0.conv)
  }

  lemma ContinueSettles(w: World, cfg: Config, c: Ctx, pl: Option<Pipeline>, result: string, viaProxy: bool)
    ensures Settled(w, cfg, c, Continue(w, cfg, c, pl, result, viaProxy))
  {
    if pl.Some? {
      if cfg.root.Some? {
        var loaded := c.(values := pl.value.session);
        var c1 := if viaProxy then loaded.Set(pl.value.outputKey, result) else loaded;
        RunTreeGrows(w, cfg, c1, pl.value.userMessage, Some(Resume(pl.value.path, result, pl.value.outputKey)));
      }
    } else {
      SimpleLoopGrows(w, cfg, c, MAX_TOOL_ITERATIONS);
    }
  }

  /** After c has been logged and recorded into c1, settling c1 settles c. */
  lemma SettleTrans(w: World, cfg: Config, c: Ctx, c1: Ctx, r: (Ctx, Reply))
    requires GrewGated(w, cfg, c, c1) && Settled(w, cfg, c1, r)
    ensures Settled(w, cfg, c, r)
  {
    GrewTrans(w, cfg, c, c1, r.0);
  }

  lemma AfterProxySettles(w: World, cfg: Config, c: Ctx, p: Pending, pl: Option<Pipeline>, reply: RemoteReply)
    ensures Settled(w, cfg, c, AfterProxy(w, cfg, c, p, pl, reply))
  {
    if reply.RemoteTask? && !reply.task.state.InputRequired? && !reply.task.state.AuthRequired? {
      var c1 := c.Say([ResultRecord(p.toolName, reply.task.text, reply.task.state.TaskFailed?)]);
      ContinueSettles(w, cfg, c1, pl, reply.task.text, true);
      SettleTrans(w, cfg, c, c1, Continue(w, cfg, c1, pl, reply.task.text, true));
    }
  }

  lemma AfterSendSettles(w: World, cfg: Config, c: Ctx, p: Pending, pl: Option<Pipeline>, reply: RemoteReply)
    ensures Settled(w, cfg, c, AfterSend(w, cfg, c, p, pl, reply))
  {
    match reply
    case RemoteError(e) =>
      if pl.None? {
        var c1 := c.Say([ResultRecord(p.toolName, w.render(AgentFailed("", e)), true)]);
        ContinueSettles(w, cfg, c1, None, "", false);
        SettleTrans(w, cfg, c, c1, RunSimple(w, cfg, c1));
      }
    case RemoteTask(task) =>
      var c1 := c.Say([ResultRecord(p.toolName, task.text, task.state.TaskFailed?)]);
      ContinueSettles(w, cfg, c1, pl, task.text, false);
      SettleTrans(w, cfg, c, c1, Continue(w, cfg, c1, pl, task.text, false));
  }

  lemma AfterToolSettles(w: World, cfg: Config, c: Ctx, p: Pending, pl: Option<Pipeline>, reply: ToolReply)
    ensures Settled(w, cfg, c, AfterTool(w, cfg, c, p, pl, reply))
  {
    match reply
    case ToolAuthRequired =>
    case ToolFailed(e) =>
      if pl.None? {
        var c1 := c.Say([ResultRecord(p.toolName, w.render(ToolBroken("", e)), true)]);
        ContinueSettles(w, cfg, c1, None, "", false);
        SettleTrans(w, cfg, c, c1, RunSimple(w, cfg, c1));
      }
    case ToolOk(text, isError) =>
      var c1 := c.Say([ResultRecord(p.toolName, text, isError)]);
      ContinueSettles(w, cfg, c1, pl, text, false);
      SettleTrans(w, cfg, c, c1, Continue(w, cfg, c1, pl, text, false));
  }

  /** The event is the call the approval was for. */
  predicate Releases(p: Pending, e: Event) {
    !p.IsProxy() && e.call == ApprovedCall(p.toolName, p.toolArgs)
  }

  ghost predicate Resolved(w: World, cfg: Config, p: Pending, approved: bool, c: Ctx, r: (Ctx, Reply)) {
    && Grew(c, r.0)
    && (r.1.Replied? ==> r.0.saved == r.0.conv)
    && (forall k :: |c.trace| <= k < |r.0.trace| ==>
          Gated(w, cfg, r.0.trace[k]) || (approved && k == |c.trace| && Releases(p, r.0.trace[k])))
    && (!approved ==> forall k :: |c.trace| <= k < |r.0.trace| ==> r.0.trace[k].call.ContinueTask?)
  }

  lemma ReleaseThenSettle(w: World, cfg: Config, c: Ctx, p: Pending, pl: Option<Pipeline>, call: Call, r: (Ctx, Reply))
    requires Settled(w, cfg, LogAt(c, pl, call), r)
    requires call.ContinueTask? || (!p.IsProxy() && call == ApprovedCall(p.toolName, p.toolArgs))
    ensures Resolved(w, cfg, p, true, c, r)
  {
    var c1 := LogAt(c, pl, call);
    assert c1.trace[|c.trace|].call == call;
    forall k | |c.trace| <= k < |r.0.trace|
      ensures Gated(w, cfg, r.0.trace[k]) || (k == |c.trace| && Releases(p, r.0.trace[k]))
    {
      if k < |c1.trace| {
        assert r.0.trace[k] == c1.trace[k];
      }
    }
  }

  lemma ApproveResolves(w: World, cfg: Config, c: Ctx, p: Pending, pl: Option<Pipeline>)
    ensures Resolved(w, cfg, p, true, c,
                     if p.IsProxy() then ApproveProxy(w, cfg, c, p, pl) else ApproveLocal(w, cfg, c, p, pl))
  {
    if p.IsProxy() {
      if p.remoteAgent in w.clients {
        var call := ContinueTask(p.remoteAgent, p.remoteTaskId, ANSWER_APPROVED);
        AfterProxySettles(w, cfg, LogAt(c, pl, call), p, pl,
                          w.resumeTask(c.trace, p.remoteAgent, p.remoteTaskId, ANSWER_APPROVED));
        ReleaseThenSettle(w, cfg, c, p, pl, call, ApproveProxy(w, cfg, c, p, pl));
      }
    } else {
      var call := ApprovedCall(p.toolName, p.toolArgs);
      if !HasPrefix(p.toolName, A2A_PREFIX) {
        AfterToolSettles(w, cfg, LogAt(c, pl, call), p, pl, w.runTool(c.trace, p.toolName, p.toolArgs));
        ReleaseThenSettle(w, cfg, c, p, pl, call, ApproveLocal(w, cfg, c, p, pl));
      } else if TrimPrefix(p.toolName, A2A_PREFIX) in w.clients {
        AfterSendSettles(w, cfg, LogAt(c, pl, call), p, pl,
                         w.send(c.trace, TrimPrefix(p.toolName, A2A_PREFIX), MessageArg(p.toolArgs)));
        ReleaseThenSettle(w, cfg, c, p, pl, call, ApproveLocal(w, cfg, c, p, pl));
      }
    }
  }

  /** An answer clears the approval first; then only the approved call may go ungated, and it comes first. */
  lemma ResolveApprovalResolves(w: World, cfg: Config, c: Ctx, approved: bool)
    requires c.conv.pending.Some?
    ensures Resolved(w, cfg, c.conv.pending.value, approved, Cleared(c), ResolveApproval(w, cfg, c, approved))
  {
    if approved {
      ApproveResolves(w, cfg, Cleared(c).Say([Text(RoleUser, APPROVED_TEXT)]), c.conv.pending.value, c.conv.pipeline);
    }
  }
}
