/** What delegated tasks report: the words of the conversations behind them, recorded upstream. */
module NetworkTexts {
  import opened Prelude
  import opened Conversations
  import opened World
  import opened Orchestrator
  import opened SimpleAgent
  import opened Api
  import opened Network
  import opened NetworkProofs
  import opened NetworkApprovals
  import opened NetworkStrands

  // ---------- what a task's text is ----------

  predicate Spoken(m: Message) {
    m.Text? && m.role == RoleAssistant && m.content != ""
  }

  /** The content of the assistant's last message that is not empty. */
  predicate LastSpoken(ms: seq<Message>, i: nat, text: string) {
    i < |ms| && Spoken(ms[i]) && ms[i].content == text && forall j :: i < j < |ms| ==> !Spoken(ms[j])
  }

  /** A task's text is what the assistant said last; a fixed note stands for a silent conversation. */
  ghost predicate TextIs(w: World, ms: seq<Message>, text: string) {
    || (exists i :: LastSpoken(ms, i, text))
    || ((forall j :: 0 <= j < |ms| ==> !Spoken(ms[j])) && text == w.render(OperationDone("", "")))
  }

  /** The result is the last message. */
  predicate SaidLast(ms: seq<Message>, result: NodeResult) {
    ms != [] && ms[|ms| - 1] == Text(RoleAssistant, result.response)
  }

  lemma {:induction false} LastSaidIs(ms: seq<Message>)
    ensures if LastSaid(ms) == "" then forall j :: 0 <= j < |ms| ==> !Spoken(ms[j])
            else exists i :: LastSpoken(ms, i, LastSaid(ms))
  {
    if ms != [] {
      var front, m := ms[..|ms| - 1], ms[|ms| - 1];
      LastSaidIs(front);
      if Spoken(m) {
        assert LastSpoken(ms, |front|, m.content);
      } else if LastSaid(front) != "" {
        var i :| LastSpoken(front, i, LastSaid(front));
        assert LastSpoken(ms, i, LastSaid(front));
      }
    }
  }

  lemma TaskTextIs(w: World, conv: Conv, result: NodeResult)
    requires SaidLast(conv.messages, result)
    ensures TextIs(w, conv.messages, TaskOf(w, conv, result).text)
  {
    LastSaidIs(conv.messages);
    if result.response != "" {
      assert LastSpoken(conv.messages, |conv.messages| - 1, result.response);
    }
  }

  // ---------- turns speak last ----------

  /** Messages are added, and a turn that is over ends with its answer. */
  predicate TurnSpeaks(c: Ctx, turn: Turn) {
    match turn
    case Over(d, result) => c.conv.messages <= d.conv.messages && SaidLast(d.conv.messages, result)
    case Again(d) => c.conv.messages <= d.conv.messages
    case Ask(d, _, _, _, _) => c.conv.messages <= d.conv.messages
  }

  lemma DelegateStepSpeaks(w: World, c: Ctx, tool: string, args: Args)
    ensures TurnSpeaks(c, DelegateStep(w, c, tool, args))
  {
  }

  lemma ToolStepSpeaks(w: World, c: Ctx, tool: string, args: Args)
    ensures TurnSpeaks(c, ToolStep(w, c, tool, args))
  {
  }

  lemma TakeTurnSpeaks(w: World, system: string, c: Ctx)
    ensures TurnSpeaks(c, TakeTurn(w, system, c))
  {
    hide DelegateStep, ToolStep, Transcript.LlmMessages;
    var ask := ModelAsk(system, c);
    var c1 := Log(c, ask);
    var reply := w.llm(c.trace, ask);
    if reply.LlmTool? {
      DelegateStepSpeaks(w, c1, reply.name, reply.args);
      ToolStepSpeaks(w, c1, reply.name, reply.args);
    }
  }

  /** A reply with a result is recorded, word for word. */
  lemma ReplySpeaks(w: World, c: Ctx, agent: string, tool: string, args: Args, reply: RemoteReply)
    ensures var next := AfterReply(w, c, agent, tool, args, reply);
            && TurnSpeaks(c, next) && !next.Ask?
            && (reply.RemoteTask? && !reply.task.state.InputRequired? && !reply.task.state.AuthRequired? ==>
                  && next.Again?
                  && next.c.conv.messages
                     == c.conv.messages + [ResultRecord(tool, reply.task.text, reply.task.state.TaskFailed?)])
  {
  }

  /** The conversation has grown and ends with the result. */
  predicate Speaks(g: Grid, id: Id, r: (Grid, NodeResult))
    requires id in g.store
  {
    && id in r.0.store && g.store[id].conv.messages <= r.0.store[id].conv.messages
    && SaidLast(r.0.store[id].conv.messages, r.1)
  }

  lemma SpeaksThen(g: Grid, g1: Grid, id: Id, r: (Grid, NodeResult))
    requires id in g.store && id in g1.store && g.store[id].conv.messages <= g1.store[id].conv.messages
    requires Speaks(g1, id, r)
    ensures Speaks(g, id, r)
  {
  }

  lemma CapSpeaks(net: seq<Agent>, g: Grid, id: Id)
    requires Seated(net, g, id)
    ensures Speaks(g, id, Converse(net, g, id, 0))
  {
  }

  lemma TurnOpensSpeaking(net: seq<Agent>, g: Grid, id: Id, rounds: nat)
    returns (turn: Turn)
    requires Inv(net, g, None) && id in g.store && !Waits(g, id) && rounds > 0
    ensures TurnPut(net, g, id, turn) && g.nextId <= turn.c.nextId && TurnSpeaks(Open(g, g.store[id].conv), turn)
    ensures Converse(net, g, id, rounds) == FinishTurn(net, g, id, rounds - 1, turn)
  {
    assert Seated(net, g, id);
    hide Inv, Converse, FinishTurn, TakeTurn, Waits, TurnPut, TurnSpeaks;
    turn := TurnOpens(net, g, id, rounds);
    var me := net[g.store[id].host];
    TakeTurnSpeaks(me.w, me.system, Open(g, g.store[id].conv));
  }

  /** However many rounds there are, the conversation ends with the turn's answer. */
  lemma {:induction false} ConverseSpeaks(net: seq<Agent>, g: Grid, id: Id, rounds: nat)
    requires Inv(net, g, None) && id in g.store && !Waits(g, id)
    ensures Speaks(g, id, Converse(net, g, id, rounds))
    decreases rounds, 0, 1
  {
    if rounds == 0 {
      hide *;
      InvSeats(net, g, id);
      CapSpeaks(net, g, id);
    } else {
      hide *;
      RoundSpeaks(net, g, id, rounds);
    }
  }

  lemma {:induction false} RoundSpeaks(net: seq<Agent>, g: Grid, id: Id, rounds: nat)
    requires Inv(net, g, None) && id in g.store && !Waits(g, id) && rounds > 0
    ensures Speaks(g, id, Converse(net, g, id, rounds))
    decreases rounds, 0, 0
  {
    hide *;
    var turn := TurnOpensSpeaking(net, g, id, rounds);
    TurnSpeaksOn(net, g, id, rounds - 1, turn);
  }

  lemma {:induction false} TurnSpeaksOn(net: seq<Agent>, g: Grid, id: Id, rounds: nat, turn: Turn)
    requires Inv(net, g, None) && id in g.store && TurnPut(net, g, id, turn) && g.nextId <= turn.c.nextId
    requires TurnSpeaks(Open(g, g.store[id].conv), turn)
    ensures Speaks(g, id, FinishTurn(net, g, id, rounds, turn))
    decreases rounds, 3
  {
    if turn.Again? {
      var g1 := Put(g, id, turn.c);
      ConverseSpeaks(net, g1, id, rounds);
      SpeaksThen(g, g1, id, Converse(net, g1, id, rounds));
    } else if turn.Ask? {
      var g1 := Put(g, id, Log(turn.c, SendTask(turn.agent, turn.text)));
      DelegateSpeaks(net, g1, id, rounds, turn.agent, turn.text, turn.tool, turn.args);
      SpeaksThen(g, g1, id, DelegateTo(net, g1, id, rounds, turn.agent, turn.text, turn.tool, turn.args));
    }
  }

  /** A delegation: the new task's reply is taken, and recorded if it is a result. */
  lemma {:induction false} DelegateSpeaks(net: seq<Agent>, g: Grid, id: Id, rounds: nat, agent: string, text: string,
                                          tool: string, args: Args)
    requires Inv(net, g, None) && id in g.store && !Waits(g, id) && agent in net[g.store[id].host].w.clients
    ensures Speaks(g, id, DelegateTo(net, g, id, rounds, agent, text, tool, args))
    decreases rounds, 2
  {
    assert SeatOk(net, g, id);
    var b := net[g.store[id].host].links[agent];
    var (g1, reply) := SendTo(net, g, b, text, id);
    SendKeeps(net, g, b, text, id);
    DelegateKnown(net, g, id, agent, (g1, reply));
    hide Inv, SendTo, TakeReply, TaskKnown, SendDone;
    TakeReplySpeaks(net, g1, id, rounds, agent, tool, args, reply);
    SpeaksThen(g, g1, id, TakeReply(net, g1, id, rounds, agent, tool, args, reply));
  }

  lemma DelegateKnown(net: seq<Agent>, g: Grid, id: Id, agent: string, r: (Grid, RemoteReply))
    requires Inv(net, g, None) && id in g.store && !Waits(g, id) && g.store[id].host < |net|
    requires agent in net[g.store[id].host].links && SendDone(net, g, net[g.store[id].host].links[agent], id, r)
    ensures TaskKnown(net, r.0, id, agent, r.1) && !Waits(r.0, id) && Seated(net, r.0, id)
    ensures r.0.store[id] == g.store[id]
  {
    hide Agreement, LogQuiet;
  }

  predicate IsResult(reply: RemoteReply) {
    reply.RemoteTask? && !reply.task.state.InputRequired? && !reply.task.state.AuthRequired?
  }

  lemma {:induction false} TakeReplySpeaks(net: seq<Agent>, g: Grid, id: Id, rounds: nat, agent: string, tool: string,
                                           args: Args, reply: RemoteReply)
    requires TaskKnown(net, g, id, agent, reply) && !Waits(g, id) && Seated(net, g, id)
    ensures Speaks(g, id, TakeReply(net, g, id, rounds, agent, tool, args, reply))
    ensures IsResult(reply) ==>
              g.store[id].conv.messages + [ResultRecord(tool, reply.task.text, reply.task.state.TaskFailed?)]
              <= TakeReply(net, g, id, rounds, agent, tool, args, reply).0.store[id].conv.messages
    decreases rounds, 1
  {
    var w := net[g.store[id].host].w;
    var c := Open(g, g.store[id].conv);
    AfterTask(net, g, id, agent, tool, args, reply);
    var next := AfterReply(w, c, agent, tool, args, reply);
    ReplySpeaks(w, c, agent, tool, args, reply);
    hide Inv, TaskKnown, Waits, AfterReply, Converse;
    if next.Again? {
      ConverseSpeaks(net, Put(g, id, next.c), id, rounds);
    }
  }

  // ---------- a new task tells what its conversation said last ----------

  /** The words that go with the state: the approval that is waited for, the demand for
      authentication, or none. */
  ghost predicate MessageIs(w: World, conv: Conv, task: Task) {
    match task.state
    case InputRequired =>
      conv.pending.Some?
      && task.message == Some(w.render(ApprovalNeeded(conv.pending.value.description, conv.pending.value.uuid)))
    case AuthRequired =>
      && conv.messages != []
      && var last := conv.messages[|conv.messages| - 1];
        last.Text? && task.message == Some(if last.content != "" then last.content else w.render(AuthNeeded("", "")))
    case TaskCompleted => task.message == None
    case _ => false
  }

  /** The task is that of a conversation of agent b; its text is what was said last there, and its
      message goes with its state. */
  ghost predicate Tells(net: seq<Agent>, g: Grid, b: nat, task: Task)
    requires b < |net|
  {
    && task.id in g.store && g.store[task.id].host == b
    && TextIs(net[b].w, g.store[task.id].conv.messages, task.text)
    && MessageIs(net[b].w, g.store[task.id].conv, task)
  }

  lemma TaskTellsText(net: seq<Agent>, g: Grid, t: Id, result: NodeResult, hole: Option<Id>)
    requires Inv(net, g, hole) && t in g.store && SaidLast(g.store[t].conv.messages, result)
    ensures g.store[t].host < |net|
    ensures var w := net[g.store[t].host].w; Tells(net, g, g.store[t].host, TaskOf(w, g.store[t].conv, result))
  {
    assert SeatOk(net, g, t);
    hide Agreement, TextIs, LastSaid;
    TaskTextIs(net[g.store[t].host].w, g.store[t].conv, result);
  }

  /** Whatever a delegated conversation did, its new task's text is what was said last there. */
  lemma SendTells(net: seq<Agent>, g: Grid, b: nat, text: string, upstream: Id)
    requires Inv(net, g, None) && b < |net| && upstream in g.store && g.store[upstream].host < b
    ensures var (g2, reply) := SendTo(net, g, b, text, upstream);
            reply.RemoteTask? ==>
              && reply.task.id !in g.store && Tells(net, g2, b, reply.task)
              && g2.store[reply.task.id].upstream == Some(upstream)
  {
    if text != "" {
      SendKeeps(net, g, b, text, upstream);
      hide Inv, LoopDone, Converse, TaskOf, Tells;
      NewSeat(net, g, b, text, upstream);
      var g1 := Joined(net, g, b, text, upstream);
      var t := g.nextId;
      var (g2, result) := Converse(net, g1, t, MAX_TOOL_ITERATIONS);
      ConverseSpeaks(net, g1, t, MAX_TOOL_ITERATIONS);
      LoopInv(net, g1, t, (g2, result));
      TaskTellsText(net, g2, t, result, Some(t));
    }
  }

  lemma LoopInv(net: seq<Agent>, g: Grid, id: Id, r: (Grid, NodeResult))
    requires Inv(net, g, None) && id in g.store && !Waits(g, id)
    requires exists rounds: nat :: Seated(net, g, id) && r == Converse(net, g, id, rounds)
    ensures Inv(net, r.0, Some(id)) && Frame(g, r.0, id)
  {
    hide *;
    var rounds: nat :| Seated(net, g, id) && r == Converse(net, g, id, rounds);
    ConverseKeeps(net, g, id, rounds);
    LoopKeeps(net, g, id, r);
  }

  lemma LoopKeeps(net: seq<Agent>, g: Grid, id: Id, r: (Grid, NodeResult))
    requires LoopDone(net, g, id, r)
    ensures Inv(net, r.0, Some(id)) && Frame(g, r.0, id)
  {
  }

  // ---------- answered approvals ----------

  /** The approval is answered, and the conversation has grown and ends with the answer. */
  predicate Answers(g: Grid, id: Id, r: (Grid, Reply))
    requires id in g.store
  {
    r.1.Replied? && Speaks(g, id, (r.0, r.1.result))
  }

  lemma AnswersThen(g: Grid, g1: Grid, id: Id, r: (Grid, Reply))
    requires id in g.store && id in g1.store && g.store[id].conv.messages <= g1.store[id].conv.messages
    requires Answers(g1, id, r)
    ensures Answers(g, id, r)
  {
  }

  lemma RunOnSpeaks(net: seq<Agent>, g: Grid, g1: Grid, id: Id)
    requires Inv(net, g1, None) && id in g.store && id in g1.store && !Waits(g1, id)
    requires g.store[id].conv.messages <= g1.store[id].conv.messages
    ensures Seated(net, g1, id) && Answers(g, id, RunOn(net, g1, id)) && Answers(g1, id, RunOn(net, g1, id))
    ensures Frame(g1, RunOn(net, g1, id).0, id)
  {
    InvSeats(net, g1, id);
    hide Inv, Waits, Converse, Speaks, Frame;
    var r := Converse(net, g1, id, MAX_TOOL_ITERATIONS);
    ConverseSpeaks(net, g1, id, MAX_TOOL_ITERATIONS);
    LoopInv(net, g1, id, r);
    SpeaksThen(g, g1, id, r);
  }

  /** A granted tool call. */
  lemma ToolSpeaks(net: seq<Agent>, g: Grid, id: Id, p: Pending, c: Ctx, reply: ToolReply)
    requires Inv(net, g, Some(id)) && Waits(g, id) && p == g.store[id].conv.pending.value && !p.IsProxy()
    requires ConvStep(Open(g, g.store[id].conv), c) && c.conv.pending.None? && c.nextId == g.nextId
    requires c.trace == g.trace + [ChatEvent(ApprovedCall(p.toolName, p.toolArgs))]
    requires g.store[id].conv.messages <= c.conv.messages
    ensures Answers(g, id, ResolveTool(net, g, id, p, c, reply))
  {
    assert SeatOk(net, g, id);
    hide Inv, NetOk, Hosted, ConvStep, SeatOk, GateAt, Chain, TailCall, RunOn, Waits;
    var w := net[g.store[id].host].w;
    if reply.ToolFailed? {
      var c2 := c.Say([ResultRecord(p.toolName, w.render(ToolBroken("", reply.error)), true)]);
      ReleasedPut(net, g, id, c2);
      RunOnSpeaks(net, g, Put(g, id, c2), id);
    } else if reply.ToolOk? {
      var c2 := c.Say([ResultRecord(p.toolName, reply.text, reply.isError)]);
      ReleasedPut(net, g, id, c2);
      RunOnSpeaks(net, g, Put(g, id, c2), id);
    }
  }

  /** A granted delegation's task is recorded, word for word, and nothing but its upstream moves on. */
  lemma AfterGrantSpeaks(net: seq<Agent>, g: Grid, id: Id, p: Pending, agent: string, reply: RemoteReply)
    requires TaskKnown(net, g, id, agent, reply) && !Waits(g, id)
    ensures Seated(net, g, id)
    ensures var r := AfterGrant(net, g, id, p, reply);
            && Answers(g, id, r) && Frame(g, r.0, id)
            && (reply.RemoteTask? ==>
                  g.store[id].conv.messages + [ResultRecord(p.toolName, reply.task.text, reply.task.state.TaskFailed?)]
                  <= r.0.store[id].conv.messages)
  {
    assert SeatOk(net, g, id);
    var w, c := net[g.store[id].host].w, Open(g, g.store[id].conv);
    match reply
    case RemoteError(e) =>
      var c2 := c.Say([ResultRecord(p.toolName, w.render(AgentFailed("", e)), true)]);
      ResultIsPlain(w, c, c2, p.toolName, w.render(AgentFailed("", e)), true);
      RecordRuns(net, g, g, id, c2);
    case RemoteTask(task) =>
      var c2 := c.Say([ResultRecord(p.toolName, task.text, task.state.TaskFailed?)]);
      ResultIsPlain(w, c, c2, p.toolName, task.text, task.state.TaskFailed?);
      if task.state.InputRequired? {
        Orphaned(net, g, task.id);
        RecordRuns(net, g, g.(orphans := g.orphans + {task.id}), id, c2);
      } else {
        HoleFills(net, g, task.id);
        RecordRuns(net, g, g, id, c2);
      }
  }

  lemma FramesJoin(g: Grid, g1: Grid, g2: Grid, g3: Grid, id: Id)
    requires g1.store == g.store && Frame(g1, g2, id) && Frame(g2, g3, id)
    ensures Frame(g, g3, id)
  {
  }

  lemma RecordRuns(net: seq<Agent>, g: Grid, g1: Grid, id: Id, c: Ctx)
    requires Inv(net, g1, None) && id in g1.store && !Waits(g1, id) && g1.store == g.store
    requires PlainStep(net[g1.store[id].host].w, Open(g1, g1.store[id].conv), c) && c.conv.pending.None?
    requires g.store[id].conv.messages <= c.conv.messages
    ensures Seated(net, Put(g1, id, c), id)
    ensures var r := RunOn(net, Put(g1, id, c), id);
            Answers(g, id, r) && Frame(g, r.0, id) && c.conv.messages <= r.0.store[id].conv.messages
  {
    InvSeats(net, g1, id);
    var g2 := Put(g1, id, c);
    hide Inv, RunOn, PlainStep, LogQuiet, Waits;
    PutIdle(net, g1, id, c);
    RunOnSpeaks(net, g, g2, id);
    FramesJoin(g, g1, g2, RunOn(net, g2, id).0, id);
  }

  /** A granted delegation: the question is sent, and its reply tells about a new task. */
  lemma GrantSends(net: seq<Agent>, g: Grid, id: Id)
    requires Inv(net, g, Some(id)) && Waits(g, id)
    requires var p := g.store[id].conv.pending.value; !p.IsProxy() && HasPrefix(p.toolName, A2A_PREFIX)
    ensures g.store[id].host < |net| && GrantedSend(net, g, id).Some?
    ensures var p, (g2, reply) := g.store[id].conv.pending.value, GrantedSend(net, g, id).value;
            && TaskKnown(net, g2, id, TrimPrefix(p.toolName, A2A_PREFIX), reply) && !Waits(g2, id)
            && g2.store[id].conv == Granting(g, id).conv && Seated(net, g2, id)
            && Resolve(net, g, id, true) == AfterGrant(net, g2, id, p, reply)
            && (reply.RemoteTask? ==>
                  && TrimPrefix(p.toolName, A2A_PREFIX) in net[g.store[id].host].links
                  && Tells(net, g2, net[g.store[id].host].links[TrimPrefix(p.toolName, A2A_PREFIX)], reply.task)
                  && g2.store[reply.task.id].upstream == Some(id))
  {
    var p := g.store[id].conv.pending.value;
    var agent, text := TrimPrefix(p.toolName, A2A_PREFIX), MessageArg(p.toolArgs);
    assert SeatOk(net, g, id);
    var c1 := Log(Granting(g, id), SendTask(agent, text));
    var g1 := Put(g, id, c1);
    ReleasedPut(net, g, id, c1);
    hide Inv, SendTo, GateAt, Chain, TailCall, AfterGrant, SendDone, TaskKnown, Tells, Seated;
    SendKeeps(net, g1, net[g.store[id].host].links[agent], text, id);
    SendTells(net, g1, net[g.store[id].host].links[agent], text, id);
    DelegateKnown(net, g1, id, agent, GrantedSend(net, g, id).value);
  }

  lemma DelegationSpeaks(net: seq<Agent>, g: Grid, id: Id)
    requires Inv(net, g, Some(id)) && Waits(g, id)
    requires var p := g.store[id].conv.pending.value; !p.IsProxy() && HasPrefix(p.toolName, A2A_PREFIX)
    ensures Seated(net, g, id) && Answers(g, id, Resolve(net, g, id, true))
  {
    assert SeatOk(net, g, id);
    var p := g.store[id].conv.pending.value;
    GrantSends(net, g, id);
    hide Inv, GrantedSend, AfterGrant, TaskKnown, Tells, Resolve, SeatOk, Answers, Waits, Frame;
    var (g2, reply) := GrantedSend(net, g, id).value;
    AfterGrantSpeaks(net, g2, id, p, TrimPrefix(p.toolName, A2A_PREFIX), reply);
    AnswersThen(g, g2, id, Resolve(net, g, id, true));
  }

  // ---------- answers passed on ----------

  /** Granting a proxy: the task it stands for is answered, and nothing here has moved on yet. */
  lemma ProxySends(net: seq<Agent>, g: Grid, id: Id)
    requires Inv(net, g, Some(id)) && Waits(g, id) && g.store[id].conv.pending.value.IsProxy()
    ensures var p, g1 := g.store[id].conv.pending.value, PassedDown(g, id);
            && Inv(net, g1, Some(p.remoteTaskId)) && Waits(g1, p.remoteTaskId) && Seated(net, g1, id)
            && p.remoteAgent in net[g.store[id].host].links
            && net[g.store[id].host].links[p.remoteAgent] == g1.store[p.remoteTaskId].host
            && var (g2, reply) := ContinueOn(net, g1, g1.store[p.remoteTaskId].host, p.remoteTaskId, ANSWER_APPROVED);
              && reply.RemoteTask? && TaskKnown(net, g2, id, p.remoteAgent, reply) && !Waits(g2, id)
              && Seated(net, g2, id) && g2.store[id] == g1.store[id]
  {
    var p, g1 := g.store[id].conv.pending.value, PassedDown(g, id);
    PassesDown(net, g, id);
    InvSeats2(net, g1, id, p.remoteTaskId);
    hide ContinueOn, GateAt, Chain, TailCall, TaskKnown, Inv, Resolve;
    PassedOn(net, g, id, p);
    ProxyPasses(net, g, id, p, Granting(g, id));
    ResolveGranted(net, g1, p.remoteTaskId);
    var (g2, reply) := ContinueOn(net, g1, g1.store[p.remoteTaskId].host, p.remoteTaskId, ANSWER_APPROVED);
    KnownSeats(net, g2, id, p.remoteAgent, reply);
  }

  lemma InvSeats2(net: seq<Agent>, g: Grid, id: Id, t: Id)
    requires Inv(net, g, Some(t)) && id in g.store
    ensures Seated(net, g, id)
  {
  }

  lemma ProxyTakes(net: seq<Agent>, g: Grid, id: Id, g2: Grid, reply: RemoteReply)
    requires Inv(net, g, Some(id)) && Waits(g, id) && g.store[id].conv.pending.value.IsProxy()
    requires Seated(net, g2, id) && reply.RemoteTask? && Hosted(net, PassedDown(g, id))
    requires var p, g1 := g.store[id].conv.pending.value, PassedDown(g, id);
             && p.remoteAgent in net[g.store[id].host].links
             && (g2, reply) == ContinueOn(net, g1, net[g.store[id].host].links[p.remoteAgent], p.remoteTaskId,
                                          ANSWER_APPROVED)
    ensures Seated(net, g, id)
    ensures var p := g.store[id].conv.pending.value;
            var (g3, result) := TakeReply(net, g2, id, MAX_TOOL_ITERATIONS, p.remoteAgent, p.toolName, p.toolArgs,
                                          reply);
            Resolve(net, g, id, true) == (g3, Replied(result))
  {
    assert SeatOk(net, g, id);
    var p := g.store[id].conv.pending.value;
    assert Resolve(net, g, id, true) == ResolveProxy(net, g, id, p, Granting(g, id));
    hide Inv, ContinueOn, TakeReply, Waits, Resolve, SeatOk;
  }

  lemma ProxySpeaks(net: seq<Agent>, g: Grid, id: Id)
    requires Inv(net, g, Some(id)) && Waits(g, id) && g.store[id].conv.pending.value.IsProxy()
    ensures Seated(net, g, id) && Answers(g, id, Resolve(net, g, id, true))
  {
    var p, g1 := g.store[id].conv.pending.value, PassedDown(g, id);
    ProxySends(net, g, id);
    var (g2, reply) := ContinueOn(net, g1, g1.store[p.remoteTaskId].host, p.remoteTaskId, ANSWER_APPROVED);
    hide Inv, ContinueOn, TaskKnown, TakeReply, Waits, Resolve, Seated, Hosted, NetOk, Speaks;
    assert Hosted(net, g1) by { SeatedHosts(net, g1, id); }
    ProxyTakes(net, g, id, g2, reply);
    TakeReplySpeaks(net, g2, id, MAX_TOOL_ITERATIONS, p.remoteAgent, p.toolName, p.toolArgs, reply);
    SpeaksThen(g, g2, id, TakeReply(net, g2, id, MAX_TOOL_ITERATIONS, p.remoteAgent, p.toolName, p.toolArgs, reply));
  }

  lemma SeatedHosts(net: seq<Agent>, g: Grid, id: Id)
    requires Seated(net, g, id)
    ensures Hosted(net, g)
  {
  }

  /** What a rejected conversation holds before the rejection is passed on. */
  ghost function Rejecting(net: seq<Agent>, g: Grid, id: Id): Ctx
    requires Seated(net, g, id)
  {
    Cleared(Open(g, g.store[id].conv)).Say([Text(RoleUser, REJECTED_TEXT),
                                            Text(RoleAssistant, net[g.store[id].host].w.render(Cancelled))])
  }

  /** Passing a rejection on leaves the conversation that passes it alone. */
  lemma RejectionStays(net: seq<Agent>, g: Grid, id: Id)
    requires Inv(net, g, Some(id)) && Waits(g, id) && g.store[id].conv.pending.value.IsProxy()
    ensures Seated(net, g, id)
    ensures var p := g.store[id].conv.pending.value;
            var g1 := Put(g, id, Log(Rejecting(net, g, id),
                                     ContinueTask(p.remoteAgent, p.remoteTaskId, ANSWER_REJECTED)));
            && p.remoteAgent in net[g.store[id].host].links && Hosted(net, g1)
            && var g2 := ContinueOn(net, g1, net[g.store[id].host].links[p.remoteAgent], p.remoteTaskId,
                                    ANSWER_REJECTED).0;
              id in g2.store && g2.store[id] == g1.store[id]
  {
    assert SeatOk(net, g, id);
    var p, t := g.store[id].conv.pending.value, g.store[id].conv.pending.value.remoteTaskId;
    var c := Log(Rejecting(net, g, id), ContinueTask(p.remoteAgent, t, ANSWER_REJECTED));
    var g1 := Put(g, id, c);
    ProxyNext(net, g, id);
    ProxyPut(net, g, id, c);
    InvSeats2(net, g1, id, t);
    SeatedHosts(net, g1, id);
    hide Inv, Chain, TailCall, Tail, NextOf, IsApprovalMessage, ContinueOn, Resolve, Hosted;
    ApprovalWords();
    ContinueResolves(net, g1, t, ANSWER_REJECTED);
    ResolveRejects(net, g1, t);
  }

  /** A rejection, passed on or not, ends with the notice that the operation was cancelled. */
  lemma RejectSpeaks(net: seq<Agent>, g: Grid, id: Id)
    requires Inv(net, g, Some(id)) && Waits(g, id)
    ensures Seated(net, g, id) && Answers(g, id, Resolve(net, g, id, false))
  {
    assert SeatOk(net, g, id);
    if g.store[id].conv.pending.value.IsProxy() {
      RejectionStays(net, g, id);
      hide Inv, ContinueOn;
    }
  }

  /** However an approval is answered, the conversation ends with the answer. */
  lemma ResolveSpeaks(net: seq<Agent>, g: Grid, id: Id, approved: bool)
    requires Inv(net, g, Some(id)) && Waits(g, id)
    ensures Seated(net, g, id) && Answers(g, id, Resolve(net, g, id, approved))
  {
    assert SeatOk(net, g, id);
    var p := g.store[id].conv.pending.value;
    hide Answers;
    if !approved {
      RejectSpeaks(net, g, id);
    } else if p.IsProxy() {
      ProxySpeaks(net, g, id);
    } else if HasPrefix(p.toolName, A2A_PREFIX) {
      DelegationSpeaks(net, g, id);
    } else {
      ToolSpeaks(net, g, id, p, Log(Granting(g, id), RunTool(p.toolName, p.toolArgs)),
                 net[g.store[id].host].w.runTool(g.trace, p.toolName, p.toolArgs));
    }
  }

  /** Whatever a message to an existing task does, an answer or a new turn, the reply tells what was
      said last in the task's conversation. */
  lemma ContinueTells(net: seq<Agent>, g: Grid, b: nat, t: Id, text: string)
    requires Inv(net, g, Some(t)) && b < |net|
    ensures var (g2, reply) := ContinueOn(net, g, b, t, text);
            reply.RemoteTask? ==> reply.task.id == t && Tells(net, g2, b, reply.task)
  {
    if t in g.store && g.store[t].host == b {
      if Waits(g, t) {
        AnswerTells(net, g, t, text);
      } else {
        MessageTells(net, g, t, text);
      }
    }
  }

  lemma AnswerTells(net: seq<Agent>, g: Grid, t: Id, text: string)
    requires Inv(net, g, Some(t)) && Waits(g, t)
    ensures Seated(net, g, t)
    ensures var (g2, reply) := ContinueOn(net, g, g.store[t].host, t, text);
            reply.RemoteTask? ==> reply.task.id == t && Tells(net, g2, g.store[t].host, reply.task)
  {
    InvSeats2(net, g, t, t);
    var r := Resolve(net, g, t, IsApprovalMessage(text));
    ContinueResolves(net, g, t, text);
    ResolveSpeaks(net, g, t, IsApprovalMessage(text));
    if IsApprovalMessage(text) {
      ResolveGranted(net, g, t);
    } else {
      ResolveRejects(net, g, t);
    }
    hide Inv, ContinueOn, Resolve, IsApprovalMessage, GateAt, Chain, TailCall, TextIs, TaskOf;
    TaskTellsText(net, r.0, t, r.1.result, Some(t));
    TaskNames(net, r.0, t, r.1.result);
  }

  lemma TaskNames(net: seq<Agent>, g: Grid, t: Id, result: NodeResult)
    requires Inv(net, g, Some(t)) && t in g.store
    ensures g.store[t].host < |net| && TaskOf(net[g.store[t].host].w, g.store[t].conv, result).id == t
  {
    assert SeatOk(net, g, t);
  }

  lemma MessageTells(net: seq<Agent>, g: Grid, t: Id, text: string)
    requires Inv(net, g, Some(t)) && t in g.store && !Waits(g, t)
    ensures Seated(net, g, t)
    ensures var (g2, reply) := ContinueOn(net, g, g.store[t].host, t, text);
            reply.RemoteTask? ==> reply.task.id == t && Tells(net, g2, g.store[t].host, reply.task)
  {
    HoleFills(net, g, t);
    assert SeatOk(net, g, t);
    SayStarts(net, g, t, text);
    var g1 := Put(g, t, Open(g, g.store[t].conv.AddMessage(RoleUser, text)));
    InvSeats(net, g1, t);
    var (g2, result) := Converse(net, g1, t, MAX_TOOL_ITERATIONS);
    hide Inv, Converse, LogQuiet, TaskOf, TextIs;
    ConverseSpeaks(net, g1, t, MAX_TOOL_ITERATIONS);
    LoopInv(net, g1, t, (g2, result));
    TaskTellsText(net, g2, t, result, Some(t));
    TaskNames(net, g2, t, result);
  }

  // ---------- what the upstream records ----------

  /** Message i of id is a result of tool, and holds what was said last in t, a conversation id has
      delegated to. */
  ghost predicate Reported(net: seq<Agent>, g: Grid, id: Id, i: nat, tool: string, t: Id) {
    && id in g.store && i < |g.store[id].conv.messages|
    && t in g.store && g.store[t].host < |net| && g.store[t].upstream == Some(id)
    && var m := g.store[id].conv.messages[i];
      m.ResultRecord? && m.name == tool && TextIs(net[g.store[t].host].w, g.store[t].conv.messages, m.result)
  }

  /** A record of the task's text stays a report of it while only its upstream moves on. */
  lemma RecordReports(net: seq<Agent>, g: Grid, g2: Grid, id: Id, b: nat, task: Task, tool: string, isError: bool)
    requires b < |net| && id in g.store && task.id != id && Tells(net, g, b, task)
    requires g.store[task.id].upstream == Some(id) && Frame(g, g2, id)
    requires g.store[id].conv.messages + [ResultRecord(tool, task.text, isError)] <= g2.store[id].conv.messages
    ensures Reported(net, g2, id, |g.store[id].conv.messages|, tool, task.id)
  {
    hide TextIs;
  }

  lemma TaskDiffers(net: seq<Agent>, g: Grid, id: Id, agent: string, reply: RemoteReply)
    requires TaskKnown(net, g, id, agent, reply) && reply.RemoteTask?
    ensures reply.task.id != id && reply.task.id in g.store && g.store[reply.task.id].upstream == Some(id)
    ensures agent in net[g.store[id].host].links
            && g.store[reply.task.id].host == net[g.store[id].host].links[agent]
  {
    hide Inv;
  }

  lemma TakeReplyReports(net: seq<Agent>, g: Grid, id: Id, rounds: nat, agent: string, tool: string, args: Args,
                         reply: RemoteReply, b: nat)
    requires TaskKnown(net, g, id, agent, reply) && !Waits(g, id) && Seated(net, g, id) && IsResult(reply)
    requires b < |net| && Tells(net, g, b, reply.task)
    ensures Reported(net, TakeReply(net, g, id, rounds, agent, tool, args, reply).0, id,
                     |g.store[id].conv.messages|, tool, reply.task.id)
  {
    hide Inv, TakeReply, Tells, Waits, Frame, Speaks, Reported;
    TaskDiffers(net, g, id, agent, reply);
    hide TaskKnown;
    TakeReplyKeeps(net, g, id, rounds, agent, tool, args, reply);
    TakeReplySpeaks(net, g, id, rounds, agent, tool, args, reply);
    RecordReports(net, g, TakeReply(net, g, id, rounds, agent, tool, args, reply).0, id, b, reply.task, tool,
                  reply.task.state.TaskFailed?);
  }

  /** A delegation whose task has a result: the next message of the conversation that delegated it
      records what was said last in the delegated one, and still does when the turn is over. */
  lemma DelegationReports(net: seq<Agent>, g: Grid, id: Id, rounds: nat, agent: string, text: string, tool: string,
                          args: Args)
    requires Inv(net, g, None) && id in g.store && !Waits(g, id) && agent in net[g.store[id].host].w.clients
    ensures agent in net[g.store[id].host].links
    ensures var (g1, reply) := SendTo(net, g, net[g.store[id].host].links[agent], text, id);
            IsResult(reply) ==>
              Reported(net, DelegateTo(net, g, id, rounds, agent, text, tool, args).0, id,
                       |g.store[id].conv.messages|, tool, reply.task.id)
  {
    assert SeatOk(net, g, id);
    var b := net[g.store[id].host].links[agent];
    var (g1, reply) := SendTo(net, g, b, text, id);
    SendKeeps(net, g, b, text, id);
    SendTells(net, g, b, text, id);
    hide Inv, SendTo, TakeReply, TaskKnown, SendDone, Tells, Reported;
    DelegateKnown(net, g, id, agent, (g1, reply));
    if IsResult(reply) {
      TakeReplyReports(net, g1, id, rounds, agent, tool, args, reply, b);
    }
  }

  /** A granted delegation: the message after the approval records what was said last in the new
      conversation, whatever state that is in. */
  lemma GrantReports(net: seq<Agent>, g: Grid, id: Id)
    requires Inv(net, g, Some(id)) && Waits(g, id)
    requires var p := g.store[id].conv.pending.value; !p.IsProxy() && HasPrefix(p.toolName, A2A_PREFIX)
    ensures Seated(net, g, id) && GrantedSend(net, g, id).Some?
    ensures var reply := GrantedSend(net, g, id).value.1;
            reply.RemoteTask? ==>
              Reported(net, Resolve(net, g, id, true).0, id, |g.store[id].conv.messages| + 1,
                       g.store[id].conv.pending.value.toolName, reply.task.id)
  {
    InvSeats2(net, g, id, id);
    var p := g.store[id].conv.pending.value;
    var agent := TrimPrefix(p.toolName, A2A_PREFIX);
    GrantSends(net, g, id);
    hide Inv, GrantedSend, AfterGrant, TaskKnown, Tells, Resolve, Answers, Waits, Frame, Reported;
    var (g2, reply) := GrantedSend(net, g, id).value;
    AfterGrantSpeaks(net, g2, id, p, agent, reply);
    if reply.RemoteTask? {
      TaskDiffers(net, g2, id, agent, reply);
      RecordReports(net, g2, Resolve(net, g, id, true).0, id, net[g.store[id].host].links[agent], reply.task,
                    p.toolName, reply.task.state.TaskFailed?);
    }
  }

  /** A granted proxy whose task has a result: the message after the approval records what was said
      last in the conversation the proxy stood for. */
  lemma ProxyReports(net: seq<Agent>, g: Grid, id: Id)
    requires Inv(net, g, Some(id)) && Waits(g, id) && g.store[id].conv.pending.value.IsProxy()
    ensures Seated(net, g, id)
    ensures var p, g1 := g.store[id].conv.pending.value, PassedDown(g, id);
            && Inv(net, g1, Some(p.remoteTaskId)) && p.remoteTaskId in g1.store
            && var reply := ContinueOn(net, g1, g1.store[p.remoteTaskId].host, p.remoteTaskId, ANSWER_APPROVED).1;
              IsResult(reply) ==>
                Reported(net, Resolve(net, g, id, true).0, id, |g.store[id].conv.messages| + 1, p.toolName,
                         p.remoteTaskId)
  {
    var p, g1 := g.store[id].conv.pending.value, PassedDown(g, id);
    InvSeats2(net, g, id, id);
    ProxySends(net, g, id);
    assert |g1.store[id].conv.messages| == |g.store[id].conv.messages| + 1;
    var b := g1.store[p.remoteTaskId].host;
    var (g2, reply) := ContinueOn(net, g1, b, p.remoteTaskId, ANSWER_APPROVED);
    hide Inv, ContinueOn, TaskKnown, TakeReply, Waits, Resolve, Hosted, NetOk, Reported, Tells, PassedDown;
    assert Hosted(net, g1) by { SeatedHosts(net, g1, id); }
    assert b < |net|;
    hide Seated;
    ProxyTakes(net, g, id, g2, reply);
    if IsResult(reply) {
      ContinueTells(net, g1, b, p.remoteTaskId, ANSWER_APPROVED);
      TakeReplyReports(net, g2, id, MAX_TOOL_ITERATIONS, p.remoteAgent, p.toolName, p.toolArgs, reply, b);
    }
  }
}
