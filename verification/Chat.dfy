/** Conversations of a simple agent: what its model is shown, and which results answer which calls. */
module Chat {
  import opened Prelude
  import opened Conversations
  import opened World
  import opened Orchestrator
  import opened Transcript
  import opened SimpleAgent
  import opened Api
  import opened Lifecycle
  import opened ApiFacts
  import opened Budget
  import opened Records

  // ---------- calls and their results ----------

  /** The records so far end with an unanswered call, with none, or are wrong. */
  datatype Pairing = Awaiting(name: string) | Answered | Broken

  function PairStep(p: Pairing, m: Message): Pairing {
    match m
    case Text(_, _) => p
    case CallRecord(name, _) => if p.Broken? then Broken else Awaiting(name)
    case ResultRecord(name, _, _) => if p == Awaiting(name) then Answered else Broken
  }

  function Scan(ms: seq<Message>): Pairing {
    if ms == [] then Answered else PairStep(Scan(ms[..|ms| - 1]), ms[|ms| - 1])
  }

  predicate IsRecord(m: Message) {
    m.CallRecord? || m.ResultRecord?
  }

  /** The result at j answers the call at i: same tool, and no other record in between. */
  predicate Answers(ms: seq<Message>, i: nat, j: nat) {
    && i < j < |ms| && ms[i].CallRecord? && ms[j].ResultRecord? && ms[i].name == ms[j].name
    && forall k :: i < k < j ==> !IsRecord(ms[k])
  }

  ghost predicate Paired(ms: seq<Message>) {
    forall j :: 0 <= j < |ms| && ms[j].ResultRecord? ==> exists i: nat :: Answers(ms, i, j)
  }

  /** The last record, if any, is a call to this tool. */
  predicate LastIsCall(ms: seq<Message>, i: nat, name: string) {
    i < |ms| && ms[i].CallRecord? && ms[i].name == name && forall k :: i < k < |ms| ==> !IsRecord(ms[k])
  }

  lemma {:induction false} ScanFindsCall(ms: seq<Message>, name: string)
    returns (i: nat)
    requires Scan(ms) == Awaiting(name)
    ensures LastIsCall(ms, i, name)
  {
    var front, m := ms[..|ms| - 1], ms[|ms| - 1];
    if m.CallRecord? {
      i := |ms| - 1;
    } else {
      i := ScanFindsCall(front, name);
      assert forall k :: i < k < |front| ==> ms[k] == front[k];
    }
  }

  lemma {:induction false} ScanPairs(ms: seq<Message>)
    requires Scan(ms) != Broken
    ensures Paired(ms)
  {
    if ms != [] {
      var front, m := ms[..|ms| - 1], ms[|ms| - 1];
      ScanPairs(front);
      forall j | 0 <= j < |ms| && ms[j].ResultRecord?
        ensures exists i: nat :: Answers(ms, i, j)
      {
        if j < |front| {
          var i: nat :| Answers(front, i, j);
          assert Answers(ms, i, j);
        } else {
          var i := ScanFindsCall(front, m.name);
          assert Answers(ms, i, j);
        }
      }
    }
  }

  lemma {:induction false} LastCallAwaits(ms: seq<Message>, i: nat, name: string)
    requires LastIsCall(ms, i, name) && Scan(ms) != Broken
    ensures Scan(ms) == Awaiting(name)
  {
    if i < |ms| - 1 {
      var front := ms[..|ms| - 1];
      assert !IsRecord(ms[|ms| - 1]);
      assert forall k :: i < k < |front| ==> front[k] == ms[k];
      LastCallAwaits(front, i, name);
    }
  }

  /** The scan accepts exactly the well-paired transcripts. */
  lemma {:induction false} ScanIsPairing(ms: seq<Message>)
    ensures Scan(ms) != Broken <==> Paired(ms)
  {
    if Scan(ms) != Broken {
      ScanPairs(ms);
    } else {
      var front, m := ms[..|ms| - 1], ms[|ms| - 1];
      ScanIsPairing(front);
      if Scan(front) == Broken {
        var j :| 0 <= j < |front| && front[j].ResultRecord? && forall i: nat :: !Answers(front, i, j);
        forall i: nat
          ensures !Answers(ms, i, j)
        {
          assert Answers(ms, i, j) ==> Answers(front, i, j);
        }
        assert ms[j].ResultRecord?;
      } else {
        forall i: nat
          ensures !Answers(ms, i, |front|)
        {
          if Answers(ms, i, |front|) {
            assert forall k :: i < k < |front| ==> front[k] == ms[k];
            LastCallAwaits(front, i, m.name);
          }
        }
        assert ms[|front|].ResultRecord?;
      }
    }
  }

  lemma ScanSnoc(ms: seq<Message>, m: Message)
    ensures Scan(ms + [m]) == PairStep(Scan(ms), m)
  {
    assert (ms + [m])[..|ms|] == ms;
  }

  // ---------- what the model is shown ----------

  /** The user speaks first, and nobody but the user and the model speaks. */
  ghost predicate UserFirst(ms: seq<Message>) {
    var vs := Visible(ms);
    && (vs != [] ==> vs[0].role == UserTurn)
    && forall i :: 0 <= i < |vs| ==> vs[i].role != ToolTurn
  }

  ghost predicate Sound(ms: seq<Message>) {
    Scan(ms) != Broken && UserFirst(ms)
  }

  /** The user spoke last: the model may be asked. */
  ghost predicate Ready(ms: seq<Message>) {
    Sound(ms) && var vs := Visible(ms); vs != [] && vs[|vs| - 1].role == UserTurn
  }

  ghost predicate Pended(c: Conv) {
    c.pipeline.None? && (c.pending.Some? ==> Scan(c.messages) == Awaiting(c.pending.value.toolName))
  }

  ghost predicate ChatValid(c: Conv) {
    Sound(c.messages) && Pended(c)
  }

  lemma VisibleSnoc(ms: seq<Message>, m: Message)
    ensures Visible(ms + [m]) == Visible(ms) + (if Shown(m).Some? then [Shown(m).value] else [])
  {
    assert (ms + [m])[..|ms|] == ms;
  }

  /** One more message, by kind. */
  lemma SayUser(ms: seq<Message>, text: string)
    requires Sound(ms) && text != ""
    ensures Ready(ms + [Text(RoleUser, text)]) && Scan(ms + [Text(RoleUser, text)]) == Scan(ms)
  {
    ScanSnoc(ms, Text(RoleUser, text));
    VisibleSnoc(ms, Text(RoleUser, text));
  }

  lemma SayAssistant(ms: seq<Message>, text: string)
    requires Ready(ms)
    ensures Sound(ms + [Text(RoleAssistant, text)]) && Scan(ms + [Text(RoleAssistant, text)]) == Scan(ms)
  {
    ScanSnoc(ms, Text(RoleAssistant, text));
    VisibleSnoc(ms, Text(RoleAssistant, text));
  }

  lemma SayCall(ms: seq<Message>, name: string, args: Args)
    requires Ready(ms)
    ensures Ready(ms + [CallRecord(name, args)]) && Scan(ms + [CallRecord(name, args)]) == Awaiting(name)
  {
    ScanSnoc(ms, CallRecord(name, args));
    VisibleSnoc(ms, CallRecord(name, args));
  }

  lemma SayResult(ms: seq<Message>, name: string, result: string, isError: bool)
    requires Ready(ms) && Scan(ms) == Awaiting(name)
    ensures Ready(ms + [ResultRecord(name, result, isError)])
  {
    ScanSnoc(ms, ResultRecord(name, result, isError));
    VisibleSnoc(ms, ResultRecord(name, result, isError));
  }

  /** A model call shows the visible part of some earlier stage of this transcript. */
  ghost predicate Shows(call: Call, ms: seq<Message>) {
    call.AskModel? ==> exists n :: 0 <= n <= |ms| && Ready(ms[..n]) && call.messages == LlmMessages(ms[..n])
  }

  lemma ShowsLater(call: Call, ms: seq<Message>, more: seq<Message>)
    requires Shows(call, ms) && ms <= more
    ensures Shows(call, more)
  {
    if call.AskModel? {
      var n :| 0 <= n <= |ms| && Ready(ms[..n]) && call.messages == LlmMessages(ms[..n]);
      assert more[..n] == ms[..n];
    }
  }

  ghost predicate ChatGrew(c: Ctx, c2: Ctx) {
    && c.trace <= c2.trace && c.conv.messages <= c2.conv.messages
    && forall k :: |c.trace| <= k < |c2.trace| ==> Shows(c2.trace[k].call, c2.conv.messages)
  }

  lemma ChatGrewTrans(a: Ctx, b: Ctx, c: Ctx)
    requires ChatGrew(a, b) && ChatGrew(b, c)
    ensures ChatGrew(a, c)
  {
    forall k | |a.trace| <= k < |c.trace|
      ensures Shows(c.trace[k].call, c.conv.messages)
    {
      if k < |b.trace| {
        assert c.trace[k] == b.trace[k];
        ShowsLater(b.trace[k].call, b.conv.messages, c.conv.messages);
      }
    }
  }

  // ---------- one round ----------

  /** The conversation is between two calls of the loop. */
  ghost predicate Idle(c: Conv) {
    Ready(c.messages) && c.pending.None? && c.pipeline.None?
  }

  ghost predicate TurnValid(c: Ctx, turn: Turn) {
    && ChatGrew(c, turn.c)
    && match turn
       case Over(c1, _) => ChatValid(c1.conv)
       case Again(c1) => Idle(c1.conv)
       case Ask(c1, _, _, tool, _) => Idle(c1.conv) && Scan(c1.conv.messages) == Awaiting(tool)
  }

  lemma AnswerValid(c: Ctx, text: string)
    requires Idle(c.conv)
    ensures TurnValid(c, Answer(c, text)) && TurnValid(c, AnswerAuth(c, text))
  {
    SayAssistant(c.conv.messages, text);
  }

  lemma RequestValid(w: World, c: Ctx, tool: string, args: Args, description: string, taskId: Id, agent: string)
    requires Idle(c.conv) && Scan(c.conv.messages) == Awaiting(tool)
    ensures TurnValid(c, RequestApproval(w, c, tool, args, description, taskId, agent, []))
  {
    var response := w.render(ApprovalNeeded(description, c.nextId));
    SayAssistant(c.conv.messages, response);
    assert [] + [Text(RoleAssistant, response)] == [Text(RoleAssistant, response)];
  }

  lemma CallRequestValid(w: World, c: Ctx, tool: string, args: Args, description: string)
    requires Idle(c.conv)
    ensures TurnValid(c, RequestApproval(w, c, tool, args, description, NO_ID, "", [CallRecord(tool, args)]))
  {
    var response := w.render(ApprovalNeeded(description, c.nextId));
    var ms := c.conv.messages;
    SayCall(ms, tool, args);
    SayAssistant(ms + [CallRecord(tool, args)], response);
    assert ms + ([CallRecord(tool, args)] + [Text(RoleAssistant, response)])
           == ms + [CallRecord(tool, args)] + [Text(RoleAssistant, response)];
  }

  lemma TurnTrans(c: Ctx, c1: Ctx, turn: Turn)
    requires ChatGrew(c, c1) && TurnValid(c1, turn)
    ensures TurnValid(c, turn)
  {
    ChatGrewTrans(c, c1, turn.c);
  }

  lemma AskShows(system: string, c: Ctx)
    requires Idle(c.conv)
    ensures ChatGrew(c, Log(c, ModelAsk(system, c)))
  {
    var ms := c.conv.messages;
    assert ms[..|ms|] == ms;
    assert Shows(ModelAsk(system, c), ms);
  }

  lemma DelegateStepValid(w: World, c: Ctx, tool: string, args: Args)
    requires Idle(c.conv)
    ensures TurnValid(c, DelegateStep(w, c, tool, args))
  {
    var agent := TrimPrefix(tool, A2A_PREFIX);
    if agent !in w.clients {
      AnswerValid(c, w.render(AgentMissing("", agent)));
    } else if w.clients[agent] {
      CallRequestValid(w, c, tool, args, w.render(DelegateRequest("", agent, MessageArg(args))));
    } else {
      SayCall(c.conv.messages, tool, args);
    }
  }

  lemma ToolRepliedValid(w: World, c: Ctx, tool: string, reply: ToolReply)
    requires Idle(c.conv) && Scan(c.conv.messages) == Awaiting(tool) && tool in w.tools
    ensures TurnValid(c, ToolReplied(w, c, tool, reply))
  {
    match reply
    case ToolAuthRequired => AnswerValid(c, w.render(AuthNeeded("", w.tools[tool].server)));
    case ToolFailed(e) => SayResult(c.conv.messages, tool, w.render(ToolBroken("", e)), true);
    case ToolOk(text, isError) => SayResult(c.conv.messages, tool, text, isError);
  }

  lemma ToolStepValid(w: World, c: Ctx, tool: string, args: Args)
    requires Idle(c.conv)
    ensures TurnValid(c, ToolStep(w, c, tool, args))
  {
    if tool !in w.tools {
      AnswerValid(c, w.render(ToolMissing("", tool)));
    } else if w.tools[tool].destructive {
      CallRequestValid(w, c, tool, args, w.render(ToolRequest(tool, args)));
    } else {
      var c1 := Log(c.Say([CallRecord(tool, args)]), RunTool(tool, args));
      SayCall(c.conv.messages, tool, args);
      ToolRepliedValid(w, c1, tool, w.runTool(c.trace, tool, args));
      assert ChatGrew(c, c1);
      TurnTrans(c, c1, ToolStep(w, c, tool, args));
    }
  }

  lemma TakeTurnValid(w: World, system: string, c: Ctx)
    requires Idle(c.conv)
    ensures TurnValid(c, TakeTurn(w, system, c))
  {
    var ask := ModelAsk(system, c);
    var c1 := Log(c, ask);
    AskShows(system, c);
    match w.llm(c.trace, ask)
    case LlmError(e) => AnswerValid(c1, w.render(ModelFailed("", e)));
    case LlmText(text) => AnswerValid(c1, text);
    case LlmTool(tool, args) =>
      if HasPrefix(tool, A2A_PREFIX) {
        DelegateStepValid(w, c1, tool, args);
      } else {
        ToolStepValid(w, c1, tool, args);
      }
    TurnTrans(c, c1, TakeTurn(w, system, c));
  }

  lemma AfterReplyValid(w: World, c: Ctx, agent: string, tool: string, args: Args, reply: RemoteReply)
    requires Idle(c.conv) && Scan(c.conv.messages) == Awaiting(tool)
    ensures TurnValid(c, AfterReply(w, c, agent, tool, args, reply))
  {
    match reply
    case RemoteError(e) => SayResult(c.conv.messages, tool, w.render(AgentFailed("", e)), true);
    case RemoteTask(task) =>
      match task.state
      case InputRequired => RequestValid(w, c, tool, args, ProxyDescription(w, agent, task), task.id, agent);
      case AuthRequired => AnswerValid(c, AuthText(w, agent, task));
      case _ => SayResult(c.conv.messages, tool, task.text, task.state.TaskFailed?);
  }

  // ---------- whole turns ----------

  /** One round, with the reply of a remote agent if one is asked. */
  lemma AskedValid(w: World, system: string, c: Ctx, asked: Turn)
    requires Idle(c.conv) && asked == AskedOracle(w, TakeTurn(w, system, c))
    ensures TurnValid(c, asked)
  {
    TakeTurnValid(w, system, c);
    var turn := TakeTurn(w, system, c);
    if turn.Ask? {
      var c1 := Log(turn.c, SendTask(turn.agent, turn.text));
      var reply := w.send(turn.c.trace, turn.agent, turn.text);
      AfterReplyValid(w, c1, turn.agent, turn.tool, turn.args, reply);
      ChatGrewTrans(c, turn.c, c1);
      TurnTrans(c, c1, AfterReply(w, c1, turn.agent, turn.tool, turn.args, reply));
    }
  }

  lemma {:induction false} SimpleLoopValid(w: World, system: string, c: Ctx, rounds: nat)
    requires Idle(c.conv)
    ensures var c1 := SimpleLoop(w, system, c, rounds).0; ChatGrew(c, c1) && ChatValid(c1.conv)
    decreases rounds
  {
    hide SimpleLoop, AskedOracle, TakeTurn, ChatGrew, ChatValid, Idle;
    if rounds == 0 {
      SimpleLoopEnds(w, system, c);
      AnswerValid(c, w.render(IterationCap));
    } else {
      var asked := AskedOracle(w, TakeTurn(w, system, c));
      AskedValid(w, system, c, asked);
      SimpleLoopStep(w, system, c, rounds, asked);
      if asked.Again? {
        SimpleLoopValid(w, system, asked.c, rounds - 1);
        ChatGrewTrans(c, asked.c, SimpleLoop(w, system, asked.c, rounds - 1).0);
      }
    }
  }

  /** A handler ran to its reply and saved, or failed before asking the model and saved nothing. */
  ghost predicate HandlerValid(c: Ctx, r: (Ctx, Reply)) {
    && c.trace <= r.0.trace
    && if r.1.Replied? then r.0.saved == r.0.conv && ChatValid(r.0.conv) && ChatGrew(c, r.0)
       else r.0.saved == c.saved && forall k :: |c.trace| <= k < |r.0.trace| ==> !r.0.trace[k].call.AskModel?
  }

  lemma RunSimpleValid(w: World, cfg: Config, c: Ctx, c1: Ctx)
    requires Idle(c1.conv) && ChatGrew(c, c1)
    ensures HandlerValid(c, RunSimple(w, cfg, c1))
  {
    SimpleLoopValid(w, cfg.system, c1, MAX_TOOL_ITERATIONS);
    SimpleLoopGrows(w, cfg, c1, MAX_TOOL_ITERATIONS);
    ChatGrewTrans(c, c1, RunSimple(w, cfg, c1).0);
  }

  lemma OverValid(w: World, cfg: Config, c: Ctx, c1: Ctx, turn: Turn)
    requires ChatGrew(c, c1) && turn.Over? && TurnValid(c1, turn) && TurnSaved(turn)
    ensures HandlerValid(c, FromTurn(turn))
  {
    TurnTrans(c, c1, turn);
  }

  lemma ProcessMessageValid(w: World, cfg: Config, c: Ctx, text: string)
    requires cfg.IsSimple() && ChatValid(c.conv) && c.conv.StatusAgrees() && c.saved == c.conv && text != ""
    ensures HandlerValid(c, ProcessMessage(w, cfg, c, text))
  {
    if c.conv.status != WaitingApproval {
      SayUser(c.conv.messages, text);
      RunSimpleValid(w, cfg, c, c.Say([Text(RoleUser, text)]));
    }
  }

  lemma RejectValid(w: World, c: Ctx, p: Pending)
    requires Sound(c.conv.messages) && c.conv.pending.None? && c.conv.pipeline.None?
    ensures HandlerValid(c, Reject(w, c, p, None))
  {
    hide Sound, LlmMessages;
    var ms := c.conv.messages;
    SayUser(ms, REJECTED_TEXT);
    SayAssistant(ms + [Text(RoleUser, REJECTED_TEXT)], w.render(Cancelled));
    AppendTwo(ms, Text(RoleUser, REJECTED_TEXT), Text(RoleAssistant, w.render(Cancelled)));
  }

  lemma AppendTwo(ms: seq<Message>, m: Message, n: Message)
    ensures ms + [m, n] == ms + [m] + [n]
  {
  }

  lemma ResultThenRun(w: World, cfg: Config, c: Ctx, c1: Ctx, tool: string, result: string, isError: bool)
    requires ChatGrew(c, c1) && Idle(c1.conv) && Scan(c1.conv.messages) == Awaiting(tool)
    ensures HandlerValid(c, RunSimple(w, cfg, c1.Say([ResultRecord(tool, result, isError)])))
  {
    SayResult(c1.conv.messages, tool, result, isError);
    var c2 := c1.Say([ResultRecord(tool, result, isError)]);
    assert ChatGrew(c1, c2);
    ChatGrewTrans(c, c1, c2);
    RunSimpleValid(w, cfg, c, c2);
  }

  lemma ApproveProxyValid(w: World, cfg: Config, c: Ctx, p: Pending)
    requires Idle(c.conv) && Scan(c.conv.messages) == Awaiting(p.toolName)
    ensures HandlerValid(c, ApproveProxy(w, cfg, c, p, None))
  {
    if p.remoteAgent in w.clients {
      var c1 := LogAt(c, None, ContinueTask(p.remoteAgent, p.remoteTaskId, ANSWER_APPROVED));
      assert ChatGrew(c, c1);
      var reply := w.resumeTask(c.trace, p.remoteAgent, p.remoteTaskId, ANSWER_APPROVED);
      if reply.RemoteTask? {
        match reply.task.state
        case InputRequired =>
          var description := ProxyDescription(w, p.remoteAgent, reply.task);
          RequestValid(w, c1, p.toolName, p.toolArgs, description, reply.task.id, p.remoteAgent);
          OverValid(w, cfg, c, c1,
                    RequestApproval(w, c1, p.toolName, p.toolArgs, description, reply.task.id, p.remoteAgent, []));
        case AuthRequired =>
          AnswerValid(c1, AuthText(w, p.remoteAgent, reply.task));
          OverValid(w, cfg, c, c1, AnswerAuth(c1, AuthText(w, p.remoteAgent, reply.task)));
        case _ => ResultThenRun(w, cfg, c, c1, p.toolName, reply.task.text, reply.task.state.TaskFailed?);
      }
    }
  }

  lemma ApproveLocalValid(w: World, cfg: Config, c: Ctx, p: Pending)
    requires Idle(c.conv) && Scan(c.conv.messages) == Awaiting(p.toolName)
    ensures HandlerValid(c, ApproveLocal(w, cfg, c, p, None))
  {
    var c1 := LogAt(c, None, ApprovedCall(p.toolName, p.toolArgs));
    assert ChatGrew(c, c1);
    if HasPrefix(p.toolName, A2A_PREFIX) {
      var agent := TrimPrefix(p.toolName, A2A_PREFIX);
      if agent in w.clients {
        match w.send(c.trace, agent, MessageArg(p.toolArgs))
        case RemoteError(e) => ResultThenRun(w, cfg, c, c1, p.toolName, w.render(AgentFailed("", e)), true);
        case RemoteTask(task) => ResultThenRun(w, cfg, c, c1, p.toolName, task.text, task.state.TaskFailed?);
      }
    } else {
      match w.runTool(c.trace, p.toolName, p.toolArgs)
      case ToolAuthRequired =>
        var server := if p.toolName in w.tools then w.tools[p.toolName].server else p.toolName;
        AnswerValid(c1, w.render(AuthNeeded("", server)));
        OverValid(w, cfg, c, c1, AnswerAuth(c1, w.render(AuthNeeded("", server))));
      case ToolFailed(e) => ResultThenRun(w, cfg, c, c1, p.toolName, w.render(ToolBroken("", e)), true);
      case ToolOk(text, isError) => ResultThenRun(w, cfg, c, c1, p.toolName, text, isError);
    }
  }

  lemma ResolveApprovalValid(w: World, cfg: Config, c: Ctx, approved: bool)
    requires ChatValid(c.conv) && c.conv.pending.Some?
    ensures HandlerValid(c, ResolveApproval(w, cfg, c, approved))
  {
    var p := c.conv.pending.value;
    var c1 := Cleared(c);
    if !approved {
      RejectValid(w, c1, p);
    } else {
      SayUser(c1.conv.messages, APPROVED_TEXT);
      var c2 := c1.Say([Text(RoleUser, APPROVED_TEXT)]);
      assert ChatGrew(c, c2);
      if p.IsProxy() {
        ApproveProxyValid(w, cfg, c2, p);
        HandlerTrans(c, c2, ApproveProxy(w, cfg, c2, p, None));
      } else {
        ApproveLocalValid(w, cfg, c2, p);
        HandlerTrans(c, c2, ApproveLocal(w, cfg, c2, p, None));
      }
    }
  }

  lemma HandlerTrans(c: Ctx, c1: Ctx, r: (Ctx, Reply))
    requires ChatGrew(c, c1) && c1.trace == c.trace && c1.saved == c.saved && HandlerValid(c1, r)
    ensures HandlerValid(c, r)
  {
    if r.1.Replied? {
      ChatGrewTrans(c, c1, r.0);
    }
  }

  // ---------- every reachable store ----------

  ghost predicate ShownSomewhere(call: Call, store: map<Id, Conv>) {
    exists id :: id in store && Shows(call, store[id].messages)
  }

  ghost predicate ChatInvariant(s: Sys) {
    && (forall id :: id in s.store ==> ChatValid(s.store[id]))
    && (forall k :: 0 <= k < |s.trace| && s.trace[k].call.AskModel? ==> ShownSomewhere(s.trace[k].call, s.store))
  }

  lemma CloseChat(s: Sys, request: Request, c: Conv, r: (Ctx, Reply))
    requires ChatInvariant(s) && StoreValid(s) && c.id in s.store && s.store[c.id] == c
    requires HandlerValid(Open(s, c), r)
    ensures ChatInvariant(Close(s, request, c, r))
  {
    var s2 := Close(s, request, c, r);
    forall k | 0 <= k < |s2.trace| && s2.trace[k].call.AskModel?
      ensures ShownSomewhere(s2.trace[k].call, s2.store)
    {
      var call := s2.trace[k].call;
      if k < |s.trace| {
        assert s2.trace[k] == s.trace[k];
        var id :| id in s.store && Shows(call, s.store[id].messages);
        ShowsLater(call, s.store[id].messages, s2.store[id].messages);
        assert id in s2.store;
      } else {
        assert Shows(call, s2.store[c.id].messages);
      }
    }
  }

  lemma {:induction false} ServeChats(w: World, cfg: Config, requests: seq<Request>)
    requires cfg.IsSimple()
    ensures ChatInvariant(Serve(w, cfg, requests))
  {
    if requests != [] {
      var front, request := requests[..|requests| - 1], requests[|requests| - 1];
      ServeChats(w, cfg, front);
      ServeKeeps(w, cfg, front);
      ServeKeeps(w, cfg, requests);
      var s := Serve(w, cfg, front);
      match request
      case Start => StartChats(w, cfg, s);
      case UserMessage(id, text) =>
        if id in s.store && text != "" {
          ProcessMessageValid(w, cfg, Open(s, s.store[id]), text);
          CloseChat(s, request, s.store[id], ProcessMessage(w, cfg, Open(s, s.store[id]), text));
        }
      case ApprovalAnswer(uuid, approved) =>
        var found := FindByUuid(s.store, uuid);
        if found.Some? {
          ResolveApprovalValid(w, cfg, Open(s, s.store[found.value]), approved);
          CloseChat(s, request, s.store[found.value], ResolveApproval(w, cfg, Open(s, s.store[found.value]), approved));
        }
    }
  }

  lemma StartChats(w: World, cfg: Config, s: Sys)
    requires ChatInvariant(s) && StoreValid(s)
    ensures ChatInvariant(Step(w, cfg, s, Start))
  {
    var s2 := Step(w, cfg, s, Start);
    var c := NewConv(s.nextId, cfg.system);
    if cfg.system != "" {
      ScanSnoc([], Text(RoleSystem, cfg.system));
      VisibleSnoc([], Text(RoleSystem, cfg.system));
      assert [] + [Text(RoleSystem, cfg.system)] == c.messages;
    }
    assert ChatValid(c);
    forall k | 0 <= k < |s2.trace| && s2.trace[k].call.AskModel?
      ensures ShownSomewhere(s2.trace[k].call, s2.store)
    {
      var id :| id in s.store && Shows(s.trace[k].call, s.store[id].messages);
      assert id in s2.store && s2.store[id] == s.store[id];
    }
  }

  /** Every list ever passed to the model starts and ends with the user, never has one role twice
      running, and is the visible part of a stored transcript with its texts joined in order. */
  lemma TranscriptsAlternate(w: World, cfg: Config, requests: seq<Request>, k: nat)
    returns (id: Id, n: nat)
    requires cfg.IsSimple() && k < |Serve(w, cfg, requests).trace| && Serve(w, cfg, requests).trace[k].call.AskModel?
    ensures var s := Serve(w, cfg, requests);
            && Alternates(s.trace[k].call.messages)
            && id in s.store && n <= |s.store[id].messages|
            && IsMerged(Visible(s.store[id].messages[..n]), s.trace[k].call.messages)
  {
    ServeChats(w, cfg, requests);
    var s := Serve(w, cfg, requests);
    var call := s.trace[k].call;
    assert ShownSomewhere(call, s.store);
    id :| id in s.store && Shows(call, s.store[id].messages);
    var ms := s.store[id].messages;
    n :| 0 <= n <= |ms| && Ready(ms[..n]) && call.messages == LlmMessages(ms[..n]);
    ReadyAlternates(ms[..n]);
  }

  /** In every stored transcript each result answers the latest call before it, no call is answered
      twice, and a pending approval is for the one call still unanswered. */
  lemma ResultsAnswerCalls(w: World, cfg: Config, requests: seq<Request>, id: Id)
    requires cfg.IsSimple() && id in Serve(w, cfg, requests).store
    ensures var c := Serve(w, cfg, requests).store[id];
            && Paired(c.messages)
            && (c.pending.Some? ==> exists i :: LastIsCall(c.messages, i, c.pending.value.toolName))
  {
    ServeChats(w, cfg, requests);
    var c := Serve(w, cfg, requests).store[id];
    ScanIsPairing(c.messages);
    if c.pending.Some? {
      var i := ScanFindsCall(c.messages, c.pending.value.toolName);
    }
  }

  // ---------- model calls per turn ----------

  /** t2 is t with one model call and at most one other call added. */
  predicate OneRound(t: seq<Event>, t2: seq<Event>) {
    && |t| < |t2| <= |t| + 2 && t2[..|t|] == t && t2[|t|].call.AskModel?
    && (|t2| == |t| + 2 ==> !t2[|t| + 1].call.AskModel?)
  }

  lemma OneRoundCounts(t: seq<Event>, t2: seq<Event>)
    requires OneRound(t, t2)
    ensures ModelCalls(t2) == ModelCalls(t) + 1
  {
    var e := t2[|t|];
    CountSnoc(t, e);
    if |t2| == |t| + 1 {
      assert t2 == t + [e];
    } else {
      CountSnoc(t + [e], t2[|t| + 1]);
      assert t2 == t + [e] + [t2[|t| + 1]];
    }
  }

  lemma TurnIsOneRound(w: World, system: string, c: Ctx)
    ensures OneRound(c.trace, AskedOracle(w, TakeTurn(w, system, c)).c.trace)
  {
  }

  ghost predicate RoundsWithin(t: seq<Event>, t2: seq<Event>, k: nat)
    decreases k
  {
    t2 == t || (k > 0 && exists m :: OneRound(t, m) && RoundsWithin(m, t2, k - 1))
  }

  lemma {:induction false} SimpleLoopRounds(w: World, system: string, c: Ctx, rounds: nat)
    ensures RoundsWithin(c.trace, SimpleLoop(w, system, c, rounds).0.trace, rounds)
    decreases rounds
  {
    if rounds > 0 {
      TurnIsOneRound(w, system, c);
      var asked := AskedOracle(w, TakeTurn(w, system, c));
      if asked.Again? {
        SimpleLoopRounds(w, system, asked.c, rounds - 1);
      } else {
        assert RoundsWithin(asked.c.trace, asked.c.trace, rounds - 1);
      }
    }
  }

  lemma {:induction false} RoundsCount(t: seq<Event>, t2: seq<Event>, k: nat)
    requires RoundsWithin(t, t2, k)
    ensures ModelCalls(t2) <= ModelCalls(t) + k
    decreases k
  {
    if t2 != t {
      var m :| OneRound(t, m) && RoundsWithin(m, t2, k - 1);
      OneRoundCounts(t, m);
      RoundsCount(m, t2, k - 1);
    }
  }

  /** A turn of a simple agent asks the model at most as often as the loop allows. */
  lemma ModelCallsBounded(w: World, cfg: Config, c: Ctx)
    ensures ModelCalls(RunSimple(w, cfg, c).0.trace) <= ModelCalls(c.trace) + 10
  {
    SimpleLoopRounds(w, cfg.system, c, MAX_TOOL_ITERATIONS);
    RoundsCount(c.trace, RunSimple(w, cfg, c).0.trace, MAX_TOOL_ITERATIONS);
  }

  // ---------- grants after the pipeline is forgotten ----------

  /** The granted proxy's remote agent has answered with a result. */
  predicate GoesOn(w: World, c: Ctx) {
    && c.conv.pending.Some? && c.conv.pending.value.IsProxy() && c.conv.pending.value.remoteAgent in w.clients
    && ProxyAnswer(w, c).RemoteTask?
    && !ProxyAnswer(w, c).task.state.InputRequired? && !ProxyAnswer(w, c).task.state.AuthRequired?
  }

  lemma {:induction false} RoundsGrow(t: seq<Event>, t2: seq<Event>, k: nat)
    requires RoundsWithin(t, t2, k)
    ensures ModelCalls(t) <= ModelCalls(t2) && (t2 != t ==> ModelCalls(t) < ModelCalls(t2))
    decreases k
  {
    if t2 != t {
      var m :| OneRound(t, m) && RoundsWithin(m, t2, k - 1);
      OneRoundCounts(t, m);
      RoundsGrow(m, t2, k - 1);
    }
  }

  lemma {:induction false} RoundsExtend(t: seq<Event>, t2: seq<Event>, k: nat)
    requires RoundsWithin(t, t2, k)
    ensures |t| <= |t2|
    decreases k
  {
    if t2 != t {
      var m :| OneRound(t, m) && RoundsWithin(m, t2, k - 1);
      RoundsExtend(m, t2, k - 1);
    }
  }

  /** The loop always asks the model. */
  lemma LoopAsks(w: World, system: string, c: Ctx, rounds: nat)
    requires rounds > 0
    ensures ModelCalls(c.trace) < ModelCalls(SimpleLoop(w, system, c, rounds).0.trace) <= ModelCalls(c.trace) + rounds
  {
    var t2 := SimpleLoop(w, system, c, rounds).0.trace;
    SimpleLoopRounds(w, system, c, rounds);
    RoundsCount(c.trace, t2, rounds);
    RoundsGrow(c.trace, t2, rounds);
    TurnIsOneRound(w, system, c);
    var asked := AskedOracle(w, TakeTurn(w, system, c));
    if asked.Again? {
      SimpleLoopRounds(w, system, asked.c, rounds - 1);
      RoundsExtend(asked.c.trace, t2, rounds - 1);
    }
  }

  /** The conversation once the answer has been passed on. */
  function PassedOn(c: Ctx): Ctx
    requires c.conv.pending.Some?
  {
    var p := c.conv.pending.value;
    LogAt(Cleared(c).Say([Text(RoleUser, APPROVED_TEXT)]), None,
          ContinueTask(p.remoteAgent, p.remoteTaskId, ANSWER_APPROVED))
  }

  lemma GrantGoesOn(w: World, cfg: Config, c: Ctx)
    requires Lost(c.conv) && GoesOn(w, c)
    ensures var task := ProxyAnswer(w, c).task;
            ResolveApproval(w, cfg, c, true)
            == RunSimple(w, cfg,
                         PassedOn(c).Say([ResultRecord(c.conv.pending.value.toolName, task.text,
                                                       task.state.TaskFailed?)]))
  {
  }

  lemma GrantEnds(w: World, cfg: Config, c: Ctx)
    requires Lost(c.conv) && c.conv.pending.value.IsProxy() && !GoesOn(w, c)
    ensures ResolveApproval(w, cfg, c, true).0.trace == c.trace
            || ResolveApproval(w, cfg, c, true).0.trace == PassedOn(c).trace
  {
  }

  /** Once a pipeline is forgotten its tree is not run again: a further grant leaves the number of model
      calls as it is exactly when the remote agent has not answered with a result, and otherwise adds
      the calls of one turn of the single-model loop, at most ten. */
  lemma LostGrantCounts(w: World, cfg: Config, c: Ctx)
    requires Lost(c.conv) && c.conv.pending.value.IsProxy()
    ensures var t2 := ResolveApproval(w, cfg, c, true).0.trace;
            && ModelCalls(c.trace) <= ModelCalls(t2) <= ModelCalls(c.trace) + 10
            && (ModelCalls(t2) == ModelCalls(c.trace) <==> !GoesOn(w, c))
  {
    var p := c.conv.pending.value;
    CountSnoc(c.trace, ChatEvent(ContinueTask(p.remoteAgent, p.remoteTaskId, ANSWER_APPROVED)));
    if GoesOn(w, c) {
      var task := ProxyAnswer(w, c).task;
      GrantGoesOn(w, cfg, c);
      LoopAsks(w, cfg.system, PassedOn(c).Say([ResultRecord(p.toolName, task.text, task.state.TaskFailed?)]),
               MAX_TOOL_ITERATIONS);
    } else {
      GrantEnds(w, cfg, c);
    }
    hide ResolveApproval, SimpleLoop, GoesOn, ModelCalls, Lost;
  }
}
