/** How a turn of the single-model loop goes: up to ten rounds, and how it ends. */
module Rounds {
  import opened Prelude
  import opened Conversations
  import opened World
  import opened Orchestrator
  import opened Transcript
  import opened SimpleAgent
  import opened Api
  import opened Told

  /** What the model is asked. */
  function Question(system: string, c: Ctx): Event {
    ChatEvent(AskModel("", system, LlmMessages(c.conv.messages), FullOffer))
  }

  /** The model is asked and wants a tool; the tool is called, and what it answers is recorded. */
  ghost predicate RoundBy(w: World, system: string, c: Ctx, d: Ctx, name: string, args: Args, call: Call, m: Message) {
    var ask := Question(system, c);
    && w.llm(c.trace, ask.call) == LlmTool(name, args)
    && IsCallOf(call, Some((name, args))) && !call.ContinueTask? && Gave(w, c.trace + [ask], call, m)
    && d == c.(trace := c.trace + [ask, ChatEvent(call)],
               conv := c.conv.(messages := c.conv.messages + [CallRecord(name, args), m]))
  }

  ghost predicate Round(w: World, system: string, c: Ctx, d: Ctx) {
    exists name, args, call, m :: RoundBy(w, system, c, d, name, args, call, m)
  }

  /** Each context is one round after the one before it. */
  ghost predicate InRounds(w: World, system: string, cs: seq<Ctx>) {
    cs != [] && forall i :: 0 <= i < |cs| - 1 ==> Round(w, system, cs[i], cs[i + 1])
  }

  /** The turn is over at the cap. */
  predicate Capped(w: World, c: Ctx, d: Ctx, result: NodeResult) {
    var text := w.render(IterationCap);
    && result == NodeResult(text, false, false, false)
    && d.trace == c.trace && d.conv == c.conv.(messages := c.conv.messages + [Text(RoleAssistant, text)])
    && d.saved == d.conv
  }

  /** The records are kept, and the turn ends with the text. */
  predicate Says(c: Ctx, d: Ctx, result: NodeResult, records: seq<Message>, text: string, auth: bool) {
    && result == NodeResult(text, false, false, auth) && d.nextId == c.nextId
    && d.conv == c.conv.(messages := c.conv.messages + records + [Text(RoleAssistant, text)])
  }

  /** The records are kept, and the turn ends waiting for an answer about the call that is described. */
  predicate Requests(w: World, c: Ctx, d: Ctx, result: NodeResult, records: seq<Message>, name: string, args: Args,
                     description: string, task: Id, agent: string) {
    var text := w.render(ApprovalNeeded(description, c.nextId));
    && result == NodeResult(text, true, false, false) && d.nextId == c.nextId + 1
    && d.conv == c.conv.(status := WaitingApproval,
                         pending := Some(Pending(c.nextId, name, args, description, task, agent)),
                         messages := c.conv.messages + records + [Text(RoleAssistant, text)])
  }

  /** What a remote agent answered other than a result: the demand it makes is passed on. */
  predicate Passes(w: World, c: Ctx, d: Ctx, result: NodeResult, records: seq<Message>, name: string, args: Args,
                   agent: string, reply: RemoteReply) {
    && reply.RemoteTask?
    && var message := reply.task.message;
      match reply.task.state
      case InputRequired =>
        Requests(w, c, d, result, records, name, args,
                 w.render(ProxyRequest("", agent, if message.Some? then message.value else "")), reply.task.id, agent)
      case AuthRequired =>
        Says(c, d, result, records, if message.Some? then message.value else w.render(AuthNeeded("", agent)), true)
      case _ => false
  }

  /** A wanted tool ends the turn: it is not there, needs approval, or wants its user to log in. */
  predicate ConcludesTool(w: World, c: Ctx, ask: Event, d: Ctx, result: NodeResult, name: string, args: Args) {
    if name !in w.tools then
      d.trace == c.trace + [ask] && Says(c, d, result, [], w.render(ToolMissing("", name)), false)
    else if w.tools[name].destructive then
      && d.trace == c.trace + [ask]
      && Requests(w, c, d, result, [CallRecord(name, args)], name, args, w.render(ToolRequest(name, args)), 0, "")
    else
      && d.trace == c.trace + [ask, ChatEvent(RunTool(name, args))]
      && w.runTool(c.trace + [ask], name, args).ToolAuthRequired?
      && Says(c, d, result, [CallRecord(name, args)], w.render(AuthNeeded("", w.tools[name].server)), true)
  }

  /** A wanted agent ends the turn: it is not there, needs approval, or makes a demand. */
  predicate ConcludesAgent(w: World, c: Ctx, ask: Event, d: Ctx, result: NodeResult, name: string, args: Args,
                           agent: string) {
    if agent !in w.clients then
      d.trace == c.trace + [ask] && Says(c, d, result, [], w.render(AgentMissing("", agent)), false)
    else
      var text := if "message" in args && args["message"].Str? then args["message"].text else "";
      if w.clients[agent] then
        && d.trace == c.trace + [ask]
        && Requests(w, c, d, result, [CallRecord(name, args)], name, args, w.render(DelegateRequest("", agent, text)),
                    0, "")
      else
        && d.trace == c.trace + [ask, ChatEvent(SendTask(agent, text))]
        && Passes(w, c, d, result, [CallRecord(name, args)], name, args, agent, w.send(c.trace + [ask], agent, text))
  }

  /** The model is asked once more and the turn is over without another recorded result. A text is the
      answer, word for word. */
  predicate Concludes(w: World, system: string, c: Ctx, d: Ctx, result: NodeResult) {
    var ask := Question(system, c);
    && d.saved == d.conv && d.values == c.values
    && match w.llm(c.trace, ask.call)
       case LlmText(text) => d.trace == c.trace + [ask] && Says(c, d, result, [], text, false)
       case LlmError(e) => d.trace == c.trace + [ask] && Says(c, d, result, [], w.render(ModelFailed("", e)), false)
       case LlmTool(name, args) =>
         if "a2a_" <= name then ConcludesAgent(w, c, ask, d, result, name, args, name[4..])
         else ConcludesTool(w, c, ask, d, result, name, args)
  }

  // ---------- one turn of the loop ----------

  ghost predicate Turned(w: World, system: string, c: Ctx, asked: Turn) {
    match asked
    case Again(d) => Round(w, system, c, d)
    case Over(d, result) => Concludes(w, system, c, d, result)
    case Ask(_, _, _, _, _) => false
  }

  lemma NothingAdded(ms: seq<Message>, m: Message)
    ensures ms + [] + [m] == ms + [m]
  {
  }

  lemma ToolTurned(w: World, system: string, c: Ctx, name: string, args: Args)
    requires w.llm(c.trace, Question(system, c).call) == LlmTool(name, args) && !HasPrefix(name, A2A_PREFIX)
    ensures Turned(w, system, c, ToolStep(w, Log(c, ModelAsk(system, c)), name, args))
  {
    hide LlmMessages;
    var ask := Question(system, c);
    var c1 := Log(c, ModelAsk(system, c));
    assert c1.trace == c.trace + [ask];
    var asked := ToolStep(w, c1, name, args);
    var m := asked.c.conv.messages[|asked.c.conv.messages| - 1];
    NothingAdded(c.conv.messages, m);
    CallTwo(c.conv.messages, CallRecord(name, args), m);
    if name in w.tools && !w.tools[name].destructive {
      var call := RunTool(name, args);
      assert c1.trace + [ChatEvent(call)] == c.trace + [ask, ChatEvent(call)];
      if asked.Again? {
        assert RoundBy(w, system, c, asked.c, name, args, call, m);
      }
    }
  }

  /** A remote agent's answer that is no result. */
  lemma DemandPasses(w: World, c: Ctx, c2: Ctx, agent: string, name: string, args: Args, reply: RemoteReply)
    requires c2.conv == c.conv.(messages := c.conv.messages + [CallRecord(name, args)]) && c2.nextId == c.nextId
    requires !AfterReply(w, c2, agent, name, args, reply).Again?
    ensures var asked := AfterReply(w, c2, agent, name, args, reply);
            && asked.Over? && asked.c.saved == asked.c.conv && asked.c.trace == c2.trace && asked.c.values == c2.values
            && Passes(w, c, asked.c, asked.result, [CallRecord(name, args)], name, args, agent, reply)
  {
    var asked := AfterReply(w, c2, agent, name, args, reply);
    assert forall m: Message :: [] + [m] == [m];
  }

  lemma ReplyTurned(w: World, system: string, c: Ctx, name: string, args: Args, agent: string, text: string)
    requires w.llm(c.trace, Question(system, c).call) == LlmTool(name, args)
    requires name == "a2a_" + agent && text == MessageArg(args) && agent in w.clients && !w.clients[agent]
    ensures var c1 := Log(c, ModelAsk(system, c));
            var d := Log(c1.Say([CallRecord(name, args)]), SendTask(agent, text));
            Turned(w, system, c, AfterReply(w, d, agent, name, args, w.send(c1.trace, agent, text)))
  {
    hide LlmMessages, Passes;
    var ask := Question(system, c);
    var c1 := Log(c, ModelAsk(system, c));
    var call := SendTask(agent, text);
    var d := Log(c1.Say([CallRecord(name, args)]), call);
    var reply := w.send(c1.trace, agent, text);
    var asked := AfterReply(w, d, agent, name, args, reply);
    assert c1.trace == c.trace + [ask];
    assert c1.trace + [ChatEvent(call)] == c.trace + [ask, ChatEvent(call)];
    if asked.Again? {
      var m := asked.c.conv.messages[|asked.c.conv.messages| - 1];
      CallTwo(c.conv.messages, CallRecord(name, args), m);
      assert RoundBy(w, system, c, asked.c, name, args, call, m);
    } else {
      hide AfterReply, Round;
      DemandPasses(w, c, d, agent, name, args, reply);
      assert name[4..] == agent;
    }
  }

  lemma DelegateTurned(w: World, system: string, c: Ctx, name: string, args: Args)
    requires w.llm(c.trace, Question(system, c).call) == LlmTool(name, args) && HasPrefix(name, A2A_PREFIX)
    ensures Turned(w, system, c, AskedOracle(w, DelegateStep(w, Log(c, ModelAsk(system, c)), name, args)))
  {
    hide LlmMessages, AfterReply, Round;
    var agent := TrimPrefix(name, A2A_PREFIX);
    assert name == "a2a_" + agent && name[4..] == agent;
    var c1 := Log(c, ModelAsk(system, c));
    assert c1.trace == c.trace + [Question(system, c)];
    if agent in w.clients && !w.clients[agent] {
      ReplyTurned(w, system, c, name, args, agent, MessageArg(args));
    } else {
      assert [] + [Text(RoleAssistant, "")] == [Text(RoleAssistant, "")];
    }
  }

  lemma TurnTurns(w: World, system: string, c: Ctx, asked: Turn)
    requires asked == AskedOracle(w, TakeTurn(w, system, c))
    ensures Turned(w, system, c, asked)
  {
    hide LlmMessages, DelegateStep, ToolStep, Round;
    var reply := w.llm(c.trace, ModelAsk(system, c));
    if reply.LlmTool? {
      if HasPrefix(reply.name, A2A_PREFIX) {
        DelegateTurned(w, system, c, reply.name, reply.args);
      } else {
        ToolTurned(w, system, c, reply.name, reply.args);
      }
    }
  }

  lemma AnswerCaps(w: World, c: Ctx)
    ensures Capped(w, c, Answer(c, w.render(IterationCap)).c, Answer(c, w.render(IterationCap)).result)
  {
  }

  lemma {:induction false} LoopTurns(w: World, system: string, c: Ctx, rounds: nat)
    returns (cs: seq<Ctx>)
    ensures InRounds(w, system, cs) && cs[0] == c && |cs| <= rounds + 1
    ensures var (d, result) := SimpleLoop(w, system, c, rounds);
            if |cs| == rounds + 1 then Capped(w, cs[rounds], d, result)
            else Concludes(w, system, cs[|cs| - 1], d, result)
    decreases rounds
  {
    hide Round, Capped, Concludes, SimpleLoop, TakeTurn, AskedOracle, Answer;
    cs := [c];
    if rounds == 0 {
      SimpleLoopEnds(w, system, c);
      AnswerCaps(w, c);
    } else {
      var asked := AskedOracle(w, TakeTurn(w, system, c));
      TurnTurns(w, system, c, asked);
      SimpleLoopStep(w, system, c, rounds, asked);
      if asked.Again? {
        var more := LoopTurns(w, system, asked.c, rounds - 1);
        cs := [c] + more;
        assert forall i :: 0 < i < |cs| ==> cs[i] == more[i - 1];
      }
    }
  }

  // ---------- turns ----------

  /** A turn of a simple agent: at most ten rounds, each a model call, the call it asked for and the
      recorded answer. After ten the answer is the cap's text; before that the model is asked again and
      ends the turn, with its own words if it answers in words. */
  lemma TurnsHaveTenRounds(w: World, cfg: Config, c: Ctx)
    returns (cs: seq<Ctx>)
    ensures InRounds(w, cfg.system, cs) && cs[0] == c && |cs| <= 11
    ensures var (d, reply) := RunSimple(w, cfg, c);
            && reply.Replied?
            && (|cs| == 11 ==> Capped(w, cs[10], d, reply.result))
            && (|cs| <= 10 ==> Concludes(w, cfg.system, cs[|cs| - 1], d, reply.result))
  {
    cs := LoopTurns(w, cfg.system, c, MAX_TOOL_ITERATIONS);
  }

  function Results(ms: seq<Message>): nat {
    if ms == [] then 0 else Results(ms[..|ms| - 1]) + if ms[|ms| - 1].ResultRecord? then 1 else 0
  }

  function Questions(trace: seq<Event>): nat {
    if trace == [] then 0 else Questions(trace[..|trace| - 1]) + if trace[|trace| - 1].call.AskModel? then 1 else 0
  }

  lemma ResultsTwo(ms: seq<Message>, a: Message, b: Message)
    ensures Results(ms + [a]) == Results(ms) + if a.ResultRecord? then 1 else 0
    ensures Results(ms + [a, b]) == Results(ms + [a]) + if b.ResultRecord? then 1 else 0
  {
    assert (ms + [a])[..|ms|] == ms && (ms + [a, b])[..|ms| + 1] == ms + [a];
  }

  lemma QuestionsTwo(trace: seq<Event>, a: Event, b: Event)
    ensures Questions(trace + [a]) == Questions(trace) + if a.call.AskModel? then 1 else 0
    ensures Questions(trace + [a, b]) == Questions(trace + [a]) + if b.call.AskModel? then 1 else 0
  {
    assert (trace + [a])[..|trace|] == trace && (trace + [a, b])[..|trace| + 1] == trace + [a];
  }

  lemma RoundCounts(w: World, system: string, c: Ctx, d: Ctx)
    requires Round(w, system, c, d)
    ensures Results(d.conv.messages) == Results(c.conv.messages) + 1 && Questions(d.trace) == Questions(c.trace) + 1
  {
    hide LlmMessages;
    var name, args, call, m :| RoundBy(w, system, c, d, name, args, call, m);
    ResultsTwo(c.conv.messages, CallRecord(name, args), m);
    QuestionsTwo(c.trace, Question(system, c), ChatEvent(call));
  }

  lemma {:induction false} RoundsCount(w: World, system: string, cs: seq<Ctx>, k: nat)
    requires InRounds(w, system, cs) && k < |cs|
    ensures Results(cs[k].conv.messages) == Results(cs[0].conv.messages) + k
    ensures Questions(cs[k].trace) == Questions(cs[0].trace) + k
  {
    hide Round;
    if k > 0 {
      RoundsCount(w, system, cs, k - 1);
      assert Round(w, system, cs[k - 1], cs[k - 1 + 1]);
      RoundCounts(w, system, cs[k - 1], cs[k]);
    }
  }

  /** However a turn ends, at most its call is recorded before the last words. */
  lemma EndRecords(w: World, system: string, c: Ctx, d: Ctx, result: NodeResult)
    returns (records: seq<Message>)
    requires Concludes(w, system, c, d, result)
    ensures d.conv.messages == c.conv.messages + records + [Text(RoleAssistant, result.response)]
    ensures records == [] || (|records| == 1 && records[0].CallRecord?)
  {
    hide LlmMessages;
    var reply := w.llm(c.trace, Question(system, c).call);
    records := [];
    if reply.LlmTool? {
      var known := if "a2a_" <= reply.name then reply.name[4..] in w.clients else reply.name in w.tools;
      records := if known then [CallRecord(reply.name, reply.args)] else [];
    }
  }

  /** However a turn ends, nothing but the one question was asked of the model. */
  lemma EndCalls(w: World, system: string, c: Ctx, d: Ctx, result: NodeResult)
    returns (calls: seq<Call>)
    requires Concludes(w, system, c, d, result)
    ensures |calls| <= 1 && (|calls| == 1 ==> !calls[0].AskModel?)
    ensures d.trace
            == c.trace + if calls == [] then [Question(system, c)] else [Question(system, c), ChatEvent(calls[0])]
  {
    hide LlmMessages, Says, Requests, Passes;
    calls := if |d.trace| == |c.trace| + 1 then [] else [d.trace[|c.trace| + 1].call];
  }

  lemma EndCounts(w: World, system: string, c: Ctx, d: Ctx, result: NodeResult)
    requires Concludes(w, system, c, d, result)
    ensures Results(d.conv.messages) == Results(c.conv.messages) && Questions(d.trace) == Questions(c.trace) + 1
  {
    hide LlmMessages, Concludes, Results, Questions;
    var ask, said := Question(system, c), Text(RoleAssistant, result.response);
    var records := EndRecords(w, system, c, d, result);
    var calls := EndCalls(w, system, c, d, result);
    if records == [] {
      NothingAdded(c.conv.messages, said);
      ResultsTwo(c.conv.messages, said, said);
    } else {
      assert d.conv.messages == c.conv.messages + [records[0], said];
      ResultsTwo(c.conv.messages, records[0], said);
    }
    QuestionsTwo(c.trace, ask, if calls == [] then ask else ChatEvent(calls[0]));
  }

  lemma CapCounts(w: World, c: Ctx, d: Ctx, result: NodeResult)
    requires Capped(w, c, d, result)
    ensures Results(d.conv.messages) == Results(c.conv.messages) && Questions(d.trace) == Questions(c.trace)
  {
    ResultsTwo(c.conv.messages, Text(RoleAssistant, result.response), Text(RoleAssistant, result.response));
  }

  /** A turn asks the model at most ten times, once more than it records results; it is cut short by the
      cap exactly when ten results were recorded. */
  lemma TenQuestions(w: World, cfg: Config, c: Ctx)
    ensures var d := RunSimple(w, cfg, c).0;
            var results := Results(d.conv.messages) - Results(c.conv.messages);
            && 0 <= results <= 10
            && Questions(d.trace) - Questions(c.trace) == if results == 10 then 10 else results + 1
    ensures var (d, reply) := RunSimple(w, cfg, c);
            Results(d.conv.messages) == Results(c.conv.messages) + 10 ==>
              && reply == Replied(NodeResult(w.render(IterationCap), false, false, false))
              && d.conv.messages != []
              && d.conv.messages[|d.conv.messages| - 1] == Text(RoleAssistant, w.render(IterationCap))
  {
    hide Results, Questions, Concludes, Round, RunSimple;
    var cs := TurnsHaveTenRounds(w, cfg, c);
    var (d, reply) := RunSimple(w, cfg, c);
    RoundsCount(w, cfg.system, cs, |cs| - 1);
    if |cs| == 11 {
      CapCounts(w, cs[10], d, reply.result);
    } else {
      EndCounts(w, cfg.system, cs[|cs| - 1], d, reply.result);
    }
  }

  // ---------- answered approvals ----------

  /** The approval is settled, nothing more. */
  function Settled(c: Ctx): Ctx {
    c.(conv := c.conv.(status := Active, pending := None, pipeline := None))
  }

  /** The one call an answer makes, for the position the pipeline had stopped at. */
  predicate CallsOnce(c: Ctx, d: Ctx, call: Call) {
    |d.trace| == |c.trace| + 1 && c.trace <= d.trace && d.trace[|c.trace|].call == call
  }

  /** A rejection is noted, the user is told, and a remote agent that asked is told "rejected". */
  lemma RejectionsEnd(w: World, cfg: Config, c: Ctx)
    requires c.conv.pending.Some?
    ensures var p, (d, reply) := c.conv.pending.value, ResolveApproval(w, cfg, c, false);
            && reply.Replied? && d.saved == d.conv
            && Says(Settled(c), d, reply.result, [Text(RoleUser, "[APPROVAL]: Rejected")], w.render(Cancelled), false)
            && if p.IsProxy() && p.remoteAgent in w.clients then
                 CallsOnce(c, d, ContinueTask(p.remoteAgent, p.remoteTaskId, "rejected"))
               else d.trace == c.trace
  {
    assert forall a: Message, b: Message :: [a] + [b] == [a, b];
  }

  /** A granted tool that wants its user to log in. */
  lemma GrantedToolDemands(w: World, cfg: Config, c: Ctx)
    requires c.conv.pending.Some? && !c.conv.pending.value.IsProxy()
    requires var p := c.conv.pending.value;
             !("a2a_" <= p.toolName) && w.runTool(c.trace, p.toolName, p.toolArgs).ToolAuthRequired?
    ensures var p, (d, reply) := c.conv.pending.value, ResolveApproval(w, cfg, c, true);
            && reply.Replied? && d.saved == d.conv && CallsOnce(c, d, RunTool(p.toolName, p.toolArgs))
            && Says(Settled(c), d, reply.result, [Text(RoleUser, "[APPROVAL]: Approved")],
                    w.render(AuthNeeded("", if p.toolName in w.tools then w.tools[p.toolName].server else p.toolName)),
                    true)
  {
    hide RunSimple, ResumePipeline;
    assert c.conv.messages + [Text(RoleUser, APPROVED_TEXT)] + [] == c.conv.messages + [Text(RoleUser, APPROVED_TEXT)];
  }

  /** A granted proxy: the remote agent is told "approved". The answer is an error when the agent is unknown
      or fails, and when the agent makes another demand, that is passed on under the same call. */
  lemma GrantedProxyDemands(w: World, cfg: Config, c: Ctx)
    requires c.conv.pending.Some? && c.conv.pending.value.IsProxy()
    ensures var p, (d, answer) := c.conv.pending.value, ResolveApproval(w, cfg, c, true);
            var reply := w.resumeTask(c.trace, p.remoteAgent, p.remoteTaskId, "approved");
            if p.remoteAgent !in w.clients then answer == Error(w.render(AgentMissing("", p.remoteAgent)))
            else if reply.RemoteError? then answer == Error(w.render(ApprovalFailed(reply.error)))
            else if reply.task.state.InputRequired? || reply.task.state.AuthRequired? then
              && answer.Replied? && d.saved == d.conv
              && CallsOnce(c, d, ContinueTask(p.remoteAgent, p.remoteTaskId, "approved"))
              && Passes(w, Settled(c), d, answer.result, [Text(RoleUser, "[APPROVAL]: Approved")], p.toolName,
                        p.toolArgs, p.remoteAgent, reply)
            else true
  {
    hide RunSimple, ResumePipeline;
    var approved := [Text(RoleUser, APPROVED_TEXT)];
    assert forall m: Message :: c.conv.messages + approved + ([] + [m]) == c.conv.messages + approved + [m];
  }
}
