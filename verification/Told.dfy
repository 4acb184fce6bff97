/** Recorded results are what the outside said: what runs of trees and of the single-model loop record. */
module Told {
  import opened Prelude
  import opened Conversations
  import opened World
  import opened Orchestrator
  import opened RunInduction
  import opened Transcript
  import opened SimpleAgent

  // ---------- results and the answers they record ----------

  /** The result records what the outside answered to this call after this history. */
  ghost predicate Gave(w: World, hist: seq<Event>, call: Call, m: Message) {
    && m.ResultRecord?
    && match call
       case AskModel(_, _, _, _) => false
       case RunTool(name, args) =>
         && m.name == name
         && (match w.runTool(hist, name, args)
             case ToolOk(text, isError) => m.result == text && m.isError == isError
             case ToolFailed(e) => m.isError && exists who :: m.result == w.render(ToolBroken(who, e))
             case ToolAuthRequired => false)
       case SendTask(agent, text) => m.name == "a2a_" + agent && GaveTask(w, w.send(hist, agent, text), agent, m)
       case ContinueTask(agent, id, text) => GaveTask(w, w.resumeTask(hist, agent, id, text), agent, m)
  }

  ghost predicate GaveTask(w: World, reply: RemoteReply, agent: string, m: Message)
    requires m.ResultRecord?
  {
    match reply
    case RemoteError(e) => m.isError && exists who :: m.result == w.render(AgentFailed(who, e))
    case RemoteTask(task) => m.result == task.text && m.isError == task.state.TaskFailed?
  }

  /** The last record, when it is a call. */
  function LastCall(ms: seq<Message>): Option<(string, Args)> {
    if ms == [] then None
    else match ms[|ms| - 1]
      case Text(_, _) => LastCall(ms[..|ms| - 1])
      case CallRecord(name, args) => Some((name, args))
      case ResultRecord(_, _, _) => None
  }

  /** The call is the recorded one, or passes an approval of it on. */
  predicate IsCallOf(call: Call, record: Option<(string, Args)>) {
    && record.Some?
    && match call
       case RunTool(name, args) => record.value == (name, args)
       case SendTask(agent, text) => record.value.0 == "a2a_" + agent && IsMessageOf(record.value.1, text)
       case ContinueTask(_, _, _) => true
       case AskModel(_, _, _, _) => false
  }

  /** The result after front was given at event k, before event upto; strictly, to the last recorded call. */
  ghost predicate GaveAt(w: World, strict: bool, trace: seq<Event>, front: seq<Message>, m: Message, k: nat,
                         upto: nat) {
    k < upto && k < |trace| && Gave(w, trace[..k], trace[k].call, m)
    && (strict ==> IsCallOf(trace[k].call, LastCall(front)))
  }

  /** Each result was given by the outside, later results at later events, all before event upto. */
  ghost predicate WasTold(w: World, strict: bool, trace: seq<Event>, ms: seq<Message>, upto: nat) {
    if ms == [] then true
    else
      var front, m := ms[..|ms| - 1], ms[|ms| - 1];
      if m.ResultRecord? then
        exists k :: GaveAt(w, strict, trace, front, m, k, upto) && WasTold(w, strict, trace, front, k)
      else WasTold(w, strict, trace, front, upto)
  }

  lemma GaveLater(w: World, strict: bool, trace: seq<Event>, more: seq<Event>, front: seq<Message>, m: Message,
                  k: nat, upto: nat, later: nat)
    requires GaveAt(w, strict, trace, front, m, k, upto) && trace <= more && upto <= later
    ensures GaveAt(w, strict, more, front, m, k, later)
  {
    assert more[k] == trace[k] && more[..k] == trace[..k];
  }

  lemma {:induction false} ToldLater(w: World, strict: bool, trace: seq<Event>, more: seq<Event>, ms: seq<Message>,
                                     upto: nat, later: nat)
    requires WasTold(w, strict, trace, ms, upto) && trace <= more && upto <= later
    ensures WasTold(w, strict, more, ms, later)
  {
    hide GaveAt;
    if ms != [] {
      var front, m := ms[..|ms| - 1], ms[|ms| - 1];
      if m.ResultRecord? {
        var k :| GaveAt(w, strict, trace, front, m, k, upto) && WasTold(w, strict, trace, front, k);
        GaveLater(w, strict, trace, more, front, m, k, upto, later);
        ToldLater(w, strict, trace, more, front, k, k);
      } else {
        ToldLater(w, strict, trace, more, front, upto, later);
      }
    }
  }

  lemma ToldSay(w: World, strict: bool, trace: seq<Event>, ms: seq<Message>, m: Message, upto: nat)
    requires WasTold(w, strict, trace, ms, upto) && !m.ResultRecord?
    ensures WasTold(w, strict, trace, ms + [m], upto)
    ensures LastCall(ms + [m]) == if m.CallRecord? then Some((m.name, m.args)) else LastCall(ms)
  {
    assert (ms + [m])[..|ms|] == ms;
  }

  lemma ToldResult(w: World, strict: bool, trace: seq<Event>, ms: seq<Message>, m: Message, k: nat, upto: nat)
    requires m.ResultRecord? && GaveAt(w, strict, trace, ms, m, k, upto) && WasTold(w, strict, trace, ms, k)
    ensures WasTold(w, strict, trace, ms + [m], upto)
  {
    assert (ms + [m])[..|ms|] == ms;
  }

  /** A pending approval is for the last recorded call. */
  predicate PendingCalled(c: Conv) {
    c.pending.Some? ==> LastCall(c.messages) == Some((c.pending.value.toolName, c.pending.value.toolArgs))
  }

  ghost predicate Fine(w: World, strict: bool, trace: seq<Event>, c: Conv) {
    WasTold(w, strict, trace, c.messages, |trace|) && (strict ==> PendingCalled(c))
  }

  lemma FineLater(w: World, strict: bool, trace: seq<Event>, more: seq<Event>, c: Conv)
    requires Fine(w, strict, trace, c) && trace <= more
    ensures Fine(w, strict, more, c)
  {
    ToldLater(w, strict, trace, more, c.messages, |trace|, |more|);
  }

  // ---------- trees ----------

  ghost predicate FineKept(w: World, c: Ctx, d: Ctx) {
    && c.trace <= d.trace
    && (Fine(w, false, c.trace, c.conv) ==>
          Fine(w, false, d.trace, d.conv) && (d.saved == c.saved || Fine(w, false, d.trace, d.saved)))
  }

  lemma FineKeptThen(w: World, a: Ctx, b: Ctx, c: Ctx)
    requires FineKept(w, a, b) && FineKept(w, b, c)
    ensures FineKept(w, a, c)
  {
    hide Fine;
    if Fine(w, false, a.trace, a.conv) && c.saved == b.saved && b.saved != a.saved {
      FineLater(w, false, b.trace, c.trace, b.saved);
    }
  }

  /** No results, or a call, its result, and a text at most; the result was given to the last call. */
  ghost predicate NotesTold(w: World, hist: seq<Event>, path: seq<nat>, calls: seq<Call>, notes: seq<Message>) {
    || (|notes| <= 2 && forall m :: m in notes ==> !m.ResultRecord?)
    || (2 <= |notes| <= 3 && notes[0].CallRecord? && notes[1].ResultRecord? && calls != []
        && (|notes| == 3 ==> notes[2].Text?)
        && var trace := hist + At(path, calls);
          Gave(w, trace[..|trace| - 1], trace[|trace| - 1].call, notes[1]))
  }

  lemma DelegateNotes(w: World, node: AgentNode, hist: seq<Event>, path: seq<nat>, agent: string, args: Args,
                      text: string)
    ensures var act := Delegate(w, node, hist, [], agent, A2A_PREFIX + agent, args, text, true);
            NotesTold(w, hist, path, act.calls, act.notes)
  {
    OneCall(hist, path, SendTask(agent, text));
    assert [] + [SendTask(agent, text)] == [SendTask(agent, text)];
  }

  lemma AskedDelegateNotes(w: World, node: AgentNode, hist: seq<Event>, path: seq<nat>, ask: Call, agent: string,
                           args: Args, text: string)
    ensures var act := Delegate(w, node, hist + [Event(path, ask)], [ask], agent, A2A_PREFIX + agent, args, text,
                                false);
            NotesTold(w, hist, path, act.calls, act.notes)
  {
    TwoCalls(hist, path, ask, SendTask(agent, text));
    assert [ask] + [SendTask(agent, text)] == [ask, SendTask(agent, text)];
  }

  lemma UseToolNotes(w: World, node: AgentNode, hist: seq<Event>, path: seq<nat>, ask: Call, name: string, args: Args,
                     allow: bool)
    ensures var act := LlmUseTool(w, node, path, hist + [Event(path, ask)], ask, name, args, allow);
            NotesTold(w, hist, path, act.calls, act.notes)
  {
    TwoCalls(hist, path, ask, RunTool(name, args));
  }

  lemma ActNotes(w: World, node: AgentNode, path: seq<nat>, hist: seq<Event>, prompt: string, userMessage: string,
                 allow: bool)
    ensures var act := LeafAct(w, node, path, hist, prompt, userMessage, allow);
            NotesTold(w, hist, path, act.calls, act.notes)
  {
    hide Delegate, LlmUseTool, Gave;
    if node.kind == A2A {
      var text := if node.prompt != "" then prompt else userMessage;
      DelegateNotes(w, node, hist, path, node.name, map["message" := Str(text)], text);
    } else {
      var ask := ModelCall(node, prompt, userMessage);
      var reply := w.llm(hist, ask);
      if reply.LlmTool? {
        UseToolNotes(w, node, hist, path, ask, reply.name, reply.args, allow);
        var agent := TrimPrefix(reply.name, A2A_PREFIX);
        if HasPrefix(reply.name, A2A_PREFIX) {
          assert reply.name == A2A_PREFIX + agent;
        }
        AskedDelegateNotes(w, node, hist, path, ask, agent, reply.args, MessageArg(reply.args));
      }
    }
  }

  /** The records of a leaf's act keep a transcript told. */
  lemma NotesFine(w: World, hist: seq<Event>, path: seq<nat>, calls: seq<Call>, ms: seq<Message>, notes: seq<Message>)
    requires WasTold(w, false, hist, ms, |hist|) && NotesTold(w, hist, path, calls, notes)
    ensures var trace := hist + At(path, calls); WasTold(w, false, trace, ms + notes, |trace|)
  {
    hide Gave, WasTold;
    var trace := hist + At(path, calls);
    ToldLater(w, false, hist, trace, ms, |hist|, |trace|);
    if |notes| <= 2 && forall m :: m in notes ==> !m.ResultRecord? {
      if |notes| == 0 {
        assert ms + notes == ms;
      } else {
        ToldSay(w, false, trace, ms, notes[0], |trace|);
        if |notes| == 2 {
          ToldSay(w, false, trace, ms + [notes[0]], notes[1], |trace|);
          assert ms + notes == ms + [notes[0]] + [notes[1]];
        } else {
          assert notes == [notes[0]];
        }
      }
    } else {
      var k := |trace| - 1;
      ToldLater(w, false, hist, trace, ms, |hist|, k);
      ToldSay(w, false, trace, ms, notes[0], k);
      ToldResult(w, false, trace, ms + [notes[0]], notes[1], k, |trace|);
      if |notes| == 3 {
        ToldSay(w, false, trace, ms + [notes[0]] + [notes[1]], notes[2], |trace|);
        assert ms + notes == ms + [notes[0]] + [notes[1]] + [notes[2]];
      } else {
        assert ms + notes == ms + [notes[0]] + [notes[1]];
      }
    }
  }

  lemma PerformFine(w: World, node: AgentNode, c: Ctx, path: seq<nat>, userMessage: string, act: Act)
    requires NotesTold(w, c.trace, path, act.calls, act.notes)
    ensures FineKept(w, c, Perform(w, node, c, path, userMessage, act).0)
  {
    hide WasTold, NotesTold, At;
    var trace := c.trace + At(path, act.calls);
    if Fine(w, false, c.trace, c.conv) {
      NotesFine(w, c.trace, path, act.calls, c.conv.messages, act.notes);
      if act.end.Pause? {
        var response := w.render(ApprovalNeeded(act.end.description, c.nextId));
        ToldSay(w, false, trace, c.conv.messages + act.notes, Text(RoleAssistant, response), |trace|);
      }
    }
  }

  lemma LeafFine(w: World, node: AgentNode, c: Ctx, userMessage: string, path: seq<nat>, allow: bool)
    ensures FineKept(w, c, ExecLeaf(w, node, c, userMessage, path, allow).0)
  {
    hide LeafAct, Perform, ResolveTemplate, NotesTold, FineKept;
    var prompt := ResolveTemplate(node.prompt, c.values);
    ActNotes(w, node, path, c.trace, prompt, userMessage, allow);
    PerformFine(w, node, c, path, userMessage, LeafAct(w, node, path, c.trace, prompt, userMessage, allow));
  }

  lemma ResumeFine(w: World, node: AgentNode, c: Ctx, r: Resume)
    ensures FineKept(w, c, ResumeLeaf(w, node, c, r).0)
  {
    hide WasTold;
    if Fine(w, false, c.trace, c.conv) {
      ToldSay(w, false, c.trace, c.conv.messages, Note(w, OperationDone(node.name, r.toolResult)), |c.trace|);
    }
  }

  /** Any run of any tree records only what the outside said. */
  lemma RunsRecordAnswers(w: World, root: AgentNode, c: Ctx, userMessage: string, resume: Option<Resume>, allow: bool)
    ensures FineKept(w, c, ExecNode(w, root, c, userMessage, resume, [], allow).0)
  {
    var keeps := (c: Ctx, d: Ctx) => FineKept(w, c, d);
    hide FineKept, ExecNode, ExecLeaf, ResumeLeaf;
    forall c, d, e | keeps(c, d) && keeps(d, e)
      ensures keeps(c, e)
    {
      FineKeptThen(w, c, d, e);
    }
    forall c
      ensures keeps(c, c)
    {
      FineStays(w, c);
    }
    forall q | Reached(root, q)
      ensures LeafHolds(w, LeafAt(root, q), [] + q, userMessage, ResumeKeys(resume), keeps)
    {
      forall c, allow
        ensures keeps(c, ExecLeaf(w, LeafAt(root, q), c, userMessage, [] + q, allow).0)
      {
        LeafFine(w, LeafAt(root, q), c, userMessage, [] + q, allow);
      }
      forall c, r: Resume | r.outputKey in ResumeKeys(resume)
        ensures keeps(c, ResumeLeaf(w, LeafAt(root, q), c, r).0)
      {
        ResumeFine(w, LeafAt(root, q), c, r);
      }
    }
    NodeInduct(w, root, c, userMessage, resume, [], allow, ResumeKeys(resume), keeps);
  }

  lemma FineStays(w: World, c: Ctx)
    ensures FineKept(w, c, c)
  {
  }

  // ---------- the loop ----------

  /** What a turn makes of a conversation with nothing pending. */
  ghost predicate TurnFine(w: World, strict: bool, c: Ctx, d: Ctx) {
    && c.trace <= d.trace
    && (Fine(w, strict, c.trace, c.conv) && c.conv.pending.None? ==>
          Fine(w, strict, d.trace, d.conv) && (d.saved == c.saved || Fine(w, strict, d.trace, d.saved)))
  }

  lemma TurnFineThen(w: World, strict: bool, a: Ctx, b: Ctx, c: Ctx)
    requires TurnFine(w, strict, a, b) && TurnFine(w, strict, b, c) && (a.conv.pending.None? ==> b.conv.pending.None?)
    ensures TurnFine(w, strict, a, c)
  {
    hide Fine;
    if Fine(w, strict, a.trace, a.conv) && a.conv.pending.None? && c.saved == b.saved && b.saved != a.saved {
      FineLater(w, strict, b.trace, c.trace, b.saved);
    }
  }

  /** One text more, saved, after further events. */
  lemma AnswerFine(w: World, strict: bool, c: Ctx, c1: Ctx, text: string)
    requires c.trace <= c1.trace && c1.conv == c.conv && c1.saved == c.saved
    ensures TurnFine(w, strict, c, Answer(c1, text).c) && TurnFine(w, strict, c, AnswerAuth(c1, text).c)
  {
    hide WasTold;
    if Fine(w, strict, c.trace, c.conv) {
      FineLater(w, strict, c.trace, c1.trace, c.conv);
      ToldSay(w, strict, c1.trace, c.conv.messages, Text(RoleAssistant, text), |c1.trace|);
    }
  }

  /** A call, and a text or the result it was given. */
  lemma CalledFine(w: World, strict: bool, c: Ctx, d: Ctx, name: string, args: Args, m: Message)
    requires c.trace <= d.trace && c.conv.pending.None? && (d.saved == c.saved || d.saved == d.conv)
    requires d.conv.messages == c.conv.messages + [CallRecord(name, args)] + [m]
    requires m.ResultRecord? ==>
               && d.conv.pending.None? && |c.trace| < |d.trace|
               && Gave(w, d.trace[..|d.trace| - 1], d.trace[|d.trace| - 1].call, m)
               && IsCallOf(d.trace[|d.trace| - 1].call, Some((name, args)))
    requires m.Text? ==>
               d.conv.pending.None? || (d.conv.pending.value.toolName == name && d.conv.pending.value.toolArgs == args)
    requires !m.CallRecord?
    ensures TurnFine(w, strict, c, d)
  {
    hide WasTold, Gave;
    if Fine(w, strict, c.trace, c.conv) {
      var ms := c.conv.messages;
      if m.ResultRecord? {
        var k := |d.trace| - 1;
        ToldLater(w, strict, c.trace, d.trace, ms, |c.trace|, k);
        ToldSay(w, strict, d.trace, ms, CallRecord(name, args), k);
        ToldResult(w, strict, d.trace, ms + [CallRecord(name, args)], m, k, |d.trace|);
      } else {
        ToldLater(w, strict, c.trace, d.trace, ms, |c.trace|, |d.trace|);
        ToldSay(w, strict, d.trace, ms, CallRecord(name, args), |d.trace|);
        ToldSay(w, strict, d.trace, ms + [CallRecord(name, args)], m, |d.trace|);
      }
    }
  }

  lemma CallTwo(ms: seq<Message>, call: Message, m: Message)
    ensures ms + [call, m] == ms + [call] + [m] && ms + ([call] + [m]) == ms + [call] + [m]
  {
  }

  lemma ToolStepFine(w: World, strict: bool, c: Ctx, c1: Ctx, tool: string, args: Args)
    requires c.trace <= c1.trace && c1.conv == c.conv && c1.saved == c.saved && !HasPrefix(tool, A2A_PREFIX)
    requires c.conv.pending.None?
    ensures TurnFine(w, strict, c, ToolStep(w, c1, tool, args).c)
    ensures ToolStep(w, c1, tool, args).Again? ==> ToolStep(w, c1, tool, args).c.conv.pending.None?
  {
    hide TurnFine, WasTold, LastCall;
    var d := ToolStep(w, c1, tool, args).c;
    if tool !in w.tools {
      AnswerFine(w, strict, c, c1, w.render(ToolMissing("", tool)));
    } else {
      var m := d.conv.messages[|d.conv.messages| - 1];
      CallTwo(c.conv.messages, CallRecord(tool, args), m);
      if !w.tools[tool].destructive {
        assert d.trace == c1.trace + [ChatEvent(RunTool(tool, args))];
        assert d.trace[..|c1.trace|] == c1.trace;
      }
      CalledFine(w, strict, c, d, tool, args, m);
    }
  }

  lemma ReplyFine(w: World, strict: bool, c: Ctx, c1: Ctx, tool: string, agent: string, args: Args, text: string)
    requires c.trace <= c1.trace && c1.conv == c.conv && c1.saved == c.saved && c.conv.pending.None?
    requires tool == "a2a_" + agent && IsMessageOf(args, text)
    ensures var d := Log(c1.Say([CallRecord(tool, args)]), SendTask(agent, text));
            var next := AfterReply(w, d, agent, tool, args, w.send(c1.trace, agent, text));
            TurnFine(w, strict, c, next.c) && (next.Again? ==> next.c.conv.pending.None?)
  {
    hide TurnFine, WasTold, LastCall;
    var d := Log(c1.Say([CallRecord(tool, args)]), SendTask(agent, text));
    var next := AfterReply(w, d, agent, tool, args, w.send(c1.trace, agent, text)).c;
    assert d.trace[..|c1.trace|] == c1.trace && d.trace[|d.trace| - 1].call == SendTask(agent, text);
    var m := next.conv.messages[|next.conv.messages| - 1];
    var response :=
      w.render(ApprovalNeeded(if next.conv.pending.Some? then next.conv.pending.value.description else "", d.nextId));
    assert [] + [Text(RoleAssistant, response)] == [Text(RoleAssistant, response)];
    CalledFine(w, strict, c, next, tool, args, m);
  }

  lemma DelegateFine(w: World, strict: bool, c: Ctx, c1: Ctx, tool: string, args: Args)
    requires c.trace <= c1.trace && c1.conv == c.conv && c1.saved == c.saved && c.conv.pending.None?
    requires HasPrefix(tool, A2A_PREFIX)
    ensures var asked := AskedOracle(w, DelegateStep(w, c1, tool, args));
            TurnFine(w, strict, c, asked.c) && (asked.Again? ==> asked.c.conv.pending.None?)
  {
    hide TurnFine, WasTold, LastCall, AfterReply;
    var agent := TrimPrefix(tool, A2A_PREFIX);
    assert tool == "a2a_" + agent;
    if agent !in w.clients {
      AnswerFine(w, strict, c, c1, w.render(AgentMissing("", agent)));
    } else if w.clients[agent] {
      var d := DelegateStep(w, c1, tool, args).c;
      var m := d.conv.messages[|d.conv.messages| - 1];
      CallTwo(c.conv.messages, CallRecord(tool, args), m);
      CalledFine(w, strict, c, d, tool, args, m);
    } else {
      ReplyFine(w, strict, c, c1, tool, agent, args, MessageArg(args));
    }
  }

  lemma AskedFine(w: World, strict: bool, system: string, c: Ctx, asked: Turn)
    requires asked == AskedOracle(w, TakeTurn(w, system, c)) && c.conv.pending.None?
    ensures TurnFine(w, strict, c, asked.c) && (asked.Again? ==> asked.c.conv.pending.None?)
  {
    hide TurnFine, DelegateStep, ToolStep, LlmMessages;
    var ask := ModelAsk(system, c);
    var c1 := Log(c, ask);
    match w.llm(c.trace, ask)
    case LlmError(e) => AnswerFine(w, strict, c, c1, w.render(ModelFailed("", e)));
    case LlmText(text) => AnswerFine(w, strict, c, c1, text);
    case LlmTool(tool, args) =>
      if HasPrefix(tool, A2A_PREFIX) {
        DelegateFine(w, strict, c, c1, tool, args);
      } else {
        ToolStepFine(w, strict, c, c1, tool, args);
        ToolStepAsks(w, c1, tool, args);
      }
  }

  lemma ToolStepAsks(w: World, c: Ctx, tool: string, args: Args)
    ensures !ToolStep(w, c, tool, args).Ask?
  {
  }

  lemma {:induction false} LoopFine(w: World, strict: bool, system: string, c: Ctx, rounds: nat)
    requires c.conv.pending.None?
    ensures TurnFine(w, strict, c, SimpleLoop(w, system, c, rounds).0)
    decreases rounds
  {
    hide *;
    if rounds == 0 {
      SimpleLoopEnds(w, system, c);
      AnswerFine(w, strict, c, c, w.render(IterationCap));
    } else {
      var asked := AskedOracle(w, TakeTurn(w, system, c));
      AskedFine(w, strict, system, c, asked);
      SimpleLoopStep(w, system, c, rounds, asked);
      if asked.Again? {
        LoopFine(w, strict, system, asked.c, rounds - 1);
        TurnFineThen(w, strict, c, asked.c, SimpleLoop(w, system, asked.c, rounds - 1).0);
      }
    }
  }
}
