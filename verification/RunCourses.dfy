/** The course of a run: which children run, in what order, and what ends it. */
module RunCourses {
  import opened Prelude
  import opened Conversations
  import opened World
  import opened Orchestrator

  // ---------- what ends a leaf ----------

  /** The last call is a model's, and it wants to leave the loop. */
  predicate ExitAsked(w: World, trace: seq<Event>) {
    && trace != []
    && var k := |trace| - 1;
      var call := trace[k].call;
      call.AskModel? && var reply := w.llm(trace[..k], call); reply.LlmTool? && reply.name == "exit_loop"
  }

  /** The last call's answer demands that the user log in. */
  predicate AuthAsked(w: World, trace: seq<Event>) {
    && trace != []
    && var k := |trace| - 1;
      match trace[k].call
      case RunTool(name, args) => w.runTool(trace[..k], name, args).ToolAuthRequired?
      case SendTask(agent, text) =>
        var reply := w.send(trace[..k], agent, text);
        reply.RemoteTask? && reply.task.state.AuthRequired?
      case _ => false
  }

  /** The last call's answer is a remote agent's question. */
  predicate InputAsked(w: World, trace: seq<Event>) {
    && trace != []
    && var k := |trace| - 1;
      var call := trace[k].call;
      call.SendTask?
      && var reply := w.send(trace[..k], call.agent, call.text); reply.RemoteTask? && reply.task.state.InputRequired?
  }

  /** The last call is a model's, and it wants a tool or an agent that may not be called unasked. */
  predicate GateAsked(w: World, trace: seq<Event>) {
    && trace != []
    && var k := |trace| - 1;
      var call := trace[k].call;
      call.AskModel?
      && var reply := w.llm(trace[..k], call);
        && reply.LlmTool? && reply.name != "exit_loop"
        && if "a2a_" <= reply.name then reply.name[4..] in w.clients && w.clients[reply.name[4..]]
           else reply.name in w.tools && w.tools[reply.name].destructive
  }

  /** A leaf fails exactly when its model or its agent is not there, and waits, leaves the loop or demands
      a login exactly when its last call was answered so or the call it wants is gated. */
  ghost predicate EndsAs(w: World, leaf: AgentNode, hist: seq<Event>, trace: seq<Event>, allow: bool, failed: bool,
                         waits: bool, exits: bool, auth: bool) {
    if leaf.kind == A2A then
      var here := leaf.name in w.clients;
      && (failed <==> !here)
      && (waits <==> here && if leaf.destructiveHint && !allow then trace == hist else InputAsked(w, trace))
      && !exits && (auth <==> here && trace != hist && AuthAsked(w, trace))
    else
      var here := w.modelReady(leaf.model);
      && (failed <==> !here)
      && (waits <==> here && (InputAsked(w, trace) || (!allow && GateAsked(w, trace))))
      && (exits <==> here && ExitAsked(w, trace)) && (auth <==> here && AuthAsked(w, trace))
  }

  /** What the user is asked: about the remote agent's question, or about the gated call. */
  ghost predicate Describes(w: World, leaf: AgentNode, hist: seq<Event>, trace: seq<Event>, text: string, p: Pending) {
    if |hist| < |trace| && InputAsked(w, trace) then
      var call := trace[|trace| - 1].call;
      && p.toolName == "a2a_" + call.agent && p.remoteAgent == call.agent
      && p.remoteTaskId == w.send(trace[..|trace| - 1], call.agent, call.text).task.id
      && p.description == w.render(ProxyRequest(leaf.name, call.agent, ""))
    else
      && p.remoteTaskId == 0 && p.remoteAgent == ""
      && if leaf.kind == A2A then
           && p.toolName == "a2a_" + leaf.name && p.toolArgs == map["message" := Str(text)]
           && p.description == w.render(DelegateRequest(leaf.name, leaf.name, text))
         else
           && trace != [] && w.llm(trace[..|trace| - 1], trace[|trace| - 1].call) == LlmTool(p.toolName, p.toolArgs)
           && p.description
              == w.render(if "a2a_" <= p.toolName then DelegateRequest(leaf.name, p.toolName[4..], "")
                          else ToolRequest(p.toolName, p.toolArgs))
  }

  /** What the user is told about the login. */
  ghost predicate LoginTold(w: World, leaf: AgentNode, trace: seq<Event>, response: string) {
    && trace != []
    && var call := trace[|trace| - 1].call;
      match call
      case RunTool(name, _) => name in w.tools && response == w.render(AuthNeeded(leaf.name, w.tools[name].server))
      case SendTask(agent, text) =>
        var reply := w.send(trace[..|trace| - 1], agent, text);
        && reply.RemoteTask?
        && response
           == (if reply.task.message.Some? then reply.task.message.value else w.render(AuthNeeded(leaf.name, agent)))
      case _ => false
  }

  function AskedFor(end: End, uuid: Id): Pending
    requires end.Pause?
  {
    Pending(uuid, end.tool, end.args, end.description, end.remoteTaskId, end.remoteAgent)
  }

  ghost predicate ActEnds(w: World, leaf: AgentNode, hist: seq<Event>, path: seq<nat>, allow: bool, text: string,
                          act: Act) {
    var trace := hist + At(path, act.calls);
    && EndsAs(w, leaf, hist, trace, allow, act.end.Abort?, act.end.Pause?,
              act.end.Reply? && act.end.result.exitLoop, act.end.Reply? && act.end.result.authRequired)
    && (act.end.Reply? ==>
        && !act.end.result.waiting
        && (act.end.result.authRequired ==> LoginTold(w, leaf, trace, act.end.result.response)))
    && (act.end.Pause? ==> forall uuid :: Describes(w, leaf, hist, trace, text, AskedFor(act.end, uuid)))
  }

  lemma AgentSendEnds(w: World, leaf: AgentNode, hist: seq<Event>, path: seq<nat>, args: Args, text: string,
                      allow: bool)
    requires leaf.kind == A2A && leaf.name in w.clients && (leaf.destructiveHint ==> allow)
    ensures ActEnds(w, leaf, hist, path, allow, text,
                    Delegate(w, leaf, hist, [], leaf.name, A2A_PREFIX + leaf.name, args, text, true))
  {
    var send := SendTask(leaf.name, text);
    OneCall(hist, path, send);
    var act := Delegate(w, leaf, hist, [], leaf.name, A2A_PREFIX + leaf.name, args, text, true);
    var trace := hist + At(path, [send]);
    assert act.calls == [send];
    assert trace[|trace| - 1].call == send && trace[..|trace| - 1] == hist;
  }

  lemma AgentEnds(w: World, leaf: AgentNode, hist: seq<Event>, path: seq<nat>, prompt: string, userMessage: string,
                  allow: bool)
    requires leaf.kind == A2A
    ensures ActEnds(w, leaf, hist, path, allow, if leaf.prompt != "" then prompt else userMessage,
                    A2AAct(w, leaf, hist, prompt, userMessage, allow))
  {
    hide Delegate;
    var text := if leaf.prompt != "" then prompt else userMessage;
    if leaf.name in w.clients && (leaf.destructiveHint ==> allow) {
      hide ActEnds;
      AgentSendEnds(w, leaf, hist, path, map["message" := Str(text)], text, allow);
    } else {
      assert hist + At(path, []) == hist;
      hide InputAsked, AuthAsked, GateAsked, ExitAsked;
      var act := A2AAct(w, leaf, hist, prompt, userMessage, allow);
      if leaf.name in w.clients {
        assert act.end.Pause?;
      }
    }
  }

  lemma ModelSendEnds(w: World, leaf: AgentNode, hist: seq<Event>, path: seq<nat>, ask: Call, agent: string,
                      name: string, args: Args, text: string, allow: bool, any: string)
    requires leaf.kind != A2A && w.modelReady(leaf.model) && name == "a2a_" + agent
    ensures ActEnds(w, leaf, hist, path, allow, any,
                    Delegate(w, leaf, hist + [Event(path, ask)], [ask], agent, name, args, text, false))
  {
    var send := SendTask(agent, text);
    TwoCalls(hist, path, ask, send);
    var act := Delegate(w, leaf, hist + [Event(path, ask)], [ask], agent, name, args, text, false);
    var trace := hist + At(path, [ask, send]);
    assert act.calls == [ask, send];
    assert trace[|trace| - 1].call == send && trace[..|trace| - 1] == hist + [Event(path, ask)];
  }

  lemma ModelAgentEnds(w: World, leaf: AgentNode, hist: seq<Event>, path: seq<nat>, ask: Call, name: string,
                       args: Args, allow: bool, any: string)
    requires leaf.kind != A2A && ask.AskModel? && w.modelReady(leaf.model)
    requires w.llm(hist, ask) == LlmTool(name, args) && "a2a_" <= name
    ensures ActEnds(w, leaf, hist, path, allow, any,
                    LlmDelegate(w, leaf, path, hist + [Event(path, ask)], ask, name, args, allow))
  {
    hide Delegate;
    var agent := TrimPrefix(name, A2A_PREFIX);
    if agent in w.clients && (allow || !w.clients[agent]) {
      hide ActEnds;
      ModelSendEnds(w, leaf, hist, path, ask, agent, name, args, MessageArg(args), allow, any);
    } else {
      assert agent == name[4..];
      assert name[0] == "a2a_"[0] && name[0] != "exit_loop"[0];
      OneCall(hist, path, ask);
    }
  }

  lemma ToolRunEnds(w: World, leaf: AgentNode, hist: seq<Event>, path: seq<nat>, ask: Call, name: string,
                    args: Args, allow: bool, any: string)
    requires leaf.kind != A2A && w.modelReady(leaf.model)
    requires name in w.tools && (allow || !w.tools[name].destructive)
    ensures ActEnds(w, leaf, hist, path, allow, any,
                    LlmUseTool(w, leaf, path, hist + [Event(path, ask)], ask, name, args, allow))
  {
    var run := RunTool(name, args);
    TwoCalls(hist, path, ask, run);
    var trace := hist + At(path, [ask, run]);
    assert trace[|trace| - 1].call == run && trace[..|trace| - 1] == hist + [Event(path, ask)];
  }

  lemma ModelToolEnds(w: World, leaf: AgentNode, hist: seq<Event>, path: seq<nat>, ask: Call, name: string,
                      args: Args, allow: bool, any: string)
    requires leaf.kind != A2A && ask.AskModel? && w.modelReady(leaf.model)
    requires w.llm(hist, ask) == LlmTool(name, args) && name != "exit_loop" && !("a2a_" <= name)
    ensures ActEnds(w, leaf, hist, path, allow, any,
                    LlmUseTool(w, leaf, path, hist + [Event(path, ask)], ask, name, args, allow))
  {
    if name in w.tools && (allow || !w.tools[name].destructive) {
      hide ActEnds;
      ToolRunEnds(w, leaf, hist, path, ask, name, args, allow, any);
    } else {
      OneCall(hist, path, ask);
    }
  }

  lemma ActOfLeafEnds(w: World, leaf: AgentNode, hist: seq<Event>, path: seq<nat>, prompt: string, userMessage: string,
                      allow: bool)
    requires leaf.IsLeaf()
    ensures ActEnds(w, leaf, hist, path, allow, if leaf.prompt != "" then prompt else userMessage,
                    LeafAct(w, leaf, path, hist, prompt, userMessage, allow))
  {
    hide LlmUseTool, LlmDelegate, A2AAct;
    var text := if leaf.prompt != "" then prompt else userMessage;
    if leaf.kind == A2A {
      AgentEnds(w, leaf, hist, path, prompt, userMessage, allow);
    } else if !w.modelReady(leaf.model) {
      hide InputAsked, AuthAsked, GateAsked, ExitAsked;
    } else {
      var ask := ModelCall(leaf, prompt, userMessage);
      var reply := w.llm(hist, ask);
      OneCall(hist, path, ask);
      assert ask.AskModel?;
      if reply.LlmTool? && reply.name != "exit_loop" {
        hide ActEnds;
        if "a2a_" <= reply.name {
          ModelAgentEnds(w, leaf, hist, path, ask, reply.name, reply.args, allow, text);
        } else {
          ModelToolEnds(w, leaf, hist, path, ask, reply.name, reply.args, allow, text);
        }
      }
    }
  }

  /** A leaf that waits has stored what it asks for under the next id, and told the user. */
  ghost predicate AsksUser(w: World, leaf: AgentNode, c: Ctx, d: Ctx, text: string, result: NodeResult) {
    && d.conv.status == WaitingApproval && d.conv.pending.Some? && d.nextId == c.nextId + 1 && d.saved == d.conv
    && var p := d.conv.pending.value;
      && p.uuid == c.nextId && Describes(w, leaf, c.trace, d.trace, text, p)
      && result.response == w.render(ApprovalNeeded(p.description, p.uuid))
      && d.conv.messages != [] && d.conv.messages[|d.conv.messages| - 1] == Text(RoleAssistant, result.response)
  }

  /** How a leaf ends, told from its calls' answers. */
  lemma LeafEnds(w: World, leaf: AgentNode, c: Ctx, userMessage: string, path: seq<nat>, allow: bool)
    requires leaf.IsLeaf()
    ensures var (d, o) := ExecLeaf(w, leaf, c, userMessage, path, allow);
            var text := if leaf.prompt != "" then ResolveTemplate(leaf.prompt, c.values) else userMessage;
            && !o.Panicked? && c.trace <= d.trace
            && EndsAs(w, leaf, c.trace, d.trace, allow, o.Failed?, o.Ok? && o.result.waiting,
                      o.Ok? && o.result.exitLoop, o.Ok? && o.result.authRequired)
            && (o.Ok? && o.result.waiting ==> AsksUser(w, leaf, c, d, text, o.result))
            && (o.Ok? && o.result.authRequired ==> LoginTold(w, leaf, d.trace, o.result.response))
  {
    hide LeafAct, ResolveTemplate, EndsAs, Describes, LoginTold;
    var prompt := ResolveTemplate(leaf.prompt, c.values);
    ActOfLeafEnds(w, leaf, c.trace, path, prompt, userMessage, allow);
    var act := LeafAct(w, leaf, path, c.trace, prompt, userMessage, allow);
    if act.end.Pause? {
      assert Describes(w, leaf, c.trace, c.trace + At(path, act.calls),
                       if leaf.prompt != "" then prompt else userMessage, AskedFor(act.end, c.nextId));
    }
  }

  // ---------- which children run ----------

  /** Child i ran from c to d, with that outcome. */
  ghost predicate Ran(w: World, node: AgentNode, userMessage: string, path: seq<nat>, allow: bool, i: nat, c: Ctx,
                      d: Ctx, o: Outcome) {
    i < |node.agents| && ExecNode(w, node.agents[i], c, userMessage, None, path + [i], allow) == (d, o)
  }

  /** Children ran one after the other, each from where the one before it left off. order says which. */
  ghost predicate Course(w: World, node: AgentNode, userMessage: string, path: seq<nat>, allow: bool, order: seq<nat>,
                         cs: seq<Ctx>, outs: seq<Outcome>) {
    && |order| == |outs| && |cs| == |outs| + 1
    && forall j :: 0 <= j < |outs| ==> Ran(w, node, userMessage, path, allow, order[j], cs[j], cs[j + 1], outs[j])
  }

  /** One child more in front. */
  lemma CourseCons(w: World, node: AgentNode, userMessage: string, path: seq<nat>, allow: bool, i: nat, c: Ctx,
                   o: Outcome, order: seq<nat>, cs: seq<Ctx>, outs: seq<Outcome>)
    requires Course(w, node, userMessage, path, allow, order, cs, outs)
    requires Ran(w, node, userMessage, path, allow, i, c, cs[0], o)
    ensures Course(w, node, userMessage, path, allow, [i] + order, [c] + cs, [o] + outs)
  {
    hide Ran;
    forall j | 0 <= j < |outs| + 1
      ensures Ran(w, node, userMessage, path, allow, ([i] + order)[j], ([c] + cs)[j], ([c] + cs)[j + 1],
                  ([o] + outs)[j])
    {
      assert j > 0 ==> Ran(w, node, userMessage, path, allow, order[j - 1], cs[j - 1], cs[j], outs[j - 1]);
    }
  }

  /** The next child of a sequence runs after this outcome. */
  predicate Proceeds(o: Outcome) {
    o.Ok? && !o.result.waiting && !o.result.exitLoop && !o.result.authRequired
  }

  /** The children from i on, up to the first that does not proceed. */
  predicate InSequence(order: seq<nat>, outs: seq<Outcome>, i: nat, n: nat) {
    && |order| == |outs| && i + |outs| <= n
    && (forall j :: 0 <= j < |outs| ==> order[j] == i + j)
    && (forall j :: 0 <= j < |outs| - 1 ==> Proceeds(outs[j]))
    && (i + |outs| < n ==> outs != [] && !Proceeds(outs[|outs| - 1]))
  }

  lemma {:induction false} SequenceRuns(w: World, node: AgentNode, c: Ctx, userMessage: string, path: seq<nat>,
                                        allow: bool, i: nat, last: Option<NodeResult>)
    returns (order: seq<nat>, cs: seq<Ctx>, outs: seq<Outcome>)
    requires i <= |node.agents|
    ensures Course(w, node, userMessage, path, allow, order, cs, outs) && cs[0] == c
    ensures InSequence(order, outs, i, |node.agents|)
    ensures SeqFrom(w, node, c, userMessage, path, allow, i, last)
            == (cs[|outs|], if outs != [] then outs[|outs| - 1] else LastOr(last))
    decreases |node.agents| - i
  {
    hide ExecNode;
    if i == |node.agents| {
      order, cs, outs := [], [c], [];
    } else {
      var (c1, o) := ExecNode(w, node.agents[i], c, userMessage, None, path + [i], allow);
      if Proceeds(o) {
        var order1, cs1, outs1 := SequenceRuns(w, node, c1, userMessage, path, allow, i + 1, Some(o.result));
        CourseCons(w, node, userMessage, path, allow, i, c, o, order1, cs1, outs1);
        order, cs, outs := [i] + order1, [c] + cs1, [o] + outs1;
        hide Course;
      } else {
        order, cs, outs := [i], [c, c1], [o];
      }
    }
  }

  /** A sequence runs its children in order, up to the first that fails, waits, leaves the loop or demands
      a login, and ends as the last one that ran. */
  lemma SequenceCourse(w: World, node: AgentNode, c: Ctx, userMessage: string, path: seq<nat>, allow: bool)
    returns (order: seq<nat>, cs: seq<Ctx>, outs: seq<Outcome>)
    requires node.kind == Sequential
    ensures Course(w, node, userMessage, path, allow, order, cs, outs) && cs[0] == c
    ensures InSequence(order, outs, 0, |node.agents|)
    ensures ExecNode(w, node, c, userMessage, None, path, allow)
            == (cs[|outs|],
                if outs != [] then outs[|outs| - 1] else Ok(NodeResult("", false, false, false)))
  {
    order, cs, outs := SequenceRuns(w, node, c, userMessage, path, allow, 0, None);
  }

  // ---------- loops ----------

  /** A loop goes on after this outcome: even if a child waits or demands a login. */
  predicate Loops(o: Outcome) {
    o.Ok? && !o.result.exitLoop
  }

  /** From child i on, round after round, up to the first child that fails or leaves the loop. */
  predicate InRounds(order: seq<nat>, outs: seq<Outcome>, i: nat, n: nat) {
    && |order| == |outs|
    && (order != [] ==> order[0] == i)
    && (forall j :: 0 <= j < |order| - 1 ==> order[j + 1] == (if order[j] + 1 < n then order[j] + 1 else 0))
    && (forall j :: 0 <= j < |outs| - 1 ==> Loops(outs[j]))
  }

  /** What a loop makes of its last child's outcome. */
  function LoopOutcome(outs: seq<Outcome>, last: Option<NodeResult>): Outcome {
    if outs == [] then LastOr(last)
    else
      var o := outs[|outs| - 1];
      if o.Ok? && o.result.exitLoop then Ok(NodeResult(o.result.response, false, false, false)) else o
  }

  /** A round less is a run of every child less. */
  lemma RoundLess(rounds: nat, n: nat)
    requires rounds > 0
    ensures (rounds - 1) * n == rounds * n - n && rounds * n >= n
  {
  }

  /** left is how many runs remain at most. */
  lemma {:induction false} LoopRuns(w: World, node: AgentNode, c: Ctx, userMessage: string, path: seq<nat>,
                                    rounds: nat, i: nat, last: Option<NodeResult>, left: nat)
    returns (order: seq<nat>, cs: seq<Ctx>, outs: seq<Outcome>)
    requires i < |node.agents| && rounds > 0 && left == rounds * |node.agents| - i
    ensures Course(w, node, userMessage, path, true, order, cs, outs) && cs[0] == c && outs != []
    ensures InRounds(order, outs, i, |node.agents|)
    ensures |outs| <= left && (|outs| < left ==> !Loops(outs[|outs| - 1]))
    ensures LoopFrom(w, node, c, userMessage, path, rounds, i, last) == (cs[|outs|], LoopOutcome(outs, last))
    decreases rounds, |node.agents| - i
  {
    var n := |node.agents|;
    RoundLess(rounds, n);
    hide ExecNode, LoopFrom;
    var (c1, o) := ExecNode(w, node.agents[i], c, userMessage, None, path + [i], true);
    if Loops(o) && (i + 1 < n || rounds > 1) {
      var next, less := if i + 1 < n then i + 1 else 0, if i + 1 < n then rounds else rounds - 1;
      var order1, cs1, outs1 := LoopRuns(w, node, c1, userMessage, path, less, next, Some(o.result), left - 1);
      LoopStep(w, node, c, userMessage, path, rounds, i, last, c1, o);
      CourseCons(w, node, userMessage, path, true, i, c, o, order1, cs1, outs1);
      order, cs, outs := [i] + order1, [c] + cs1, [o] + outs1;
      hide Course, Loops;
    } else {
      LoopStops(w, node, c, userMessage, path, rounds, i, last, c1, o);
      order, cs, outs := [i], [c, c1], [o];
    }
  }

  lemma LoopStep(w: World, node: AgentNode, c: Ctx, userMessage: string, path: seq<nat>, rounds: nat, i: nat,
                 last: Option<NodeResult>, c1: Ctx, o: Outcome)
    requires i < |node.agents| && rounds > 0 && Loops(o) && (i + 1 < |node.agents| || rounds > 1)
    requires ExecNode(w, node.agents[i], c, userMessage, None, path + [i], true) == (c1, o)
    ensures LoopFrom(w, node, c, userMessage, path, rounds, i, last)
            == if i + 1 < |node.agents| then LoopFrom(w, node, c1, userMessage, path, rounds, i + 1, Some(o.result))
               else LoopFrom(w, node, c1, userMessage, path, rounds - 1, 0, Some(o.result))
  {
    hide ExecNode;
    if i + 1 == |node.agents| {
      assert LoopRound(w, node, c1, userMessage, path, i + 1, Some(o.result)) == (c1, Done(Some(o.result)));
    }
  }

  lemma LoopStops(w: World, node: AgentNode, c: Ctx, userMessage: string, path: seq<nat>, rounds: nat, i: nat,
                  last: Option<NodeResult>, c1: Ctx, o: Outcome)
    requires i < |node.agents| && rounds > 0 && (!Loops(o) || (i + 1 == |node.agents| && rounds == 1))
    requires ExecNode(w, node.agents[i], c, userMessage, None, path + [i], true) == (c1, o)
    ensures LoopFrom(w, node, c, userMessage, path, rounds, i, last) == (c1, LoopOutcome([o], last))
  {
    hide ExecNode;
    if Loops(o) {
      assert LoopRound(w, node, c1, userMessage, path, i + 1, Some(o.result)) == (c1, Done(Some(o.result)));
    }
  }

  /** A loop runs its children round after round, as often as it says, ten times when it says nothing; only
      a child that fails or leaves the loop ends it early. It ends as the last child that ran, without the
      wish to leave. */
  lemma LoopCourse(w: World, node: AgentNode, c: Ctx, userMessage: string, path: seq<nat>, allow: bool)
    returns (order: seq<nat>, cs: seq<Ctx>, outs: seq<Outcome>)
    requires node.kind == Loop
    ensures Course(w, node, userMessage, path, true, order, cs, outs) && cs[0] == c
    ensures InRounds(order, outs, 0, |node.agents|)
    ensures var rounds := if node.maxIterations == 0 then 10 else if node.maxIterations < 0 then 0
            else node.maxIterations;
            && |outs| <= rounds * |node.agents|
            && (|outs| < rounds * |node.agents| ==> outs != [] && !Loops(outs[|outs| - 1]))
    ensures ExecNode(w, node, c, userMessage, None, path, allow) == (cs[|outs|], LoopOutcome(outs, None))
  {
    var rounds := MaxIterations(node);
    if rounds > 0 && node.agents != [] {
      order, cs, outs := LoopRuns(w, node, c, userMessage, path, rounds, 0, None, rounds * |node.agents|);
    } else {
      order, cs, outs := [], [c], [];
      EmptyLoop(w, node, c, userMessage, path, rounds);
      assert rounds * |node.agents| == 0;
    }
  }

  lemma {:induction false} EmptyLoop(w: World, node: AgentNode, c: Ctx, userMessage: string, path: seq<nat>,
                                     rounds: nat)
    requires rounds == 0 || node.agents == []
    ensures ExecLoop(w, node, c, userMessage, path, rounds, None) == (c, LastOr(None))
    decreases rounds
  {
    if rounds > 0 {
      EmptyLoop(w, node, c, userMessage, path, rounds - 1);
    }
  }

  // ---------- parallel nodes ----------

  /** The responses that are not empty, one to a line. */
  function Listing(responses: seq<string>): string {
    if responses == [] then ""
    else
      var before, last := Listing(responses[..|responses| - 1]), responses[|responses| - 1];
      if last == "" then before else if before == "" then last else before + "\n" + last
  }

  lemma {:induction false} NonEmptySnoc(responses: seq<string>, last: string)
    ensures NonEmpty(responses + [last]) == NonEmpty(responses) + (if last == "" then [] else [last])
  {
    if responses == [] {
      assert responses + [last] == [last] && [last][1..] == [];
    } else {
      assert (responses + [last])[1..] == responses[1..] + [last];
      NonEmptySnoc(responses[1..], last);
    }
  }

  lemma {:induction false} JoinSnoc(parts: seq<string>, last: string, sep: string)
    ensures Join(parts + [last], sep) == if parts == [] then last else Join(parts, sep) + sep + last
  {
    if |parts| == 1 {
      assert (parts + [last])[1..] == [last];
    } else if |parts| > 1 {
      assert (parts + [last])[1..] == parts[1..] + [last];
      JoinSnoc(parts[1..], last, sep);
    }
  }

  lemma {:induction false} NonEmptyPlain(responses: seq<string>)
    ensures forall x :: x in NonEmpty(responses) ==> x != ""
  {
    if responses != [] {
      NonEmptyPlain(responses[1..]);
    }
  }

  lemma {:induction false} JoinEmpty(parts: seq<string>)
    requires forall x :: x in parts ==> x != ""
    ensures Join(parts, "\n") == "" <==> parts == []
  {
    if parts != [] {
      assert parts[0] in parts;
    }
  }

  lemma {:induction false} JoinLists(responses: seq<string>)
    ensures Join(NonEmpty(responses), "\n") == Listing(responses)
  {
    if responses != [] {
      var front, last := responses[..|responses| - 1], responses[|responses| - 1];
      assert responses == front + [last];
      JoinLists(front);
      NonEmptySnoc(front, last);
      NonEmptyPlain(front);
      JoinEmpty(NonEmpty(front));
      JoinSnoc(NonEmpty(front), last, "\n");
      assert NonEmpty(front) + [] == NonEmpty(front);
    }
  }

  predicate Well(outs: seq<Outcome>) {
    forall j :: 0 <= j < |outs| ==> outs[j].Ok?
  }

  function Responses(outs: seq<Outcome>): (r: seq<string>)
    requires Well(outs)
    ensures |r| == |outs|
  {
    seq(|outs|, j requires 0 <= j < |outs| => outs[j].result.response)
  }

  /** The children from i on, up to the first that fails. */
  predicate InTurn(order: seq<nat>, outs: seq<Outcome>, i: nat, n: nat) {
    && |order| == |outs| && i + |outs| <= n
    && (forall j :: 0 <= j < |outs| ==> order[j] == i + j)
    && (forall j :: 0 <= j < |outs| - 1 ==> outs[j].Ok?)
    && (i + |outs| < n ==> outs != [] && !outs[|outs| - 1].Ok?)
  }

  lemma {:induction false} ParallelRuns(w: World, node: AgentNode, c: Ctx, userMessage: string, path: seq<nat>, i: nat,
                                        before: seq<string>)
    returns (order: seq<nat>, cs: seq<Ctx>, outs: seq<Outcome>)
    requires i <= |node.agents|
    ensures Course(w, node, userMessage, path, true, order, cs, outs) && cs[0] == c
    ensures InTurn(order, outs, i, |node.agents|)
    ensures ExecParallel(w, node, c, userMessage, path, i, before)
            == (cs[|outs|],
                if Well(outs) then Ok(Plain(Join(NonEmpty(before + Responses(outs)), "\n"))) else outs[|outs| - 1])
    decreases |node.agents| - i
  {
    hide ExecNode;
    if i == |node.agents| {
      order, cs, outs := [], [c], [];
      assert before + Responses([]) == before;
    } else {
      var (c1, o) := ExecNode(w, node.agents[i], c, userMessage, None, path + [i], true);
      if o.Ok? {
        var order1, cs1, outs1 :=
          ParallelRuns(w, node, c1, userMessage, path, i + 1, before + [o.result.response]);
        CourseCons(w, node, userMessage, path, true, i, c, o, order1, cs1, outs1);
        order, cs, outs := [i] + order1, [c] + cs1, [o] + outs1;
        hide Course, NonEmpty;
        WellCons(o, outs1);
        if Well(outs1) {
          assert before + [o.result.response] + Responses(outs1) == before + Responses(outs);
        }
      } else {
        order, cs, outs := [i], [c, c1], [o];
        assert !outs[0].Ok?;
      }
    }
  }

  lemma WellCons(o: Outcome, outs: seq<Outcome>)
    requires o.Ok?
    ensures Well([o] + outs) <==> Well(outs)
  {
    if Well([o] + outs) {
      assert forall j :: 0 <= j < |outs| ==> ([o] + outs)[j + 1] == outs[j];
    }
  }

  /** A parallel node, its children taken in order: it stops at the first that fails, and otherwise answers
      with their responses, one to a line; what a child waits for or demands does not stop it. */
  lemma ParallelCourse(w: World, node: AgentNode, c: Ctx, userMessage: string, path: seq<nat>, allow: bool)
    returns (order: seq<nat>, cs: seq<Ctx>, outs: seq<Outcome>)
    requires node.kind == Parallel
    ensures Course(w, node, userMessage, path, true, order, cs, outs) && cs[0] == c
    ensures InTurn(order, outs, 0, |node.agents|)
    ensures ExecNode(w, node, c, userMessage, None, path, allow)
            == (cs[|outs|],
                if Well(outs) then Ok(NodeResult(Listing(Responses(outs)), false, false, false))
                else outs[|outs| - 1])
  {
    order, cs, outs := ParallelRuns(w, node, c, userMessage, path, 0, []);
    if Well(outs) {
      assert [] + Responses(outs) == Responses(outs);
      JoinLists(Responses(outs));
    }
  }
}
