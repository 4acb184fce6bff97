/** What a run answers with: the text of its last outside answer. */
module RunReplies {
  import opened Prelude
  import opened Conversations
  import opened World
  import opened Orchestrator
  import opened RunInduction

  /** What a leaf makes of the answer to its last call. */
  function ReplyText(w: World, leaf: AgentNode, trace: seq<Event>, k: nat): string
    requires k < |trace|
  {
    match trace[k].call
    case AskModel(_, _, _, _) =>
      (match w.llm(trace[..k], trace[k].call)
       case LlmError(e) => w.render(ModelFailed(leaf.name, e))
       case LlmText(text) => text
       case LlmTool(name, _) =>
         if name == "exit_loop" then ""
         else if HasPrefix(name, "a2a_") then w.render(AgentMissing(leaf.name, name[4..]))
         else w.render(ToolMissing(leaf.name, name)))
    case RunTool(name, args) =>
      (match w.runTool(trace[..k], name, args)
       case ToolOk(text, _) => text
       case ToolFailed(e) => w.render(ToolBroken(leaf.name, e))
       case ToolAuthRequired => "")
    case SendTask(agent, text) =>
      (match w.send(trace[..k], agent, text)
       case RemoteError(e) => w.render(AgentFailed(leaf.name, e))
       case RemoteTask(task) => task.text)
    case ContinueTask(_, _, _) => ""
  }

  /** Unless it waits or asks for authentication, the result is the reply of the node that made the
      last call, and that call was made after from. */
  ghost predicate Replies(w: World, node: AgentNode, path: seq<nat>, from: nat, trace: seq<Event>, result: NodeResult) {
    && (result.exitLoop ==> !result.waiting && !result.authRequired)
    && (!result.waiting && !result.authRequired ==>
      && from < |trace| && trace[|trace| - 1].Event? && path <= trace[|trace| - 1].path
      && var q := trace[|trace| - 1].path[|path|..];
        Reached(node, q) && result.response == ReplyText(w, LeafAt(node, q), trace, |trace| - 1))
  }

  /** Sequential and loop nodes with something to run, down to the leaves. */
  predicate Lively(node: AgentNode) {
    || node.IsLeaf()
    || ((node.kind == Sequential || (node.kind == Loop && node.maxIterations >= 0)) && node.agents != []
        && forall i :: 0 <= i < |node.agents| ==> Lively(node.agents[i]))
  }

  // ---------- leaves ----------

  /** The act's reply is what its last call's answer makes it. */
  ghost predicate ActReplies(w: World, leaf: AgentNode, hist: seq<Event>, path: seq<nat>, act: Act) {
    act.end.Reply? ==>
      && act.calls != [] && !act.end.result.waiting
      && (act.end.result.exitLoop ==> !act.end.result.authRequired)
      && var trace := hist + At(path, act.calls);
        act.end.result.authRequired || act.end.result.response == ReplyText(w, leaf, trace, |trace| - 1)
  }

  lemma DelegateReplies(w: World, leaf: AgentNode, hist: seq<Event>, path: seq<nat>, agent: string, name: string,
                        args: Args, text: string)
    ensures ActReplies(w, leaf, hist, path, Delegate(w, leaf, hist, [], agent, name, args, text, true))
  {
    OneCall(hist, path, SendTask(agent, text));
    assert [] + [SendTask(agent, text)] == [SendTask(agent, text)];
  }

  lemma AskedDelegateReplies(w: World, leaf: AgentNode, hist: seq<Event>, path: seq<nat>, ask: Call, agent: string,
                             name: string, args: Args, text: string)
    ensures ActReplies(w, leaf, hist, path,
                       Delegate(w, leaf, hist + [Event(path, ask)], [ask], agent, name, args, text, false))
  {
    TwoCalls(hist, path, ask, SendTask(agent, text));
    assert [ask] + [SendTask(agent, text)] == [ask, SendTask(agent, text)];
  }

  lemma UseToolReplies(w: World, leaf: AgentNode, hist: seq<Event>, path: seq<nat>, ask: Call, name: string,
                       args: Args, allow: bool)
    requires ask.AskModel? && w.llm(hist, ask) == LlmTool(name, args) && name != "exit_loop" && !HasPrefix(name, "a2a_")
    ensures ActReplies(w, leaf, hist, path,
                       LlmUseTool(w, leaf, path, hist + [Event(path, ask)], ask, name, args, allow))
  {
    OneCall(hist, path, ask);
    TwoCalls(hist, path, ask, RunTool(name, args));
  }

  lemma LeafActReplies(w: World, leaf: AgentNode, path: seq<nat>, hist: seq<Event>, prompt: string,
                       userMessage: string, allow: bool)
    requires leaf.IsLeaf()
    ensures ActReplies(w, leaf, hist, path, LeafAct(w, leaf, path, hist, prompt, userMessage, allow))
  {
    hide Delegate, LlmUseTool;
    if leaf.kind == A2A {
      var text := if leaf.prompt != "" then prompt else userMessage;
      DelegateReplies(w, leaf, hist, path, leaf.name, A2A_PREFIX + leaf.name, map["message" := Str(text)], text);
    } else {
      var ask := ModelCall(leaf, prompt, userMessage);
      var reply := w.llm(hist, ask);
      OneCall(hist, path, ask);
      if reply.LlmTool? && reply.name != EXIT_LOOP {
        if HasPrefix(reply.name, A2A_PREFIX) {
          var agent := TrimPrefix(reply.name, A2A_PREFIX);
          AskedDelegateReplies(w, leaf, hist, path, ask, agent, reply.name, reply.args, MessageArg(reply.args));
        } else {
          UseToolReplies(w, leaf, hist, path, ask, reply.name, reply.args, allow);
        }
      }
    }
  }

  lemma LeafReplies(w: World, leaf: AgentNode, c: Ctx, userMessage: string, path: seq<nat>, allow: bool)
    requires leaf.IsLeaf()
    ensures var (d, o) := ExecLeaf(w, leaf, c, userMessage, path, allow);
            o.Ok? ==> Replies(w, leaf, path, |c.trace|, d.trace, o.result)
  {
    hide LeafAct, ResolveTemplate, ReplyText;
    var prompt := ResolveTemplate(leaf.prompt, c.values);
    LeafActReplies(w, leaf, path, c.trace, prompt, userMessage, allow);
    assert path[|path|..] == [];
  }

  // ---------- trees ----------

  lemma ChildReplies(w: World, node: AgentNode, path: seq<nat>, from: nat, later: nat, trace: seq<Event>,
                     result: NodeResult, i: nat)
    requires !node.IsLeaf() && i < |node.agents| && from <= later
    requires Replies(w, node.agents[i], path + [i], later, trace, result)
    ensures Replies(w, node, path, from, trace, result)
  {
    hide ReplyText;
    if !result.waiting && !result.authRequired {
      var p := trace[|trace| - 1].path;
      assert p[..|path| + 1] == path + [i];
      assert p[|path|] == i && p[|path|..][1..] == p[|path + [i]|..];
      assert p[..|path|] == path;
    }
  }

  /** The run began at from and has a result so far, if it has run anything. */
  ghost predicate SoFar(w: World, node: AgentNode, path: seq<nat>, from: nat, c: Ctx, last: Option<NodeResult>) {
    from <= |c.trace| && (last.Some? ==> Replies(w, node, path, from, c.trace, last.value))
  }

  /** A fresh run of a tree without parallel nodes answers with the reply to the last call it made. */
  lemma {:induction false} NodeReplies(w: World, node: AgentNode, c: Ctx, userMessage: string, path: seq<nat>,
                                       allow: bool)
    requires Lively(node)
    ensures var (d, o) := ExecNode(w, node, c, userMessage, None, path, allow);
            |c.trace| <= |d.trace| && (o.Ok? ==> Replies(w, node, path, |c.trace|, d.trace, o.result))
    decreases node, 3
  {
    hide Replies, Perform, LeafAct;
    match node.kind
    case Sequential => SeqReplies(w, node, c, userMessage, path, allow, 0, None, |c.trace|);
    case Loop => LoopReplies(w, node, c, userMessage, path, MaxIterations(node), None, |c.trace|);
    case Parallel =>
    case _ =>
      LeafReplies(w, node, c, userMessage, path, allow);
      LeafGrows(w, node, c, userMessage, path, allow);
  }

  lemma LeafGrows(w: World, leaf: AgentNode, c: Ctx, userMessage: string, path: seq<nat>, allow: bool)
    ensures |c.trace| <= |ExecLeaf(w, leaf, c, userMessage, path, allow).0.trace|
  {
    hide LeafAct, ResolveTemplate;
  }

  lemma {:induction false} SeqReplies(w: World, node: AgentNode, c: Ctx, userMessage: string, path: seq<nat>,
                                      allow: bool, i: nat, last: Option<NodeResult>, from: nat)
    requires Lively(node) && node.kind == Sequential && i <= |node.agents|
    requires SoFar(w, node, path, from, c, last) && (i > 0 ==> last.Some?)
    ensures var (d, o) := SeqFrom(w, node, c, userMessage, path, allow, i, last);
            |c.trace| <= |d.trace| && (o.Ok? ==> Replies(w, node, path, from, d.trace, o.result))
    decreases node, 1, |node.agents| - i
  {
    hide Replies;
    if i < |node.agents| {
      var (c1, o) := ExecNode(w, node.agents[i], c, userMessage, None, path + [i], allow);
      NodeReplies(w, node.agents[i], c, userMessage, path + [i], allow);
      if o.Ok? {
        ChildReplies(w, node, path, from, |c.trace|, c1.trace, o.result, i);
        if !o.Stops() {
          SeqReplies(w, node, c1, userMessage, path, allow, i + 1, Some(o.result), from);
        }
      }
    }
  }

  lemma {:induction false} LoopReplies(w: World, node: AgentNode, c: Ctx, userMessage: string, path: seq<nat>,
                                       rounds: nat, last: Option<NodeResult>, from: nat)
    requires Lively(node) && node.kind == Loop && (rounds == 0 ==> last.Some?)
    requires SoFar(w, node, path, from, c, last)
    ensures var (d, o) := ExecLoop(w, node, c, userMessage, path, rounds, last);
            |c.trace| <= |d.trace| && (o.Ok? ==> Replies(w, node, path, from, d.trace, o.result))
    decreases node, 2, rounds
  {
    hide Replies;
    if rounds > 0 {
      RoundReplies(w, node, c, userMessage, path, 0, last, from);
      var (c1, round) := LoopRound(w, node, c, userMessage, path, 0, last);
      if round.Done? {
        LoopReplies(w, node, c1, userMessage, path, rounds - 1, round.last, from);
      }
    }
  }

  lemma {:induction false} RoundReplies(w: World, node: AgentNode, c: Ctx, userMessage: string, path: seq<nat>, i: nat,
                                        last: Option<NodeResult>, from: nat)
    requires Lively(node) && node.kind == Loop && i <= |node.agents|
    requires SoFar(w, node, path, from, c, last) && (i > 0 ==> last.Some?)
    ensures var (d, round) := LoopRound(w, node, c, userMessage, path, i, last);
            && |c.trace| <= |d.trace|
            && (round.Done? ==> round.last.Some? && SoFar(w, node, path, from, d, round.last))
            && (round.Exit? && round.outcome.Ok? ==> Replies(w, node, path, from, d.trace, round.outcome.result))
    decreases node, 1, |node.agents| - i
  {
    hide Replies;
    if i < |node.agents| {
      var (c1, o) := ExecNode(w, node.agents[i], c, userMessage, None, path + [i], true);
      NodeReplies(w, node.agents[i], c, userMessage, path + [i], true);
      if o.Ok? {
        ChildReplies(w, node, path, from, |c.trace|, c1.trace, o.result, i);
        if o.result.exitLoop {
          ExitsPlainly(w, node, path, from, c1.trace, o.result);
          PlainReplies(w, node, path, from, c1.trace, o.result);
        } else {
          RoundReplies(w, node, c1, userMessage, path, i + 1, Some(o.result), from);
        }
      }
    }
  }

  lemma ExitsPlainly(w: World, node: AgentNode, path: seq<nat>, from: nat, trace: seq<Event>, result: NodeResult)
    requires Replies(w, node, path, from, trace, result) && result.exitLoop
    ensures !result.waiting && !result.authRequired
  {
    hide ReplyText;
  }

  lemma PlainReplies(w: World, node: AgentNode, path: seq<nat>, from: nat, trace: seq<Event>, result: NodeResult)
    requires Replies(w, node, path, from, trace, result) && !result.waiting && !result.authRequired
    ensures Replies(w, node, path, from, trace, Plain(result.response))
  {
    hide ReplyText;
  }
}
