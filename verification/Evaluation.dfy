/** Trees that run unattended, as a function of the session state alone. With a world that has no
    memory and remote agents that never ask, this is what the engine computes. */
module Evaluation {
  import opened Prelude
  import opened World
  import opened Orchestrator
  import opened PauseResume

  /** No oracle looks at the history. */
  ghost predicate Memoryless(w: World) {
    && (forall h, call :: w.llm(h, call) == w.llm([], call))
    && (forall h, name, args :: w.runTool(h, name, args) == w.runTool([], name, args))
    && (forall h, agent, text :: w.send(h, agent, text) == w.send([], agent, text))
  }

  /** The session state left, the calls made in whatever order, and how it ends. */
  datatype Res = Res(values: map<string, string>, calls: multiset<Event>, outcome: Outcome)
  {
    function Before(r: Res): Res {
      r.(calls := calls + r.calls)
    }
  }

  function Put(values: map<string, string>, key: string, value: string): map<string, string> {
    if key != "" then values[key := value] else values
  }

  function LeafActOf(w: World, node: AgentNode, path: seq<nat>, prompt: string, userMessage: string): Act {
    LeafAct(w, node, path, [], prompt, userMessage, true)
  }

  /** A pause cannot happen here: nothing is gated and no remote agent asks. */
  function ActOutcome(act: Act): Outcome {
    match act.end
    case Reply(result) => Ok(result)
    case Abort(error) => Failed(error)
    case Pause(_, _, _, _, _) => Panicked
  }

  function ActValues(node: AgentNode, act: Act, values: map<string, string>): map<string, string> {
    if act.end.Reply? && act.out.Some? then Put(values, node.outputKey, act.out.value) else values
  }

  function EvalPrompt(w: World, node: AgentNode, path: seq<nat>, userMessage: string, prompt: string,
                      values: map<string, string>): Res {
    var act := LeafActOf(w, node, path, prompt, userMessage);
    Res(ActValues(node, act, values), multiset(At(path, act.calls)), ActOutcome(act))
  }

  function EvalNode(w: World, node: AgentNode, path: seq<nat>, userMessage: string, values: map<string, string>): Res
    decreases node, 3
  {
    match node.kind
    case Sequential => EvalSeq(w, node, path, userMessage, values, 0, None)
    case Parallel => EvalPar(w, node, path, userMessage, values, 0, [])
    case Loop => EvalLoop(w, node, path, userMessage, values, MaxIterations(node), None)
    case _ => EvalPrompt(w, node, path, userMessage, ResolveTemplate(node.prompt, values), values)
  }

  function EvalSeq(w: World, node: AgentNode, path: seq<nat>, userMessage: string, values: map<string, string>,
                   i: nat, last: Option<NodeResult>): Res
    requires i <= |node.agents|
    decreases node, 1, |node.agents| - i
  {
    if i == |node.agents| then Res(values, multiset{}, LastOr(last))
    else
      var r := EvalNode(w, node.agents[i], path + [i], userMessage, values);
      if r.outcome.Stops() then r
      else r.Before(EvalSeq(w, node, path, userMessage, r.values, i + 1, Some(r.outcome.result)))
  }

  function EvalPar(w: World, node: AgentNode, path: seq<nat>, userMessage: string, values: map<string, string>,
                   i: nat, responses: seq<string>): Res
    requires i <= |node.agents|
    decreases node, 1, |node.agents| - i
  {
    if i == |node.agents| then Res(values, multiset{}, Ok(Plain(Join(NonEmpty(responses), "\n"))))
    else
      var r := EvalNode(w, node.agents[i], path + [i], userMessage, values);
      if !r.outcome.Ok? then r
      else r.Before(EvalPar(w, node, path, userMessage, r.values, i + 1, responses + [r.outcome.result.response]))
  }

  function EvalLoop(w: World, node: AgentNode, path: seq<nat>, userMessage: string, values: map<string, string>,
                    rounds: nat, last: Option<NodeResult>): Res
    decreases node, 2, rounds, 0
  {
    if rounds == 0 then Res(values, multiset{}, LastOr(last))
    else EvalRound(w, node, path, userMessage, values, rounds, 0, last)
  }

  /** The rest of a round, from child i, and the rounds after it. */
  function EvalRound(w: World, node: AgentNode, path: seq<nat>, userMessage: string, values: map<string, string>,
                     rounds: nat, i: nat, last: Option<NodeResult>): Res
    requires i <= |node.agents| && rounds > 0
    decreases node, 2, rounds - 1, 1, |node.agents| - i
  {
    if i == |node.agents| then EvalLoop(w, node, path, userMessage, values, rounds - 1, last)
    else
      var r := EvalNode(w, node.agents[i], path + [i], userMessage, values);
      if !r.outcome.Ok? then r
      else if r.outcome.result.exitLoop then r.(outcome := Ok(Plain(r.outcome.result.response)))
      else r.Before(EvalRound(w, node, path, userMessage, r.values, rounds, i + 1, Some(r.outcome.result)))
  }

  // ---------- the engine computes it ----------

  ghost predicate Computes(c: Ctx, run: (Ctx, Outcome), r: Res) {
    && run.0.values == r.values && run.1 == r.outcome
    && multiset(run.0.trace) == multiset(c.trace) + r.calls
  }

  lemma ComputesThen(c: Ctx, c1: Ctx, run: (Ctx, Outcome), first: Res, r: Res)
    requires c1.values == first.values && multiset(c1.trace) == multiset(c.trace) + first.calls
    requires Computes(c1, run, r)
    ensures Computes(c, run, first.Before(r))
  {
  }

  lemma LeafActMemoryless(w: World, node: AgentNode, path: seq<nat>, hist: seq<Event>, prompt: string,
                          userMessage: string)
    requires Memoryless(w)
    ensures LeafAct(w, node, path, hist, prompt, userMessage, true) == LeafActOf(w, node, path, prompt, userMessage)
  {
  }

  lemma LeafComputes(w: World, node: AgentNode, c: Ctx, path: seq<nat>, userMessage: string)
    requires Memoryless(w) && NeverAsks(w) && node.IsLeaf()
    ensures Computes(c, ExecLeaf(w, node, c, userMessage, path, true), EvalNode(w, node, path, userMessage, c.values))
  {
    var prompt := ResolveTemplate(node.prompt, c.values);
    LeafActMemoryless(w, node, path, c.trace, prompt, userMessage);
    ActAgree(w, node, path, c.trace, prompt, userMessage, true);
  }

  lemma {:induction false} NodeComputes(w: World, node: AgentNode, c: Ctx, path: seq<nat>, userMessage: string)
    requires Memoryless(w) && NeverAsks(w)
    ensures Computes(c, ExecNode(w, node, c, userMessage, None, path, true),
                     EvalNode(w, node, path, userMessage, c.values))
    decreases node, 3
  {
    match node.kind
    case Sequential => SeqComputes(w, node, c, path, userMessage, 0, None);
    case Parallel => ParComputes(w, node, c, path, userMessage, 0, []);
    case Loop => LoopComputes(w, node, c, path, userMessage, MaxIterations(node), None);
    case _ => LeafComputes(w, node, c, path, userMessage);
  }

  lemma {:induction false} SeqComputes(w: World, node: AgentNode, c: Ctx, path: seq<nat>, userMessage: string, i: nat,
                      last: Option<NodeResult>)
    requires Memoryless(w) && NeverAsks(w) && i <= |node.agents|
    ensures Computes(c, SeqFrom(w, node, c, userMessage, path, true, i, last),
                     EvalSeq(w, node, path, userMessage, c.values, i, last))
    decreases node, 1, |node.agents| - i
  {
    if i < |node.agents| {
      NodeComputes(w, node.agents[i], c, path + [i], userMessage);
      var (c1, o) := ExecNode(w, node.agents[i], c, userMessage, None, path + [i], true);
      if !o.Stops() {
        SeqComputes(w, node, c1, path, userMessage, i + 1, Some(o.result));
        ComputesThen(c, c1, SeqFrom(w, node, c1, userMessage, path, true, i + 1, Some(o.result)),
                     EvalNode(w, node.agents[i], path + [i], userMessage, c.values),
                     EvalSeq(w, node, path, userMessage, c1.values, i + 1, Some(o.result)));
      }
    }
  }

  lemma {:induction false} ParComputes(w: World, node: AgentNode, c: Ctx, path: seq<nat>, userMessage: string, i: nat,
                      responses: seq<string>)
    requires Memoryless(w) && NeverAsks(w) && i <= |node.agents|
    ensures Computes(c, ExecParallel(w, node, c, userMessage, path, i, responses),
                     EvalPar(w, node, path, userMessage, c.values, i, responses))
    decreases node, 1, |node.agents| - i
  {
    if i < |node.agents| {
      NodeComputes(w, node.agents[i], c, path + [i], userMessage);
      var (c1, o) := ExecNode(w, node.agents[i], c, userMessage, None, path + [i], true);
      if o.Ok? {
        var rs := responses + [o.result.response];
        ParComputes(w, node, c1, path, userMessage, i + 1, rs);
        ComputesThen(c, c1, ExecParallel(w, node, c1, userMessage, path, i + 1, rs),
                     EvalNode(w, node.agents[i], path + [i], userMessage, c.values),
                     EvalPar(w, node, path, userMessage, c1.values, i + 1, rs));
      }
    }
  }

  lemma {:induction false} LoopComputes(w: World, node: AgentNode, c: Ctx, path: seq<nat>, userMessage: string,
                      rounds: nat, last: Option<NodeResult>)
    requires Memoryless(w) && NeverAsks(w)
    ensures Computes(c, ExecLoop(w, node, c, userMessage, path, rounds, last),
                     EvalLoop(w, node, path, userMessage, c.values, rounds, last))
    decreases node, 2, rounds, 0
  {
    if rounds > 0 {
      RoundComputes(w, node, c, path, userMessage, rounds, 0, last);
    }
  }

  lemma {:induction false} RoundComputes(w: World, node: AgentNode, c: Ctx, path: seq<nat>, userMessage: string,
                      rounds: nat, i: nat, last: Option<NodeResult>)
    requires Memoryless(w) && NeverAsks(w) && i <= |node.agents| && rounds > 0
    ensures Computes(c, LoopFrom(w, node, c, userMessage, path, rounds, i, last),
                     EvalRound(w, node, path, userMessage, c.values, rounds, i, last))
    decreases node, 2, rounds - 1, 1, |node.agents| - i
  {
    if i == |node.agents| {
      LoopComputes(w, node, c, path, userMessage, rounds - 1, last);
    } else {
      NodeComputes(w, node.agents[i], c, path + [i], userMessage);
      var (c1, o) := ExecNode(w, node.agents[i], c, userMessage, None, path + [i], true);
      if o.Ok? && !o.result.exitLoop {
        RoundComputes(w, node, c1, path, userMessage, rounds, i + 1, Some(o.result));
        ComputesThen(c, c1, LoopFrom(w, node, c1, userMessage, path, rounds, i + 1, Some(o.result)),
                     EvalNode(w, node.agents[i], path + [i], userMessage, c.values),
                     EvalRound(w, node, path, userMessage, c1.values, rounds, i + 1, Some(o.result)));
      }
    }
  }
}
