/** What every run of a tree keeps, whatever the model, the tools and the agents reply. */
module RunFacts {
  import opened Prelude
  import opened Conversations
  import opened World
  import opened Orchestrator

  function NodeAt(node: AgentNode, q: seq<nat>): Option<AgentNode>
    decreases |q|
  {
    if q == [] then Some(node)
    else if q[0] < |node.agents| then NodeAt(node.agents[q[0]], q[1..])
    else None
  }

  /** Some node strictly above position q is a parallel or loop node. */
  predicate UnderBlock(node: AgentNode, q: seq<nat>)
    decreases |q|
  {
    q != [] && (node.IsBlock() || (q[0] < |node.agents| && UnderBlock(node.agents[q[0]], q[1..])))
  }

  /** The configuration marks the tool or the remote agent destructive. */
  predicate Marked(w: World, call: Call) {
    match call
    case RunTool(name, _) => name in w.tools && w.tools[name].destructive
    case SendTask(agent, _) => agent in w.clients && w.clients[agent]
    case _ => false
  }

  /** An a2a node carries its own mark. */
  predicate Destructive(w: World, node: AgentNode, call: Call) {
    if node.kind == A2A && call.SendTask? then node.destructiveHint else Marked(w, call)
  }

  /** The event was made by a node of this tree, and is destructive only where that is allowed. */
  predicate Legit(w: World, node: AgentNode, path: seq<nat>, allow: bool, e: Event) {
    && e.Event? && path <= e.path
    && var q := e.path[|path|..];
      var at := NodeAt(node, q);
      at.Some? && (Destructive(w, at.value, e.call) ==> allow || UnderBlock(node, q))
  }

  /** The pending approval is the one of before, or one issued since. */
  predicate PendingFrom(old_: Option<Pending>, new_: Option<Pending>, lo: Id, hi: Id) {
    new_ == old_ || (new_.Some? && lo <= new_.value.uuid < hi)
  }

  predicate Keeps(w: World, node: AgentNode, path: seq<nat>, allow: bool, c: Ctx, c2: Ctx) {
    && c.trace <= c2.trace
    && (forall k :: |c.trace| <= k < |c2.trace| ==> Legit(w, node, path, allow, c2.trace[k]))
    && KeepsConv(c, c2)
  }

  predicate KeepsConv(c: Ctx, c2: Ctx) {
    && c.nextId <= c2.nextId
    && c2.conv.id == c.conv.id
    && PendingFrom(c.conv.pending, c2.conv.pending, c.nextId, c2.nextId)
    && (c.conv.StatusAgrees() ==> c2.conv.StatusAgrees())
    && (c2.saved == c.saved
        || (c2.saved.id == c.conv.id
            && PendingFrom(c.conv.pending, c2.saved.pending, c.nextId, c2.nextId)
            && (c.conv.StatusAgrees() ==> c2.saved.StatusAgrees())))
  }

  lemma KeepsTrans(w: World, node: AgentNode, path: seq<nat>, allow: bool, a: Ctx, b: Ctx, c: Ctx)
    requires Keeps(w, node, path, allow, a, b) && Keeps(w, node, path, allow, b, c)
    ensures Keeps(w, node, path, allow, a, c)
  {
    forall k | |a.trace| <= k < |c.trace|
      ensures Legit(w, node, path, allow, c.trace[k])
    {
      if k < |b.trace| {
        assert c.trace[k] == b.trace[k];
      }
    }
  }

  /** A child's run is a run of its parent, which allows more only through being a block. */
  lemma KeepsLift(w: World, node: AgentNode, path: seq<nat>, allow: bool, i: nat, childAllow: bool, a: Ctx, b: Ctx)
    requires i < |node.agents| && (childAllow ==> allow || node.IsBlock())
    requires Keeps(w, node.agents[i], path + [i], childAllow, a, b)
    ensures Keeps(w, node, path, allow, a, b)
  {
    forall k | |a.trace| <= k < |b.trace|
      ensures Legit(w, node, path, allow, b.trace[k])
    {
      var e := b.trace[k];
      assert Legit(w, node.agents[i], path + [i], childAllow, e);
      var q := e.path[|path|..];
      assert e.path[|path|] == (path + [i])[|path|] == i;
      assert q[1..] == e.path[|path + [i]|..];
    }
  }

  /** Without allowance a leaf makes no destructive call. */
  lemma ActGated(w: World, node: AgentNode, path: seq<nat>, hist: seq<Event>, prompt: string, userMessage: string,
                 allow: bool)
    requires node.IsLeaf()
    ensures forall call :: call in LeafAct(w, node, path, hist, prompt, userMessage, allow).calls ==>
              Destructive(w, node, call) ==> allow
  {
  }

  lemma PerformKeeps(w: World, node: AgentNode, c: Ctx, path: seq<nat>, userMessage: string, act: Act, allow: bool)
    requires forall call :: call in act.calls ==> Destructive(w, node, call) ==> allow
    ensures Keeps(w, node, path, allow, c, Perform(w, node, c, path, userMessage, act).0)
  {
    var c2 := Perform(w, node, c, path, userMessage, act).0;
    assert c2.trace == c.trace + At(path, act.calls);
    forall k | |c.trace| <= k < |c2.trace|
      ensures Legit(w, node, path, allow, c2.trace[k])
    {
      var e := c2.trace[k];
      assert e == Event(path, act.calls[k - |c.trace|]);
      assert e.path[|path|..] == [];
    }
  }

  lemma LeafKeeps(w: World, node: AgentNode, c: Ctx, userMessage: string, path: seq<nat>, allow: bool)
    requires node.IsLeaf()
    ensures Keeps(w, node, path, allow, c, ExecLeaf(w, node, c, userMessage, path, allow).0)
  {
    var prompt := ResolveTemplate(node.prompt, c.values);
    ActGated(w, node, path, c.trace, prompt, userMessage, allow);
    PerformKeeps(w, node, c, path, userMessage, LeafAct(w, node, path, c.trace, prompt, userMessage, allow), allow);
  }

  lemma {:induction false} NodeKeeps(w: World, node: AgentNode, c: Ctx, userMessage: string, resume: Option<Resume>,
                      path: seq<nat>, allow: bool)
    ensures Keeps(w, node, path, allow, c, ExecNode(w, node, c, userMessage, resume, path, allow).0)
    decreases node, 3
  {
    match node.kind
    case Sequential => SequentialKeeps(w, node, c, userMessage, resume, path, allow);
    case Parallel => ParallelKeeps(w, node, c, userMessage, path, allow, 0, []);
    case Loop => LoopKeeps(w, node, c, userMessage, path, allow, MaxIterations(node), None);
    case _ => LeafKeeps(w, node, c, userMessage, path, allow);
  }

  lemma {:induction false} SequentialKeeps(w: World, node: AgentNode, c: Ctx, userMessage: string,
                      resume: Option<Resume>, path: seq<nat>, allow: bool)
    ensures Keeps(w, node, path, allow, c, ExecSequential(w, node, c, userMessage, resume, path, allow).0)
    decreases node, 2
  {
    if resume.Some? && resume.value.path != [] {
      var i := resume.value.path[0];
      if i < |node.agents| {
        var r := Some(resume.value.(path := resume.value.path[1..]));
        var (c1, o) := ExecNode(w, node.agents[i], c, userMessage, r, path + [i], allow);
        NodeKeeps(w, node.agents[i], c, userMessage, r, path + [i], allow);
        KeepsLift(w, node, path, allow, i, allow, c, c1);
        if !o.Stops() {
          SeqKeeps(w, node, c1, userMessage, path, allow, i + 1, None);
          KeepsTrans(w, node, path, allow, c, c1, SeqFrom(w, node, c1, userMessage, path, allow, i + 1, None).0);
        }
      }
    } else {
      SeqKeeps(w, node, c, userMessage, path, allow, 0, None);
    }
  }

  lemma {:induction false} SeqKeeps(w: World, node: AgentNode, c: Ctx, userMessage: string, path: seq<nat>,
                      allow: bool, i: nat, last: Option<NodeResult>)
    requires i <= |node.agents|
    ensures Keeps(w, node, path, allow, c, SeqFrom(w, node, c, userMessage, path, allow, i, last).0)
    decreases node, 1, |node.agents| - i
  {
    if i < |node.agents| {
      var (c1, o) := ExecNode(w, node.agents[i], c, userMessage, None, path + [i], allow);
      NodeKeeps(w, node.agents[i], c, userMessage, None, path + [i], allow);
      KeepsLift(w, node, path, allow, i, allow, c, c1);
      if !o.Stops() {
        SeqKeeps(w, node, c1, userMessage, path, allow, i + 1, Some(o.result));
        KeepsTrans(w, node, path, allow, c, c1,
                   SeqFrom(w, node, c1, userMessage, path, allow, i + 1, Some(o.result)).0);
      }
    }
  }

  lemma {:induction false} ParallelKeeps(w: World, node: AgentNode, c: Ctx, userMessage: string, path: seq<nat>,
                      allow: bool, i: nat, responses: seq<string>)
    requires i <= |node.agents| && node.IsBlock()
    ensures Keeps(w, node, path, allow, c, ExecParallel(w, node, c, userMessage, path, i, responses).0)
    decreases node, 1, |node.agents| - i
  {
    if i < |node.agents| {
      var (c1, o) := ExecNode(w, node.agents[i], c, userMessage, None, path + [i], true);
      NodeKeeps(w, node.agents[i], c, userMessage, None, path + [i], true);
      KeepsLift(w, node, path, allow, i, true, c, c1);
      if o.Ok? {
        var rs := responses + [o.result.response];
        ParallelKeeps(w, node, c1, userMessage, path, allow, i + 1, rs);
        KeepsTrans(w, node, path, allow, c, c1, ExecParallel(w, node, c1, userMessage, path, i + 1, rs).0);
      }
    }
  }

  lemma {:induction false} LoopKeeps(w: World, node: AgentNode, c: Ctx, userMessage: string, path: seq<nat>,
                      allow: bool, rounds: nat, last: Option<NodeResult>)
    requires node.IsBlock()
    ensures Keeps(w, node, path, allow, c, ExecLoop(w, node, c, userMessage, path, rounds, last).0)
    decreases node, 2, rounds
  {
    if rounds > 0 {
      var (c1, round) := LoopRound(w, node, c, userMessage, path, 0, last);
      RoundKeeps(w, node, c, userMessage, path, allow, 0, last);
      if round.Done? {
        LoopKeeps(w, node, c1, userMessage, path, allow, rounds - 1, round.last);
        KeepsTrans(w, node, path, allow, c, c1, ExecLoop(w, node, c1, userMessage, path, rounds - 1, round.last).0);
      }
    }
  }

  lemma {:induction false} RoundKeeps(w: World, node: AgentNode, c: Ctx, userMessage: string, path: seq<nat>,
                      allow: bool, i: nat, last: Option<NodeResult>)
    requires i <= |node.agents| && node.IsBlock()
    ensures Keeps(w, node, path, allow, c, LoopRound(w, node, c, userMessage, path, i, last).0)
    decreases node, 1, |node.agents| - i
  {
    if i < |node.agents| {
      var (c1, o) := ExecNode(w, node.agents[i], c, userMessage, None, path + [i], true);
      NodeKeeps(w, node.agents[i], c, userMessage, None, path + [i], true);
      KeepsLift(w, node, path, allow, i, true, c, c1);
      if o.Ok? && !o.result.exitLoop {
        RoundKeeps(w, node, c1, userMessage, path, allow, i + 1, Some(o.result));
        KeepsTrans(w, node, path, allow, c, c1, LoopRound(w, node, c1, userMessage, path, i + 1, Some(o.result)).0);
      }
    }
  }
}
