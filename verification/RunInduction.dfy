/** Properties of whole runs from properties of leaves: whatever every leaf of a tree keeps, and
    steps in a row keep, every run of the tree keeps. */
module RunInduction {
  import opened Prelude
  import opened World
  import opened Orchestrator
  import opened RunFacts
  import opened PauseResume

  /** q leads through sequential, parallel and loop nodes to a leaf: the positions a run executes. */
  predicate Reached(node: AgentNode, q: seq<nat>)
    decreases |q|
  {
    if q == [] then node.IsLeaf()
    else !node.IsLeaf() && q[0] < |node.agents| && Reached(node.agents[q[0]], q[1..])
  }

  function LeafAt(node: AgentNode, q: seq<nat>): AgentNode
    requires Reached(node, q)
    decreases |q|
  {
    if q == [] then node else LeafAt(node.agents[q[0]], q[1..])
  }

  /** Such a position lies outside blocks exactly when a resume can be led to it. */
  lemma {:induction false} ReachedIsOpenOrBelow(node: AgentNode, q: seq<nat>)
    requires Reached(node, q)
    ensures NodeAt(node, q) == Some(LeafAt(node, q)) && LeafAt(node, q).IsLeaf()
    ensures Spine(node, q) <==> !UnderBlock(node, q)
    ensures Spine(node, q) ==> SpineLeaf(node, q) == LeafAt(node, q)
    decreases |q|
  {
    if q != [] {
      ReachedIsOpenOrBelow(node.agents[q[0]], q[1..]);
    }
  }

  type Rel = (Ctx, Ctx) -> bool

  function ResumeKeys(resume: Option<Resume>): set<string> {
    if resume.Some? then {resume.value.outputKey} else {}
  }

  ghost predicate Composes(keeps: Rel) {
    && (forall c :: keeps(c, c))
    && (forall c, d, e :: keeps(c, d) && keeps(d, e) ==> keeps(c, e))
  }

  /** What a leaf's own run keeps, and a resume that stores its result under one of these keys. */
  ghost predicate LeafHolds(w: World, leaf: AgentNode, path: seq<nat>, userMessage: string, keys: set<string>,
                            keeps: Rel) {
    && (forall c, allow :: keeps(c, ExecLeaf(w, leaf, c, userMessage, path, allow).0))
    && (forall c, r: Resume :: r.outputKey in keys ==> keeps(c, ResumeLeaf(w, leaf, c, r).0))
  }

  ghost predicate LeavesHold(w: World, node: AgentNode, path: seq<nat>, userMessage: string, keys: set<string>,
                             keeps: Rel) {
    forall q :: Reached(node, q) ==> LeafHolds(w, LeafAt(node, q), path + q, userMessage, keys, keeps)
  }

  lemma ChildLeavesHold(w: World, node: AgentNode, path: seq<nat>, userMessage: string, keys: set<string>, keeps: Rel,
                        i: nat)
    requires LeavesHold(w, node, path, userMessage, keys, keeps) && !node.IsLeaf() && i < |node.agents|
    ensures LeavesHold(w, node.agents[i], path + [i], userMessage, keys, keeps)
  {
    forall q | Reached(node.agents[i], q)
      ensures LeafHolds(w, LeafAt(node.agents[i], q), path + [i] + q, userMessage, keys, keeps)
    {
      var q2 := [i] + q;
      assert q2[1..] == q && path + q2 == path + [i] + q;
      assert Reached(node, q2) && LeafAt(node, q2) == LeafAt(node.agents[i], q);
    }
  }

  lemma {:induction false} NodeInduct(w: World, node: AgentNode, c: Ctx, userMessage: string, resume: Option<Resume>,
                                      path: seq<nat>, allow: bool, keys: set<string>, keeps: Rel)
    requires Composes(keeps) && LeavesHold(w, node, path, userMessage, keys, keeps)
    requires resume.Some? ==> resume.value.outputKey in keys
    ensures keeps(c, ExecNode(w, node, c, userMessage, resume, path, allow).0)
    decreases node, 3
  {
    match node.kind
    case Sequential =>
      if resume.Some? && resume.value.path != [] {
        ResumedInduct(w, node, c, userMessage, resume.value, path, allow, keys, keeps);
      } else {
        SeqInduct(w, node, c, userMessage, path, allow, 0, None, keys, keeps);
      }
    case Parallel => ParallelInduct(w, node, c, userMessage, path, 0, [], keys, keeps);
    case Loop => LoopInduct(w, node, c, userMessage, path, MaxIterations(node), None, keys, keeps);
    case _ =>
      assert Reached(node, []) && path + [] == path;
      assert LeafHolds(w, LeafAt(node, []), path + [], userMessage, keys, keeps);
  }

  lemma {:induction false} ResumedInduct(w: World, node: AgentNode, c: Ctx, userMessage: string, resume: Resume,
                                         path: seq<nat>, allow: bool, keys: set<string>, keeps: Rel)
    requires Composes(keeps) && LeavesHold(w, node, path, userMessage, keys, keeps)
    requires node.kind == Sequential && resume.path != [] && resume.outputKey in keys
    ensures keeps(c, ExecSequential(w, node, c, userMessage, Some(resume), path, allow).0)
    decreases node, 2
  {
    var i := resume.path[0];
    if i < |node.agents| {
      var r := Some(resume.(path := resume.path[1..]));
      var (c1, o) := ExecNode(w, node.agents[i], c, userMessage, r, path + [i], allow);
      ChildLeavesHold(w, node, path, userMessage, keys, keeps, i);
      NodeInduct(w, node.agents[i], c, userMessage, r, path + [i], allow, keys, keeps);
      if !o.Stops() {
        SeqInduct(w, node, c1, userMessage, path, allow, i + 1, None, keys, keeps);
      }
    }
  }

  lemma {:induction false} SeqInduct(w: World, node: AgentNode, c: Ctx, userMessage: string, path: seq<nat>,
                                     allow: bool, i: nat, last: Option<NodeResult>, keys: set<string>, keeps: Rel)
    requires Composes(keeps) && LeavesHold(w, node, path, userMessage, keys, keeps)
    requires node.kind == Sequential && i <= |node.agents|
    ensures keeps(c, SeqFrom(w, node, c, userMessage, path, allow, i, last).0)
    decreases node, 1, |node.agents| - i
  {
    if i < |node.agents| {
      var (c1, o) := ExecNode(w, node.agents[i], c, userMessage, None, path + [i], allow);
      ChildLeavesHold(w, node, path, userMessage, keys, keeps, i);
      NodeInduct(w, node.agents[i], c, userMessage, None, path + [i], allow, keys, keeps);
      if !o.Stops() {
        SeqInduct(w, node, c1, userMessage, path, allow, i + 1, Some(o.result), keys, keeps);
      }
    }
  }

  lemma {:induction false} ParallelInduct(w: World, node: AgentNode, c: Ctx, userMessage: string, path: seq<nat>,
                                          i: nat, responses: seq<string>, keys: set<string>, keeps: Rel)
    requires Composes(keeps) && LeavesHold(w, node, path, userMessage, keys, keeps)
    requires node.kind == Parallel && i <= |node.agents|
    ensures keeps(c, ExecParallel(w, node, c, userMessage, path, i, responses).0)
    decreases node, 1, |node.agents| - i
  {
    if i < |node.agents| {
      var (c1, o) := ExecNode(w, node.agents[i], c, userMessage, None, path + [i], true);
      ChildLeavesHold(w, node, path, userMessage, keys, keeps, i);
      NodeInduct(w, node.agents[i], c, userMessage, None, path + [i], true, keys, keeps);
      if o.Ok? {
        ParallelInduct(w, node, c1, userMessage, path, i + 1, responses + [o.result.response], keys, keeps);
      }
    }
  }

  lemma {:induction false} LoopInduct(w: World, node: AgentNode, c: Ctx, userMessage: string, path: seq<nat>,
                                      rounds: nat, last: Option<NodeResult>, keys: set<string>, keeps: Rel)
    requires Composes(keeps) && LeavesHold(w, node, path, userMessage, keys, keeps) && node.kind == Loop
    ensures keeps(c, ExecLoop(w, node, c, userMessage, path, rounds, last).0)
    decreases node, 2, rounds
  {
    if rounds > 0 {
      RoundInduct(w, node, c, userMessage, path, 0, last, keys, keeps);
      var (c1, round) := LoopRound(w, node, c, userMessage, path, 0, last);
      if round.Done? {
        LoopInduct(w, node, c1, userMessage, path, rounds - 1, round.last, keys, keeps);
      }
    }
  }

  lemma {:induction false} RoundInduct(w: World, node: AgentNode, c: Ctx, userMessage: string, path: seq<nat>,
                                       i: nat, last: Option<NodeResult>, keys: set<string>, keeps: Rel)
    requires Composes(keeps) && LeavesHold(w, node, path, userMessage, keys, keeps)
    requires node.kind == Loop && i <= |node.agents|
    ensures keeps(c, LoopRound(w, node, c, userMessage, path, i, last).0)
    decreases node, 1, |node.agents| - i
  {
    if i < |node.agents| {
      var (c1, o) := ExecNode(w, node.agents[i], c, userMessage, None, path + [i], true);
      ChildLeavesHold(w, node, path, userMessage, keys, keeps, i);
      NodeInduct(w, node.agents[i], c, userMessage, None, path + [i], true, keys, keeps);
      if o.Ok? && !o.result.exitLoop {
        RoundInduct(w, node, c1, userMessage, path, i + 1, Some(o.result), keys, keeps);
      }
    }
  }
}
