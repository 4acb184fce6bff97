/** Pausing for approval and resuming preserves meaning: stopping at each destructive call,
    approving it and rebuilding the run from the saved record ends exactly where the run that
    never asks ends. */
module PauseResume {
  import opened Prelude
  import opened Conversations
  import opened World
  import opened Orchestrator

  /** No remote agent ever answers with input-required. */
  ghost predicate NeverAsks(w: World) {
    && (forall h, a, t :: AnswersTask(w.send(h, a, t)))
    && (forall h, a, id, t :: AnswersTask(w.resumeTask(h, a, id, t)))
  }

  predicate AnswersTask(r: RemoteReply) {
    r.RemoteTask? ==> r.task.state != InputRequired
  }

  /** Equal where the outside can tell: the session state and the calls made so far. */
  predicate Same(c: Ctx, d: Ctx) {
    c.values == d.values && c.trace == d.trace
  }

  // ---------- a run that does not wait is the run that never asks ----------

  ghost predicate Agree(c: Ctx, r: (Ctx, Outcome), s: (Ctx, Outcome), allow: bool) {
    && (!r.1.Waits() ==> Same(r.0, s.0) && r.1 == s.1)
    && (allow ==> !r.1.Waits())
  }

  lemma ActAgree(w: World, node: AgentNode, path: seq<nat>, hist: seq<Event>, prompt: string, userMessage: string,
                 allow: bool)
    requires NeverAsks(w) && node.IsLeaf()
    ensures var act := LeafAct(w, node, path, hist, prompt, userMessage, allow);
            && (!act.end.Pause? ==> act == LeafAct(w, node, path, hist, prompt, userMessage, true))
            && (allow ==> !act.end.Pause?)
            && (act.end.Reply? ==> !act.end.result.waiting)
  {
    assert forall h, a, t :: AnswersTask(w.send(h, a, t));
  }

  lemma LeafAgree(w: World, node: AgentNode, c: Ctx, d: Ctx, userMessage: string, path: seq<nat>, allow: bool)
    requires NeverAsks(w) && node.IsLeaf() && Same(c, d)
    ensures Agree(c, ExecLeaf(w, node, c, userMessage, path, allow), ExecLeaf(w, node, d, userMessage, path, true),
                  allow)
  {
    ActAgree(w, node, path, c.trace, ResolveTemplate(node.prompt, c.values), userMessage, allow);
  }

  lemma {:induction false} NodeAgree(w: World, node: AgentNode, c: Ctx, d: Ctx, userMessage: string,
                      resume: Option<Resume>, path: seq<nat>, allow: bool)
    requires NeverAsks(w) && Same(c, d)
    ensures Agree(c, ExecNode(w, node, c, userMessage, resume, path, allow),
                  ExecNode(w, node, d, userMessage, resume, path, true), allow)
    decreases node, 3
  {
    match node.kind
    case Sequential => SequentialAgree(w, node, c, d, userMessage, resume, path, allow);
    case Parallel => ParallelAgree(w, node, c, d, userMessage, path, 0, []);
    case Loop => LoopAgree(w, node, c, d, userMessage, path, MaxIterations(node), None);
    case _ => LeafAgree(w, node, c, d, userMessage, path, allow);
  }

  lemma {:induction false} SequentialAgree(w: World, node: AgentNode, c: Ctx, d: Ctx, userMessage: string,
                      resume: Option<Resume>, path: seq<nat>, allow: bool)
    requires NeverAsks(w) && Same(c, d)
    ensures Agree(c, ExecSequential(w, node, c, userMessage, resume, path, allow),
                  ExecSequential(w, node, d, userMessage, resume, path, true), allow)
    decreases node, 2
  {
    if resume.Some? && resume.value.path != [] {
      var i := resume.value.path[0];
      if i < |node.agents| {
        var r := Some(resume.value.(path := resume.value.path[1..]));
        NodeAgree(w, node.agents[i], c, d, userMessage, r, path + [i], allow);
        var (c1, o) := ExecNode(w, node.agents[i], c, userMessage, r, path + [i], allow);
        var (d1, p) := ExecNode(w, node.agents[i], d, userMessage, r, path + [i], true);
        if !o.Stops() {
          SeqAgree(w, node, c1, d1, userMessage, path, allow, i + 1, None);
        }
      }
    } else {
      SeqAgree(w, node, c, d, userMessage, path, allow, 0, None);
    }
  }

  lemma {:induction false} SeqAgree(w: World, node: AgentNode, c: Ctx, d: Ctx, userMessage: string, path: seq<nat>,
                      allow: bool, i: nat, last: Option<NodeResult>)
    requires NeverAsks(w) && Same(c, d) && i <= |node.agents|
    requires last.Some? ==> !last.value.waiting
    ensures Agree(c, SeqFrom(w, node, c, userMessage, path, allow, i, last),
                  SeqFrom(w, node, d, userMessage, path, true, i, last), allow)
    decreases node, 1, |node.agents| - i
  {
    if i < |node.agents| {
      NodeAgree(w, node.agents[i], c, d, userMessage, None, path + [i], allow);
      var (c1, o) := ExecNode(w, node.agents[i], c, userMessage, None, path + [i], allow);
      var (d1, p) := ExecNode(w, node.agents[i], d, userMessage, None, path + [i], true);
      if !o.Stops() {
        SeqAgree(w, node, c1, d1, userMessage, path, allow, i + 1, Some(o.result));
      }
    }
  }

  lemma {:induction false} ParallelAgree(w: World, node: AgentNode, c: Ctx, d: Ctx, userMessage: string,
                      path: seq<nat>, i: nat, responses: seq<string>)
    requires NeverAsks(w) && Same(c, d) && i <= |node.agents|
    ensures Agree(c, ExecParallel(w, node, c, userMessage, path, i, responses),
                  ExecParallel(w, node, d, userMessage, path, i, responses), true)
    decreases node, 1, |node.agents| - i
  {
    if i < |node.agents| {
      NodeAgree(w, node.agents[i], c, d, userMessage, None, path + [i], true);
      var (c1, o) := ExecNode(w, node.agents[i], c, userMessage, None, path + [i], true);
      var (d1, p) := ExecNode(w, node.agents[i], d, userMessage, None, path + [i], true);
      if o.Ok? {
        ParallelAgree(w, node, c1, d1, userMessage, path, i + 1, responses + [o.result.response]);
      }
    }
  }

  lemma {:induction false} LoopAgree(w: World, node: AgentNode, c: Ctx, d: Ctx, userMessage: string, path: seq<nat>,
                      rounds: nat, last: Option<NodeResult>)
    requires NeverAsks(w) && Same(c, d)
    requires last.Some? ==> !last.value.waiting
    ensures Agree(c, ExecLoop(w, node, c, userMessage, path, rounds, last),
                  ExecLoop(w, node, d, userMessage, path, rounds, last), true)
    decreases node, 2, rounds
  {
    if rounds > 0 {
      RoundAgree(w, node, c, d, userMessage, path, 0, last);
      var (c1, r) := LoopRound(w, node, c, userMessage, path, 0, last);
      var (d1, s) := LoopRound(w, node, d, userMessage, path, 0, last);
      if r.Done? {
        LoopAgree(w, node, c1, d1, userMessage, path, rounds - 1, r.last);
      }
    }
  }

  lemma {:induction false} RoundAgree(w: World, node: AgentNode, c: Ctx, d: Ctx, userMessage: string, path: seq<nat>,
                      i: nat, last: Option<NodeResult>)
    requires NeverAsks(w) && Same(c, d) && i <= |node.agents|
    requires last.Some? ==> !last.value.waiting
    ensures var (c1, r) := LoopRound(w, node, c, userMessage, path, i, last);
            var (d1, s) := LoopRound(w, node, d, userMessage, path, i, last);
            && Same(c1, d1) && r == s
            && (r.Done? && r.last.Some? ==> !r.last.value.waiting)
            && (r.Exit? ==> !r.outcome.Waits())
    decreases node, 1, |node.agents| - i
  {
    if i < |node.agents| {
      NodeAgree(w, node.agents[i], c, d, userMessage, None, path + [i], true);
      var (c1, o) := ExecNode(w, node.agents[i], c, userMessage, None, path + [i], true);
      var (d1, p) := ExecNode(w, node.agents[i], d, userMessage, None, path + [i], true);
      if o.Ok? && !o.result.exitLoop {
        RoundAgree(w, node, c1, d1, userMessage, path, i + 1, Some(o.result));
      }
    }
  }

  // ---------- a run that waits, approved and resumed, is the run that never asks ----------

  /** The result text of the call an approval releases, when it has one. */
  function ApprovedResult(w: World, hist: seq<Event>, tool: string, args: Args): Option<string> {
    if HasPrefix(tool, A2A_PREFIX) then
      if TrimPrefix(tool, A2A_PREFIX) !in w.clients then None
      else match w.send(hist, TrimPrefix(tool, A2A_PREFIX), MessageArg(args))
      case RemoteError(_) => None
      case RemoteTask(task) => if task.state.AuthRequired? then None else Some(task.text)
    else
      match w.runTool(hist, tool, args)
      case ToolOk(text, _) => Some(text)
      case _ => None
  }

  /** q leads through sequential nodes only to a leaf. */
  predicate Spine(node: AgentNode, q: seq<nat>)
    decreases |q|
  {
    if q == [] then node.IsLeaf()
    else node.kind == Sequential && q[0] < |node.agents| && Spine(node.agents[q[0]], q[1..])
  }

  function SpineLeaf(node: AgentNode, q: seq<nat>): AgentNode
    requires Spine(node, q)
    decreases |q|
  {
    if q == [] then node else SpineLeaf(node.agents[q[0]], q[1..])
  }

  predicate TailPause(node: AgentNode, q: seq<nat>) {
    q != [] && node.kind == Sequential && q[0] == |node.agents| - 1
  }

  /** The record a pause leaves behind. */
  ghost predicate PausedAt(node: AgentNode, path: seq<nat>, userMessage: string, c: Ctx, q: seq<nat>) {
    && Spine(node, q)
    && c.conv.pending.Some? && c.conv.status == WaitingApproval && !c.conv.pending.value.IsProxy()
    && c.conv.pipeline == Some(Pipeline(path + q, SpineLeaf(node, q).outputKey, c.values, userMessage))
    && c.saved == c.conv
  }

  /** The context in which ResolveApproval resumes: the snapshot, after the approved call. */
  ghost predicate Released(w: World, path: seq<nat>, c: Ctx, q: seq<nat>, d: Ctx, text: string)
    requires c.conv.pending.Some?
  {
    var p := c.conv.pending.value;
    && d.values == c.values
    && d.trace == c.trace + [Event(path + q, ApprovedCall(p.toolName, p.toolArgs))]
    && ApprovedResult(w, c.trace, p.toolName, p.toolArgs) == Some(text)
  }

  /** resumed is free, except that a pause in a root's last child loses the response. */
  ghost predicate Matches(node: AgentNode, q: seq<nat>, free: (Ctx, Outcome), resumed: (Ctx, Outcome)) {
    && Same(free.0, resumed.0)
    && resumed.1 == (if TailPause(node, q) && !free.1.Stops() then Ok(Plain("")) else free.1)
  }

  lemma LeafSplit(w: World, node: AgentNode, c: Ctx, d: Ctx, userMessage: string, path: seq<nat>)
    returns (q: seq<nat>)
    requires NeverAsks(w) && node.IsLeaf() && Same(c, d)
    requires ExecLeaf(w, node, c, userMessage, path, false).1.Waits()
    ensures q == []
    ensures PausedAt(node, path, userMessage, ExecLeaf(w, node, c, userMessage, path, false).0, q)
    ensures forall e, text :: Released(w, path, ExecLeaf(w, node, c, userMessage, path, false).0, q, e, text) ==>
              Matches(node, q, ExecLeaf(w, node, d, userMessage, path, true),
                      ResumeLeaf(w, node, e, Resume(q, text, node.outputKey)))
  {
    q := [];
    assert path + q == path;
    var prompt := ResolveTemplate(node.prompt, c.values);
    ActAgree(w, node, path, c.trace, prompt, userMessage, false);
    ActAgree(w, node, path, c.trace, prompt, userMessage, true);
    var act := LeafAct(w, node, path, c.trace, prompt, userMessage, false);
    var c1 := ExecLeaf(w, node, c, userMessage, path, false).0;
    assert act.end.Pause?;
    assert c1.trace == c.trace + At(path, act.calls);
    var p := c1.conv.pending.value;
    forall e, text | Released(w, path, c1, q, e, text)
      ensures Matches(node, q, ExecLeaf(w, node, d, userMessage, path, true),
                      ResumeLeaf(w, node, e, Resume(q, text, node.outputKey)))
    {
      ActReleased(w, node, path, c.trace, prompt, userMessage, text);
      var full := LeafAct(w, node, path, c.trace, prompt, userMessage, true);
      assert At(path, full.calls) == At(path, act.calls) + [Event(path, ApprovedCall(p.toolName, p.toolArgs))];
      assert d.trace + At(path, full.calls) == e.trace;
    }
  }

  /** The gated act, once its call is released, is the act that was never gated. */
  lemma ActReleased(w: World, node: AgentNode, path: seq<nat>, hist: seq<Event>, prompt: string, userMessage: string,
                    text: string)
    requires NeverAsks(w) && node.IsLeaf()
    requires var act := LeafAct(w, node, path, hist, prompt, userMessage, false);
             act.end.Pause? && ApprovedResult(w, hist + At(path, act.calls), act.end.tool, act.end.args) == Some(text)
    ensures var act := LeafAct(w, node, path, hist, prompt, userMessage, false);
            var full := LeafAct(w, node, path, hist, prompt, userMessage, true);
            && full.calls == act.calls + [ApprovedCall(act.end.tool, act.end.args)]
            && full.out == Some(text) && full.end == Reply(Plain(text))
  {
    assert forall h, a, t :: AnswersTask(w.send(h, a, t));
    var act := LeafAct(w, node, path, hist, prompt, userMessage, false);
    if node.kind == A2A {
      assert hist + At(path, act.calls) == hist;
      assert TrimPrefix(A2A_PREFIX + node.name, A2A_PREFIX) == node.name;
    } else {
      assert hist + At(path, act.calls) == hist + [Event(path, ModelCall(node, prompt, userMessage))];
    }
  }

  ghost predicate SplitAt(w: World, node: AgentNode, userMessage: string, path: seq<nat>, paused: Ctx, q: seq<nat>,
                      free: (Ctx, Outcome)) {
    && PausedAt(node, path, userMessage, paused, q)
    && forall e, text :: Released(w, path, paused, q, e, text) ==>
         Matches(node, q, free,
                 ExecNode(w, node, e, userMessage, Some(Resume(q, text, SpineLeaf(node, q).outputKey)), path, true))
  }

  /** The free run of a sequential node from the point where its child k has ended. */
  function AfterChild(w: World, node: AgentNode, userMessage: string, path: seq<nat>, k: nat, child: (Ctx, Outcome),
                      keep: bool): (Ctx, Outcome)
    requires k < |node.agents|
  {
    if child.1.Stops() then child
    else SeqFrom(w, node, child.0, userMessage, path, true, k + 1, if keep then Some(child.1.result) else None)
  }

  lemma SplitLift(w: World, node: AgentNode, userMessage: string, path: seq<nat>, k: nat, paused: Ctx, q: seq<nat>,
                  child: (Ctx, Outcome), keep: bool)
    requires NeverAsks(w) && node.kind == Sequential && k < |node.agents|
    requires SplitAt(w, node.agents[k], userMessage, path + [k], paused, q, child)
    ensures SplitAt(w, node, userMessage, path, paused, [k] + q, AfterChild(w, node, userMessage, path, k, child, keep))
  {
    var q2 := [k] + q;
    assert q2[1..] == q;
    assert path + q2 == path + [k] + q;
    var key := SpineLeaf(node, q2).outputKey;
    var free := AfterChild(w, node, userMessage, path, k, child, keep);
    forall e, text | Released(w, path, paused, q2, e, text)
      ensures Matches(node, q2, free, ExecNode(w, node, e, userMessage, Some(Resume(q2, text, key)), path, true))
    {
      assert Released(w, path + [k], paused, q, e, text);
      var (e1, o) := ExecNode(w, node.agents[k], e, userMessage, Some(Resume(q, text, key)), path + [k], true);
      assert Matches(node.agents[k], q, child, (e1, o));
      if !o.Stops() {
        SeqAgree(w, node, child.0, e1, userMessage, path, true, k + 1, None);
        NodeAgree(w, node.agents[k], e, e, userMessage, Some(Resume(q, text, key)), path + [k], true);
      }
    }
  }

  /** Where a waiting run paused, for a run that starts at the top or from an earlier pause. */
  lemma {:induction false} NodeSplit(w: World, node: AgentNode, c: Ctx, d: Ctx, userMessage: string,
                      resume: Option<Resume>, path: seq<nat>)
    returns (q: seq<nat>)
    requires NeverAsks(w) && Same(c, d)
    requires ExecNode(w, node, c, userMessage, resume, path, false).1.Waits()
    ensures SplitAt(w, node, userMessage, path, ExecNode(w, node, c, userMessage, resume, path, false).0, q,
                    ExecNode(w, node, d, userMessage, resume, path, true))
    ensures resume.Some? && TailPause(node, resume.value.path) ==> TailPause(node, q)
    decreases node, 3
  {
    match node.kind
    case Sequential =>
      if resume.Some? && resume.value.path != [] {
        var k := resume.value.path[0];
        var r := Some(resume.value.(path := resume.value.path[1..]));
        var (c1, o) := ExecNode(w, node.agents[k], c, userMessage, r, path + [k], false);
        var child := ExecNode(w, node.agents[k], d, userMessage, r, path + [k], true);
        if o.Stops() {
          var q1 := NodeSplit(w, node.agents[k], c, d, userMessage, r, path + [k]);
          SplitLift(w, node, userMessage, path, k, c1, q1, child, false);
          q := [k] + q1;
        } else {
          NodeAgree(w, node.agents[k], c, d, userMessage, r, path + [k], false);
          q := SeqSplit(w, node, c1, child.0, userMessage, path, k + 1, None);
        }
      } else {
        q := SeqSplit(w, node, c, d, userMessage, path, 0, None);
      }
    case Parallel => ParallelAgree(w, node, c, d, userMessage, path, 0, []); assert false;
    case Loop => LoopAgree(w, node, c, d, userMessage, path, MaxIterations(node), None); assert false;
    case _ => q := LeafSplit(w, node, c, d, userMessage, path);
  }

  lemma {:induction false} SeqSplit(w: World, node: AgentNode, c: Ctx, d: Ctx, userMessage: string, path: seq<nat>,
                      i: nat, last: Option<NodeResult>)
    returns (q: seq<nat>)
    requires NeverAsks(w) && Same(c, d) && i <= |node.agents| && node.kind == Sequential
    requires last.Some? ==> !last.value.waiting
    requires SeqFrom(w, node, c, userMessage, path, false, i, last).1.Waits()
    ensures SplitAt(w, node, userMessage, path, SeqFrom(w, node, c, userMessage, path, false, i, last).0, q,
                    SeqFrom(w, node, d, userMessage, path, true, i, last))
    ensures q != [] && i <= q[0] < |node.agents|
    decreases node, 1, |node.agents| - i
  {
    var (c1, o) := ExecNode(w, node.agents[i], c, userMessage, None, path + [i], false);
    var child := ExecNode(w, node.agents[i], d, userMessage, None, path + [i], true);
    if o.Stops() {
      var q1 := NodeSplit(w, node.agents[i], c, d, userMessage, None, path + [i]);
      SplitLift(w, node, userMessage, path, i, c1, q1, child, true);
      q := [i] + q1;
    } else {
      NodeAgree(w, node.agents[i], c, d, userMessage, None, path + [i], false);
      q := SeqSplit(w, node, c1, child.0, userMessage, path, i + 1, Some(o.result));
    }
  }
}
