/** How much work a tree may do, and where it may pause. */
module Budget {
  import opened Prelude
  import opened Conversations
  import opened World
  import opened Orchestrator
  import opened RunFacts
  import opened PauseResume
  import opened RunInduction

  // ---------- the bound ----------

  function Work(node: AgentNode): nat
    decreases node, 2
  {
    match node.kind
    case Sequential => WorkFrom(node, 0)
    case Parallel => WorkFrom(node, 0)
    case Loop => MaxIterations(node) * WorkFrom(node, 0)
    case _ => 1
  }

  function WorkFrom(node: AgentNode, i: nat): nat
    requires i <= |node.agents|
    decreases node, 1, |node.agents| - i
  {
    if i == |node.agents| then 0 else Work(node.agents[i]) + WorkFrom(node, i + 1)
  }

  /** The work that remains after the leaf at q. */
  function Left(node: AgentNode, q: seq<nat>): nat
    requires Spine(node, q)
    decreases |q|
  {
    if q == [] then 0 else Left(node.agents[q[0]], q[1..]) + WorkFrom(node, q[0] + 1)
  }

  /** What a run may still do: everything, or what comes after the paused leaf. */
  function Quota(node: AgentNode, resume: Option<Resume>): nat
    requires resume.Some? ==> Spine(node, resume.value.path)
  {
    if resume.Some? then Left(node, resume.value.path) else Work(node)
  }

  // ---------- counting ----------

  predicate IsModelCall(e: Event) {
    e.call.AskModel?
  }

  predicate IsExecution(e: Event) {
    e.call.RunTool? || e.call.SendTask?
  }

  function ModelCalls(t: seq<Event>): nat {
    if t == [] then 0 else ModelCalls(t[..|t| - 1]) + if IsModelCall(t[|t| - 1]) then 1 else 0
  }

  function Executions(t: seq<Event>): nat {
    if t == [] then 0 else Executions(t[..|t| - 1]) + if IsExecution(t[|t| - 1]) then 1 else 0
  }

  lemma CountSnoc(t: seq<Event>, e: Event)
    ensures ModelCalls(t + [e]) == ModelCalls(t) + (if IsModelCall(e) then 1 else 0)
    ensures Executions(t + [e]) == Executions(t) + (if IsExecution(e) then 1 else 0)
  {
    assert (t + [e])[..|t|] == t;
  }

  predicate Within(c: Ctx, c2: Ctx, models: nat, executions: nat) {
    ModelCalls(c2.trace) <= ModelCalls(c.trace) + models && Executions(c2.trace) <= Executions(c.trace) + executions
  }

  /** Tasks that ask for input can be found again. */
  ghost predicate TasksHaveIds(w: World) {
    forall h, a, t :: HasId(a, w.send(h, a, t))
  }

  predicate HasId(agent: string, r: RemoteReply) {
    r.RemoteTask? && r.task.state.InputRequired? ==> r.task.id != NO_ID && agent != ""
  }

  /** The executions an approval still owes: its own call, unless the remote agent has it. */
  function Owed(p: Pending): nat {
    if p.IsProxy() then 0 else 1
  }

  /** The run paused at leaf q, with the right record and within its quota. */
  ghost predicate FaithfulPause(node: AgentNode, path: seq<nat>, userMessage: string, c: Ctx, c2: Ctx, q: seq<nat>,
                                quota: nat) {
    && Spine(node, q)
    && c2.conv.pending.Some?
    && c2.conv.pipeline == Some(Pipeline(path + q, SpineLeaf(node, q).outputKey, c2.values, userMessage))
    && c2.saved == c2.conv
    && Left(node, q) + 1 <= quota
    && Within(c, c2, quota - Left(node, q), quota - Left(node, q) - Owed(c2.conv.pending.value))
  }

  predicate PauseAt(c: Ctx, path: seq<nat>, userMessage: string) {
    c.conv.pipeline.Some? && c.conv.pipeline.value.path == path && c.conv.pipeline.value.userMessage == userMessage
  }

  /** The run paused at q: faithfully, or below a parallel or loop node, which its path then tells. */
  ghost predicate PausedIn(node: AgentNode, path: seq<nat>, userMessage: string, c: Ctx, c2: Ctx, q: seq<nat>,
                           quota: nat) {
    && quota > 0
    && if Spine(node, q) then FaithfulPause(node, path, userMessage, c, c2, q, quota)
       else Reached(node, q) && UnderBlock(node, q) && PauseAt(c2, path + q, userMessage)
  }

  /** The run stays within its quota, never runs off its path, and waits only where its record says. */
  ghost predicate Budgeted(node: AgentNode, path: seq<nat>, userMessage: string, c: Ctx, r: (Ctx, Outcome),
                           quota: nat) {
    && Within(c, r.0, quota, quota)
    && r.1 != Panicked
    && (r.1.Waits() ==> exists q :: PausedIn(node, path, userMessage, c, r.0, q, quota))
  }

  /** Sequential nodes lead to a leaf exactly where no block lies above it. */
  lemma {:induction false} SpineIsOpen(node: AgentNode, q: seq<nat>)
    requires Spine(node, q)
    ensures !UnderBlock(node, q)
    decreases |q|
  {
    if q != [] {
      SpineIsOpen(node.agents[q[0]], q[1..]);
    }
  }

  lemma {:induction false} SpineIsReached(node: AgentNode, q: seq<nat>)
    requires Spine(node, q)
    ensures Reached(node, q)
    decreases |q|
  {
    if q != [] {
      SpineIsReached(node.agents[q[0]], q[1..]);
    }
  }

  // ---------- leaves ----------

  /** At most one model call, then at most one execution. */
  predicate Frugal(calls: seq<Call>) {
    || |calls| == 0 || |calls| == 1
    || (|calls| == 2 && calls[0].AskModel? && !calls[1].AskModel?)
  }

  predicate AsksOnly(calls: seq<Call>) {
    |calls| == 0 || (|calls| == 1 && calls[0].AskModel?)
  }

  lemma CountAt(t: seq<Event>, path: seq<nat>, calls: seq<Call>)
    requires Frugal(calls)
    ensures ModelCalls(t + At(path, calls)) <= ModelCalls(t) + 1
    ensures Executions(t + At(path, calls)) <= Executions(t) + 1
    ensures AsksOnly(calls) ==> Executions(t + At(path, calls)) == Executions(t)
  {
    if |calls| == 0 {
      assert t + At(path, calls) == t;
    } else if |calls| == 1 {
      CountSnoc(t, Event(path, calls[0]));
      assert t + At(path, calls) == t + [Event(path, calls[0])];
    } else {
      var e0, e1 := Event(path, calls[0]), Event(path, calls[1]);
      CountSnoc(t, e0);
      CountSnoc(t + [e0], e1);
      assert t + At(path, calls) == t + [e0] + [e1];
    }
  }

  /** What an act may cost: at most a model call and an execution, which a pause has yet to make
      unless the remote agent has it. */
  predicate Cheap(act: Act) {
    && Frugal(act.calls)
    && (act.end.Pause? ==> (act.end.remoteTaskId != NO_ID && act.end.remoteAgent != "") || AsksOnly(act.calls))
    && (act.end.Reply? ==> !act.end.result.waiting)
  }

  lemma DelegateCosts(w: World, node: AgentNode, hist: seq<Event>, before: seq<Call>, agent: string, name: string,
                      args: Args, text: string, log: bool)
    requires TasksHaveIds(w) && AsksOnly(before)
    ensures Cheap(Delegate(w, node, hist, before, agent, name, args, text, log))
  {
    assert HasId(agent, w.send(hist, agent, text));
  }

  lemma UseToolCosts(w: World, node: AgentNode, path: seq<nat>, hist: seq<Event>, ask: Call, name: string, args: Args,
                     allow: bool)
    requires ask.AskModel?
    ensures Cheap(LlmUseTool(w, node, path, hist, ask, name, args, allow))
  {
  }

  lemma LlmCosts(w: World, node: AgentNode, path: seq<nat>, hist: seq<Event>, prompt: string, userMessage: string,
                 allow: bool)
    requires TasksHaveIds(w)
    ensures Cheap(LlmAct(w, node, path, hist, prompt, userMessage, allow))
  {
    var ask := ModelCall(node, prompt, userMessage);
    var reply := w.llm(hist, ask);
    if reply.LlmTool? {
      var hist1 := hist + [Event(path, ask)];
      UseToolCosts(w, node, path, hist1, ask, reply.name, reply.args, allow);
      DelegateCosts(w, node, hist1, [ask], TrimPrefix(reply.name, A2A_PREFIX), reply.name, reply.args,
                    MessageArg(reply.args), false);
    }
    hide Delegate, LlmUseTool, TasksHaveIds;
  }

  lemma ActCosts(w: World, node: AgentNode, path: seq<nat>, hist: seq<Event>, prompt: string, userMessage: string,
                 allow: bool)
    requires TasksHaveIds(w) && node.IsLeaf()
    ensures Cheap(LeafAct(w, node, path, hist, prompt, userMessage, allow))
  {
    if node.kind == A2A {
      var text := if node.prompt != "" then prompt else userMessage;
      DelegateCosts(w, node, hist, [], node.name, A2A_PREFIX + node.name, map["message" := Str(text)], text, true);
    } else {
      LlmCosts(w, node, path, hist, prompt, userMessage, allow);
    }
    hide Delegate, LlmAct, TasksHaveIds;
  }

  lemma LeafBudget(w: World, node: AgentNode, c: Ctx, userMessage: string, path: seq<nat>, allow: bool)
    requires TasksHaveIds(w) && node.IsLeaf()
    ensures Budgeted(node, path, userMessage, c, ExecLeaf(w, node, c, userMessage, path, allow), 1)
  {
    var prompt := ResolveTemplate(node.prompt, c.values);
    ActCosts(w, node, path, c.trace, prompt, userMessage, allow);
    PerformBudget(w, node, c, userMessage, path, LeafAct(w, node, path, c.trace, prompt, userMessage, allow));
  }

  lemma PerformBudget(w: World, node: AgentNode, c: Ctx, userMessage: string, path: seq<nat>, act: Act)
    requires node.IsLeaf() && Cheap(act)
    ensures Budgeted(node, path, userMessage, c, Perform(w, node, c, path, userMessage, act), 1)
  {
    hide Frugal, AsksOnly, At, ModelCalls, Executions, PauseForApproval, PausedIn;
    var c1 := c.(trace := c.trace + At(path, act.calls)).Say(act.notes);
    CountAt(c.trace, path, act.calls);
    if act.end.Pause? {
      PauseBudget(w, node, c, c1, userMessage, path, act.end);
    }
  }

  lemma PauseBudget(w: World, node: AgentNode, c: Ctx, c1: Ctx, userMessage: string, path: seq<nat>, p: End)
    requires node.IsLeaf() && p.Pause? && Within(c, c1, 1, 1)
    requires (p.remoteTaskId != NO_ID && p.remoteAgent != "") || Within(c, c1, 1, 0)
    ensures Budgeted(node, path, userMessage, c, PauseForApproval(w, node, c1, path, userMessage, p), 1)
  {
    var c2 := PauseForApproval(w, node, c1, path, userMessage, p).0;
    assert path + [] == path;
    assert c2.trace == c1.trace;
    assert FaithfulPause(node, path, userMessage, c, c2, [], 1);
    assert PausedIn(node, path, userMessage, c, c2, [], 1);
  }

  // ---------- trees ----------

  lemma PausedLift(node: AgentNode, path: seq<nat>, userMessage: string, k: nat, c: Ctx, c2: Ctx, q: seq<nat>,
                   quota: nat)
    requires node.kind == Sequential && k < |node.agents|
    requires PausedIn(node.agents[k], path + [k], userMessage, c, c2, q, quota)
    ensures PausedIn(node, path, userMessage, c, c2, [k] + q, quota + WorkFrom(node, k + 1))
  {
    var q2 := [k] + q;
    assert q2[1..] == q;
    assert path + q2 == path + [k] + q;
  }

  lemma BudgetLift(node: AgentNode, path: seq<nat>, userMessage: string, k: nat, c: Ctx, r: (Ctx, Outcome), quota: nat)
    requires node.kind == Sequential && k < |node.agents|
    requires Budgeted(node.agents[k], path + [k], userMessage, c, r, quota)
    ensures Budgeted(node, path, userMessage, c, r, quota + WorkFrom(node, k + 1))
  {
    if r.1.Waits() {
      var q :| PausedIn(node.agents[k], path + [k], userMessage, c, r.0, q, quota);
      PausedLift(node, path, userMessage, k, c, r.0, q, quota);
    }
  }

  lemma BudgetThen(node: AgentNode, path: seq<nat>, userMessage: string, c: Ctx, c1: Ctx, r: (Ctx, Outcome), first: nat,
                   rest: nat)
    requires Within(c, c1, first, first)
    requires Budgeted(node, path, userMessage, c1, r, rest)
    ensures Budgeted(node, path, userMessage, c, r, first + rest)
  {
    if r.1.Waits() {
      var q :| PausedIn(node, path, userMessage, c1, r.0, q, rest);
      assert PausedIn(node, path, userMessage, c, r.0, q, first + rest);
    }
  }

  lemma {:induction false} NodeBudget(w: World, node: AgentNode, c: Ctx, userMessage: string, resume: Option<Resume>,
                                      path: seq<nat>, allow: bool)
    requires TasksHaveIds(w) && (resume.Some? ==> Spine(node, resume.value.path))
    ensures Budgeted(node, path, userMessage, c, ExecNode(w, node, c, userMessage, resume, path, allow),
                     Quota(node, resume))
    decreases node, 3
  {
    match node.kind
    case Sequential =>
      if resume.Some? {
        var k := resume.value.path[0];
        var r := Some(resume.value.(path := resume.value.path[1..]));
        var (c1, o) := ExecNode(w, node.agents[k], c, userMessage, r, path + [k], allow);
        NodeBudget(w, node.agents[k], c, userMessage, r, path + [k], allow);
        if o.Stops() {
          BudgetLift(node, path, userMessage, k, c, (c1, o), Quota(node.agents[k], r));
        } else {
          SeqBudget(w, node, c1, userMessage, path, allow, k + 1, None);
          BudgetThen(node, path, userMessage, c, c1, SeqFrom(w, node, c1, userMessage, path, allow, k + 1, None),
                     Quota(node.agents[k], r), WorkFrom(node, k + 1));
        }
      } else {
        SeqBudget(w, node, c, userMessage, path, allow, 0, None);
      }
    case Parallel => ParallelBudget(w, node, c, userMessage, path, 0, []);
    case Loop => LoopIsBudgeted(w, node, c, userMessage, path);
    case _ =>
      if !(resume.Some? && resume.value.path == []) {
        LeafBudget(w, node, c, userMessage, path, allow);
      }
  }

  lemma {:induction false} SeqBudget(w: World, node: AgentNode, c: Ctx, userMessage: string, path: seq<nat>,
                                     allow: bool, i: nat, last: Option<NodeResult>)
    requires TasksHaveIds(w) && i <= |node.agents| && node.kind == Sequential
    requires last.Some? ==> !last.value.waiting
    ensures Budgeted(node, path, userMessage, c, SeqFrom(w, node, c, userMessage, path, allow, i, last),
                     WorkFrom(node, i))
    decreases node, 1, |node.agents| - i
  {
    if i < |node.agents| {
      var (c1, o) := ExecNode(w, node.agents[i], c, userMessage, None, path + [i], allow);
      NodeBudget(w, node.agents[i], c, userMessage, None, path + [i], allow);
      if o.Stops() {
        BudgetLift(node, path, userMessage, i, c, (c1, o), Work(node.agents[i]));
      } else {
        SeqBudget(w, node, c1, userMessage, path, allow, i + 1, Some(o.result));
        BudgetThen(node, path, userMessage, c, c1,
                   SeqFrom(w, node, c1, userMessage, path, allow, i + 1, Some(o.result)),
                   Work(node.agents[i]), WorkFrom(node, i + 1));
      }
    }
  }

  lemma {:induction false} ParallelBudget(w: World, node: AgentNode, c: Ctx, userMessage: string, path: seq<nat>,
                                          i: nat, responses: seq<string>)
    requires TasksHaveIds(w) && i <= |node.agents|
    ensures Budgeted(node, path, userMessage, c, ExecParallel(w, node, c, userMessage, path, i, responses),
                     WorkFrom(node, i))
    decreases node, 1, |node.agents| - i
  {
    if i < |node.agents| {
      var (c1, o) := ExecNode(w, node.agents[i], c, userMessage, None, path + [i], true);
      NodeBudget(w, node.agents[i], c, userMessage, None, path + [i], true);
      if o.Ok? {
        ParallelBudget(w, node, c1, userMessage, path, i + 1, responses + [o.result.response]);
        BudgetThen(node, path, userMessage, c, c1,
                   ExecParallel(w, node, c1, userMessage, path, i + 1, responses + [o.result.response]),
                   Work(node.agents[i]), WorkFrom(node, i + 1));
      }
    }
  }

  function Times(rounds: nat, unit: nat): nat {
    if rounds == 0 then 0 else unit + Times(rounds - 1, unit)
  }

  lemma {:induction false} TimesIsProduct(rounds: nat, unit: nat)
    ensures Times(rounds, unit) == rounds * unit
  {
    if rounds > 0 {
      TimesIsProduct(rounds - 1, unit);
      assert rounds * unit == unit + (rounds - 1) * unit;
    }
  }

  /** The context records a pause below this block. */
  ghost predicate PausedBelow(node: AgentNode, path: seq<nat>, userMessage: string, c: Ctx) {
    && WorkFrom(node, 0) > 0
    && exists q ::
         !Spine(node, q) && Reached(node, q) && UnderBlock(node, q) && PauseAt(c, path + q, userMessage)
  }

  ghost predicate LastWaits(node: AgentNode, path: seq<nat>, userMessage: string, c: Ctx, last: Option<NodeResult>) {
    last.Some? && last.value.waiting ==> PausedBelow(node, path, userMessage, c)
  }

  lemma {:induction false} WorkContains(node: AgentNode, k: nat, i: nat)
    requires k <= i < |node.agents|
    ensures Work(node.agents[i]) <= WorkFrom(node, k)
    decreases i - k
  {
    if k < i {
      WorkContains(node, k + 1, i);
    }
  }

  lemma ChildPausesBelow(node: AgentNode, path: seq<nat>, userMessage: string, i: nat, c: Ctx, r: (Ctx, Outcome))
    requires node.kind == Loop && i < |node.agents|
    requires Budgeted(node.agents[i], path + [i], userMessage, c, r, Work(node.agents[i])) && r.1.Waits()
    ensures PausedBelow(node, path, userMessage, r.0)
  {
    var q :| PausedIn(node.agents[i], path + [i], userMessage, c, r.0, q, Work(node.agents[i]));
    WorkContains(node, 0, i);
    assert path + ([i] + q) == path + [i] + q;
    if Spine(node.agents[i], q) {
      SpineIsReached(node.agents[i], q);
    }
    assert ([i] + q)[1..] == q;
    assert !Spine(node, [i] + q) && Reached(node, [i] + q) && UnderBlock(node, [i] + q);
  }

  lemma LoopIsBudgeted(w: World, node: AgentNode, c: Ctx, userMessage: string, path: seq<nat>)
    requires TasksHaveIds(w) && node.kind == Loop
    ensures Budgeted(node, path, userMessage, c, ExecLoop(w, node, c, userMessage, path, MaxIterations(node), None),
                     Work(node))
    decreases node, 2, MaxIterations(node) + 1
  {
    var rounds := MaxIterations(node);
    LoopBudget(w, node, c, userMessage, path, rounds, None);
    TimesIsProduct(rounds, WorkFrom(node, 0));
    var (c2, o) := ExecLoop(w, node, c, userMessage, path, rounds, None);
    if o.Waits() {
      var q :| !Spine(node, q) && Reached(node, q) && UnderBlock(node, q) && PauseAt(c2, path + q, userMessage);
      assert Work(node) > 0;
      assert PausedIn(node, path, userMessage, c, c2, q, Work(node));
    }
  }

  lemma {:induction false} LoopBudget(w: World, node: AgentNode, c: Ctx, userMessage: string, path: seq<nat>,
                                      rounds: nat, last: Option<NodeResult>)
    requires TasksHaveIds(w) && node.kind == Loop && LastWaits(node, path, userMessage, c, last)
    ensures var (c2, o) := ExecLoop(w, node, c, userMessage, path, rounds, last);
            && Within(c, c2, Times(rounds, WorkFrom(node, 0)), Times(rounds, WorkFrom(node, 0)))
            && o != Panicked && (o.Waits() ==> PausedBelow(node, path, userMessage, c2))
    decreases node, 2, rounds
  {
    if rounds > 0 {
      RoundBudget(w, node, c, userMessage, path, 0, last);
      var (c1, round) := LoopRound(w, node, c, userMessage, path, 0, last);
      if round.Done? {
        LoopBudget(w, node, c1, userMessage, path, rounds - 1, round.last);
      }
    }
  }

  lemma {:induction false} RoundBudget(w: World, node: AgentNode, c: Ctx, userMessage: string, path: seq<nat>, i: nat,
                                       last: Option<NodeResult>)
    requires TasksHaveIds(w) && node.kind == Loop && i <= |node.agents| && LastWaits(node, path, userMessage, c, last)
    ensures var (c2, round) := LoopRound(w, node, c, userMessage, path, i, last);
            && Within(c, c2, WorkFrom(node, i), WorkFrom(node, i))
            && (round.Done? ==> LastWaits(node, path, userMessage, c2, round.last))
            && (round.Exit? ==> round.outcome != Panicked && !round.outcome.Waits())
    decreases node, 1, |node.agents| - i
  {
    if i < |node.agents| {
      var (c1, o) := ExecNode(w, node.agents[i], c, userMessage, None, path + [i], true);
      NodeBudget(w, node.agents[i], c, userMessage, None, path + [i], true);
      if o.Ok? && !o.result.exitLoop {
        if o.result.waiting {
          ChildPausesBelow(node, path, userMessage, i, c, (c1, o));
        }
        RoundBudget(w, node, c1, userMessage, path, i + 1, Some(o.result));
      }
    }
  }

  // ---------- trees without blocks ----------

  /** No parallel or loop node anywhere. */
  predicate BlockFree(node: AgentNode) {
    !node.IsBlock() && forall i :: 0 <= i < |node.agents| ==> BlockFree(node.agents[i])
  }

  /** There every position lies outside blocks, so every pause is faithful. */
  lemma {:induction false} BlockFreeIsOpen(node: AgentNode, q: seq<nat>)
    requires BlockFree(node)
    ensures !UnderBlock(node, q)
    decreases |q|
  {
    if q != [] && q[0] < |node.agents| {
      BlockFreeIsOpen(node.agents[q[0]], q[1..]);
    }
  }
}
