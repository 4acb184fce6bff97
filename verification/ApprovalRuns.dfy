/** Whole approval runs: a message to an orchestrated agent, then every approval granted. */
module ApprovalRuns {
  import opened Prelude
  import opened Conversations
  import opened World
  import opened Orchestrator
  import opened RunFacts
  import opened PauseResume
  import opened Budget
  import opened Api
  import opened ApiFacts
  import opened Records

  /** released: every approved call so far returned a result. lastPause: where the run last stopped. */
  datatype Driven = Driven(c: Ctx, reply: Reply, released: bool, lastPause: Option<seq<nat>>)
  {
    predicate Waits() {
      reply.Replied? && reply.result.waiting && c.conv.pending.Some? && c.conv.pipeline.Some?
    }
  }

  function Send(w: World, cfg: Config, c: Ctx, text: string): Driven {
    var (c1, reply) := ProcessMessage(w, cfg, c, text);
    Driven(c1, reply, true, None)
  }

  /** Grants the pending approval of the stored conversation. */
  function Grant(w: World, cfg: Config, d: Driven): Driven
    requires d.Waits()
  {
    var p, pl := d.c.conv.pending.value, d.c.conv.pipeline.value;
    var (c1, reply) := ResolveApproval(w, cfg, d.c, true);
    Driven(c1, reply, d.released && ApprovedResult(w, d.c.trace, p.toolName, p.toolArgs).Some?, Some(pl.path))
  }

  function GrantAll(w: World, cfg: Config, d: Driven, n: nat): Driven
    decreases n
  {
    if n == 0 || !d.Waits() then d else GrantAll(w, cfg, Grant(w, cfg, d), n - 1)
  }

  /** The run in which nothing asks for approval. */
  function Direct(w: World, root: AgentNode, c: Ctx, text: string): (Ctx, Outcome) {
    ExecNode(w, root, c.(values := map[]), text, None, [], true)
  }

  /** The answer of a granted run: after a pause in the root's last child its text is lost, and a
      pipeline error is worded as a message only when it comes before the first pause. */
  function AnswerFor(w: World, root: AgentNode, direct: Outcome, lastPause: Option<seq<nat>>): Reply {
    if lastPause.None? && direct.Failed? then Replied(Plain(w.render(PipelineError(direct.error))))
    else if lastPause.Some? && TailPause(root, lastPause.value) && !direct.Stops() then Replied(Plain(""))
    else FromOutcome(direct)
  }

  /** d waits where the direct run goes on from. */
  ghost predicate Tracks(w: World, root: AgentNode, text: string, d: Driven, q: seq<nat>, direct: (Ctx, Outcome)) {
    d.Waits() && SplitAt(w, root, text, [], d.c, q, direct)
  }

  ghost predicate Ended(w: World, root: AgentNode, d: Driven, direct: (Ctx, Outcome)) {
    Same(d.c, direct.0) && d.reply == AnswerFor(w, root, direct.1, d.lastPause)
  }

  lemma SplitShift(w: World, root: AgentNode, text: string, q: seq<nat>, paused: Ctx, q2: seq<nat>,
                   direct: (Ctx, Outcome), resumed: (Ctx, Outcome))
    requires Matches(root, q, direct, resumed)
    requires SplitAt(w, root, text, [], paused, q2, resumed)
    requires TailPause(root, q) ==> TailPause(root, q2)
    ensures SplitAt(w, root, text, [], paused, q2, direct)
  {
  }

  /** The conversation and history once the approved call has been made and recorded. */
  function AfterCall(w: World, c: Ctx, p: Pending, pl: Pipeline): Ctx
    requires ApprovedResult(w, c.trace, p.toolName, p.toolArgs).Some?
  {
    var text := ApprovedResult(w, c.trace, p.toolName, p.toolArgs).value;
    var isError :=
      if HasPrefix(p.toolName, A2A_PREFIX)
      then w.send(c.trace, TrimPrefix(p.toolName, A2A_PREFIX), MessageArg(p.toolArgs)).task.state.TaskFailed?
      else w.runTool(c.trace, p.toolName, p.toolArgs).isError;
    LogAt(Cleared(c).Say([Text(RoleUser, APPROVED_TEXT)]), Some(pl), ApprovedCall(p.toolName, p.toolArgs))
      .Say([ResultRecord(p.toolName, text, isError)])
  }

  lemma GrantResumes(w: World, cfg: Config, c: Ctx)
    requires c.conv.pending.Some? && c.conv.pipeline.Some? && !c.conv.pending.value.IsProxy()
    requires var p := c.conv.pending.value; ApprovedResult(w, c.trace, p.toolName, p.toolArgs).Some?
    ensures var p, pl := c.conv.pending.value, c.conv.pipeline.value;
            ResolveApproval(w, cfg, c, true)
            == ResumePipeline(w, cfg, AfterCall(w, c, p, pl), pl,
                              ApprovedResult(w, c.trace, p.toolName, p.toolArgs).value, false)
  {
    var p, pl := c.conv.pending.value, c.conv.pipeline.value;
    var c2 := Cleared(c).Say([Text(RoleUser, APPROVED_TEXT)]);
    assert ResolveApproval(w, cfg, c, true) == ApproveLocal(w, cfg, c2, p, Some(pl));
    assert c2.trace == c.trace;
  }

  lemma GrantTracks(w: World, cfg: Config, text: string, d: Driven, q: seq<nat>, direct: (Ctx, Outcome))
    returns (q2: seq<nat>)
    requires NeverAsks(w) && cfg.root.Some?
    requires Tracks(w, cfg.root.value, text, d, q, direct) && Grant(w, cfg, d).released
    ensures var d2 := Grant(w, cfg, d);
            if d2.reply.Replied? && d2.reply.result.waiting then Tracks(w, cfg.root.value, text, d2, q2, direct)
            else Ended(w, cfg.root.value, d2, direct)
  {
    var root := cfg.root.value;
    var p, pl := d.c.conv.pending.value, d.c.conv.pipeline.value;
    assert [] + q == q;
    var result := ApprovedResult(w, d.c.trace, p.toolName, p.toolArgs).value;
    var c3 := AfterCall(w, d.c, p, pl);
    GrantResumes(w, cfg, d.c);
    var e := c3.(values := pl.session);
    var r := Some(Resume(q, result, pl.outputKey));
    assert Released(w, [], d.c, q, e, result);
    var resumed := ExecNode(w, root, e, text, r, [], true);
    assert Matches(root, q, direct, resumed);
    var (e1, o) := ExecNode(w, root, e, text, r, [], false);
    NodeAgree(w, root, e, e, text, r, [], false);
    q2 := [];
    if o.Waits() {
      q2 := NodeSplit(w, root, e, e, text, r, []);
      SplitShift(w, root, text, q, e1, q2, direct, resumed);
    }
  }

  lemma {:induction false} GrantAllEnds(w: World, cfg: Config, text: string, d: Driven, q: seq<nat>,
                      direct: (Ctx, Outcome), n: nat)
    requires NeverAsks(w) && cfg.root.Some?
    requires Tracks(w, cfg.root.value, text, d, q, direct)
    requires GrantAll(w, cfg, d, n).released
    ensures var end := GrantAll(w, cfg, d, n);
            end.Waits() || Ended(w, cfg.root.value, end, direct)
    decreases n
  {
    if n > 0 {
      ReleasedSoFar(w, cfg, Grant(w, cfg, d), n - 1);
      var q2 := GrantTracks(w, cfg, text, d, q, direct);
      var d2 := Grant(w, cfg, d);
      if d2.Waits() {
        GrantAllEnds(w, cfg, text, d2, q2, direct, n - 1);
      }
    }
  }

  lemma {:induction false} ReleasedSoFar(w: World, cfg: Config, d: Driven, n: nat)
    requires GrantAll(w, cfg, d, n).released
    ensures d.released
    decreases n
  {
    if n > 0 && d.Waits() {
      ReleasedSoFar(w, cfg, Grant(w, cfg, d), n - 1);
    }
  }

  // ---------- work and paths over whole runs ----------

  /** r is what the tree gives when it runs on from c3 with this result, or an end without it: if
      that waits again, the pipeline is lost. */
  ghost predicate RunsOn(w: World, cfg: Config, pl: Pipeline, r: (Ctx, Reply), resumed: bool, c3: Ctx, result: string,
                         viaProxy: bool) {
    if resumed then r == ResumePipeline(w, cfg, c3, pl, result, viaProxy)
    else
      && r.0.trace == c3.trace && !r.1.Crashed?
      && (r.1.Replied? && r.1.result.waiting ==> r.0.conv.pipeline.None?)
  }

  /** At most the granted call, and the call if the tree runs on. */
  predicate Opened(c: Ctx, c3: Ctx, resumed: bool) {
    c.trace <= c3.trace && |c3.trace| <= |c.trace| + 1 && (resumed ==> |c3.trace| == |c.trace| + 1)
  }

  lemma ProxyOpens(w: World, cfg: Config, c: Ctx, p: Pending, pl: Pipeline)
    returns (resumed: bool, c3: Ctx, result: string)
    requires c.conv.pipeline.None?
    ensures Within(c, c3, 0, 0) && Opened(c, c3, resumed)
    ensures RunsOn(w, cfg, pl, ApproveProxy(w, cfg, c, p, Some(pl)), resumed, c3, result, true)
  {
    resumed, c3, result := false, c, "";
    if p.remoteAgent in w.clients {
      var call := ContinueTask(p.remoteAgent, p.remoteTaskId, ANSWER_APPROVED);
      CountSnoc(c.trace, Event(pl.path, call));
      c3 := LogAt(c, Some(pl), call);
      var reply := w.resumeTask(c.trace, p.remoteAgent, p.remoteTaskId, ANSWER_APPROVED);
      if reply.RemoteTask? && !reply.task.state.AuthRequired? && !reply.task.state.InputRequired? {
        resumed, result := true, reply.task.text;
        c3 := c3.Say([ResultRecord(p.toolName, result, reply.task.state.TaskFailed?)]);
      }
    }
  }

  lemma LocalOpens(w: World, cfg: Config, c: Ctx, p: Pending, pl: Pipeline)
    returns (resumed: bool, c3: Ctx, result: string)
    ensures Within(c, c3, 0, 1) && Opened(c, c3, resumed)
    ensures RunsOn(w, cfg, pl, ApproveLocal(w, cfg, c, p, Some(pl)), resumed, c3, result, false)
  {
    resumed, c3, result := false, c, "";
    var call := ApprovedCall(p.toolName, p.toolArgs);
    CountSnoc(c.trace, Event(pl.path, call));
    if HasPrefix(p.toolName, A2A_PREFIX) {
      var agent := TrimPrefix(p.toolName, A2A_PREFIX);
      if agent in w.clients {
        c3 := LogAt(c, Some(pl), call);
        var reply := w.send(c.trace, agent, MessageArg(p.toolArgs));
        if reply.RemoteTask? {
          resumed, result := true, reply.task.text;
          c3 := c3.Say([ResultRecord(p.toolName, result, reply.task.state.TaskFailed?)]);
        }
      }
    } else {
      c3 := LogAt(c, Some(pl), call);
      var reply := w.runTool(c.trace, p.toolName, p.toolArgs);
      if reply.ToolOk? {
        resumed, result := true, reply.text;
        c3 := c3.Say([ResultRecord(p.toolName, result, reply.isError)]);
      }
    }
  }

  /** What granting does before the tree runs on: c3 is the context it runs on from, if it does. */
  lemma GrantOpens(w: World, cfg: Config, c: Ctx)
    returns (resumed: bool, c3: Ctx, result: string, viaProxy: bool)
    requires c.conv.pending.Some? && c.conv.pipeline.Some?
    ensures Within(c, c3, 0, Owed(c.conv.pending.value)) && Opened(c, c3, resumed)
    ensures RunsOn(w, cfg, c.conv.pipeline.value, ResolveApproval(w, cfg, c, true), resumed, c3, result, viaProxy)
  {
    var p, pl := c.conv.pending.value, c.conv.pipeline.value;
    var c2 := Cleared(c).Say([Text(RoleUser, APPROVED_TEXT)]);
    viaProxy := p.IsProxy();
    if viaProxy {
      resumed, c3, result := ProxyOpens(w, cfg, c2, p, pl);
    } else {
      resumed, c3, result := LocalOpens(w, cfg, c2, p, pl);
    }
  }

  /** d waits at q, and has spent no more than the leaves up to there allow. */
  ghost predicate Spending(root: AgentNode, text: string, c0: Ctx, d: Driven, q: seq<nat>) {
    d.Waits() && PausedIn(root, [], text, c0, d.c, q, Work(root)) && Within(c0, d.c, Work(root), Work(root))
  }

  ghost predicate Spent(root: AgentNode, c0: Ctx, d: Driven) {
    Within(c0, d.c, Work(root), Work(root)) && !d.reply.Crashed? && !d.Waits()
  }

  /** The pauses still to come, this one included, at most; below a block only this one is counted. */
  function Due(root: AgentNode, q: seq<nat>): nat {
    if Spine(root, q) then Left(root, q) + 1 else 1
  }

  /** The run after a grant, counted from the message. */
  lemma ResumedSpends(root: AgentNode, text: string, c0: Ctx, c: Ctx, q: seq<nat>, start: Ctx, r: (Ctx, Outcome))
    returns (q2: seq<nat>)
    requires FaithfulPause(root, [], text, c0, c, q, Work(root)) && Within(c, start, 0, Owed(c.conv.pending.value))
    requires Budgeted(root, [], text, start, r, Left(root, q))
    ensures Within(c0, r.0, Work(root), Work(root)) && r.1 != Panicked
    ensures r.1.Waits() ==> PausedIn(root, [], text, c0, r.0, q2, Work(root)) && Due(root, q2) < Due(root, q)
  {
    q2 := [];
    if r.1.Waits() {
      q2 :| PausedIn(root, [], text, start, r.0, q2, Left(root, q));
    }
  }

  /** A pause that lies outside blocks is faithful. */
  lemma OpenPauseIsFaithful(root: AgentNode, text: string, c0: Ctx, c: Ctx, q: seq<nat>, quota: nat)
    requires PausedIn(root, [], text, c0, c, q, quota)
    ensures c.conv.pipeline.Some? && c.conv.pipeline.value.path == q
    ensures !UnderBlock(root, q) <==> Spine(root, q)
    ensures Spine(root, q) ==> FaithfulPause(root, [], text, c0, c, q, quota)
  {
    assert [] + q == q;
    if Spine(root, q) {
      SpineIsOpen(root, q);
    }
  }

  lemma DueWithin(root: AgentNode, text: string, c0: Ctx, d: Driven, q: seq<nat>)
    requires Spending(root, text, c0, d, q)
    ensures Due(root, q) <= Work(root)
  {
    hide Within, UnderBlock, Work, Left;
  }

  lemma DueSome(root: AgentNode, q: seq<nat>)
    ensures Due(root, q) > 0
  {
  }

  lemma GrantSpends(w: World, cfg: Config, text: string, c0: Ctx, d: Driven, q: seq<nat>)
    returns (q2: seq<nat>)
    requires TasksHaveIds(w) && cfg.root.Some?
    requires Spending(cfg.root.value, text, c0, d, q) && !UnderBlock(cfg.root.value, d.c.conv.pipeline.value.path)
    ensures var d2 := Grant(w, cfg, d);
            || Spent(cfg.root.value, c0, d2)
            || (Spending(cfg.root.value, text, c0, d2, q2) && Due(cfg.root.value, q2) < Due(cfg.root.value, q))
  {
    var root := cfg.root.value;
    var pl := d.c.conv.pipeline.value;
    OpenPauseIsFaithful(root, text, c0, d.c, q, Work(root));
    var resumed, c3, result, viaProxy := GrantOpens(w, cfg, d.c);
    q2 := [];
    if resumed {
      var loaded := c3.(values := pl.session);
      var start := if viaProxy then loaded.Set(pl.outputKey, result) else loaded;
      var r := Some(Resume(q, result, pl.outputKey));
      var run := ExecNode(w, root, start, text, r, [], false);
      NodeBudget(w, root, start, text, r, [], false);
      hide ResolveApproval, Budgeted, Within, PausedIn;
      q2 := ResumedSpends(root, text, c0, d.c, q, start, run);
    }
  }

  /** None of the next n grants answers a pause below a parallel or loop node. */
  predicate GrantsOpen(w: World, cfg: Config, d: Driven, n: nat)
    requires cfg.root.Some?
    decreases n
  {
    n == 0 || !d.Waits()
    || (!UnderBlock(cfg.root.value, d.c.conv.pipeline.value.path) && GrantsOpen(w, cfg, Grant(w, cfg, d), n - 1))
  }

  lemma {:induction false} GrantAllSpends(w: World, cfg: Config, text: string, c0: Ctx, d: Driven, q: seq<nat>, n: nat)
    requires TasksHaveIds(w) && cfg.root.Some? && GrantsOpen(w, cfg, d, n)
    requires Spending(cfg.root.value, text, c0, d, q)
    ensures var end := GrantAll(w, cfg, d, n);
            || Spent(cfg.root.value, c0, end)
            || exists q2 ::
                 Spending(cfg.root.value, text, c0, end, q2) && n + Due(cfg.root.value, q2) <= Due(cfg.root.value, q)
    decreases n
  {
    if n > 0 {
      var q2 := GrantSpends(w, cfg, text, c0, d, q);
      if Grant(w, cfg, d).Waits() {
        GrantAllSpends(w, cfg, text, c0, Grant(w, cfg, d), q2, n - 1);
      }
    }
  }

  /** The run a message starts. */
  lemma SendSpends(w: World, cfg: Config, c: Ctx, text: string)
    returns (q: seq<nat>)
    requires TasksHaveIds(w) && !cfg.IsSimple() && c.conv.status != WaitingApproval
    ensures var d := Send(w, cfg, c, text);
            if d.Waits() then Spending(cfg.root.value, text, c, d, q) else Spent(cfg.root.value, c, d)
  {
    var root := cfg.root.value;
    var start := c.Say([Text(RoleUser, text)]).(values := map[]);
    var (c1, o) := ExecNode(w, root, start, text, None, [], false);
    NodeBudget(w, root, start, text, None, [], false);
    var d := Send(w, cfg, c, text);
    q := [];
    hide ExecNode, Work, Spine, UnderBlock, Left;
    if d.Waits() {
      assert o.Waits();
      q :| PausedIn(root, [], text, start, c1, q, Work(root));
      assert PausedIn(root, [], text, c, d.c, q, Work(root));
    }
  }

  /** From the message on, as long as the granted pauses lie outside parallel and loop nodes, the tree
      makes at most Work(root) model calls and as many executions, whatever its remote agents ask for,
      never runs off its path, and has had every approval it will ask for after Work(root) of them.
      Each pause, granted or not, is faithful or tells by its path that it lies below such a node. */
  lemma WorkBoundedAcrossPauses(w: World, cfg: Config, c: Ctx, text: string, n: nat)
    requires TasksHaveIds(w) && !cfg.IsSimple() && c.conv.status != WaitingApproval
    requires GrantsOpen(w, cfg, Send(w, cfg, c, text), n)
    ensures var root, end := cfg.root.value, GrantAll(w, cfg, Send(w, cfg, c, text), n);
            && Within(c, end.c, Work(root), Work(root)) && !end.reply.Crashed?
            && (end.Waits() ==> exists q :: PausedIn(root, [], text, c, end.c, q, Work(root)))
            && (end.Waits() ==> n < Work(root))
  {
    hide Send, Within, PausedIn, Due, Grant, GrantsOpen, Work;
    var root, d := cfg.root.value, Send(w, cfg, c, text);
    var q := SendSpends(w, cfg, c, text);
    if d.Waits() {
      DueWithin(root, text, c, d, q);
      GrantAllSpends(w, cfg, text, c, d, q, n);
      var end := GrantAll(w, cfg, d, n);
      if !Spent(root, c, end) {
        var q2 :| Spending(root, text, c, end, q2) && n + Due(root, q2) <= Due(root, q);
        DueSome(root, q2);
      }
    } else {
      assert GrantAll(w, cfg, d, n) == d;
    }
  }

  lemma {:induction false} GrantAllSaved(w: World, cfg: Config, d: Driven, n: nat)
    requires d.reply.Replied? ==> d.c.saved == d.c.conv
    ensures GrantAll(w, cfg, d, n).reply.Replied? ==> GrantAll(w, cfg, d, n).c.saved == GrantAll(w, cfg, d, n).c.conv
    decreases n
  {
    if n > 0 && d.Waits() {
      ResolveApprovalResolves(w, cfg, d.c, true);
      GrantAllSaved(w, cfg, Grant(w, cfg, d), n - 1);
    }
  }

  /** These runs stop at a forgotten pipeline, which a grant leaves exactly when it grants a proxy
      whose remote agent asks again. */
  lemma GrantsStopExactly(w: World, cfg: Config, c: Ctx, text: string, n: nat)
    requires !cfg.IsSimple() && c.conv.status != WaitingApproval && GrantAll(w, cfg, Send(w, cfg, c, text), n).Waits()
    ensures var d := GrantAll(w, cfg, Send(w, cfg, c, text), n);
            Lost(Grant(w, cfg, d).c.conv) <==> AsksAgain(w, d.c)
  {
    GrantAllSaved(w, cfg, Send(w, cfg, c, text), n);
    PipelineLostExactly(w, cfg, GrantAll(w, cfg, Send(w, cfg, c, text), n).c);
  }

  lemma {:induction false} BlockFreeGrantsOpen(w: World, cfg: Config, d: Driven, n: nat)
    requires cfg.root.Some? && BlockFree(cfg.root.value)
    ensures GrantsOpen(w, cfg, d, n)
    decreases n
  {
    hide Grant, UnderBlock, BlockFree;
    if n > 0 && d.Waits() {
      BlockFreeIsOpen(cfg.root.value, d.c.conv.pipeline.value.path);
      BlockFreeGrantsOpen(w, cfg, Grant(w, cfg, d), n - 1);
    }
  }

  /** A tree without parallel and loop nodes meets these bounds with every pause faithful. */
  lemma BlockFreeWorkBounded(w: World, cfg: Config, c: Ctx, text: string, n: nat)
    requires TasksHaveIds(w) && !cfg.IsSimple() && c.conv.status != WaitingApproval
    requires BlockFree(cfg.root.value)
    ensures var root, end := cfg.root.value, GrantAll(w, cfg, Send(w, cfg, c, text), n);
            && Within(c, end.c, Work(root), Work(root)) && !end.reply.Crashed?
            && (end.Waits() ==> exists q :: FaithfulPause(root, [], text, c, end.c, q, Work(root)))
            && (end.Waits() ==> n < Work(root))
  {
    var root, end := cfg.root.value, GrantAll(w, cfg, Send(w, cfg, c, text), n);
    BlockFreeGrantsOpen(w, cfg, Send(w, cfg, c, text), n);
    WorkBoundedAcrossPauses(w, cfg, c, text, n);
    if end.Waits() {
      var q :| PausedIn(root, [], text, c, end.c, q, Work(root));
      BlockFreeIsOpen(root, q);
      OpenPauseIsFaithful(root, text, c, end.c, q, Work(root));
    }
  }

  /** The pauses of a run that tracks the direct one lie outside blocks. */
  lemma {:induction false} TracksGrantsOpen(w: World, cfg: Config, text: string, d: Driven, q: seq<nat>,
                                            direct: (Ctx, Outcome), n: nat)
    requires NeverAsks(w) && cfg.root.Some?
    requires Tracks(w, cfg.root.value, text, d, q, direct)
    requires GrantAll(w, cfg, d, n).released
    ensures GrantsOpen(w, cfg, d, n)
    decreases n
  {
    hide Grant, UnderBlock;
    if n > 0 {
      assert [] + q == q;
      SpineIsOpen(cfg.root.value, q);
      ReleasedSoFar(w, cfg, Grant(w, cfg, d), n - 1);
      var q2 := GrantTracks(w, cfg, text, d, q, direct);
      if Grant(w, cfg, d).Waits() {
        TracksGrantsOpen(w, cfg, text, Grant(w, cfg, d), q2, direct, n - 1);
      }
    }
  }

  /** Granting every approval gives the session state, the calls in their order and the answer
      of the run that never asks; Work(root) grants are enough. */
  lemma PauseResumePreservesMeaning(w: World, cfg: Config, c: Ctx, text: string, n: nat)
    requires NeverAsks(w) && !cfg.IsSimple() && c.conv.status != WaitingApproval
    requires GrantAll(w, cfg, Send(w, cfg, c, text), n).released
    ensures var end := GrantAll(w, cfg, Send(w, cfg, c, text), n);
            && (n >= Work(cfg.root.value) ==> !end.Waits())
            && (!end.Waits() ==> Ended(w, cfg.root.value, end, Direct(w, cfg.root.value, c, text)))
  {
    var root := cfg.root.value;
    var start := c.Say([Text(RoleUser, text)]).(values := map[]);
    var d0 := c.(values := map[]);
    var d := Send(w, cfg, c, text);
    var (c1, o) := ExecNode(w, root, start, text, None, [], false);
    NodeAgree(w, root, start, d0, text, None, [], false);
    if o.Waits() {
      var q := NodeSplit(w, root, start, d0, text, None, []);
      GrantAllEnds(w, cfg, text, d, q, Direct(w, root, c, text), n);
      TracksGrantsOpen(w, cfg, text, d, q, Direct(w, root, c, text), n);
    }
    WorkBoundedAcrossPauses(w, cfg, c, text, n);
  }
}
