/** What stored approvals say about where their run stopped, and when a pipeline is forgotten. */
module Records {
  import opened Prelude
  import opened Conversations
  import opened World
  import opened Orchestrator
  import opened RunFacts
  import opened PauseResume
  import opened RunInduction
  import opened SimpleAgent
  import opened Api
  import opened Lifecycle

  // ---------- what every run records ----------

  /** The record names a leaf of the tree, with that leaf's output key. */
  predicate Recorded(root: AgentNode, pl: Pipeline) {
    Reached(root, pl.path) && pl.outputKey == LeafAt(root, pl.path).outputKey
  }

  /** The approval and its record are the old ones, or were made together by this run. */
  predicate RecordedSince(root: AgentNode, userMessage: string, old_: Conv, new_: Conv) {
    || (new_.pending == old_.pending && new_.pipeline == old_.pipeline)
    || (new_.pending.Some? && new_.pipeline.Some? && Recorded(root, new_.pipeline.value)
        && new_.pipeline.value.userMessage == userMessage)
  }

  predicate RecordsKept(root: AgentNode, userMessage: string, c: Ctx, d: Ctx) {
    && RecordedSince(root, userMessage, c.conv, d.conv)
    && (d.saved == c.saved || RecordedSince(root, userMessage, c.conv, d.saved))
  }

  lemma LeafRecords(w: World, root: AgentNode, userMessage: string, q: seq<nat>, c: Ctx, allow: bool)
    requires Reached(root, q)
    ensures RecordsKept(root, userMessage, c, ExecLeaf(w, LeafAt(root, q), c, userMessage, [] + q, allow).0)
  {
    assert [] + q == q;
    ReachedIsOpenOrBelow(root, q);
  }

  /** Any run of a tree, fresh or resumed, allowed or not, whatever is asked of it: the approval it
      leaves is the one it found, or names the leaf that asked, with that leaf's key and the message. */
  lemma RunsRecordLeaves(w: World, root: AgentNode, c: Ctx, userMessage: string, resume: Option<Resume>, allow: bool)
    ensures RecordsKept(root, userMessage, c, ExecNode(w, root, c, userMessage, resume, [], allow).0)
  {
    var keeps := (c: Ctx, d: Ctx) => RecordsKept(root, userMessage, c, d);
    forall q | Reached(root, q)
      ensures LeafHolds(w, LeafAt(root, q), [] + q, userMessage, ResumeKeys(resume), keeps)
    {
      forall c, allow
        ensures keeps(c, ExecLeaf(w, LeafAt(root, q), c, userMessage, [] + q, allow).0)
      {
        LeafRecords(w, root, userMessage, q, c, allow);
      }
    }
    NodeInduct(w, root, c, userMessage, resume, [], allow, ResumeKeys(resume), keeps);
  }

  // ---------- every reachable store ----------

  predicate Filed(cfg: Config, c: Conv) {
    c.pipeline.Some? ==> cfg.root.Some? && Recorded(cfg.root.value, c.pipeline.value)
  }

  predicate BothFiled(cfg: Config, c: Ctx) {
    Filed(cfg, c.conv) && Filed(cfg, c.saved)
  }

  predicate PipelineKept(c: Ctx, d: Ctx) {
    d.conv.pipeline == c.conv.pipeline && (d.saved == c.saved || d.saved.pipeline == c.conv.pipeline)
  }

  lemma TurnKeepsPipeline(w: World, system: string, c: Ctx)
    ensures PipelineKept(c, AskedOracle(w, TakeTurn(w, system, c)).c)
  {
  }

  lemma PipelineKeptThen(c: Ctx, c1: Ctx, d: Ctx)
    requires PipelineKept(c, c1) && PipelineKept(c1, d)
    ensures PipelineKept(c, d)
  {
  }

  lemma {:induction false} LoopKeepsPipeline(w: World, system: string, c: Ctx, rounds: nat)
    ensures PipelineKept(c, SimpleLoop(w, system, c, rounds).0)
    decreases rounds
  {
    hide SimpleLoop, AskedOracle, TakeTurn;
    if rounds == 0 {
      SimpleLoopEnds(w, system, c);
    } else {
      var asked := AskedOracle(w, TakeTurn(w, system, c));
      TurnKeepsPipeline(w, system, c);
      SimpleLoopStep(w, system, c, rounds, asked);
      if asked.Again? {
        LoopKeepsPipeline(w, system, asked.c, rounds - 1);
        PipelineKeptThen(c, asked.c, SimpleLoop(w, system, asked.c, rounds - 1).0);
      }
    }
  }

  lemma RunTreeFiles(w: World, cfg: Config, c: Ctx, userMessage: string, resume: Option<Resume>)
    requires cfg.root.Some? && BothFiled(cfg, c)
    ensures BothFiled(cfg, RunTree(w, cfg.root.value, c, userMessage, resume).0)
  {
    RunsRecordLeaves(w, cfg.root.value, c, userMessage, resume, false);
  }

  lemma ProcessMessageFiles(w: World, cfg: Config, c: Ctx, userMessage: string)
    requires BothFiled(cfg, c)
    ensures BothFiled(cfg, ProcessMessage(w, cfg, c, userMessage).0)
  {
    var c1 := c.Say([Text(RoleUser, userMessage)]);
    if c.conv.status != WaitingApproval {
      if cfg.IsSimple() {
        LoopKeepsPipeline(w, cfg.system, c1, MAX_TOOL_ITERATIONS);
      } else {
        RunTreeFiles(w, cfg, c1.(values := map[]), userMessage, None);
      }
    }
  }

  lemma ContinueFiles(w: World, cfg: Config, c: Ctx, pl: Option<Pipeline>, result: string, viaProxy: bool)
    requires BothFiled(cfg, c)
    ensures BothFiled(cfg, Continue(w, cfg, c, pl, result, viaProxy).0)
  {
    if pl.None? {
      LoopKeepsPipeline(w, cfg.system, c, MAX_TOOL_ITERATIONS);
    } else if cfg.root.Some? {
      var loaded := c.(values := pl.value.session);
      var c1 := if viaProxy then loaded.Set(pl.value.outputKey, result) else loaded;
      RunTreeFiles(w, cfg, c1, pl.value.userMessage, Some(Resume(pl.value.path, result, pl.value.outputKey)));
    }
  }

  lemma ApproveProxyFiles(w: World, cfg: Config, c: Ctx, p: Pending, pl: Option<Pipeline>)
    requires BothFiled(cfg, c)
    ensures BothFiled(cfg, ApproveProxy(w, cfg, c, p, pl).0)
  {
    if p.remoteAgent in w.clients {
      var c1 := LogAt(c, pl, ContinueTask(p.remoteAgent, p.remoteTaskId, ANSWER_APPROVED));
      var reply := w.resumeTask(c.trace, p.remoteAgent, p.remoteTaskId, ANSWER_APPROVED);
      if reply.RemoteTask? {
        ContinueFiles(w, cfg, c1.Say([ResultRecord(p.toolName, reply.task.text, reply.task.state.TaskFailed?)]), pl,
                      reply.task.text, true);
      }
    }
  }

  lemma ApproveLocalFiles(w: World, cfg: Config, c: Ctx, p: Pending, pl: Option<Pipeline>)
    requires BothFiled(cfg, c)
    ensures BothFiled(cfg, ApproveLocal(w, cfg, c, p, pl).0)
  {
    var c1 := LogAt(c, pl, ApprovedCall(p.toolName, p.toolArgs));
    if HasPrefix(p.toolName, A2A_PREFIX) {
      var agent := TrimPrefix(p.toolName, A2A_PREFIX);
      if agent in w.clients {
        match w.send(c.trace, agent, MessageArg(p.toolArgs))
        case RemoteError(e) =>
          ContinueFiles(w, cfg, c1.Say([ResultRecord(p.toolName, w.render(AgentFailed("", e)), true)]), None, "",
                        false);
        case RemoteTask(task) =>
          ContinueFiles(w, cfg, c1.Say([ResultRecord(p.toolName, task.text, task.state.TaskFailed?)]), pl, task.text,
                        false);
      }
    } else {
      match w.runTool(c.trace, p.toolName, p.toolArgs)
      case ToolAuthRequired =>
      case ToolFailed(e) =>
        ContinueFiles(w, cfg, c1.Say([ResultRecord(p.toolName, w.render(ToolBroken("", e)), true)]), None, "", false);
      case ToolOk(text, isError) =>
        ContinueFiles(w, cfg, c1.Say([ResultRecord(p.toolName, text, isError)]), pl, text, false);
    }
  }

  lemma ResolveApprovalFiles(w: World, cfg: Config, c: Ctx, approved: bool)
    requires BothFiled(cfg, c)
    ensures BothFiled(cfg, ResolveApproval(w, cfg, c, approved).0)
  {
    if c.conv.pending.Some? && approved {
      var p := c.conv.pending.value;
      var c2 := Cleared(c).Say([Text(RoleUser, APPROVED_TEXT)]);
      if p.IsProxy() {
        ApproveProxyFiles(w, cfg, c2, p, c.conv.pipeline);
      } else {
        ApproveLocalFiles(w, cfg, c2, p, c.conv.pipeline);
      }
    }
  }

  ghost predicate StoreFiled(cfg: Config, s: Sys) {
    forall id :: id in s.store ==> Filed(cfg, s.store[id])
  }

  lemma StepFiles(w: World, cfg: Config, s: Sys, request: Request)
    requires StoreFiled(cfg, s)
    ensures StoreFiled(cfg, Step(w, cfg, s, request))
  {
    match request
    case Start =>
    case UserMessage(id, text) =>
      if id in s.store {
        ProcessMessageFiles(w, cfg, Open(s, s.store[id]), text);
      }
    case ApprovalAnswer(uuid, approved) =>
      var found := FindByUuid(s.store, uuid);
      if found.Some? {
        ResolveApprovalFiles(w, cfg, Open(s, s.store[found.value]), approved);
      }
  }

  lemma {:induction false} ServeFiles(w: World, cfg: Config, requests: seq<Request>)
    ensures StoreFiled(cfg, Serve(w, cfg, requests))
  {
    if requests != [] {
      ServeFiles(w, cfg, requests[..|requests| - 1]);
      StepFiles(w, cfg, Serve(w, cfg, requests[..|requests| - 1]), requests[|requests| - 1]);
    }
  }

  /** In every reachable store a recorded path names a leaf and that leaf's output key, and a resume
      can be led to the leaf exactly when no parallel or loop node lies above it. */
  lemma StoredPathsTell(w: World, cfg: Config, requests: seq<Request>, id: Id)
    requires id in Serve(w, cfg, requests).store && Serve(w, cfg, requests).store[id].pipeline.Some?
    ensures cfg.root.Some?
    ensures var root, pl := cfg.root.value, Serve(w, cfg, requests).store[id].pipeline.value;
            && Reached(root, pl.path) && NodeAt(root, pl.path) == Some(LeafAt(root, pl.path))
            && pl.outputKey == LeafAt(root, pl.path).outputKey
            && (Spine(root, pl.path) <==> !UnderBlock(root, pl.path))
  {
    ServeFiles(w, cfg, requests);
    ReachedIsOpenOrBelow(cfg.root.value, Serve(w, cfg, requests).store[id].pipeline.value.path);
  }

  // ---------- forgotten pipelines ----------

  /** The remote agent's answer to a granted proxy. */
  function ProxyAnswer(w: World, c: Ctx): RemoteReply
    requires c.conv.pending.Some?
  {
    w.resumeTask(c.trace, c.conv.pending.value.remoteAgent, c.conv.pending.value.remoteTaskId, ANSWER_APPROVED)
  }

  /** A granted proxy whose remote agent asks for input again. */
  predicate AsksAgain(w: World, c: Ctx) {
    && c.conv.pending.Some? && c.conv.pending.value.IsProxy() && c.conv.pending.value.remoteAgent in w.clients
    && ProxyAnswer(w, c).RemoteTask? && ProxyAnswer(w, c).task.state.InputRequired?
  }

  /** It waits, but no longer knows for which pipeline. */
  predicate Lost(c: Conv) {
    c.pending.Some? && c.pipeline.None?
  }

  lemma ResumeKeepsPipeline(w: World, cfg: Config, c: Ctx, pl: Pipeline, result: string, viaProxy: bool)
    requires cfg.root.Some? && !Lost(c.conv) && !Lost(c.saved)
    ensures var c2 := ResumePipeline(w, cfg, c, pl, result, viaProxy).0; !Lost(c2.conv) && !Lost(c2.saved)
  {
    var loaded := c.(values := pl.session);
    var c1 := if viaProxy then loaded.Set(pl.outputKey, result) else loaded;
    RunsRecordLeaves(w, cfg.root.value, c1, pl.userMessage, Some(Resume(pl.path, result, pl.outputKey)), false);
  }

  lemma LocalKeepsPipeline(w: World, cfg: Config, c: Ctx, p: Pending, pl: Pipeline)
    requires cfg.root.Some? && !Lost(c.conv) && !Lost(c.saved)
    ensures var c2 := ApproveLocal(w, cfg, c, p, Some(pl)).0; !Lost(c2.conv) && !Lost(c2.saved)
  {
    var c1 := LogAt(c, Some(pl), ApprovedCall(p.toolName, p.toolArgs));
    if HasPrefix(p.toolName, A2A_PREFIX) {
      var reply := w.send(c.trace, TrimPrefix(p.toolName, A2A_PREFIX), MessageArg(p.toolArgs));
      if reply.RemoteTask? {
        var task := reply.task;
        ResumeKeepsPipeline(w, cfg, c1.Say([ResultRecord(p.toolName, task.text, task.state.TaskFailed?)]), pl,
                            task.text, false);
      }
    } else {
      var reply := w.runTool(c.trace, p.toolName, p.toolArgs);
      if reply.ToolOk? {
        ResumeKeepsPipeline(w, cfg, c1.Say([ResultRecord(p.toolName, reply.text, reply.isError)]), pl, reply.text,
                            false);
      }
    }
  }

  lemma ProxyKeepsPipeline(w: World, cfg: Config, c: Ctx, p: Pending, pl: Pipeline)
    requires cfg.root.Some? && c.conv.pending.None? && c.conv.pipeline.None? && !Lost(c.saved)
    ensures var c2 := ApproveProxy(w, cfg, c, p, Some(pl)).0;
            var reply := w.resumeTask(c.trace, p.remoteAgent, p.remoteTaskId, ANSWER_APPROVED);
            var again := p.remoteAgent in w.clients && reply.RemoteTask? && reply.task.state.InputRequired?;
            (Lost(c2.conv) <==> again) && (Lost(c2.saved) <==> again)
  {
    var c1 := LogAt(c, Some(pl), ContinueTask(p.remoteAgent, p.remoteTaskId, ANSWER_APPROVED));
    var reply := w.resumeTask(c.trace, p.remoteAgent, p.remoteTaskId, ANSWER_APPROVED);
    if p.remoteAgent in w.clients && reply.RemoteTask? {
      var task := reply.task;
      if !task.state.InputRequired? && !task.state.AuthRequired? {
        ResumeKeepsPipeline(w, cfg, c1.Say([ResultRecord(p.toolName, task.text, task.state.TaskFailed?)]), pl,
                            task.text, true);
      }
    }
  }

  /** A grant forgets the pipeline it belongs to exactly when it grants a proxy whose remote agent
      asks again, in memory and in the stored copy. */
  lemma PipelineLostExactly(w: World, cfg: Config, c: Ctx)
    requires cfg.root.Some? && c.conv.pending.Some? && c.conv.pipeline.Some? && !Lost(c.saved)
    ensures var c2 := ResolveApproval(w, cfg, c, true).0;
            (Lost(c2.conv) <==> AsksAgain(w, c)) && (Lost(c2.saved) <==> AsksAgain(w, c))
  {
    var p, pl := c.conv.pending.value, c.conv.pipeline.value;
    var c2 := Cleared(c).Say([Text(RoleUser, APPROVED_TEXT)]);
    if p.IsProxy() {
      ProxyKeepsPipeline(w, cfg, c2, p, pl);
    } else {
      LocalKeepsPipeline(w, cfg, c2, p, pl);
    }
  }

  ghost predicate NoneLost(s: Sys) {
    forall id :: id in s.store ==> !Lost(s.store[id])
  }

  /** The request grants a proxy of a pipeline, and its remote agent asks again. */
  ghost predicate Loses(w: World, s: Sys, request: Request) {
    && request.ApprovalAnswer? && request.approved && FindByUuid(s.store, request.uuid).Some?
    && var c := s.store[FindByUuid(s.store, request.uuid).value]; AsksAgain(w, Open(s, c))
  }

  lemma MessageKeepsPipelines(w: World, cfg: Config, c: Ctx, text: string)
    requires !cfg.IsSimple() && !Lost(c.conv) && c.saved == c.conv && c.conv.StatusAgrees()
    ensures !Lost(ProcessMessage(w, cfg, c, text).0.saved)
  {
    if c.conv.status != WaitingApproval {
      RunsRecordLeaves(w, cfg.root.value, c.Say([Text(RoleUser, text)]).(values := map[]), text, None, false);
    }
  }

  lemma StepLosesExactly(w: World, cfg: Config, s: Sys, request: Request)
    requires !cfg.IsSimple() && StoreValid(s) && NoneLost(s)
    ensures NoneLost(Step(w, cfg, s, request)) <==> !Loses(w, s, request)
  {
    match request
    case Start =>
    case UserMessage(id, text) =>
      if id in s.store {
        MessageKeepsPipelines(w, cfg, Open(s, s.store[id]), text);
      }
    case ApprovalAnswer(uuid, approved) =>
      var found := FindByUuid(s.store, uuid);
      if found.Some? {
        var c := s.store[found.value];
        var r := ResolveApproval(w, cfg, Open(s, c), approved);
        var s2 := Step(w, cfg, s, request);
        if approved {
          PipelineLostExactly(w, cfg, Open(s, c));
        }
        assert s2.store == s.store[c.id := r.0.saved];
        assert r.0.saved == s2.store[c.id];
      }
  }

  lemma LastLosesExactly(w: World, cfg: Config, requests: seq<Request>)
    requires !cfg.IsSimple() && requests != [] && NoneLost(Serve(w, cfg, requests[..|requests| - 1]))
    ensures NoneLost(Serve(w, cfg, requests))
            <==> !Loses(w, Serve(w, cfg, requests[..|requests| - 1]), requests[|requests| - 1])
  {
    ServeKeeps(w, cfg, requests[..|requests| - 1]);
    StepLosesExactly(w, cfg, Serve(w, cfg, requests[..|requests| - 1]), requests[|requests| - 1]);
  }

  /** The prefixes of a list are those of its front, and itself. */
  lemma PrefixesSplit(requests: seq<Request>)
    requires requests != []
    ensures var last := |requests| - 1;
            && requests[..|requests|] == requests
            && (forall n :: 0 <= n <= last ==> requests[..n] == requests[..last][..n])
            && (forall n :: 0 <= n < last ==> requests[n] == requests[..last][n])
  {
  }

  /** Over every run of an orchestrated agent: no stored conversation ever waits without its pipeline
      exactly when no request grants a proxy whose remote agent asks again. */
  lemma {:induction false} PipelinesLastExactly(w: World, cfg: Config, requests: seq<Request>)
    requires !cfg.IsSimple()
    ensures (forall n :: 0 <= n <= |requests| ==> NoneLost(Serve(w, cfg, requests[..n])))
            <==> (forall n :: 0 <= n < |requests| ==> !Loses(w, Serve(w, cfg, requests[..n]), requests[n]))
  {
    if requests == [] {
      assert requests[..0] == [];
    } else {
      hide *;
      var last := |requests| - 1;
      PipelinesLastExactly(w, cfg, requests[..last]);
      PrefixesSplit(requests);
      if NoneLost(Serve(w, cfg, requests[..last])) {
        LastLosesExactly(w, cfg, requests);
      }
    }
  }
}
