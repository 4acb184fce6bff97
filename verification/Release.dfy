/** How often one approval lets its call run. */
module Release {
  import opened Prelude
  import opened Conversations
  import opened World
  import opened Orchestrator
  import opened Api
  import opened ApiFacts
  import opened Lifecycle
  import opened Chat
  import opened Records
  import opened RunInduction

  /** Every call of the entry passes an answer on to a remote agent. */
  predicate PassesOnly(e: Entry) {
    forall k :: 0 <= k < |e.calls| ==> e.calls[k].call.ContinueTask?
  }

  /** Outside a pipeline an answer that is not accepted has called no tool and started no task. */
  lemma FailuresPassOnly(w: World, cfg: Config, c: Ctx, approved: bool)
    requires c.conv.pending.Some? && c.conv.pipeline.None?
    ensures var (c2, reply) := ResolveApproval(w, cfg, c, approved);
            !reply.Replied? ==>
              c.trace <= c2.trace && forall k :: |c.trace| <= k < |c2.trace| ==> c2.trace[k].call.ContinueTask?
  {
  }

  ghost predicate Strict(s: Sys) {
    forall k :: 0 <= k < |s.log| && s.log[k].request.ApprovalAnswer? && !s.log[k].ok ==> PassesOnly(s.log[k])
  }

  lemma {:induction false} ServeStrict(w: World, cfg: Config, requests: seq<Request>)
    requires cfg.IsSimple()
    ensures Strict(Serve(w, cfg, requests))
  {
    if requests != [] {
      var front, request := requests[..|requests| - 1], requests[|requests| - 1];
      ServeStrict(w, cfg, front);
      ServeChats(w, cfg, front);
      var s := Serve(w, cfg, front);
      if request.ApprovalAnswer? && FindByUuid(s.store, request.uuid).Some? {
        FailuresPassOnly(w, cfg, Open(s, s.store[FindByUuid(s.store, request.uuid).value]), request.approved);
      }
    }
  }

  /** In every run of a simple agent, once an answer to approval u has done more than pass it on,
      no answer to u is accepted or calls anything: what was approved once runs at most once. */
  lemma ReleasedAtMostOnce(w: World, cfg: Config, requests: seq<Request>, j: nat, k: nat)
    requires cfg.IsSimple() && j < k < |Serve(w, cfg, requests).log|
    requires var e, f := Serve(w, cfg, requests).log[j], Serve(w, cfg, requests).log[k];
             e.request.ApprovalAnswer? && f.request.ApprovalAnswer? && e.request.uuid == f.request.uuid
             && !PassesOnly(e)
    ensures var f := Serve(w, cfg, requests).log[k]; !f.ok && f.calls == []
  {
    ServeKeeps(w, cfg, requests);
    ServeStrict(w, cfg, requests);
    var s := Serve(w, cfg, requests);
    assert Settles(s.log[j], s.log[j].request.uuid);
  }

  // ---------- trees that always answer ----------

  /** Every leaf can do its part: its model can be had, or its remote agent is known. */
  predicate Configured(w: World, node: AgentNode) {
    if node.IsLeaf() then (if node.kind == A2A then node.name in w.clients else w.modelReady(node.model))
    else forall i :: 0 <= i < |node.agents| ==> Configured(w, node.agents[i])
  }

  lemma DelegateAnswers(w: World, node: AgentNode, hist: seq<Event>, before: seq<Call>, agent: string, name: string,
                        args: Args, text: string, log: bool)
    ensures !Delegate(w, node, hist, before, agent, name, args, text, log).end.Abort?
  {
  }

  lemma UseToolAnswers(w: World, node: AgentNode, path: seq<nat>, hist: seq<Event>, ask: Call, name: string, args: Args,
                       allow: bool)
    ensures !LlmUseTool(w, node, path, hist, ask, name, args, allow).end.Abort?
  {
  }

  lemma ActAnswers(w: World, node: AgentNode, path: seq<nat>, hist: seq<Event>, prompt: string, userMessage: string,
                   allow: bool)
    requires Configured(w, node) && node.IsLeaf()
    ensures !LeafAct(w, node, path, hist, prompt, userMessage, allow).end.Abort?
  {
    hide Delegate, LlmUseTool;
    if node.kind == A2A {
      var text := if node.prompt != "" then prompt else userMessage;
      DelegateAnswers(w, node, hist, [], node.name, A2A_PREFIX + node.name, map["message" := Str(text)], text, true);
    } else {
      var ask := ModelCall(node, prompt, userMessage);
      var reply := w.llm(hist, ask);
      if reply.LlmTool? {
        var hist1 := hist + [Event(path, ask)];
        UseToolAnswers(w, node, path, hist1, ask, reply.name, reply.args, allow);
        DelegateAnswers(w, node, hist1, [ask], TrimPrefix(reply.name, A2A_PREFIX), reply.name, reply.args,
                        MessageArg(reply.args), false);
      }
    }
  }

  lemma LeafAnswers(w: World, node: AgentNode, c: Ctx, userMessage: string, path: seq<nat>, allow: bool)
    requires Configured(w, node) && node.IsLeaf()
    ensures ExecLeaf(w, node, c, userMessage, path, allow).1.Ok?
  {
    hide LeafAct, ResolveTemplate;
    ActAnswers(w, node, path, c.trace, ResolveTemplate(node.prompt, c.values), userMessage, allow);
  }

  /** A run of such a tree ends without an error, from the top or from any recorded position. */
  lemma {:induction false} NodeAnswers(w: World, node: AgentNode, c: Ctx, userMessage: string, resume: Option<Resume>,
                                       path: seq<nat>, allow: bool)
    requires Configured(w, node) && (resume.Some? ==> Reached(node, resume.value.path))
    ensures ExecNode(w, node, c, userMessage, resume, path, allow).1.Ok?
    decreases node, 3
  {
    match node.kind
    case Sequential =>
      if resume.Some? {
        var i := resume.value.path[0];
        var r := Some(resume.value.(path := resume.value.path[1..]));
        NodeAnswers(w, node.agents[i], c, userMessage, r, path + [i], allow);
        var (c1, o) := ExecNode(w, node.agents[i], c, userMessage, r, path + [i], allow);
        if !o.Stops() {
          SeqAnswers(w, node, c1, userMessage, path, allow, i + 1, None);
        }
      } else {
        SeqAnswers(w, node, c, userMessage, path, allow, 0, None);
      }
    case Parallel => ParallelAnswers(w, node, c, userMessage, path, 0, []);
    case Loop => LoopAnswers(w, node, c, userMessage, path, MaxIterations(node), None);
    case _ => LeafAnswers(w, node, c, userMessage, path, allow);
  }

  lemma {:induction false} SeqAnswers(w: World, node: AgentNode, c: Ctx, userMessage: string, path: seq<nat>,
                                      allow: bool, i: nat, last: Option<NodeResult>)
    requires Configured(w, node) && node.kind == Sequential && i <= |node.agents|
    ensures SeqFrom(w, node, c, userMessage, path, allow, i, last).1.Ok?
    decreases node, 1, |node.agents| - i
  {
    if i < |node.agents| {
      NodeAnswers(w, node.agents[i], c, userMessage, None, path + [i], allow);
      var (c1, o) := ExecNode(w, node.agents[i], c, userMessage, None, path + [i], allow);
      if !o.Stops() {
        SeqAnswers(w, node, c1, userMessage, path, allow, i + 1, Some(o.result));
      }
    }
  }

  lemma {:induction false} ParallelAnswers(w: World, node: AgentNode, c: Ctx, userMessage: string, path: seq<nat>,
                                           i: nat, responses: seq<string>)
    requires Configured(w, node) && node.kind == Parallel && i <= |node.agents|
    ensures ExecParallel(w, node, c, userMessage, path, i, responses).1.Ok?
    decreases node, 1, |node.agents| - i
  {
    if i < |node.agents| {
      NodeAnswers(w, node.agents[i], c, userMessage, None, path + [i], true);
      var (c1, o) := ExecNode(w, node.agents[i], c, userMessage, None, path + [i], true);
      ParallelAnswers(w, node, c1, userMessage, path, i + 1, responses + [o.result.response]);
    }
  }

  lemma {:induction false} LoopAnswers(w: World, node: AgentNode, c: Ctx, userMessage: string, path: seq<nat>,
                                       rounds: nat, last: Option<NodeResult>)
    requires Configured(w, node) && node.kind == Loop
    ensures ExecLoop(w, node, c, userMessage, path, rounds, last).1.Ok?
    decreases node, 2, rounds
  {
    if rounds > 0 {
      RoundAnswers(w, node, c, userMessage, path, 0, last);
      var (c1, round) := LoopRound(w, node, c, userMessage, path, 0, last);
      if round.Done? {
        LoopAnswers(w, node, c1, userMessage, path, rounds - 1, round.last);
      }
    }
  }

  lemma {:induction false} RoundAnswers(w: World, node: AgentNode, c: Ctx, userMessage: string, path: seq<nat>,
                                        i: nat, last: Option<NodeResult>)
    requires Configured(w, node) && node.kind == Loop && i <= |node.agents|
    ensures var round := LoopRound(w, node, c, userMessage, path, i, last).1; round.Exit? ==> round.outcome.Ok?
    decreases node, 1, |node.agents| - i
  {
    if i < |node.agents| {
      NodeAnswers(w, node.agents[i], c, userMessage, None, path + [i], true);
      var (c1, o) := ExecNode(w, node.agents[i], c, userMessage, None, path + [i], true);
      if !o.result.exitLoop {
        RoundAnswers(w, node, c1, userMessage, path, i + 1, Some(o.result));
      }
    }
  }

  // ---------- grants that settle ----------

  /** The granted call has an answer to go on with. A simple agent goes on with a failure as well. */
  predicate CallAnswers(w: World, c: Ctx)
    requires c.conv.pending.Some?
  {
    var p := c.conv.pending.value;
    if p.IsProxy() then p.remoteAgent in w.clients && ProxyAnswer(w, c).RemoteTask?
    else if HasPrefix(p.toolName, A2A_PREFIX) then
      var agent := TrimPrefix(p.toolName, A2A_PREFIX);
      agent in w.clients && (c.conv.pipeline.Some? ==> w.send(c.trace, agent, MessageArg(p.toolArgs)).RemoteTask?)
    else c.conv.pipeline.Some? ==> !w.runTool(c.trace, p.toolName, p.toolArgs).ToolFailed?
  }

  /** The granted call, if there is anyone to make it to. */
  function Attempt(w: World, c: Ctx): seq<Call>
    requires c.conv.pending.Some?
  {
    var p := c.conv.pending.value;
    if p.IsProxy() then
      if p.remoteAgent in w.clients then [ContinueTask(p.remoteAgent, p.remoteTaskId, ANSWER_APPROVED)] else []
    else if HasPrefix(p.toolName, A2A_PREFIX) && TrimPrefix(p.toolName, A2A_PREFIX) !in w.clients then []
    else [ApprovedCall(p.toolName, p.toolArgs)]
  }

  function Logged(pl: Option<Pipeline>, calls: seq<Call>): seq<Event> {
    seq(|calls|,
        i requires 0 <= i < |calls| => if pl.Some? then Event(pl.value.path, calls[i]) else ChatEvent(calls[i]))
  }

  /** A grant whose call has no answer is refused: the call is all that happens. */
  lemma RefusedGrant(w: World, cfg: Config, c: Ctx)
    requires c.conv.pending.Some? && !CallAnswers(w, c)
    ensures var (c2, reply) := ResolveApproval(w, cfg, c, true);
            && !reply.Replied? && c2.saved == c.saved && c2.nextId == c.nextId
            && c2.trace == c.trace + Logged(c.conv.pipeline, Attempt(w, c))
  {
    var p := c.conv.pending.value;
    assert Logged(c.conv.pipeline, []) == [];
    if Attempt(w, c) != [] {
      assert Logged(c.conv.pipeline, Attempt(w, c)) ==
             [if c.conv.pipeline.Some? then Event(c.conv.pipeline.value.path, Attempt(w, c)[0])
              else ChatEvent(Attempt(w, c)[0])];
    }
  }

  /** The pipeline can be resumed where it stopped. */
  predicate Resumable(w: World, cfg: Config, pl: Option<Pipeline>) {
    pl.Some? ==> cfg.root.Some? && Configured(w, cfg.root.value) && Recorded(cfg.root.value, pl.value)
  }

  lemma ContinueAnswers(w: World, cfg: Config, c: Ctx, pl: Option<Pipeline>, result: string, viaProxy: bool)
    requires Resumable(w, cfg, pl)
    ensures Continue(w, cfg, c, pl, result, viaProxy).1.Replied?
  {
    if pl.Some? {
      var loaded := c.(values := pl.value.session);
      var c1 := if viaProxy then loaded.Set(pl.value.outputKey, result) else loaded;
      NodeAnswers(w, cfg.root.value, c1, pl.value.userMessage, Some(Resume(pl.value.path, result, pl.value.outputKey)),
                  [], false);
    }
  }

  lemma AnsweredProxy(w: World, cfg: Config, c: Ctx, p: Pending, pl: Option<Pipeline>)
    requires Resumable(w, cfg, pl) && p.remoteAgent in w.clients
    requires w.resumeTask(c.trace, p.remoteAgent, p.remoteTaskId, ANSWER_APPROVED).RemoteTask?
    ensures ApproveProxy(w, cfg, c, p, pl).1.Replied?
  {
    var task := w.resumeTask(c.trace, p.remoteAgent, p.remoteTaskId, ANSWER_APPROVED).task;
    var c1 := LogAt(c, pl, ContinueTask(p.remoteAgent, p.remoteTaskId, ANSWER_APPROVED));
    ContinueAnswers(w, cfg, c1.Say([ResultRecord(p.toolName, task.text, task.state.TaskFailed?)]), pl, task.text, true);
  }

  lemma AnsweredLocal(w: World, cfg: Config, c: Ctx, p: Pending, pl: Option<Pipeline>)
    requires Resumable(w, cfg, pl)
    requires if HasPrefix(p.toolName, A2A_PREFIX) then
               TrimPrefix(p.toolName, A2A_PREFIX) in w.clients
               && (pl.Some? ==> w.send(c.trace, TrimPrefix(p.toolName, A2A_PREFIX), MessageArg(p.toolArgs)).RemoteTask?)
             else pl.Some? ==> !w.runTool(c.trace, p.toolName, p.toolArgs).ToolFailed?
    ensures ApproveLocal(w, cfg, c, p, pl).1.Replied?
  {
    var c1 := LogAt(c, pl, ApprovedCall(p.toolName, p.toolArgs));
    if HasPrefix(p.toolName, A2A_PREFIX) {
      var reply := w.send(c.trace, TrimPrefix(p.toolName, A2A_PREFIX), MessageArg(p.toolArgs));
      if reply.RemoteTask? {
        ContinueAnswers(w, cfg, c1.Say([ResultRecord(p.toolName, reply.task.text, reply.task.state.TaskFailed?)]), pl,
                        reply.task.text, false);
      }
    } else {
      var reply := w.runTool(c.trace, p.toolName, p.toolArgs);
      if reply.ToolOk? {
        ContinueAnswers(w, cfg, c1.Say([ResultRecord(p.toolName, reply.text, reply.isError)]), pl, reply.text, false);
      }
    }
  }

  /** With a tree that always answers, a grant is accepted exactly when its own call has an answer. */
  lemma GrantAcceptedExactly(w: World, cfg: Config, c: Ctx)
    requires c.conv.pending.Some? && Resumable(w, cfg, c.conv.pipeline)
    ensures ResolveApproval(w, cfg, c, true).1.Replied? <==> CallAnswers(w, c)
  {
    if CallAnswers(w, c) {
      var c2 := Cleared(c).Say([Text(RoleUser, APPROVED_TEXT)]);
      if c.conv.pending.value.IsProxy() {
        AnsweredProxy(w, cfg, c2, c.conv.pending.value, c.conv.pipeline);
      } else {
        AnsweredLocal(w, cfg, c2, c.conv.pending.value, c.conv.pipeline);
      }
    } else {
      RefusedGrant(w, cfg, c);
    }
  }

  // ---------- over every run ----------

  ghost predicate Tame(w: World, cfg: Config) {
    cfg.IsSimple() || Configured(w, cfg.root.value)
  }

  lemma StoredResumable(w: World, cfg: Config, requests: seq<Request>, id: Id)
    requires Tame(w, cfg) && id in Serve(w, cfg, requests).store
    ensures Resumable(w, cfg, Serve(w, cfg, requests).store[id].pipeline)
  {
    ServeFiles(w, cfg, requests);
    if cfg.IsSimple() {
      ServeChats(w, cfg, requests);
    }
  }

  /** In every reachable store, and for simple agents and trees that always answer: granting approval
      uuid is accepted exactly when its call has an answer; otherwise the store stays as it is, the
      approval with it, and the same answer makes the same call again. */
  lemma GrantSettlesExactly(w: World, cfg: Config, requests: seq<Request>, uuid: Id)
    requires Tame(w, cfg) && FindByUuid(Serve(w, cfg, requests).store, uuid).Some?
    ensures var s := Serve(w, cfg, requests);
            var id := FindByUuid(s.store, uuid).value;
            var c, s2 := Open(s, s.store[id]), Step(w, cfg, s, ApprovalAnswer(uuid, true));
            && |s2.log| == |s.log| + 1 && (s2.log[|s.log|].ok <==> CallAnswers(w, c))
            && id in s2.store && (Holds(s2.store[id], uuid) <==> !CallAnswers(w, c))
            && (!CallAnswers(w, c) ==>
                s2.store == s.store && s2.trace == s.trace + Logged(c.conv.pipeline, Attempt(w, c)))
  {
    var s := Serve(w, cfg, requests);
    ServeKeeps(w, cfg, requests);
    var id := FindByUuid(s.store, uuid).value;
    var c := Open(s, s.store[id]);
    StoredResumable(w, cfg, requests, id);
    GrantAcceptedExactly(w, cfg, c);
    if CallAnswers(w, c) {
      StepKeeps(w, cfg, s, ApprovalAnswer(uuid, true));
      var s2 := Step(w, cfg, s, ApprovalAnswer(uuid, true));
      assert Settles(s2.log[|s.log|], uuid);
    } else {
      RefusedGrant(w, cfg, c);
      assert s.store[id := s.store[id]] == s.store;
    }
  }

  lemma {:induction false} LogGrows(w: World, cfg: Config, requests: seq<Request>, n: nat)
    requires n <= |requests|
    ensures |Serve(w, cfg, requests).log| == |requests|
    ensures Serve(w, cfg, requests[..n]).log <= Serve(w, cfg, requests).log
  {
    if n < |requests| {
      var front := requests[..|requests| - 1];
      LogGrows(w, cfg, front, n);
      assert front[..n] == requests[..n];
    } else {
      assert requests[..n] == requests;
      if n > 0 {
        LogGrows(w, cfg, requests[..n - 1], n - 1);
      }
    }
  }

  /** The request is a grant of approval u, and its call has an answer. */
  ghost predicate GrantAnswers(w: World, s: Sys, request: Request, u: Id) {
    && request == ApprovalAnswer(u, true) && FindByUuid(s.store, u).Some?
    && CallAnswers(w, Open(s, s.store[FindByUuid(s.store, u).value]))
  }

  lemma AnsweredSettles(w: World, cfg: Config, requests: seq<Request>, j: nat, u: Id)
    requires Tame(w, cfg) && j < |requests| && GrantAnswers(w, Serve(w, cfg, requests[..j]), requests[j], u)
    ensures j < |Serve(w, cfg, requests).log| && Settles(Serve(w, cfg, requests).log[j], u)
  {
    var before, through := requests[..j], requests[..j + 1];
    GrantSettlesExactly(w, cfg, before, u);
    assert through[..j] == before && through[j] == requests[j];
    LogGrows(w, cfg, requests, j + 1);
    LogGrows(w, cfg, before, j);
    assert Serve(w, cfg, through) == Step(w, cfg, Serve(w, cfg, before), requests[j]);
    hide FindByUuid, CallAnswers, Serve;
  }

  /** In every run of a simple agent or of a tree that always answers: once a granted call has had its
      answer, no later answer to the same approval is accepted or calls anything. */
  lemma AnsweredCallRunsOnce(w: World, cfg: Config, requests: seq<Request>, j: nat, k: nat, u: Id)
    requires Tame(w, cfg) && j < k < |requests| && GrantAnswers(w, Serve(w, cfg, requests[..j]), requests[j], u)
    requires requests[k].ApprovalAnswer? && requests[k].uuid == u
    ensures k < |Serve(w, cfg, requests).log| && !Serve(w, cfg, requests).log[k].ok
    ensures Serve(w, cfg, requests).log[k].calls == []
  {
    AnsweredSettles(w, cfg, requests, j, u);
    RequestLogged(w, cfg, requests, k);
    ServeKeeps(w, cfg, requests);
    hide Serve, GrantAnswers;
  }

  lemma RequestLogged(w: World, cfg: Config, requests: seq<Request>, k: nat)
    requires k < |requests|
    ensures k < |Serve(w, cfg, requests).log| && Serve(w, cfg, requests).log[k].request == requests[k]
  {
    var through := requests[..k + 1];
    LogGrows(w, cfg, requests, k + 1);
    LogGrows(w, cfg, through[..k], k);
    assert through[k] == requests[k] && through[..|through| - 1] == through[..k];
  }

  // ---------- where it may run again ----------

  /** A granted call without an answer, of whatever kind, leaves the approval pending and the store as
      it was: while it has none, each further grant makes the call again; and a rejection is still
      accepted, after the call. */
  lemma FailedCallStaysPending(w: World, cfg: Config, s: Sys, uuid: Id)
    requires FindByUuid(s.store, uuid).Some?
    requires s.store[FindByUuid(s.store, uuid).value].id == FindByUuid(s.store, uuid).value
    requires !CallAnswers(w, Open(s, s.store[FindByUuid(s.store, uuid).value]))
    ensures var c := s.store[FindByUuid(s.store, uuid).value];
            var attempt := Logged(c.pipeline, Attempt(w, Open(s, c)));
            var once := Step(w, cfg, s, ApprovalAnswer(uuid, true));
            var twice := Step(w, cfg, once, ApprovalAnswer(uuid, true));
            var rejected := Step(w, cfg, once, ApprovalAnswer(uuid, false));
            && once.store == s.store && once.trace == s.trace + attempt && !once.log[|s.log|].ok
            && (!CallAnswers(w, Open(once, c)) ==> twice.store == s.store && twice.trace == s.trace + attempt + attempt)
            && rejected.log[|s.log| + 1].ok && once.trace <= rejected.trace
            && forall k :: |once.trace| <= k < |rejected.trace| ==> rejected.trace[k].call.ContinueTask?
  {
    var c := s.store[FindByUuid(s.store, uuid).value];
    var once := Step(w, cfg, s, ApprovalAnswer(uuid, true));
    RefusedGrant(w, cfg, Open(s, c));
    assert once.store == s.store;
    if !CallAnswers(w, Open(once, c)) {
      RefusedGrant(w, cfg, Open(once, c));
    }
    ResolveApprovalResolves(w, cfg, Open(once, c), false);
  }

  /** The run goes on from its first child to a remote agent nobody knows. */
  predicate RunsIntoUnknown(w: World, root: AgentNode) {
    && root.kind == Sequential && |root.agents| >= 2 && root.agents[0].IsLeaf()
    && root.agents[1].kind == A2A && root.agents[1].name !in w.clients
  }

  lemma UnknownAborts(w: World, root: AgentNode, c: Ctx, userMessage: string, r: Resume)
    requires RunsIntoUnknown(w, root) && r.path == [0]
    ensures var (c2, o) := ExecNode(w, root, c, userMessage, Some(r), [], false);
            o.Failed? && c2.saved == c.saved && c2.trace == c.trace && c2.nextId == c.nextId
  {
    var r1 := r.(path := r.path[1..]);
    assert r1.path == [] && [] + [0] == [0] && [] + [1] == [1];
    var c1 := ResumeLeaf(w, root.agents[0], c, r1).0;
    assert ExecNode(w, root.agents[0], c, userMessage, Some(r1), [0], false) == ResumeLeaf(w, root.agents[0], c, r1);
    var (c2, o) := ExecNode(w, root.agents[1], c1, userMessage, None, [1], false);
    assert At([1], []) == [];
    assert o.Failed? && c2.trace == c1.trace;
    assert SeqFrom(w, root, c1, userMessage, [], false, 1, None) == (c2, o);
  }

  /** A grant of the first child's call in such a tree, twice. */
  lemma AbortedGrantRepeats(w: World, cfg: Config, s: Sys, uuid: Id)
    requires cfg.root.Some? && RunsIntoUnknown(w, cfg.root.value)
    requires FindByUuid(s.store, uuid).Some?
    requires s.store[FindByUuid(s.store, uuid).value].id == FindByUuid(s.store, uuid).value
    requires var c := s.store[FindByUuid(s.store, uuid).value];
             var p := c.pending.value;
             && c.pipeline.Some? && c.pipeline.value.path == [0] && !p.IsProxy() && !HasPrefix(p.toolName, A2A_PREFIX)
             && (forall h :: w.runTool(h, p.toolName, p.toolArgs).ToolOk?)
    ensures !Configured(w, cfg.root.value)
    ensures var c := s.store[FindByUuid(s.store, uuid).value];
            var call := Event([0], RunTool(c.pending.value.toolName, c.pending.value.toolArgs));
            var once := Step(w, cfg, s, ApprovalAnswer(uuid, true));
            var twice := Step(w, cfg, once, ApprovalAnswer(uuid, true));
            && CallAnswers(w, Open(s, c))
            && once.store == s.store && once.trace == s.trace + [call] && !once.log[|s.log|].ok
            && twice.store == s.store && twice.trace == s.trace + [call] + [call]
  {
    var c := s.store[FindByUuid(s.store, uuid).value];
    assert !Configured(w, cfg.root.value.agents[1]);
    AbortedGrant(w, cfg, Open(s, c));
    var once := Step(w, cfg, s, ApprovalAnswer(uuid, true));
    assert once.store == s.store;
    AbortedGrant(w, cfg, Open(once, c));
  }

  lemma AbortedGrant(w: World, cfg: Config, c: Ctx)
    requires cfg.root.Some? && RunsIntoUnknown(w, cfg.root.value)
    requires c.conv.pending.Some? && c.conv.pipeline.Some? && c.conv.pipeline.value.path == [0]
    requires var p := c.conv.pending.value;
             !p.IsProxy() && !HasPrefix(p.toolName, A2A_PREFIX) && w.runTool(c.trace, p.toolName, p.toolArgs).ToolOk?
    ensures var (c2, reply) := ResolveApproval(w, cfg, c, true);
            var p := c.conv.pending.value;
            !reply.Replied? && c2.saved == c.saved && c2.nextId == c.nextId
            && c2.trace == c.trace + [Event([0], RunTool(p.toolName, p.toolArgs))]
  {
    var p, pl := c.conv.pending.value, c.conv.pipeline.value;
    var reply := w.runTool(c.trace, p.toolName, p.toolArgs);
    var c2 := LogAt(Cleared(c).Say([Text(RoleUser, APPROVED_TEXT)]), Some(pl), RunTool(p.toolName, p.toolArgs));
    var c3 := c2.Say([ResultRecord(p.toolName, reply.text, reply.isError)]);
    assert ResolveApproval(w, cfg, c, true) == ResumePipeline(w, cfg, c3, pl, reply.text, false);
    UnknownAborts(w, cfg.root.value, c3.(values := pl.session), pl.userMessage,
                  Resume(pl.path, reply.text, pl.outputKey));
  }

  /** The leaf's model always asks for this destructive tool, which always succeeds. */
  ghost predicate AlwaysCalls(w: World, leaf: AgentNode, tool: string, args: Args) {
    && leaf.IsLeaf() && leaf.kind != A2A && w.modelReady(leaf.model)
    && (forall h, ask :: w.llm(h, ask) == LlmTool(tool, args))
    && tool != EXIT_LOOP && !HasPrefix(tool, A2A_PREFIX) && tool in w.tools && w.tools[tool].destructive
    && (forall h :: w.runTool(h, tool, args).ToolOk?)
  }

  lemma FirstChildPauses(w: World, root: AgentNode, c: Ctx, text: string, tool: string, args: Args)
    requires RunsIntoUnknown(w, root) && AlwaysCalls(w, root.agents[0], tool, args)
    ensures var (c2, o) := ExecNode(w, root, c, text, None, [], false);
            && o.Waits() && c2.saved == c2.conv && c2.conv.id == c.conv.id && c2.conv.pending.Some?
            && c2.conv.pending.value.uuid == c.nextId && !c2.conv.pending.value.IsProxy()
            && c2.conv.pending.value.toolName == tool && c2.conv.pending.value.toolArgs == args
            && c2.conv.pipeline.Some? && c2.conv.pipeline.value.path == [0]
  {
    hide ResolveTemplate, At;
    assert [] + [0] == [0];
    var (c2, o) := ExecNode(w, root.agents[0], c, text, None, [0], false);
    assert o.Waits();
    assert SeqFrom(w, root, c, text, [], false, 0, None) == (c2, o);
  }

  /** Without such a tree an answered call may run again: from any reachable store, a message makes the
      first child ask for approval; its tool succeeds, the resumed run then fails at the next child,
      nothing is saved, and the same answer calls the tool once more. */
  lemma AbortedRunCallsAgain(w: World, cfg: Config, requests: seq<Request>, id: Id, text: string, tool: string,
                             args: Args)
    requires cfg.root.Some? && RunsIntoUnknown(w, cfg.root.value)
    requires AlwaysCalls(w, cfg.root.value.agents[0], tool, args)
    requires id in Serve(w, cfg, requests).store && Serve(w, cfg, requests).store[id].status == Active && text != ""
    ensures !Configured(w, cfg.root.value)
    ensures var asked := Serve(w, cfg, requests + [UserMessage(id, text)]);
            var uuid, call := Serve(w, cfg, requests).nextId, Event([0], RunTool(tool, args));
            var once := Step(w, cfg, asked, ApprovalAnswer(uuid, true));
            var twice := Step(w, cfg, once, ApprovalAnswer(uuid, true));
            && FindByUuid(asked.store, uuid) == Some(id) && CallAnswers(w, Open(asked, asked.store[id]))
            && once.store == asked.store && once.trace == asked.trace + [call] && !once.log[|asked.log|].ok
            && twice.store == asked.store && twice.trace == asked.trace + [call] + [call]
  {
    var all := requests + [UserMessage(id, text)];
    assert all[..|all| - 1] == requests;
    ServeKeeps(w, cfg, requests);
    ServeKeeps(w, cfg, all);
    var s, asked := Serve(w, cfg, requests), Serve(w, cfg, all);
    var c := Open(s, s.store[id]);
    FirstChildPauses(w, cfg.root.value, c.Say([Text(RoleUser, text)]).(values := map[]), text, tool, args);
    assert Holds(asked.store[id], s.nextId);
    AbortedGrantRepeats(w, cfg, asked, s.nextId);
  }
}
