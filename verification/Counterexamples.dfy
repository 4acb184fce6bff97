/** Where hoped-for properties stop: runs that show why the theorems carry their hypotheses. */
module Counterexamples {
  import opened Prelude
  import opened Conversations
  import opened World
  import opened Orchestrator
  import opened PauseResume
  import opened Budget
  import opened Api
  import opened Chat
  import opened Records
  import opened Pairing

  // ---------- a second approval from the same remote task ----------

  /** The context in which a granted proxy is passed on. */
  function Passing(c: Ctx): Ctx
    requires c.conv.pending.Some?
  {
    Cleared(c).Say([Text(RoleUser, APPROVED_TEXT)])
  }

  /** When a granted proxy's task asks for input again, the pipeline it belonged to is forgotten:
      granting the second approval goes on with the single-model loop, whatever the tree is. */
  lemma SecondProxyLosesPipeline(w: World, cfg: Config, c: Ctx)
    requires c.conv.pending.Some? && c.conv.pending.value.IsProxy() && c.conv.pending.value.remoteAgent in w.clients
    requires ProxyAnswer(w, c).RemoteTask? && ProxyAnswer(w, c).task.state.InputRequired?
    requires ProxyAnswer(w, c).task.id != NO_ID
    ensures var (c2, reply) := ResolveApproval(w, cfg, c, true);
            && reply.Replied? && reply.result.waiting && c2.saved == c2.conv
            && c2.conv.pending.Some? && c2.conv.pending.value.IsProxy() && c2.conv.pipeline.None?
            && (ProxyAnswer(w, c2).RemoteTask? && ProxyAnswer(w, c2).task.state.TaskCompleted? ==>
                  var p, task := c2.conv.pending.value, ProxyAnswer(w, c2).task;
                  var c3 := LogAt(Passing(c2), None, ContinueTask(p.remoteAgent, p.remoteTaskId, ANSWER_APPROVED))
                            .Say([ResultRecord(p.toolName, task.text, false)]);
                  ResolveApproval(w, cfg, c2, true) == RunSimple(w, cfg, c3))
  {
  }

  // ---------- an approval asked for under a loop ----------

  const ASKER := AgentNode("x", A2A, "", "", "", false, 0, [], false, [])

  const LOOP_ONCE := AgentNode("loop", Kind.Loop, "", "", "", false, 1, [ASKER], false, [])

  lemma AskerRuns(w: World, c: Ctx, text: string)
    requires "x" in w.clients && w.send(c.trace, "x", text).RemoteTask?
    requires w.send(c.trace, "x", text).task.state.InputRequired?
    ensures var (c1, o) := ExecNode(w, LOOP_ONCE, c, text, None, [], false);
            var task := w.send(c.trace, "x", text).task;
            && c1.trace == c.trace + [Event([0], SendTask("x", text))] && o.Waits()
            && c1.conv.pending.Some? && c1.conv.pending.value.remoteTaskId == task.id
            && c1.conv.pending.value.remoteAgent == "x"
            && c1.conv.pipeline.Some? && c1.conv.pipeline.value.path == [0]
            && c1.conv.pipeline.value.userMessage == text
  {
    var path := [] + [0];
    assert path == [0];
    var (c1, o) := ExecNode(w, ASKER, c, text, None, path, true);
    assert ResolveTemplate("", c.values) == "";
    assert At(path, [] + [SendTask("x", text)]) == [Event(path, SendTask("x", text))];
    assert LoopRound(w, LOOP_ONCE, c, text, [], 1, None) == (c, Done(None));
    assert LoopRound(w, LOOP_ONCE, c1, text, [], 1, Some(o.result)) == (c1, Done(Some(o.result)));
    assert LoopRound(w, LOOP_ONCE, c, text, [], 0, None) == (c1, Done(Some(o.result)));
    assert ExecLoop(w, LOOP_ONCE, c1, text, [], 0, Some(o.result)) == (c1, Ok(o.result));
    assert MaxIterations(LOOP_ONCE) == 1;
  }

  /** A resumed loop ignores where it paused and starts over. */
  lemma LoopStartsOver(w: World, c: Ctx, text: string, r: Resume)
    ensures ExecNode(w, LOOP_ONCE, c, text, Some(r), [], false) == ExecNode(w, LOOP_ONCE, c, text, None, [], false)
  {
  }

  /** A task that asks for input under a loop: the recorded path is none that a resume can follow,
      and after one granted approval the tree has made more executions than its bound. */
  lemma LoopPauseRepeatsWork(w: World, cfg: Config, c: Ctx, text: string)
    requires cfg.root == Some(LOOP_ONCE) && c.conv.status == Active && c.conv.pending.None? && "x" in w.clients
    requires forall h ::
               w.send(h, "x", text).RemoteTask? && w.send(h, "x", text).task.state.InputRequired?
               && w.send(h, "x", text).task.id != NO_ID
    requires forall h, id ::
               w.resumeTask(h, "x", id, ANSWER_APPROVED).RemoteTask?
               && w.resumeTask(h, "x", id, ANSWER_APPROVED).task.state.TaskCompleted?
    ensures var c1 := ProcessMessage(w, cfg, c, text).0;
            var c2 := ResolveApproval(w, cfg, c1, true).0;
            && c1.conv.pipeline.Some? && !Spine(LOOP_ONCE, c1.conv.pipeline.value.path)
            && Work(LOOP_ONCE) == 1 && Executions(c2.trace) == Executions(c.trace) + 2
  {
    var start := c.Say([Text(RoleUser, text)]).(values := map[]);
    AskerRuns(w, start, text);
    var c1 := ProcessMessage(w, cfg, c, text).0;
    var send := Event([0], SendTask("x", text));
    assert c1.trace == c.trace + [send];
    CountSnoc(c.trace, send);
    assert WorkFrom(LOOP_ONCE, 1) == 0 && WorkFrom(LOOP_ONCE, 0) == 1 && MaxIterations(LOOP_ONCE) == 1;
    assert Work(LOOP_ONCE) == 1;
    assert !Spine(LOOP_ONCE, [0]);
    GrantedLoopRepeats(w, cfg, c1, text);
  }

  lemma GrantedLoopRepeats(w: World, cfg: Config, c: Ctx, text: string)
    requires cfg.root == Some(LOOP_ONCE) && "x" in w.clients
    requires c.conv.pending.Some? && c.conv.pending.value.IsProxy() && c.conv.pending.value.remoteAgent == "x"
    requires c.conv.pipeline.Some? && c.conv.pipeline.value.userMessage == text
    requires ProxyAnswer(w, c).RemoteTask? && ProxyAnswer(w, c).task.state.TaskCompleted?
    requires forall h :: w.send(h, "x", text).RemoteTask? && w.send(h, "x", text).task.state.InputRequired?
    ensures Executions(ResolveApproval(w, cfg, c, true).0.trace) == Executions(c.trace) + 1
  {
    var p, pl, task := c.conv.pending.value, c.conv.pipeline.value, ProxyAnswer(w, c).task;
    var answer := Event(pl.path, ContinueTask("x", p.remoteTaskId, ANSWER_APPROVED));
    var passed := LogAt(Passing(c), Some(pl), ContinueTask("x", p.remoteTaskId, ANSWER_APPROVED));
    var c1 := passed.Say([ResultRecord(p.toolName, task.text, false)]);
    assert ResolveApproval(w, cfg, c, true) == ResumePipeline(w, cfg, c1, pl, task.text, true);
    var c2 := c1.(values := pl.session).Set(pl.outputKey, task.text);
    LoopStartsOver(w, c2, text, Resume(pl.path, task.text, pl.outputKey));
    AskerRuns(w, c2, text);
    CountSnoc(c.trace, answer);
    CountSnoc(c.trace + [answer], Event([0], SendTask("x", text)));
  }

  // ---------- a delegation without its call record ----------

  const CALLER := AgentNode("m", LLM, "", "", "", false, 0, [], false, ["x"])

  const ONE_CALLER := AgentNode("root", Sequential, "", "", "", false, 0, [CALLER], false, [])

  /** Every model call asks for x, which is destructive and completes every task. */
  ghost predicate AlwaysAsksX(w: World, args: Args) {
    && w.modelReady("") && "x" in w.clients && w.clients["x"]
    && (forall h, call :: w.llm(h, call) == LlmTool(A2A_PREFIX + "x", args))
    && (forall h ::
        w.send(h, "x", MessageArg(args)).RemoteTask? && w.send(h, "x", MessageArg(args)).task.state.TaskCompleted?)
  }

  /** The pause records its approval and a text, and no call. */
  lemma CallerPauses(w: World, c: Ctx, text: string, args: Args)
    requires AlwaysAsksX(w, args)
    ensures var (c1, o) := ExecNode(w, ONE_CALLER, c, text, None, [], false);
            && o.Waits() && c1.conv.messages == c.conv.messages + [Text(RoleAssistant, o.result.response)]
            && c1.conv.pending.Some? && !c1.conv.pending.value.IsProxy()
            && c1.conv.pending.value.toolName == A2A_PREFIX + "x" && c1.conv.pending.value.toolArgs == args
            && c1.conv.pipeline.Some? && c1.conv.pipeline.value.path == [0]
            && c1.conv.pipeline.value.userMessage == text
  {
    hide ResolveTemplate;
    var (c1, o) := ExecNode(w, CALLER, c, text, None, [0], false);
    assert TrimPrefix(A2A_PREFIX + "x", A2A_PREFIX) == "x";
    assert [] + [0] == [0];
    assert (A2A_PREFIX + "x")[0] == 'a' && EXIT_LOOP[0] == 'e';
    assert o.Waits();
    assert SeqFrom(w, ONE_CALLER, c, text, [], false, 0, None) == (c1, o);
  }

  /** The call of a language-model node that asks for a destructive agent is not recorded, so the
      result recorded after the grant answers no call, however well paired the conversation was. */
  lemma OrchestratedDelegationIsUnpaired(w: World, cfg: Config, c: Ctx, text: string, args: Args)
    requires cfg.root == Some(ONE_CALLER) && AlwaysAsksX(w, args)
    requires c.conv.status == Active && Scan(c.conv.messages) == Answered
    ensures var c1 := ProcessMessage(w, cfg, c, text).0;
            && c1.conv.pending.Some? && Paired(c1.conv.messages)
            && !Paired(ResolveApproval(w, cfg, c1, true).0.conv.messages)
  {
    hide ExecNode, Scan, ResolveApproval;
    var start := c.Say([Text(RoleUser, text)]).(values := map[]);
    SayKeeps(c.conv.messages, text);
    CallerPauses(w, start, text, args);
    var (c2, o) := ExecNode(w, ONE_CALLER, start, text, None, [], false);
    SayKeeps(start.conv.messages, o.result.response);
    var c1 := ProcessMessage(w, cfg, c, text).0;
    assert c1.conv == c2.conv;
    ScanIsPairing(c1.conv.messages);
    GrantPairsExactly(w, cfg, c1);
    ScanIsPairing(ResolveApproval(w, cfg, c1, true).0.conv.messages);
  }

  // ---------- a result for a call that is no longer the last ----------

  const ANSWERER := AgentNode("y", A2A, "", "", "", false, 0, [], false, [])

  const BOTH := AgentNode("both", Kind.Parallel, "", "", "", false, 0, [ASKER, ANSWERER], false, [])

  /** x asks for input, y answers, and neither is destructive. */
  ghost predicate OneAsks(w: World, text: string) {
    && "x" in w.clients && !w.clients["x"] && "y" in w.clients && !w.clients["y"]
    && (forall h ::
        w.send(h, "x", text).RemoteTask? && w.send(h, "x", text).task.state.InputRequired?
        && w.send(h, "x", text).task.id != NO_ID)
    && (forall h :: w.send(h, "y", text).RemoteTask? && w.send(h, "y", text).task.state.TaskCompleted?)
    && (forall h, id ::
        w.resumeTask(h, "x", id, ANSWER_APPROVED).RemoteTask?
        && w.resumeTask(h, "x", id, ANSWER_APPROVED).task.state.TaskCompleted?)
  }

  /** The pause of x is ignored, and the records of y follow its call. */
  lemma BothRun(w: World, c: Ctx, text: string)
    requires OneAsks(w, text) && !Broke(c.conv)
    ensures var (c2, o) := ExecNode(w, BOTH, c, text, None, [], false);
            && o.Ok? && !o.result.waiting && Scan(c2.conv.messages) == Answered
            && c2.conv.pending.Some? && c2.conv.pending.value.IsProxy() && c2.conv.pending.value.remoteAgent == "x"
            && c2.conv.pending.value.toolName == A2A_PREFIX + "x" && c2.conv.pipeline.Some?
  {
    assert [] + [0] == [0] && [] + [1] == [1];
    var (c1, o1) := ExecNode(w, ASKER, c, text, None, [0], true);
    var (c2, o2) := ExecNode(w, ANSWERER, c1, text, None, [1], true);
    AskerPauses(w, c, text, c1);
    AnswererAnswers(w, c1, text, c2);
    assert o1.Ok? && o2.Ok?;
    assert ExecParallel(w, BOTH, c2, text, [], 2, [o1.result.response] + [o2.result.response]).0 == c2;
    assert ExecParallel(w, BOTH, c1, text, [], 1, [o1.result.response])
        == ExecParallel(w, BOTH, c2, text, [], 2, [o1.result.response] + [o2.result.response]);
    assert ExecParallel(w, BOTH, c, text, [], 0, [])
        == ExecParallel(w, BOTH, c1, text, [], 1, [o1.result.response])
        by { assert [] + [o1.result.response] == [o1.result.response]; }
  }

  lemma AskerPauses(w: World, c: Ctx, text: string, c1: Ctx)
    requires OneAsks(w, text) && !Broke(c.conv) && c1 == ExecNode(w, ASKER, c, text, None, [0], true).0
    ensures ExecNode(w, ASKER, c, text, None, [0], true).1.Ok? && !Broke(c1.conv)
    ensures c1.conv.pending.Some? && c1.conv.pending.value.IsProxy() && c1.conv.pending.value.remoteAgent == "x"
    ensures c1.conv.pending.value.toolName == A2A_PREFIX + "x" && c1.conv.pipeline.Some?
  {
    LeafKeepsPairing(w, ASKER, c, text, [0], true);
  }

  lemma AnswererAnswers(w: World, c: Ctx, text: string, c1: Ctx)
    requires OneAsks(w, text) && !Broke(c.conv) && c1 == ExecNode(w, ANSWERER, c, text, None, [1], true).0
    ensures ExecNode(w, ANSWERER, c, text, None, [1], true).1.Ok?
    ensures Scan(c1.conv.messages) == Answered && c1.conv.pending == c.conv.pending
    ensures c1.conv.pipeline == c.conv.pipeline
  {
    var name, args: Args := A2A_PREFIX + "y", map["message" := Str(text)];
    var task := w.send(c.trace, "y", text).task;
    AnswererSays(w, c, text, c1);
    AnsweredRecords(c.conv.messages, name, args, task.text, w.render(Prefixed("y", task.text)));
    hide Scan, ExecNode;
  }

  lemma AnsweredRecords(ms: seq<Message>, name: string, args: Args, result: string, note: string)
    requires Scan(ms) != Broken
    ensures Scan(ms + [CallRecord(name, args), ResultRecord(name, result, false), Text(RoleAssistant, note)])
            == Answered
  {
    hide *;
    CallThen(ms, name, args, ResultRecord(name, result, false));
    var answered := ms + [CallRecord(name, args), ResultRecord(name, result, false)];
    SayKeeps(answered, note);
    assert ms + [CallRecord(name, args), ResultRecord(name, result, false), Text(RoleAssistant, note)]
        == answered + [Text(RoleAssistant, note)];
  }

  lemma AnswererSays(w: World, c: Ctx, text: string, c1: Ctx)
    requires OneAsks(w, text) && c1 == ExecNode(w, ANSWERER, c, text, None, [1], true).0
    ensures ExecNode(w, ANSWERER, c, text, None, [1], true).1.Ok?
    ensures c1.conv.pending == c.conv.pending && c1.conv.pipeline == c.conv.pipeline
    ensures var name, args: Args := A2A_PREFIX + "y", map["message" := Str(text)];
            var task := w.send(c.trace, "y", text).task;
            c1.conv.messages == c.conv.messages + [CallRecord(name, args), ResultRecord(name, task.text, false),
                                                   Text(RoleAssistant, w.render(Prefixed("y", task.text)))]
  {
    hide Scan, ResolveTemplate, At;
  }

  /** No remote agent here is destructive, and still the granted result answers no call: the second
      cause, apart from unrecorded delegations. */
  lemma IgnoredPauseIsUnpaired(w: World, cfg: Config, c: Ctx, text: string)
    requires cfg.root == Some(BOTH) && OneAsks(w, text) && c.conv.status == Active && !Broke(c.conv)
    ensures var c1 := ProcessMessage(w, cfg, c, text).0;
            && c1.conv.pending.Some? && Paired(c1.conv.messages)
            && !Paired(ResolveApproval(w, cfg, c1, true).0.conv.messages)
  {
    var start := c.Say([Text(RoleUser, text)]).(values := map[]);
    SayKeeps(c.conv.messages, text);
    BothRun(w, start, text);
    var c1 := ProcessMessage(w, cfg, c, text).0;
    assert c1.conv == ExecNode(w, BOTH, start, text, None, [], false).0.conv;
    ScanIsPairing(c1.conv.messages);
    GrantPairsExactly(w, cfg, c1);
    ScanIsPairing(ResolveApproval(w, cfg, c1, true).0.conv.messages);
  }
}
