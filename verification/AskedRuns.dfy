/** What agents with a tree send, over every run of requests. */
module AskedRuns {
  import opened Prelude
  import opened Conversations
  import opened World
  import opened Orchestrator
  import opened Records
  import opened Api
  import opened ApiFacts
  import opened Lifecycle
  import opened ApprovalRuns
  import opened Asked

  /** Events from position first on are due in a run that began there. */
  ghost predicate DueFrom(w: World, root: AgentNode, values: map<string, string>, userMessage: string,
                          trace: seq<Event>, first: nat) {
    forall k :: first <= k < |trace| ==> Warranted(w, root, values, userMessage, trace, first, k)
  }

  lemma MessageDue(w: World, cfg: Config, c: Ctx, text: string)
    requires !cfg.IsSimple()
    ensures var d := ProcessMessage(w, cfg, c, text).0;
            c.trace <= d.trace && DueFrom(w, cfg.root.value, map[], text, d.trace, |c.trace|)
  {
    hide Warranted;
    RunsCallWhatIsDue(w, cfg.root.value, c.Say([Text(RoleUser, text)]).(values := map[]), text, None, false);
  }

  lemma ResumeIsDue(w: World, cfg: Config, c: Ctx, pl: Pipeline, result: string, viaProxy: bool)
    requires !cfg.IsSimple() && Recorded(cfg.root.value, pl)
    ensures var d := ResumePipeline(w, cfg, c, pl, result, viaProxy).0;
            c.trace <= d.trace && DueFrom(w, cfg.root.value, pl.session, pl.userMessage, d.trace, |c.trace|)
  {
    hide Warranted;
    var root := cfg.root.value;
    LeafWrites(root, pl.path);
    var loaded := c.(values := pl.session);
    var start := if viaProxy then loaded.Set(pl.outputKey, result) else loaded;
    var r := Resume(pl.path, result, pl.outputKey);
    RunsCallWhatIsDue(w, root, start, pl.userMessage, Some(r), false);
    var d := ExecNode(w, root, start, pl.userMessage, Some(r), [], false).0;
    forall k | |c.trace| <= k < |d.trace|
      ensures Warranted(w, root, pl.session, pl.userMessage, d.trace, |c.trace|, k)
    {
      DueEarlier(w, root, pl.session, start.values, pl.userMessage, d.trace, |c.trace|, |c.trace|, k);
    }
  }

  lemma GrantDue(w: World, cfg: Config, c: Ctx)
    requires !cfg.IsSimple() && c.conv.pending.Some? && c.conv.pipeline.Some?
    requires Recorded(cfg.root.value, c.conv.pipeline.value)
    ensures var d, pl := ResolveApproval(w, cfg, c, true).0, c.conv.pipeline.value;
            c.trace <= d.trace && DueFrom(w, cfg.root.value, pl.session, pl.userMessage, d.trace, |c.trace| + 1)
  {
    var resumed, c3, result, viaProxy := GrantOpens(w, cfg, c);
    hide ResolveApproval, ResumePipeline, Warranted;
    if resumed {
      ResumeIsDue(w, cfg, c3, c.conv.pipeline.value, result, viaProxy);
    }
  }

  /** What a request makes the tree call: with an empty session and the message, or, after the granted
      call itself, with the session and the message that were stored when the run paused. */
  ghost predicate CalledFor(w: World, root: AgentNode, s: Sys, request: Request, trace: seq<Event>) {
    && s.trace <= trace
    && match request
       case Start => trace == s.trace
       case UserMessage(_, text) => DueFrom(w, root, map[], text, trace, |s.trace|)
       case ApprovalAnswer(uuid, approved) =>
         var found := FindByUuid(s.store, uuid);
         approved && found.Some? && s.store[found.value].pipeline.Some? ==>
           var pl := s.store[found.value].pipeline.value;
           DueFrom(w, root, pl.session, pl.userMessage, trace, |s.trace| + 1)
  }

  lemma MessageStepDue(w: World, cfg: Config, s: Sys, id: Id, text: string)
    requires !cfg.IsSimple()
    ensures CalledFor(w, cfg.root.value, s, UserMessage(id, text), Step(w, cfg, s, UserMessage(id, text)).trace)
  {
    hide Warranted, ProcessMessage;
    if id in s.store && text != "" {
      MessageDue(w, cfg, Open(s, s.store[id]), text);
    }
  }

  lemma GrantStepDue(w: World, cfg: Config, s: Sys, uuid: Id, approved: bool)
    requires !cfg.IsSimple() && StoreFiled(cfg, s)
    ensures var request := ApprovalAnswer(uuid, approved);
            CalledFor(w, cfg.root.value, s, request, Step(w, cfg, s, request).trace)
  {
    hide DueFrom, ResolveApproval, Recorded;
    var found := FindByUuid(s.store, uuid);
    if found.Some? {
      var c := Open(s, s.store[found.value]);
      ResolveApprovalResolves(w, cfg, c, approved);
      if approved && c.conv.pipeline.Some? {
        GrantDue(w, cfg, c);
      }
    } else {
      assert Step(w, cfg, s, ApprovalAnswer(uuid, approved)).trace == s.trace;
    }
  }

  /** After any requests, whatever a request makes the tree call is what it has to call. */
  lemma ServedCallsAreWarranted(w: World, cfg: Config, requests: seq<Request>, request: Request)
    requires !cfg.IsSimple()
    ensures CalledFor(w, cfg.root.value, Serve(w, cfg, requests), request, Serve(w, cfg, requests + [request]).trace)
  {
    var all := requests + [request];
    assert all[..|all| - 1] == requests;
    ServeFiles(w, cfg, requests);
    hide StoreFiled, DueFrom, ProcessMessage, ResolveApproval;
    match request
    case Start =>
    case UserMessage(id, text) => MessageStepDue(w, cfg, Serve(w, cfg, requests), id, text);
    case ApprovalAnswer(uuid, approved) => GrantStepDue(w, cfg, Serve(w, cfg, requests), uuid, approved);
  }
}
