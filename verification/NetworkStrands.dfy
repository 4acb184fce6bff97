/** When a delegated conversation is left waiting with no proxy for it: exactly which answers do it. */
module NetworkStrands {
  import opened Prelude
  import opened Conversations
  import opened World
  import opened Orchestrator
  import opened SimpleAgent
  import opened Api
  import opened Network
  import opened NetworkProofs
  import opened NetworkApprovals

  // ---------- the delegation a grant releases ----------

  /** The context in which a granted approval is carried out. */
  ghost function Granting(g: Grid, id: Id): Ctx
    requires Waits(g, id)
  {
    Cleared(Open(g, g.store[id].conv)).Say([Text(RoleUser, APPROVED_TEXT)])
  }

  /** The grid in which the proxy of id passes the grant on. */
  ghost function PassedDown(g: Grid, id: Id): Grid
    requires Waits(g, id)
  {
    var p := g.store[id].conv.pending.value;
    Put(g, id, Log(Granting(g, id), ContinueTask(p.remoteAgent, p.remoteTaskId, ANSWER_APPROVED)))
  }

  lemma PassesDown(net: seq<Agent>, g: Grid, id: Id)
    requires Inv(net, g, Some(id)) && Waits(g, id) && g.store[id].conv.pending.value.IsProxy()
    ensures var t, g1 := g.store[id].conv.pending.value.remoteTaskId, PassedDown(g, id);
            && Inv(net, g1, Some(t)) && Waits(g1, t) && g1.store[t].host == g.store[t].host
            && t in g.store && g.store[id].host < g.store[t].host < |net| && g1.orphans == g.orphans
            && g1.store.Keys == g.store.Keys
  {
    var p := g.store[id].conv.pending.value;
    assert SeatOk(net, g, id);
    ProxyNext(net, g, id);
    ProxyPut(net, g, id, Log(Granting(g, id), ContinueTask(p.remoteAgent, p.remoteTaskId, ANSWER_APPROVED)));
    assert SeatOk(net, g, p.remoteTaskId);
  }

  /** What the delegation at the end of the chain of id answers when id's approval is granted. */
  ghost function GrantedSend(net: seq<Agent>, g: Grid, id: Id): (r: Option<(Grid, RemoteReply)>)
    requires Inv(net, g, Some(id)) && Waits(g, id)
    decreases |net| - g.store[id].host
  {
    assert SeatOk(net, g, id);
    var p, me := g.store[id].conv.pending.value, net[g.store[id].host];
    if p.IsProxy() then
      PassesDown(net, g, id);
      GrantedSend(net, PassedDown(g, id), p.remoteTaskId)
    else if HasPrefix(p.toolName, A2A_PREFIX) then
      var agent, text := TrimPrefix(p.toolName, A2A_PREFIX), MessageArg(p.toolArgs);
      Some(SendTo(net, Put(g, id, Log(Granting(g, id), SendTask(agent, text))), me.links[agent], text, id))
    else None
  }

  /** The task whose question is taken as a result, if the delegation's answer is one. */
  ghost function Stranded(net: seq<Agent>, g: Grid, id: Id): set<Id>
    requires Inv(net, g, Some(id)) && Waits(g, id)
  {
    var sent := GrantedSend(net, g, id);
    if sent.Some? && sent.value.1.RemoteTask? && sent.value.1.task.state.InputRequired? then {sent.value.1.task.id}
    else {}
  }

  // ---------- one grant ----------

  lemma AfterGrantOrphans(net: seq<Agent>, g: Grid, id: Id, p: Pending, agent: string, reply: RemoteReply)
    requires TaskKnown(net, g, id, agent, reply) && !Waits(g, id)
    ensures AfterGrant(net, g, id, p, reply).0.orphans
            == g.orphans + (if reply.RemoteTask? && reply.task.state.InputRequired? then {reply.task.id} else {})
  {
    assert SeatOk(net, g, id);
    var c := Open(g, g.store[id].conv);
    match reply
    case RemoteError(e) =>
      var c2 := c.Say([ResultRecord(p.toolName, net[g.store[id].host].w.render(AgentFailed("", e)), true)]);
      RunOnOrphans(net, g, id, c2);
    case RemoteTask(task) =>
      var c2 := c.Say([ResultRecord(p.toolName, task.text, task.state.TaskFailed?)]);
      if task.state.InputRequired? {
        Orphaned(net, g, task.id);
        RunOnOrphans(net, g.(orphans := g.orphans + {task.id}), id, c2);
      } else {
        HoleFills(net, g, task.id);
        RunOnOrphans(net, g, id, c2);
      }
  }

  lemma RunOnOrphans(net: seq<Agent>, g: Grid, id: Id, c: Ctx)
    requires Inv(net, g, None) && id in g.store && !Waits(g, id)
    requires PlainStep(net[g.store[id].host].w, Open(g, g.store[id].conv), c) && c.conv.pending.None?
    ensures RunOn(net, Put(g, id, c), id).0.orphans == g.orphans
  {
    PutIdle(net, g, id, c);
    ConverseKeeps(net, Put(g, id, c), id, MAX_TOOL_ITERATIONS);
  }

  /** A granted tool call leaves no task behind. */
  lemma ToolOrphans(net: seq<Agent>, g: Grid, id: Id, p: Pending, c: Ctx, reply: ToolReply)
    requires Inv(net, g, Some(id)) && Waits(g, id) && p == g.store[id].conv.pending.value && !p.IsProxy()
    requires ConvStep(Open(g, g.store[id].conv), c) && c.conv.pending.None? && c.nextId == g.nextId
    requires c.trace == g.trace + [ChatEvent(ApprovedCall(p.toolName, p.toolArgs))]
    ensures ResolveTool(net, g, id, p, c, reply).0.orphans == g.orphans
  {
    assert SeatOk(net, g, id);
    hide Inv, NetOk, Hosted, ConvStep, SeatOk, GateAt, Chain, TailCall;
    var w := net[g.store[id].host].w;
    match reply
    case ToolAuthRequired =>
    case ToolFailed(e) =>
      var c2 := c.Say([ResultRecord(p.toolName, w.render(ToolBroken("", e)), true)]);
      ReleasedPut(net, g, id, c2);
      ConverseKeeps(net, Put(g, id, c2), id, MAX_TOOL_ITERATIONS);
    case ToolOk(text, isError) =>
      var c2 := c.Say([ResultRecord(p.toolName, text, isError)]);
      ReleasedPut(net, g, id, c2);
      ConverseKeeps(net, Put(g, id, c2), id, MAX_TOOL_ITERATIONS);
  }

  lemma DelegationOrphans(net: seq<Agent>, g: Grid, id: Id)
    requires Inv(net, g, Some(id)) && Waits(g, id)
    requires var p := g.store[id].conv.pending.value; !p.IsProxy() && HasPrefix(p.toolName, A2A_PREFIX)
    ensures Resolve(net, g, id, true).0.orphans == g.orphans + Stranded(net, g, id)
    ensures forall t :: t in Stranded(net, g, id) ==> t !in g.store
  {
    var p := g.store[id].conv.pending.value;
    var agent, text := TrimPrefix(p.toolName, A2A_PREFIX), MessageArg(p.toolArgs);
    assert SeatOk(net, g, id);
    var c1 := Log(Granting(g, id), SendTask(agent, text));
    var (g2, reply) := GrantedSend(net, g, id).value;
    ReleasedPut(net, g, id, c1);
    SendKeeps(net, Put(g, id, c1), net[g.store[id].host].links[agent], text, id);
    AfterGrantOrphans(net, g2, id, p, agent, reply);
  }

  /** A grant, at the head or inside any chain of proxies, adds exactly the task whose question was
      taken as a result: a new one. */
  lemma {:induction false} GrantStrands(net: seq<Agent>, g: Grid, id: Id)
    requires Inv(net, g, Some(id)) && Waits(g, id)
    ensures Resolve(net, g, id, true).0.orphans == g.orphans + Stranded(net, g, id)
    ensures forall t :: t in Stranded(net, g, id) ==> t !in g.store
    decreases |net| - g.store[id].host
  {
    assert SeatOk(net, g, id);
    var p := g.store[id].conv.pending.value;
    if p.IsProxy() {
      PassesDown(net, g, id);
      GrantStrands(net, PassedDown(g, id), p.remoteTaskId);
      ProxyOrphans(net, g, id, p);
    } else if HasPrefix(p.toolName, A2A_PREFIX) {
      DelegationOrphans(net, g, id);
    } else {
      ToolOrphans(net, g, id, p, Log(Granting(g, id), RunTool(p.toolName, p.toolArgs)),
                  net[g.store[id].host].w.runTool(g.trace, p.toolName, p.toolArgs));
    }
  }

  lemma PassedOn(net: seq<Agent>, g: Grid, id: Id, p: Pending)
    requires Inv(net, g, Some(id)) && Waits(g, id) && p == g.store[id].conv.pending.value && p.IsProxy()
    ensures var t, g1 := p.remoteTaskId, PassedDown(g, id);
            && Inv(net, g1, Some(t)) && Waits(g1, t) && p.remoteAgent in net[g.store[id].host].links
            && net[g.store[id].host].links[p.remoteAgent] == g1.store[t].host
            && ContinueOn(net, g1, g1.store[t].host, t, ANSWER_APPROVED).0 == Resolve(net, g1, t, true).0
  {
    hide Resolve, ContinueOn, IsApprovalMessage;
    PassesDown(net, g, id);
    ProxyNext(net, g, id);
    ApprovalWords();
    ContinueResolves(net, PassedDown(g, id), p.remoteTaskId, ANSWER_APPROVED);
  }

  lemma ReplyOrphans(net: seq<Agent>, g: Grid, id: Id, p: Pending)
    requires Inv(net, g, Some(id)) && Waits(g, id) && p == g.store[id].conv.pending.value && p.IsProxy()
    requires p.remoteAgent in net[g.store[id].host].links
    ensures Hosted(net, PassedDown(g, id))
    ensures ResolveProxy(net, g, id, p, Granting(g, id)).0.orphans
            == ContinueOn(net, PassedDown(g, id), net[g.store[id].host].links[p.remoteAgent], p.remoteTaskId,
                          ANSWER_APPROVED).0.orphans
  {
    PassesDown(net, g, id);
    assert Hosted(net, PassedDown(g, id));
    hide ContinueOn, TakeReply, TaskKnown, FrameBelow, GateAt, Chain, TailCall, Inv, Hosted;
    ProxyPasses(net, g, id, p, Granting(g, id));
    var me := net[g.store[id].host];
    var (g2, reply) := ContinueOn(net, PassedDown(g, id), me.links[p.remoteAgent], p.remoteTaskId, ANSWER_APPROVED);
    TakeReplyKeeps(net, g2, id, MAX_TOOL_ITERATIONS, p.remoteAgent, p.toolName, p.toolArgs, reply);
  }

  /** Passing a grant on and taking the reply leave the tasks that the rest of the chain leaves. */
  lemma ProxyOrphans(net: seq<Agent>, g: Grid, id: Id, p: Pending)
    requires Inv(net, g, Some(id)) && Waits(g, id) && p == g.store[id].conv.pending.value && p.IsProxy()
    ensures var t, g1 := p.remoteTaskId, PassedDown(g, id);
            && Inv(net, g1, Some(t)) && Waits(g1, t)
            && Resolve(net, g, id, true).0.orphans == Resolve(net, g1, t, true).0.orphans
  {
    assert SeatOk(net, g, id);
    assert Resolve(net, g, id, true) == ResolveProxy(net, g, id, p, Granting(g, id));
    hide Resolve, ContinueOn, ResolveProxy, PassedDown, Inv;
    PassedOn(net, g, id, p);
    ReplyOrphans(net, g, id, p);
  }

  // ---------- whole runs ----------

  /** The tasks that serving d strands: known before, from the delegation its grant releases. */
  ghost function StrandsBy(net: seq<Agent>, g: Grid, d: Demand): set<Id>
    requires Inv(net, g, None)
  {
    if d.Decide? && d.approved && Waits(g, d.id) && g.store[d.id].upstream.None? then
      HeadHole(net, g, d.id);
      Stranded(net, g, d.id)
    else {}
  }

  lemma ServeStrands(net: seq<Agent>, g: Grid, d: Demand)
    requires Inv(net, g, None)
    ensures Serve(net, g, d).orphans == g.orphans + StrandsBy(net, g, d)
    ensures forall t :: t in StrandsBy(net, g, d) ==> t !in g.store
  {
    match d
    case Begin(host) =>
    case Say(id, text) =>
      if id in g.store && g.store[id].upstream.None? && text != "" && g.store[id].conv.status != WaitingApproval {
        SayStarts(net, g, id, text);
        ConverseKeeps(net, Put(g, id, Open(g, g.store[id].conv.AddMessage(RoleUser, text))), id, MAX_TOOL_ITERATIONS);
      }
    case Decide(id, approved) =>
      if Waits(g, id) && g.store[id].upstream.None? {
        HeadHole(net, g, id);
        if approved {
          GrantStrands(net, g, id);
        } else {
          ResolveRejects(net, g, id);
        }
      }
  }

  /** After any demands: messages and rejections strand nothing, and a grant strands exactly the new
      task that the delegation at the end of its chain reports as asking for input, however long the
      chain is. The task then waits for an answer that no proxy can pass on. */
  lemma GrantedDelegationStrands(net: seq<Agent>, ds: seq<Demand>, d: Demand)
    requires NetOk(net)
    ensures Inv(net, ServeAll(net, ds), None)
    ensures var g := ServeAll(net, ds);
            var g2, stranded := Serve(net, g, d), StrandsBy(net, g, d);
            && g2.orphans == g.orphans + stranded
            && forall t :: t in stranded ==> t !in g.store && Waits(g2, t) && forall u: Id :: !Points(g2, u, t)
  {
    ServeAllAgrees(net, ds);
    var g := ServeAll(net, ds);
    ServeStrands(net, g, d);
    ServeAgrees(net, g, d);
  }

  /** The demand at k strands a task. */
  ghost predicate StrandsAt(net: seq<Agent>, ds: seq<Demand>, k: nat)
    requires NetOk(net) && k < |ds|
  {
    ServeAllAgrees(net, ds[..k]);
    StrandsBy(net, ServeAll(net, ds[..k]), ds[k]) != {}
  }

  lemma StrandsEarlier(net: seq<Agent>, ds: seq<Demand>, k: nat)
    requires NetOk(net) && k < |ds| - 1
    ensures StrandsAt(net, ds, k) <==> StrandsAt(net, ds[..|ds| - 1], k)
  {
    assert ds[..|ds| - 1][..k] == ds[..k];
  }

  lemma LastStrands(net: seq<Agent>, ds: seq<Demand>)
    requires NetOk(net) && ds != []
    ensures var front := ServeAll(net, ds[..|ds| - 1]);
            ServeAll(net, ds).orphans == {} <==> front.orphans == {} && !StrandsAt(net, ds, |ds| - 1)
  {
    hide Serve, StrandsBy, Inv;
    GrantedDelegationStrands(net, ds[..|ds| - 1], ds[|ds| - 1]);
  }

  lemma {:induction false} NoneStranded(net: seq<Agent>, ds: seq<Demand>)
    requires NetOk(net)
    ensures ServeAll(net, ds).orphans == {} <==> forall k :: 0 <= k < |ds| ==> !StrandsAt(net, ds, k)
  {
    if ds == [] {
      assert ServeAll(net, ds).orphans == {};
    } else {
      hide StrandsAt, ServeAll;
      var front := ds[..|ds| - 1];
      NoneStranded(net, front);
      LastStrands(net, ds);
      forall k | 0 <= k < |front|
        ensures StrandsAt(net, ds, k) <==> StrandsAt(net, front, k)
      {
        StrandsEarlier(net, ds, k);
      }
    }
  }

  /** Every delegated conversation waits exactly when its upstream waits on a proxy for it. */
  ghost predicate FullyAgrees(g: Grid) {
    forall t: Id :: t in g.store && g.store[t].upstream.Some? ==>
      (Waits(g, t) <==> Points(g, g.store[t].upstream.value, t))
  }

  /** Over whole runs proxies and the conversations they stand for agree exactly when no demand is a
      grant whose released delegation asks for input. */
  lemma AgreementLastsExactly(net: seq<Agent>, ds: seq<Demand>)
    requires NetOk(net)
    ensures FullyAgrees(ServeAll(net, ds)) <==> forall k :: 0 <= k < |ds| ==> !StrandsAt(net, ds, k)
  {
    NoneStranded(net, ds);
    ServeAllAgrees(net, ds);
    var g := ServeAll(net, ds);
    forall t: Id | t in g.store && g.store[t].upstream.Some?
      ensures (Waits(g, t) <==> Points(g, g.store[t].upstream.value, t)) <==> t !in g.orphans
    {
      ProxiesAgree(net, ds, t);
    }
    if g.orphans != {} {
      var t :| t in g.orphans;
      assert Waits(g, t);
      assert !(Waits(g, t) <==> Points(g, g.store[t].upstream.value, t));
    }
  }
}
