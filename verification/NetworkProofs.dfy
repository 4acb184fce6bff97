/** Agreement along chains of proxy approvals. */
module NetworkProofs {
  import opened Prelude
  import opened Conversations
  import opened World
  import opened Orchestrator
  import opened RunFacts
  import opened SimpleAgent
  import opened Api
  import opened ApiFacts
  import opened Network

  // ---------- the invariant ----------

  /** The pending approval of u is a proxy for task t. */
  ghost predicate Points(g: Grid, u: Id, t: Id) {
    && u in g.store && g.store[u].conv.pending.Some?
    && g.store[u].conv.pending.value.IsProxy() && g.store[u].conv.pending.value.remoteTaskId == t
  }

  ghost predicate Waits(g: Grid, id: Id) {
    id in g.store && g.store[id].conv.pending.Some?
  }

  ghost predicate SeatOk(net: seq<Agent>, g: Grid, id: Id)
    requires id in g.store
  {
    var s := g.store[id];
    && s.host < |net| && s.conv.id == id && s.conv.StatusAgrees() && s.conv.pipeline.None?
    && (s.conv.pending.Some? && !s.conv.pending.value.IsProxy()
        && HasPrefix(s.conv.pending.value.toolName, A2A_PREFIX) ==>
          TrimPrefix(s.conv.pending.value.toolName, A2A_PREFIX) in net[s.host].links)
    && (s.upstream.Some? ==> s.upstream.value in g.store && g.store[s.upstream.value].host < s.host)
  }

  /** A proxy stands for a waiting conversation its agent delegated to the right place. */
  ghost predicate LinkOk(net: seq<Agent>, g: Grid, u: Id, t: Id) {
    && t in g.store && g.store[t].upstream == Some(u) && Waits(g, t)
    && u in g.store && g.store[u].host < |net| && Waits(g, u)
    && var p := g.store[u].conv.pending.value;
      p.remoteAgent in net[g.store[u].host].links && net[g.store[u].host].links[p.remoteAgent] == g.store[t].host
  }

  /** Agreement up to hole, a conversation whose state is on its way to its upstream: a proxy's task
      waits, a task that waits has its proxy unless its delegation's answer was dropped, and a
      task whose answer was dropped waits without one. */
  ghost predicate Agreement(net: seq<Agent>, g: Grid, hole: Option<Id>) {
    && (forall u: Id, t: Id :: Points(g, u, t) ==> LinkOk(net, g, u, t) && hole != Some(t) && t !in g.orphans)
    && (forall t: Id :: t in g.orphans ==> Waits(g, t) && g.store[t].upstream.Some? && hole != Some(t))
    && (forall t: Id :: Waits(g, t) && g.store[t].upstream.Some? && t !in g.orphans && hole != Some(t) ==>
          Points(g, g.store[t].upstream.value, t))
  }

  ghost predicate SeatsOk(net: seq<Agent>, g: Grid) {
    NetOk(net) && Hosted(net, g) && g.nextId > 0 && forall id :: id in g.store ==> SeatOk(net, g, id)
  }

  ghost predicate Inv(net: seq<Agent>, g: Grid, hole: Option<Id>) {
    SeatsOk(net, g) && Agreement(net, g, hole)
  }

  lemma HoleFills(net: seq<Agent>, g: Grid, t: Id)
    requires Inv(net, g, Some(t)) && !Waits(g, t)
    ensures Inv(net, g, None)
  {
  }

  /** Everything but these conversations is as it was. */
  ghost predicate Frame(g: Grid, g2: Grid, id: Id) {
    Extends(g, g2) && forall x :: x in g.store && x != id ==> g2.store[x] == g.store[x]
  }

  ghost predicate LogQuiet(net: seq<Agent>, g: Grid, g2: Grid) {
    && g.log <= g2.log
    && forall k :: |g.log| <= k < |g2.log| ==> g2.log[k].host < |net| && !Marked(net[g2.log[k].host].w, g2.log[k].call)
  }

  lemma QuietTrans(net: seq<Agent>, a: Grid, b: Grid, c: Grid)
    requires LogQuiet(net, a, b) && LogQuiet(net, b, c)
    ensures LogQuiet(net, a, c)
  {
    forall k | |a.log| <= k < |c.log|
      ensures c.log[k].host < |net| && !Marked(net[c.log[k].host].w, c.log[k].call)
    {
      if k < |b.log| {
        assert c.log[k] == b.log[k];
      }
    }
  }

  // ---------- taking over a conversation's step ----------

  /** A step of an agent whose conversation has nothing pending. */
  ghost predicate PlainStep(w: World, c: Ctx, c2: Ctx) {
    && GrewGated(w, Config.Config("", None), c, c2)
    && c2.conv.id == c.conv.id && c2.conv.StatusAgrees() && c2.conv.pipeline.None?
  }

  lemma PutQuiet(net: seq<Agent>, g: Grid, id: Id, c2: Ctx)
    requires Seated(net, g, id)
    requires GrewGated(net[g.store[id].host].w, Config.Config("", None), Open(g, g.store[id].conv), c2)
    ensures LogQuiet(net, g, Put(g, id, c2))
  {
    var g2 := Put(g, id, c2);
    forall k | |g.log| <= k < |g2.log|
      ensures g2.log[k].host < |net| && !Marked(net[g2.log[k].host].w, g2.log[k].call)
    {
      var e := c2.trace[|g.trace| + (k - |g.log|)];
      assert g2.log[k] == Made(g.store[id].host, e.call);
      assert Gated(net[g.store[id].host].w, Config.Config("", None), e);
    }
  }

  ghost predicate ConvStep(c: Ctx, c2: Ctx) {
    c2.conv.id == c.conv.id && c2.conv.StatusAgrees() && c2.conv.pipeline.None? && c.nextId <= c2.nextId
  }

  lemma PutSeats(net: seq<Agent>, g: Grid, id: Id, c2: Ctx)
    requires SeatsOk(net, g) && id in g.store
    requires ConvStep(Open(g, g.store[id].conv), c2)
    requires c2.conv.pending.Some? && !c2.conv.pending.value.IsProxy()
             && HasPrefix(c2.conv.pending.value.toolName, A2A_PREFIX) ==>
               TrimPrefix(c2.conv.pending.value.toolName, A2A_PREFIX) in net[g.store[id].host].links
    ensures var g2 := Put(g, id, c2); SeatsOk(net, g2) && Frame(g, g2, id) && g2.orphans == g.orphans
  {
    var g2 := Put(g, id, c2);
    forall x | x in g2.store
      ensures SeatOk(net, g2, x)
    {
      assert SeatOk(net, g, x);
    }
  }

  /** A conversation that was not waiting and is now no proxy leaves every other link alone. */
  lemma LinksStay(net: seq<Agent>, g: Grid, g2: Grid, id: Id)
    requires Agreement(net, g, None) && Frame(g, g2, id) && g2.orphans == g.orphans && id in g.store && !Waits(g, id)
    requires g2.store.Keys == g.store.Keys
    requires Waits(g2, id) ==> !g2.store[id].conv.pending.value.IsProxy()
    ensures Agreement(net, g2, Some(id))
  {
    forall u: Id, t: Id | Points(g2, u, t)
      ensures LinkOk(net, g2, u, t) && t != id && t !in g2.orphans
    {
      assert Points(g, u, t);
    }
    forall t: Id | Waits(g2, t) && g2.store[t].upstream.Some? && t !in g2.orphans && t != id
      ensures Points(g2, g2.store[t].upstream.value, t)
    {
      assert Points(g, g.store[t].upstream.value, t);
    }
  }

  /** The conversation goes on, or stops for an approval of its own. */
  lemma PutLocal(net: seq<Agent>, g: Grid, id: Id, c2: Ctx)
    requires Inv(net, g, None) && id in g.store && !Waits(g, id)
    requires PlainStep(net[g.store[id].host].w, Open(g, g.store[id].conv), c2)
    requires c2.conv.pending.Some? ==>
               !c2.conv.pending.value.IsProxy()
               && (HasPrefix(c2.conv.pending.value.toolName, A2A_PREFIX) ==>
                     TrimPrefix(c2.conv.pending.value.toolName, A2A_PREFIX) in net[g.store[id].host].links)
    ensures var g2 := Put(g, id, c2); Inv(net, g2, Some(id)) && Frame(g, g2, id) && LogQuiet(net, g, g2)
  {
    PutQuiet(net, g, id, c2);
    PutSeats(net, g, id, c2);
    LinksStay(net, g, Put(g, id, c2), id);
  }

  lemma PutIdle(net: seq<Agent>, g: Grid, id: Id, c2: Ctx)
    requires Inv(net, g, None) && id in g.store && !Waits(g, id)
    requires PlainStep(net[g.store[id].host].w, Open(g, g.store[id].conv), c2) && c2.conv.pending.None?
    ensures var g2 := Put(g, id, c2); Inv(net, g2, None) && Frame(g, g2, id) && !Waits(g2, id) && LogQuiet(net, g, g2)
  {
    PutLocal(net, g, id, c2);
    HoleFills(net, Put(g, id, c2), id);
  }

  /** The conversation stops for an approval its task t waits for. */
  lemma PutProxy(net: seq<Agent>, g: Grid, id: Id, c2: Ctx, t: Id)
    requires Inv(net, g, Some(t)) && id in g.store && !Waits(g, id) && t in g.store && t != id
    requires g.store[t].upstream == Some(id) && Waits(g, t)
    requires PlainStep(net[g.store[id].host].w, Open(g, g.store[id].conv), c2) && c2.conv.pending.Some?
    requires var p := c2.conv.pending.value;
             && p.remoteTaskId == t && p.IsProxy() && p.remoteAgent in net[g.store[id].host].links
             && net[g.store[id].host].links[p.remoteAgent] == g.store[t].host
    ensures var g2 := Put(g, id, c2); Inv(net, g2, Some(id)) && Frame(g, g2, id) && LogQuiet(net, g, g2)
  {
    var g2 := Put(g, id, c2);
    PutQuiet(net, g, id, c2);
    PutSeats(net, g, id, c2);
    forall u: Id, x: Id | Points(g2, u, x)
      ensures LinkOk(net, g2, u, x) && x != id && x !in g2.orphans
    {
      assert u != id ==> Points(g, u, x);
    }
    forall x: Id | Waits(g2, x) && g2.store[x].upstream.Some? && x !in g2.orphans && x != id
      ensures Points(g2, g2.store[x].upstream.value, x)
    {
      assert x == t || Points(g, g.store[x].upstream.value, x);
    }
  }

  // ---------- turns ----------

  lemma TurnPlain(w: World, system: string, c: Ctx)
    requires c.conv.pending.None? && c.conv.pipeline.None? && c.conv.StatusAgrees()
    ensures var turn := TakeTurn(w, system, c);
            && PlainStep(w, c, turn.c)
            && (!turn.Over? ==> turn.c.conv.pending.None?)
            && (turn.Over? && turn.result.authRequired ==> turn.c.conv.pending.None?)
            && (turn.c.conv.pending.Some? ==>
                  !turn.c.conv.pending.value.IsProxy()
                  && (HasPrefix(turn.c.conv.pending.value.toolName, A2A_PREFIX) ==>
                        TrimPrefix(turn.c.conv.pending.value.toolName, A2A_PREFIX) in w.clients))
            && (turn.Ask? ==> turn.agent in w.clients && !Marked(w, SendTask(turn.agent, turn.text)))
  {
    TakeTurnGrows(w, Config.Config(system, None), c);
    assert forall e :: Gated(w, Config.Config(system, None), e) ==> Gated(w, Config.Config("", None), e);
  }

  lemma ReplyPlain(w: World, c: Ctx, agent: string, tool: string, args: Args, reply: RemoteReply)
    requires c.conv.pending.None? && c.conv.pipeline.None? && c.conv.StatusAgrees()
    ensures var next := AfterReply(w, c, agent, tool, args, reply);
            var asks := reply.RemoteTask? && reply.task.state.InputRequired?;
            && PlainStep(w, c, next.c) && !next.Ask?
            && (next.c.conv.pending.Some? <==> asks)
            && (asks ==>
                  && next.Over? && !next.result.authRequired
                  && next.c.conv.pending.value.remoteTaskId == reply.task.id
                  && next.c.conv.pending.value.remoteAgent == agent)
            && (next.Again? ==> next.c.conv.pending.None?)
  {
    AfterReplyGrows(w, Config.Config("", None), c, agent, tool, args, reply);
  }

  // ---------- sending and looping ----------

  /** What a turn leaves: agreement but for its own conversation, and no marked call. */
  ghost predicate LoopDone(net: seq<Agent>, g: Grid, id: Id, r: (Grid, NodeResult)) {
    && Inv(net, r.0, Some(id)) && Frame(g, r.0, id) && LogQuiet(net, g, r.0) && r.0.orphans == g.orphans
    && (r.1.authRequired ==> !Waits(r.0, id))
  }

  /** What a new task's reply says about its conversation. */
  ghost predicate SendDone(net: seq<Agent>, g: Grid, b: nat, upstream: Id, r: (Grid, RemoteReply)) {
    && LogQuiet(net, g, r.0) && r.0.orphans == g.orphans && Extends(g, r.0)
    && (forall x :: x in g.store ==> r.0.store[x] == g.store[x])
    && if r.1.RemoteError? then Inv(net, r.0, None)
       else
         var t := r.1.task.id;
         && Inv(net, r.0, Some(t)) && t != NO_ID && t !in g.store && t in r.0.store
         && r.0.store[t].upstream == Some(upstream) && r.0.store[t].host == b
         && (r.1.task.state.InputRequired? <==> Waits(r.0, t))
  }

  /** The reply tells the state of the task it names. */
  ghost predicate TaskKnown(net: seq<Agent>, g: Grid, id: Id, agent: string, reply: RemoteReply) {
    && id in g.store && g.store[id].host < |net| && agent in net[g.store[id].host].links
    && if reply.RemoteError? then Inv(net, g, None)
       else
         var t := reply.task.id;
         && Inv(net, g, Some(t)) && t != NO_ID && t in g.store && t != id
         && g.store[t].upstream == Some(id) && g.store[t].host == net[g.store[id].host].links[agent]
         && (reply.task.state.InputRequired? <==> Waits(g, t))
  }

  ghost predicate Advanced(net: seq<Agent>, g: Grid, g2: Grid, id: Id) {
    Frame(g, g2, id) && LogQuiet(net, g, g2) && g2.orphans == g.orphans
  }

  lemma AdvancedTrans(net: seq<Agent>, a: Grid, b: Grid, c: Grid, id: Id)
    requires Advanced(net, a, b, id) && Advanced(net, b, c, id)
    ensures Advanced(net, a, c, id)
  {
    QuietTrans(net, a, b, c);
  }

  /** What an agent makes of a task's reply restores agreement. */
  lemma AfterTask(net: seq<Agent>, g: Grid, id: Id, agent: string, tool: string, args: Args, reply: RemoteReply)
    requires TaskKnown(net, g, id, agent, reply) && !Waits(g, id)
    ensures var next := AfterReply(net[g.store[id].host].w, Open(g, g.store[id].conv), agent, tool, args, reply);
            var g2 := Put(g, id, next.c);
            && Advanced(net, g, g2, id) && !next.Ask?
            && (next.Again? ==> Inv(net, g2, None) && !Waits(g2, id))
            && (next.Over? ==> Inv(net, g2, Some(id)) && (next.result.authRequired ==> !Waits(g2, id)))
  {
    var w := net[g.store[id].host].w;
    assert SeatOk(net, g, id);
    var c := Open(g, g.store[id].conv);
    var next := AfterReply(w, c, agent, tool, args, reply);
    ReplyPlain(w, c, agent, tool, args, reply);
    if reply.RemoteTask? && reply.task.state.InputRequired? {
      assert agent != "";
      PutProxy(net, g, id, next.c, reply.task.id);
    } else {
      if reply.RemoteTask? {
        HoleFills(net, g, reply.task.id);
      }
      PutLocal(net, g, id, next.c);
      if next.Again? {
        PutIdle(net, g, id, next.c);
      }
    }
  }

  lemma LoopThen(net: seq<Agent>, g: Grid, g1: Grid, id: Id, r: (Grid, NodeResult))
    requires Advanced(net, g, g1, id) && LoopDone(net, g1, id, r)
    ensures LoopDone(net, g, id, r)
  {
    AdvancedTrans(net, g, g1, r.0, id);
  }

  lemma LogPlain(w: World, c: Ctx, c1: Ctx, call: Call)
    requires PlainStep(w, c, c1) && !Marked(w, call)
    ensures PlainStep(w, c, Log(c1, call))
  {
    GrewTrans(w, Config.Config("", None), c, c1, Log(c1, call));
  }

  ghost predicate Goes(net: seq<Agent>, g: Grid, g2: Grid, id: Id) {
    Advanced(net, g, g2, id) && Inv(net, g2, None) && !Waits(g2, id)
  }

  /** The part of a turn before any remote agent is asked. */
  ghost predicate TurnPut(net: seq<Agent>, g: Grid, id: Id, turn: Turn)
    requires Seated(net, g, id)
  {
    match turn
    case Over(c, result) => LoopDone(net, g, id, (Put(g, id, c), result))
    case Again(c) => Goes(net, g, Put(g, id, c), id)
    case Ask(c, agent, text, _, _) =>
      agent in net[g.store[id].host].w.clients && Goes(net, g, Put(g, id, Log(c, SendTask(agent, text))), id)
  }

  lemma TurnPuts(net: seq<Agent>, g: Grid, id: Id)
    requires Inv(net, g, None) && id in g.store && !Waits(g, id)
    ensures var me := net[g.store[id].host]; TurnPut(net, g, id, TakeTurn(me.w, me.system, Open(g, g.store[id].conv)))
  {
    assert SeatOk(net, g, id);
    var me := net[g.store[id].host];
    var c := Open(g, g.store[id].conv);
    var turn := TakeTurn(me.w, me.system, c);
    TurnPlain(me.w, me.system, c);
    if turn.Over? {
      PutLocal(net, g, id, turn.c);
    } else if turn.Again? {
      PutIdle(net, g, id, turn.c);
    } else {
      LogPlain(me.w, c, turn.c, SendTask(turn.agent, turn.text));
      PutIdle(net, g, id, Log(turn.c, SendTask(turn.agent, turn.text)));
    }
  }

  lemma CapPuts(net: seq<Agent>, g: Grid, id: Id)
    requires Inv(net, g, None) && id in g.store && !Waits(g, id)
    ensures LoopDone(net, g, id, Converse(net, g, id, 0))
  {
    assert SeatOk(net, g, id);
    PutLocal(net, g, id, Answer(Open(g, g.store[id].conv), net[g.store[id].host].w.render(IterationCap)).c);
  }

  lemma ConverseStep(net: seq<Agent>, g: Grid, id: Id, rounds: nat, turn: Turn)
    requires Seated(net, g, id) && rounds > 0
    requires var me := net[g.store[id].host]; turn == TakeTurn(me.w, me.system, Open(g, g.store[id].conv))
    ensures g.nextId <= turn.c.nextId && Converse(net, g, id, rounds) == FinishTurn(net, g, id, rounds - 1, turn)
  {
    var me := net[g.store[id].host];
    TakeTurnGrows(me.w, ConfigOf(me), Open(g, g.store[id].conv));
  }

  /** One round: the turn taken puts the conversation where the rest may go on. */
  lemma TurnOpens(net: seq<Agent>, g: Grid, id: Id, rounds: nat)
    returns (turn: Turn)
    requires Inv(net, g, None) && id in g.store && !Waits(g, id) && rounds > 0
    ensures TurnPut(net, g, id, turn) && g.nextId <= turn.c.nextId
    ensures var me := net[g.store[id].host]; turn == TakeTurn(me.w, me.system, Open(g, g.store[id].conv))
    ensures Converse(net, g, id, rounds) == FinishTurn(net, g, id, rounds - 1, turn)
  {
    var me := net[g.store[id].host];
    turn := TakeTurn(me.w, me.system, Open(g, g.store[id].conv));
    TurnPuts(net, g, id);
    ConverseStep(net, g, id, rounds, turn);
  }

  lemma {:induction false} ConverseKeeps(net: seq<Agent>, g: Grid, id: Id, rounds: nat)
    requires Inv(net, g, None) && id in g.store && !Waits(g, id)
    ensures LoopDone(net, g, id, Converse(net, g, id, rounds))
    decreases |net| - g.store[id].host, 1, rounds, 0
  {
    if rounds == 0 {
      CapPuts(net, g, id);
    } else {
      RoundKeeps(net, g, id, rounds);
    }
  }

  /** At least one more round. */
  lemma {:induction false} RoundKeeps(net: seq<Agent>, g: Grid, id: Id, rounds: nat)
    requires Inv(net, g, None) && id in g.store && !Waits(g, id) && rounds > 0
    ensures LoopDone(net, g, id, Converse(net, g, id, rounds))
    decreases |net| - g.store[id].host, 1, rounds - 1, 4
  {
    hide *;
    var turn := TurnOpens(net, g, id, rounds);
    TurnKeeps(net, g, id, rounds - 1, turn);
  }

  lemma {:induction false} TurnKeeps(net: seq<Agent>, g: Grid, id: Id, rounds: nat, turn: Turn)
    requires Inv(net, g, None) && id in g.store && TurnPut(net, g, id, turn) && g.nextId <= turn.c.nextId
    ensures LoopDone(net, g, id, FinishTurn(net, g, id, rounds, turn))
    decreases |net| - g.store[id].host, 1, rounds, 3
  {
    if turn.Again? {
      var g1 := Put(g, id, turn.c);
      ConverseKeeps(net, g1, id, rounds);
      LoopThen(net, g, g1, id, Converse(net, g1, id, rounds));
    } else if turn.Ask? {
      var g1 := Put(g, id, Log(turn.c, SendTask(turn.agent, turn.text)));
      DelegateKeeps(net, g1, id, rounds, turn.agent, turn.text, turn.tool, turn.args);
      LoopThen(net, g, g1, id, DelegateTo(net, g1, id, rounds, turn.agent, turn.text, turn.tool, turn.args));
    }
  }

  lemma {:induction false} DelegateKeeps(net: seq<Agent>, g: Grid, id: Id, rounds: nat, agent: string, text: string,
                      tool: string, args: Args)
    requires Inv(net, g, None) && id in g.store && !Waits(g, id) && agent in net[g.store[id].host].w.clients
    ensures LoopDone(net, g, id, DelegateTo(net, g, id, rounds, agent, text, tool, args))
    decreases |net| - g.store[id].host, 1, rounds, 2
  {
    assert SeatOk(net, g, id);
    var b := net[g.store[id].host].links[agent];
    var (g1, reply) := SendTo(net, g, b, text, id);
    SendKeeps(net, g, b, text, id);
    TakeReplyKeeps(net, g1, id, rounds, agent, tool, args, reply);
    LoopThen(net, g, g1, id, TakeReply(net, g1, id, rounds, agent, tool, args, reply));
  }

  lemma {:induction false} TakeReplyKeeps(net: seq<Agent>, g: Grid, id: Id, rounds: nat, agent: string, tool: string,
                      args: Args, reply: RemoteReply)
    requires TaskKnown(net, g, id, agent, reply) && !Waits(g, id)
    ensures LoopDone(net, g, id, TakeReply(net, g, id, rounds, agent, tool, args, reply))
    decreases |net| - g.store[id].host, 1, rounds, 1
  {
    AfterTask(net, g, id, agent, tool, args, reply);
    var next := AfterReply(net[g.store[id].host].w, Open(g, g.store[id].conv), agent, tool, args, reply);
    var g1 := Put(g, id, next.c);
    if next.Again? {
      ConverseKeeps(net, g1, id, rounds);
      LoopThen(net, g, g1, id, Converse(net, g1, id, rounds));
    }
  }

  /** A new conversation for b, delegated from upstream. */
  function Joined(net: seq<Agent>, g: Grid, b: nat, text: string, upstream: Id): Grid
    requires b < |net|
  {
    var conv := NewConv(g.nextId, net[b].system).AddMessage(RoleUser, text);
    g.(store := g.store[g.nextId := Seat(b, conv, Some(upstream))], nextId := g.nextId + 1)
  }

  lemma JoinedSeats(net: seq<Agent>, g: Grid, b: nat, text: string, upstream: Id)
    requires SeatsOk(net, g) && b < |net| && upstream in g.store && g.store[upstream].host < b
    ensures SeatsOk(net, Joined(net, g, b, text, upstream)) && g.nextId !in g.store
  {
    var g1 := Joined(net, g, b, text, upstream);
    forall x | x in g1.store
      ensures SeatOk(net, g1, x)
    {
      assert x in g.store ==> SeatOk(net, g, x);
    }
  }

  lemma JoinedAgrees(net: seq<Agent>, g: Grid, g1: Grid, t: Id, seat: Seat)
    requires Agreement(net, g, None) && t !in g.store && seat.conv.pending.None?
    requires g1.store == g.store[t := seat] && g1.orphans == g.orphans
    ensures Agreement(net, g1, None)
  {
    forall u: Id, x: Id | Points(g1, u, x)
      ensures LinkOk(net, g1, u, x) && x !in g1.orphans
    {
      assert Points(g, u, x);
    }
    forall x: Id | Waits(g1, x) && g1.store[x].upstream.Some? && x !in g1.orphans
      ensures Points(g1, g1.store[x].upstream.value, x)
    {
      assert Points(g, g.store[x].upstream.value, x);
    }
  }

  /** A new conversation joins without disturbing anything. */
  lemma NewSeat(net: seq<Agent>, g: Grid, b: nat, text: string, upstream: Id)
    requires Inv(net, g, None) && b < |net| && upstream in g.store && g.store[upstream].host < b
    ensures var g1 := Joined(net, g, b, text, upstream);
            Inv(net, g1, None) && g.nextId !in g.store && !Waits(g1, g.nextId)
  {
    hide SeatsOk, Agreement;
    var g1 := Joined(net, g, b, text, upstream);
    JoinedSeats(net, g, b, text, upstream);
    JoinedAgrees(net, g, g1, g.nextId, g1.store[g.nextId]);
  }

  lemma JoinedFrame(g: Grid, g1: Grid, g2: Grid, t: Id, seat: Seat)
    requires t !in g.store && g1.store == g.store[t := seat] && Frame(g1, g2, t)
    ensures Extends(g, g2) && t in g2.store && g2.store[t].upstream == seat.upstream && g2.store[t].host == seat.host
    ensures forall x :: x in g.store ==> g2.store[x] == g.store[x]
  {
  }

  lemma QuietFrom(net: seq<Agent>, g: Grid, g1: Grid, g2: Grid)
    requires g1.log == g.log && LogQuiet(net, g1, g2)
    ensures LogQuiet(net, g, g2)
  {
  }

  lemma FreshId(net: seq<Agent>, g: Grid)
    requires Inv(net, g, None)
    ensures g.nextId > 0
  {
  }

  /** A conversation's task says input-required exactly when the conversation waits. */
  lemma WaitingTask(net: seq<Agent>, g: Grid, t: Id, w: World, result: NodeResult)
    requires Inv(net, g, Some(t)) && t in g.store && (result.authRequired ==> !Waits(g, t))
    ensures var task := TaskOf(w, g.store[t].conv, result);
            task.id == t && (task.state.InputRequired? <==> Waits(g, t))
  {
    assert SeatOk(net, g, t);
    hide Agreement, LastSaid;
  }

  /** The turn of a new conversation, seen from the agent that delegated to it. */
  lemma NewTurnDone(net: seq<Agent>, g: Grid, b: nat, text: string, upstream: Id, r: (Grid, NodeResult))
    requires Inv(net, g, None) && b < |net| && upstream in g.store && g.store[upstream].host < b
    requires LoopDone(net, Joined(net, g, b, text, upstream), g.nextId, r) && g.nextId !in g.store
    ensures g.nextId in r.0.store
    ensures SendDone(net, g, b, upstream, (r.0, RemoteTask(TaskOf(net[b].w, r.0.store[g.nextId].conv, r.1))))
  {
    var g1 := Joined(net, g, b, text, upstream);
    hide Inv, LogQuiet, Frame, Extends, Waits, TaskOf;
    JoinedFrame(g, g1, r.0, g.nextId, g1.store[g.nextId]);
    QuietFrom(net, g, g1, r.0);
    WaitingTask(net, r.0, g.nextId, net[b].w, r.1);
    assert g.nextId > 0 by { FreshId(net, g); }
  }

  lemma {:induction false} SendKeeps(net: seq<Agent>, g: Grid, b: nat, text: string, upstream: Id)
    requires Inv(net, g, None) && b < |net| && upstream in g.store && g.store[upstream].host < b
    ensures SendDone(net, g, b, upstream, SendTo(net, g, b, text, upstream))
    decreases |net| - b, 2
  {
    if text != "" {
      hide Inv, LoopDone, Converse, TaskOf;
      NewSeat(net, g, b, text, upstream);
      var g1 := Joined(net, g, b, text, upstream);
      ConverseKeeps(net, g1, g.nextId, MAX_TOOL_ITERATIONS);
      NewTurnDone(net, g, b, text, upstream, Converse(net, g1, g.nextId, MAX_TOOL_ITERATIONS));
    }
  }
}
