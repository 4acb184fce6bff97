/** A tool's demand that its user log in, and how far up it is told. */
module NetworkLogins {
  import opened Prelude
  import opened Conversations
  import opened World
  import opened Orchestrator
  import opened SimpleAgent
  import opened Network
  import opened NetworkProofs
  import opened NetworkApprovals
  import opened NetworkTexts

  /** The last of these calls is a tool's, and it demands a login. */
  predicate AsksLogin(w: World, trace: seq<Event>) {
    && trace != []
    && var call := trace[|trace| - 1].call;
      call.RunTool? && w.runTool(trace[..|trace| - 1], call.name, call.args).ToolAuthRequired?
  }

  /** The last call made by any agent is a tool's, and it demands a login. */
  ghost predicate LoginDemanded(net: seq<Agent>, g: Grid) {
    && g.log != [] && g.trace != []
    && var made := g.log[|g.log| - 1];
      && made.host < |net| && made.call.RunTool?
      && net[made.host].w.runTool(g.trace[..|g.trace| - 1], made.call.name, made.call.args).ToolAuthRequired?
  }

  lemma PutDemands(net: seq<Agent>, g: Grid, id: Id, c: Ctx)
    requires id in g.store && g.store[id].host < |net| && |g.trace| <= |c.trace|
    ensures var g2 := Put(g, id, c);
            if |g.trace| < |c.trace| then LoginDemanded(net, g2) <==> AsksLogin(net[g.store[id].host].w, c.trace)
            else c.trace == g.trace ==> (LoginDemanded(net, g2) <==> LoginDemanded(net, g))
  {
  }

  lemma TurnDemands(w: World, system: string, c: Ctx)
    ensures var turn := TakeTurn(w, system, c);
            && |c.trace| < |turn.c.trace|
            && (AsksLogin(w, turn.c.trace) <==> turn.Over? && turn.result.authRequired)
  {
    hide Transcript.LlmMessages;
  }

  lemma ReplyDemands(w: World, c: Ctx, agent: string, tool: string, args: Args, reply: RemoteReply)
    ensures var next := AfterReply(w, c, agent, tool, args, reply);
            && next.c.trace == c.trace && !next.Ask?
            && (next.Over? && next.result.authRequired <==> reply.RemoteTask? && reply.task.state.AuthRequired?)
  {
  }

  // ---------- turns ----------

  /** The answer demands a login exactly when the last call anywhere did. */
  ghost predicate Surfaces(net: seq<Agent>, r: (Grid, NodeResult)) {
    r.1.authRequired <==> LoginDemanded(net, r.0)
  }

  /** The part of a turn before any remote agent is asked, taken over. */
  ghost predicate TurnSurfaces(net: seq<Agent>, g: Grid, id: Id, turn: Turn)
    requires id in g.store
  {
    match turn
    case Over(c, result) => Surfaces(net, (Put(g, id, c), result))
    case Again(c) => !LoginDemanded(net, Put(g, id, c))
    case Ask(c, agent, text, _, _) => !LoginDemanded(net, Put(g, id, Log(c, SendTask(agent, text))))
  }

  lemma TurnOpensSurfacing(net: seq<Agent>, g: Grid, id: Id, rounds: nat)
    returns (turn: Turn)
    requires Inv(net, g, None) && id in g.store && !Waits(g, id) && rounds > 0
    ensures TurnPut(net, g, id, turn) && g.nextId <= turn.c.nextId && TurnSurfaces(net, g, id, turn)
    ensures Converse(net, g, id, rounds) == FinishTurn(net, g, id, rounds - 1, turn)
  {
    InvSeats(net, g, id);
    hide Inv, Converse, FinishTurn, TakeTurn, Waits, TurnPut;
    turn := TurnOpens(net, g, id, rounds);
    var me := net[g.store[id].host];
    TurnDemands(me.w, me.system, Open(g, g.store[id].conv));
    hide LoginDemanded;
    if turn.Ask? {
      PutDemands(net, g, id, Log(turn.c, SendTask(turn.agent, turn.text)));
    } else {
      PutDemands(net, g, id, turn.c);
    }
  }

  lemma CapSurfaces(net: seq<Agent>, g: Grid, id: Id)
    requires Seated(net, g, id) && !LoginDemanded(net, g)
    ensures Surfaces(net, Converse(net, g, id, 0))
  {
    var over := Answer(Open(g, g.store[id].conv), net[g.store[id].host].w.render(IterationCap));
    PutDemands(net, g, id, over.c);
  }

  lemma {:induction false} ConverseSurfaces(net: seq<Agent>, g: Grid, id: Id, rounds: nat)
    requires Inv(net, g, None) && id in g.store && !Waits(g, id) && (rounds == 0 ==> !LoginDemanded(net, g))
    ensures Surfaces(net, Converse(net, g, id, rounds))
    decreases |net| - g.store[id].host, 1, rounds, 0
  {
    if rounds == 0 {
      hide *;
      InvSeats(net, g, id);
      CapSurfaces(net, g, id);
    } else {
      RoundSurfaces(net, g, id, rounds);
    }
  }

  lemma {:induction false} RoundSurfaces(net: seq<Agent>, g: Grid, id: Id, rounds: nat)
    requires Inv(net, g, None) && id in g.store && !Waits(g, id) && rounds > 0
    ensures Surfaces(net, Converse(net, g, id, rounds))
    decreases |net| - g.store[id].host, 1, rounds - 1, 4
  {
    hide *;
    var turn := TurnOpensSurfacing(net, g, id, rounds);
    TurnSurfacesOn(net, g, id, rounds - 1, turn);
  }

  lemma {:induction false} TurnSurfacesOn(net: seq<Agent>, g: Grid, id: Id, rounds: nat, turn: Turn)
    requires Inv(net, g, None) && id in g.store && TurnPut(net, g, id, turn) && g.nextId <= turn.c.nextId
    requires TurnSurfaces(net, g, id, turn)
    ensures Surfaces(net, FinishTurn(net, g, id, rounds, turn))
    decreases |net| - g.store[id].host, 1, rounds, 3
  {
    hide Surfaces, LoginDemanded;
    if turn.Again? {
      ConverseSurfaces(net, Put(g, id, turn.c), id, rounds);
    } else if turn.Ask? {
      DelegateSurfaces(net, Put(g, id, Log(turn.c, SendTask(turn.agent, turn.text))), id, rounds, turn.agent, turn.text,
                       turn.tool, turn.args);
    }
  }

  lemma {:induction false} DelegateSurfaces(net: seq<Agent>, g: Grid, id: Id, rounds: nat, agent: string, text: string,
                                            tool: string, args: Args)
    requires Inv(net, g, None) && id in g.store && !Waits(g, id) && agent in net[g.store[id].host].w.clients
    requires !LoginDemanded(net, g)
    ensures Surfaces(net, DelegateTo(net, g, id, rounds, agent, text, tool, args))
    decreases |net| - g.store[id].host, 1, rounds, 2
  {
    assert SeatOk(net, g, id);
    var b := net[g.store[id].host].links[agent];
    var (g1, reply) := SendTo(net, g, b, text, id);
    SendKeeps(net, g, b, text, id);
    SendSurfaces(net, g, b, text, id);
    DelegateKnown(net, g, id, agent, (g1, reply));
    hide Inv, SendTo, TakeReply, TaskKnown, SendDone, Surfaces, LoginDemanded;
    TakeReplySurfaces(net, g1, id, rounds, agent, tool, args, reply);
  }

  /** The reply is taken: what it demands is demanded here. */
  lemma {:induction false} TakeReplySurfaces(net: seq<Agent>, g: Grid, id: Id, rounds: nat, agent: string, tool: string,
                                             args: Args, reply: RemoteReply)
    requires TaskKnown(net, g, id, agent, reply) && !Waits(g, id) && Seated(net, g, id)
    requires reply.RemoteTask? && reply.task.state.AuthRequired? <==> LoginDemanded(net, g)
    ensures Surfaces(net, TakeReply(net, g, id, rounds, agent, tool, args, reply))
    decreases |net| - g.store[id].host, 1, rounds, 1
  {
    var w := net[g.store[id].host].w;
    var c := Open(g, g.store[id].conv);
    AfterTask(net, g, id, agent, tool, args, reply);
    var next := AfterReply(w, c, agent, tool, args, reply);
    ReplyDemands(w, c, agent, tool, args, reply);
    PutDemands(net, g, id, next.c);
    hide Inv, TaskKnown, Waits, AfterReply, Converse, LoginDemanded, Advanced, Frame;
    if next.Again? {
      ConverseSurfaces(net, Put(g, id, next.c), id, rounds);
    }
  }

  lemma TaskDemands(w: World, conv: Conv, result: NodeResult)
    ensures TaskOf(w, conv, result).state.AuthRequired? <==> result.authRequired
  {
    hide LastSaid;
  }

  /** A new task is reported as demanding a login exactly when the last call made by any agent, here or
      further down, was a tool's that demanded one. */
  lemma {:induction false} SendSurfaces(net: seq<Agent>, g: Grid, b: nat, text: string, upstream: Id)
    requires Inv(net, g, None) && b < |net| && upstream in g.store && g.store[upstream].host < b
    requires !LoginDemanded(net, g)
    ensures var (g2, reply) := SendTo(net, g, b, text, upstream);
            reply.RemoteTask? && reply.task.state.AuthRequired? <==> LoginDemanded(net, g2)
    decreases |net| - b, 2
  {
    if text != "" {
      var g1 := Joined(net, g, b, text, upstream);
      hide Inv, Converse, LoginDemanded, TaskOf, Waits;
      NewSeat(net, g, b, text, upstream);
      InvSeats(net, g1, g.nextId);
      ConverseSurfaces(net, g1, g.nextId, MAX_TOOL_ITERATIONS);
      var (g2, result) := Converse(net, g1, g.nextId, MAX_TOOL_ITERATIONS);
      TaskDemands(net[b].w, g2.store[g.nextId].conv, result);
    }
  }
}
