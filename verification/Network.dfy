/** Simple agents that delegate to one another. An agent's delegations are requests to the agents
    behind its links, which keep their own conversations and may pause for approval themselves.
    Links lead from earlier to later agents, messages are delivered, and requests are atomic. */
module Network {
  import opened Prelude
  import opened Conversations
  import opened World
  import opened Orchestrator
  import opened SimpleAgent
  import opened Api
  import opened ApiFacts

  /** links gives, for every client the agent knows, the agent behind it. */
  datatype Agent = Agent(w: World, system: string, links: map<string, nat>)

  ghost predicate NetOk(net: seq<Agent>) {
    forall a :: 0 <= a < |net| ==>
      && "" !in net[a].links
      && net[a].links.Keys == net[a].w.clients.Keys
      && forall x :: x in net[a].links ==> a < net[a].links[x] < |net|
  }

  /** A conversation, the agent that keeps it, and the conversation it was delegated from. */
  datatype Seat = Seat(host: nat, conv: Conv, upstream: Option<Id>)

  datatype Made = Made(host: nat, call: Call)

  /** All conversations of all agents, with ids unique across them. orphans is a history variable:
      the tasks of granted delegations that answered input-required. */
  datatype Grid = Grid(store: map<Id, Seat>, trace: seq<Event>, nextId: Id, log: seq<Made>, orphans: set<Id>)

  ghost predicate Hosted(net: seq<Agent>, g: Grid) {
    forall id :: id in g.store ==> g.store[id].host < |net| && id < g.nextId
  }

  /** Conversations stay, with their host and their origin. */
  ghost predicate Extends(g: Grid, g2: Grid) {
    forall id :: id in g.store ==>
      id in g2.store && g2.store[id].host == g.store[id].host && g2.store[id].upstream == g.store[id].upstream
  }

  ghost predicate Seated(net: seq<Agent>, g: Grid, id: Id) {
    NetOk(net) && Hosted(net, g) && id in g.store
  }

  function Open(g: Grid, conv: Conv): Ctx {
    Ctx(map[], conv, conv, g.trace, g.nextId)
  }

  function Calls(host: nat, events: seq<Event>): seq<Made> {
    seq(|events|, i requires 0 <= i < |events| => Made(host, events[i].call))
  }

  /** Takes over what a conversation's agent did. */
  function Put(g: Grid, id: Id, c: Ctx): Grid
    requires id in g.store
  {
    var seat := g.store[id];
    g.(store := g.store[id := seat.(conv := c.conv)], trace := c.trace, nextId := c.nextId,
       log := g.log + (if |g.trace| <= |c.trace| then Calls(seat.host, c.trace[|g.trace|..]) else []))
  }

  // ---------- tasks ----------

  function LastSaid(ms: seq<Message>): string {
    if ms == [] then ""
    else
      var m := ms[|ms| - 1];
      if m.Text? && m.role == RoleAssistant && m.content != "" then m.content else LastSaid(ms[..|ms| - 1])
  }

  /** conversationToTask, and the text its reader takes from it. */
  function TaskOf(w: World, conv: Conv, result: NodeResult): Task {
    var said := if result.response != "" then result.response else LastSaid(conv.messages);
    var state :=
      if result.authRequired then AuthRequired
      else if conv.status == WaitingApproval then InputRequired
      else TaskCompleted;
    var message :=
      if result.authRequired then Some(if result.response != "" then result.response else w.render(AuthNeeded("", "")))
      else if conv.status == WaitingApproval then
        Some(w.render(if conv.pending.Some? then ApprovalNeeded(conv.pending.value.description, conv.pending.value.uuid)
                      else AlreadyWaiting))
      else None;
    Task(conv.id, state, message, if said != "" then said else w.render(OperationDone("", "")))
  }

  /** Lower case, as far as it gives a letter of the Latin alphabet: besides the capitals there are the
      dotted capital I and the Kelvin sign. */
  function Lower(c: char): char {
    if 'A' <= c <= 'Z' then (c as int + 32) as char
    else if c as int == 0x130 then 'i'
    else if c as int == 0x212A then 'k'
    else c
  }

  function ToLower(s: string): string {
    if s == "" then "" else [Lower(s[0])] + ToLower(s[1..])
  }

  /** Unicode's White_Space. */
  predicate IsBlank(c: char) {
    var n := c as int;
    || 9 <= n <= 13 || n == 0x20 || n == 0x85 || n == 0xA0 || n == 0x1680 || 0x2000 <= n <= 0x200A
    || n == 0x2028 || n == 0x2029 || n == 0x202F || n == 0x205F || n == 0x3000
  }

  function TrimLeft(s: string): string {
    if s != "" && IsBlank(s[0]) then TrimLeft(s[1..]) else s
  }

  function TrimRight(s: string): string {
    if s != "" && IsBlank(s[|s| - 1]) then TrimRight(s[..|s| - 1]) else s
  }

  predicate IsApprovalMessage(text: string) {
    var lower := ToLower(TrimRight(TrimLeft(text)));
    || lower == "yes" || lower == "y" || lower == "true" || lower == "approve" || lower == "approved"
    || lower == "ok" || lower == "confirm"
  }

  // ---------- what agents do ----------

  function ConfigOf(me: Agent): Config {
    Config(me.system, None)
  }

  /** The rest of a turn of conversation id. */
  ghost function Converse(net: seq<Agent>, g: Grid, id: Id, rounds: nat): (r: (Grid, NodeResult))
    requires Seated(net, g, id)
    ensures Hosted(net, r.0) && Extends(g, r.0)
    decreases |net| - g.store[id].host, 1, rounds, 0
  {
    var seat := g.store[id];
    var me := net[seat.host];
    if rounds == 0 then
      var over := Answer(Open(g, seat.conv), me.w.render(IterationCap));
      (Put(g, id, over.c), over.result)
    else
      TakeTurnGrows(me.w, ConfigOf(me), Open(g, seat.conv));
      FinishTurn(net, g, id, rounds - 1, TakeTurn(me.w, me.system, Open(g, seat.conv)))
  }

  ghost function FinishTurn(net: seq<Agent>, g: Grid, id: Id, rounds: nat, turn: Turn): (r: (Grid, NodeResult))
    requires Seated(net, g, id) && g.nextId <= turn.c.nextId
    ensures Hosted(net, r.0) && Extends(g, r.0)
    decreases |net| - g.store[id].host, 1, rounds, 3
  {
    match turn
    case Again(c) => Converse(net, Put(g, id, c), id, rounds)
    case Over(c, result) => (Put(g, id, c), result)
    case Ask(c, agent, text, tool, args) =>
      DelegateTo(net, Put(g, id, Log(c, SendTask(agent, text))), id, rounds, agent, text, tool, args)
  }

  /** Sends the question and goes on with the reply. */
  ghost function DelegateTo(net: seq<Agent>, g: Grid, id: Id, rounds: nat, agent: string, text: string, tool: string,
                      args: Args): (r: (Grid, NodeResult))
    requires Seated(net, g, id)
    ensures Hosted(net, r.0) && Extends(g, r.0)
    decreases |net| - g.store[id].host, 1, rounds, 2
  {
    var me := net[g.store[id].host];
    if agent !in me.links then (g, Plain(""))
    else
      var (g1, reply) := SendTo(net, g, me.links[agent], text, id);
      TakeReply(net, g1, id, rounds, agent, tool, args, reply)
  }

  ghost function TakeReply(net: seq<Agent>, g: Grid, id: Id, rounds: nat, agent: string, tool: string, args: Args,
                      reply: RemoteReply): (r: (Grid, NodeResult))
    requires Seated(net, g, id)
    ensures Hosted(net, r.0) && Extends(g, r.0)
    decreases |net| - g.store[id].host, 1, rounds, 1
  {
    var me := net[g.store[id].host];
    var next := AfterReply(me.w, Open(g, g.store[id].conv), agent, tool, args, reply);
    AfterReplyGrows(me.w, ConfigOf(me), Open(g, g.store[id].conv), agent, tool, args, reply);
    if next.Again? then Converse(net, Put(g, id, next.c), id, rounds)
    else (Put(g, id, next.c), if next.Over? then next.result else Plain(""))
  }

  /** message/send without a task id: a new conversation at agent b. Empty text is an error. */
  ghost function SendTo(net: seq<Agent>, g: Grid, b: nat, text: string, upstream: Id): (r: (Grid, RemoteReply))
    requires NetOk(net) && Hosted(net, g) && b < |net|
    ensures Hosted(net, r.0) && Extends(g, r.0)
    decreases |net| - b, 2
  {
    if text == "" then (g, RemoteError("No text part in message"))
    else
      var t := g.nextId;
      var conv := NewConv(t, net[b].system).AddMessage(RoleUser, text);
      var g1 := g.(store := g.store[t := Seat(b, conv, Some(upstream))], nextId := t + 1);
      var (g2, result) := Converse(net, g1, t, MAX_TOOL_ITERATIONS);
      (g2, RemoteTask(TaskOf(net[b].w, g2.store[t].conv, result)))
  }

  /** message/send with a task id: an answer to a waiting conversation, a message to any other. */
  ghost function ContinueOn(net: seq<Agent>, g: Grid, b: nat, t: Id, text: string): (r: (Grid, RemoteReply))
    requires NetOk(net) && Hosted(net, g) && b < |net|
    ensures Hosted(net, r.0) && Extends(g, r.0)
    decreases |net| - b, 4
  {
    if t !in g.store || g.store[t].host != b then (g, RemoteError("Task not found"))
    else
      var conv := g.store[t].conv;
      if conv.status == WaitingApproval && conv.pending.Some? then
        var (g1, reply) := Resolve(net, g, t, IsApprovalMessage(text));
        (g1, if reply.Replied? then RemoteTask(TaskOf(net[b].w, g1.store[t].conv, reply.result))
         else RemoteError("approval failed"))
      else
        var (g1, result) := Converse(net, Put(g, t, Open(g, conv.AddMessage(RoleUser, text))), t, MAX_TOOL_ITERATIONS);
        (g1, RemoteTask(TaskOf(net[b].w, g1.store[t].conv, result)))
  }

  /** An answer to the approval conversation id waits for. An error drops the agent's own changes. */
  ghost function Resolve(net: seq<Agent>, g: Grid, id: Id, approved: bool): (r: (Grid, Reply))
    requires Seated(net, g, id)
    ensures Hosted(net, r.0) && Extends(g, r.0)
    decreases |net| - g.store[id].host, 3
  {
    var me := net[g.store[id].host];
    var c := Open(g, g.store[id].conv);
    if c.conv.pending.None? then (g, Error("no pending approval found"))
    else
      var p := c.conv.pending.value;
      if !approved then ResolveRejected(net, g, id, p)
      else
        var c1 := Cleared(c).Say([Text(RoleUser, APPROVED_TEXT)]);
        if p.IsProxy() then ResolveProxy(net, g, id, p, c1)
        else if HasPrefix(p.toolName, A2A_PREFIX) then
          ResolveDelegation(net, g, id, p, TrimPrefix(p.toolName, A2A_PREFIX), c1)
        else ResolveTool(net, g, id, p, Log(c1, RunTool(p.toolName, p.toolArgs)),
                         me.w.runTool(g.trace, p.toolName, p.toolArgs))
  }

  ghost function ResolveTool(net: seq<Agent>, g: Grid, id: Id, p: Pending, c: Ctx, reply: ToolReply): (r: (Grid, Reply))
    requires Seated(net, g, id) && c.nextId == g.nextId
    ensures Hosted(net, r.0) && Extends(g, r.0)
    decreases |net| - g.store[id].host, 2
  {
    var w := net[g.store[id].host].w;
    match reply
    case ToolAuthRequired =>
      var server := if p.toolName in w.tools then w.tools[p.toolName].server else p.toolName;
      var over := AnswerAuth(c, w.render(AuthNeeded("", server)));
      (Put(g, id, over.c), Replied(over.result))
    case ToolFailed(e) =>
      RunOn(net, Put(g, id, c.Say([ResultRecord(p.toolName, w.render(ToolBroken("", e)), true)])), id)
    case ToolOk(text, isError) => RunOn(net, Put(g, id, c.Say([ResultRecord(p.toolName, text, isError)])), id)
  }

  ghost function RunOn(net: seq<Agent>, g: Grid, id: Id): (r: (Grid, Reply))
    requires Seated(net, g, id)
    ensures Hosted(net, r.0) && Extends(g, r.0)
    decreases |net| - g.store[id].host, 1, MAX_TOOL_ITERATIONS + 1
  {
    var (g1, result) := Converse(net, g, id, MAX_TOOL_ITERATIONS);
    (g1, Replied(result))
  }

  /** The rejection is saved first and then forwarded; the forwarded answer is ignored. */
  ghost function ResolveRejected(net: seq<Agent>, g: Grid, id: Id, p: Pending): (r: (Grid, Reply))
    requires Seated(net, g, id)
    ensures Hosted(net, r.0) && Extends(g, r.0)
    decreases |net| - g.store[id].host, 2
  {
    var me := net[g.store[id].host];
    var text := me.w.render(Cancelled);
    var c := Cleared(Open(g, g.store[id].conv)).Say([Text(RoleUser, REJECTED_TEXT), Text(RoleAssistant, text)]);
    if p.IsProxy() && p.remoteAgent in me.links then
      var g1 := Put(g, id, Log(c, ContinueTask(p.remoteAgent, p.remoteTaskId, ANSWER_REJECTED)));
      (ContinueOn(net, g1, me.links[p.remoteAgent], p.remoteTaskId, ANSWER_REJECTED).0, Replied(Plain(text)))
    else (Put(g, id, c), Replied(Plain(text)))
  }

  ghost function ResolveProxy(net: seq<Agent>, g: Grid, id: Id, p: Pending, c: Ctx): (r: (Grid, Reply))
    requires Seated(net, g, id) && c.nextId == g.nextId
    ensures Hosted(net, r.0) && Extends(g, r.0)
    decreases |net| - g.store[id].host, 2
  {
    var me := net[g.store[id].host];
    if p.remoteAgent !in me.links then (g, Error("A2A agent not found for proxy approval"))
    else
      var (g2, reply) := PassOn(net, g, id, p, c);
      if reply.RemoteError? then (g2.(store := g2.store[id := g.store[id]]), Error("proxy approval failed"))
      else
        var (g3, result) := TakeReply(net, g2, id, MAX_TOOL_ITERATIONS, p.remoteAgent, p.toolName, p.toolArgs, reply);
        (g3, Replied(result))
  }

  ghost function PassOn(net: seq<Agent>, g: Grid, id: Id, p: Pending, c: Ctx): (r: (Grid, RemoteReply))
    requires Seated(net, g, id) && c.nextId == g.nextId && p.remoteAgent in net[g.store[id].host].links
    ensures Hosted(net, r.0) && Extends(g, r.0)
    decreases |net| - g.store[id].host, 1, MAX_TOOL_ITERATIONS + 2
  {
    var g1 := Put(g, id, Log(c, ContinueTask(p.remoteAgent, p.remoteTaskId, ANSWER_APPROVED)));
    ContinueOn(net, g1, net[g.store[id].host].links[p.remoteAgent], p.remoteTaskId, ANSWER_APPROVED)
  }

  ghost function ResolveDelegation(net: seq<Agent>, g: Grid, id: Id, p: Pending, agent: string,
                                   c: Ctx): (r: (Grid, Reply))
    requires Seated(net, g, id) && c.nextId == g.nextId
    ensures Hosted(net, r.0) && Extends(g, r.0)
    decreases |net| - g.store[id].host, 2, 1
  {
    var me := net[g.store[id].host];
    if agent !in me.links then (g, Error("A2A agent not found"))
    else
      var (g2, reply) := SendGranted(net, g, id, agent, MessageArg(p.toolArgs), c);
      AfterGrant(net, g2, id, p, reply)
  }

  ghost function SendGranted(net: seq<Agent>, g: Grid, id: Id, agent: string, text: string,
                             c: Ctx): (r: (Grid, RemoteReply))
    requires Seated(net, g, id) && c.nextId == g.nextId && agent in net[g.store[id].host].links
    ensures Hosted(net, r.0) && Extends(g, r.0)
    decreases |net| - g.store[id].host, 2, 0
  {
    SendTo(net, Put(g, id, Log(c, SendTask(agent, text))), net[g.store[id].host].links[agent], text, id)
  }

  /** A granted delegation: whatever state its task is in, the text is the result. */
  ghost function AfterGrant(net: seq<Agent>, g: Grid, id: Id, p: Pending, reply: RemoteReply): (r: (Grid, Reply))
    requires Seated(net, g, id)
    ensures Hosted(net, r.0) && Extends(g, r.0)
    decreases |net| - g.store[id].host, 2, 0
  {
    var c := Open(g, g.store[id].conv);
    match reply
    case RemoteError(e) =>
      RunOn(net,
            Put(g, id, c.Say([ResultRecord(p.toolName, net[g.store[id].host].w.render(AgentFailed("", e)), true)])), id)
    case RemoteTask(task) =>
      var g1 := if task.state.InputRequired? then g.(orphans := g.orphans + {task.id}) else g;
      RunOn(net, Put(g1, id, c.Say([ResultRecord(p.toolName, task.text, task.state.TaskFailed?)])), id)
  }
}
