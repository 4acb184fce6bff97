/** Concurrent children. A running tree is a process that reads one session key, makes one leaf's
    calls, or stores one session key at a time; under a parallel node any child may be the next to
    move. Trees whose parallel siblings share no written key end the same under every schedule. */
module Schedule {
  import opened Prelude
  import opened World
  import opened Orchestrator
  import opened Evaluation
  import opened Footprint

  datatype Proc =
    | Todo(node: AgentNode, path: seq<nat>)
    | Reading(node: AgentNode, path: seq<nat>, done: string, rest: string)
    | Calling(node: AgentNode, path: seq<nat>, prompt: string)
    | Storing(key: string, value: string, result: NodeResult)
    | InSeq(node: AgentNode, path: seq<nat>, i: nat, child: Proc)
    | InLoop(node: AgentNode, path: seq<nat>, rounds: nat, i: nat, child: Proc)
    | InPar(procs: seq<Proc>)
    | Halt(outcome: Outcome)

  datatype Move = Move(proc: Proc, write: Option<(string, string)>, calls: seq<Event>)

  function Silent(p: Proc): Move {
    Move(p, None, [])
  }

  function Stored(values: map<string, string>, write: Option<(string, string)>): map<string, string> {
    if write.Some? then values[write.value.0 := write.value.1] else values
  }

  // ---------- moves ----------

  function Todos(node: AgentNode, path: seq<nat>, i: nat): seq<Proc>
    requires i <= |node.agents|
    decreases |node.agents| - i
  {
    if i == |node.agents| then [] else [Todo(node.agents[i], path + [i])] + Todos(node, path, i + 1)
  }

  function Begin(node: AgentNode, path: seq<nat>): Proc {
    match node.kind
    case Sequential =>
      if node.agents == [] then Halt(LastOr(None)) else InSeq(node, path, 0, Todo(node.agents[0], path + [0]))
    case Parallel => InPar(Todos(node, path, 0))
    case Loop =>
      if node.agents == [] || MaxIterations(node) == 0 then Halt(LastOr(None))
      else InLoop(node, path, MaxIterations(node), 0, Todo(node.agents[0], path + [0]))
    case _ => Reading(node, path, "", node.prompt)
  }

  /** One piece of the prompt; a reference reads its key now. */
  function ReadOn(p: Proc, values: map<string, string>): Proc
    requires p.Reading?
  {
    if p.rest == "" then Calling(p.node, p.path, p.done)
    else match TakeRef(p.rest)
      case Some((key, rest)) => Reading(p.node, p.path, p.done + RefText(key, values), rest)
      case None => Reading(p.node, p.path, p.done + p.rest[..1], p.rest[1..])
  }

  function AfterCall(node: AgentNode, act: Act): Proc {
    if act.end.Reply? && act.out.Some? && node.outputKey != ""
    then Storing(node.outputKey, act.out.value, act.end.result)
    else Halt(ActOutcome(act))
  }

  function SeqNext(node: AgentNode, path: seq<nat>, i: nat, o: Outcome): Proc {
    if o.Stops() || i + 1 >= |node.agents| then Halt(o)
    else InSeq(node, path, i + 1, Todo(node.agents[i + 1], path + [i + 1]))
  }

  function LoopNext(node: AgentNode, path: seq<nat>, rounds: nat, i: nat, o: Outcome): Proc {
    if !o.Ok? then Halt(o)
    else if o.result.exitLoop then Halt(Ok(Plain(o.result.response)))
    else if i + 1 < |node.agents| then InLoop(node, path, rounds, i + 1, Todo(node.agents[i + 1], path + [i + 1]))
    else if rounds > 1 && node.agents != [] then InLoop(node, path, rounds - 1, 0, Todo(node.agents[0], path + [0]))
    else Halt(o)
  }

  function FirstError(procs: seq<Proc>): Option<Outcome> {
    if procs == [] then None
    else if procs[0].Halt? && !procs[0].outcome.Ok? then Some(procs[0].outcome)
    else FirstError(procs[1..])
  }

  predicate AllEnded(procs: seq<Proc>) {
    procs == [] || (procs[0].Halt? && procs[0].outcome.Ok? && AllEnded(procs[1..]))
  }

  function Responses(procs: seq<Proc>): seq<string>
    requires AllEnded(procs)
  {
    if procs == [] then [] else [procs[0].outcome.result.response] + Responses(procs[1..])
  }

  /** The parent returns on a child's error at once, and otherwise when all have ended. */
  function Collect(procs: seq<Proc>): Proc {
    if FirstError(procs).Some? then Halt(FirstError(procs).value)
    else if AllEnded(procs) then Halt(Ok(Plain(Join(NonEmpty(Responses(procs)), "\n"))))
    else InPar(procs)
  }

  /** choice names, at each parallel node on the way down, the child that moves; an index past the
      last child is the parent looking for results. */
  function Step(w: World, userMessage: string, p: Proc, values: map<string, string>, choice: seq<nat>): Move
    decreases p
  {
    match p
    case Halt(_) => Silent(p)
    case Todo(node, path) => Silent(Begin(node, path))
    case Reading(_, _, _, _) => Silent(ReadOn(p, values))
    case Calling(node, path, prompt) =>
      var act := LeafActOf(w, node, path, prompt, userMessage);
      Move(AfterCall(node, act), None, At(path, act.calls))
    case Storing(key, value, result) => Move(Halt(Ok(result)), Some((key, value)), [])
    case InSeq(node, path, i, child) =>
      if child.Halt? then Silent(SeqNext(node, path, i, child.outcome))
      else
        var m := Step(w, userMessage, child, values, choice);
        m.(proc := InSeq(node, path, i, m.proc))
    case InLoop(node, path, rounds, i, child) =>
      if child.Halt? then Silent(LoopNext(node, path, rounds, i, child.outcome))
      else
        var m := Step(w, userMessage, child, values, choice);
        m.(proc := InLoop(node, path, rounds, i, m.proc))
    case InPar(procs) =>
      if choice == [] then Silent(p)
      else if choice[0] >= |procs| then Silent(Collect(procs))
      else
        var m := Step(w, userMessage, procs[choice[0]], values, choice[1..]);
        m.(proc := InPar(procs[choice[0] := m.proc]))
  }

  datatype Config = Config(proc: Proc, values: map<string, string>, calls: multiset<Event>)

  function Next(w: World, userMessage: string, c: Config, choice: seq<nat>): Config {
    var m := Step(w, userMessage, c.proc, c.values, choice);
    Config(m.proc, Stored(c.values, m.write), c.calls + multiset(m.calls))
  }

  /** A schedule is the list of choices made. */
  function Follow(w: World, userMessage: string, c: Config, schedule: seq<seq<nat>>): Config
    decreases |schedule|
  {
    if schedule == [] then c else Follow(w, userMessage, Next(w, userMessage, c, schedule[0]), schedule[1..])
  }

  // ---------- keys ----------

  function PReads(p: Proc): set<string>
    decreases p, 1
  {
    match p
    case Todo(node, _) => Reads(node)
    case Reading(_, _, _, rest) => Refs(rest)
    case InSeq(node, _, i, child) => PReads(child) + (if i < |node.agents| then ReadsFrom(node, i + 1) else {})
    case InLoop(node, _, _, _, child) => PReads(child) + ReadsFrom(node, 0)
    case InPar(procs) => PReadsAll(procs)
    case _ => {}
  }

  function PReadsAll(procs: seq<Proc>): set<string>
    decreases procs, 0
  {
    if procs == [] then {} else PReads(procs[0]) + PReadsAll(procs[1..])
  }

  function PWrites(p: Proc): set<string>
    decreases p, 1
  {
    match p
    case Todo(node, _) => Writes(node)
    case Reading(node, _, _, _) => KeyOf(node)
    case Calling(node, _, _) => KeyOf(node)
    case Storing(key, _, _) => {key}
    case InSeq(node, _, i, child) => PWrites(child) + (if i < |node.agents| then WritesFrom(node, i + 1) else {})
    case InLoop(node, _, _, _, child) => PWrites(child) + WritesFrom(node, 0)
    case InPar(procs) => PWritesAll(procs)
    case Halt(_) => {}
  }

  function PWritesAll(procs: seq<Proc>): set<string>
    decreases procs, 0
  {
    if procs == [] then {} else PWrites(procs[0]) + PWritesAll(procs[1..])
  }

  /** Siblings of a parallel node neither read nor write a key one of them writes. */
  predicate RaceFree(node: AgentNode) {
    node.IsLeaf() || (
      && (forall i :: 0 <= i < |node.agents| ==> RaceFree(node.agents[i]))
      && (node.kind == Parallel ==>
            forall i, j :: 0 <= i < |node.agents| && 0 <= j < |node.agents| && i != j ==>
              Writes(node.agents[i]) !! (Reads(node.agents[j]) + Writes(node.agents[j]))))
  }

  predicate Apart(a: Proc, b: Proc) {
    PWrites(a) !! (PReads(b) + PWrites(b)) && PWrites(b) !! (PReads(a) + PWrites(a))
  }

  /** Well-formed and race-free from here on. */
  predicate Good(p: Proc)
    decreases p
  {
    match p
    case Todo(node, _) => RaceFree(node)
    case Reading(node, _, _, _) => node.IsLeaf()
    case Calling(node, _, _) => node.IsLeaf()
    case InSeq(node, _, i, child) => node.kind == Sequential && RaceFree(node) && i < |node.agents| && Good(child)
    case InLoop(node, _, rounds, i, child) =>
      node.kind == Loop && RaceFree(node) && rounds > 0 && i < |node.agents| && Good(child)
    case InPar(procs) =>
      && (forall i :: 0 <= i < |procs| ==> Good(procs[i]))
      && (forall i, j :: 0 <= i < j < |procs| ==> Apart(procs[i], procs[j]))
    case _ => true
  }

  // ---------- what a process still has to do ----------

  /** The rest of a sequential node after its child i gave r. */
  function SeqThen(w: World, userMessage: string, node: AgentNode, path: seq<nat>, i: nat, r: Res): Res {
    if r.outcome.Stops() || i >= |node.agents| then r
    else r.Before(EvalSeq(w, node, path, userMessage, r.values, i + 1, Some(r.outcome.result)))
  }

  /** The rest of a loop after child i of this round gave r. */
  function LoopThen(w: World, userMessage: string, node: AgentNode, path: seq<nat>, rounds: nat, i: nat, r: Res): Res {
    if !r.outcome.Ok? || i >= |node.agents| || rounds == 0 then r
    else if r.outcome.result.exitLoop then r.(outcome := Ok(Plain(r.outcome.result.response)))
    else r.Before(EvalRound(w, node, path, userMessage, r.values, rounds, i + 1, Some(r.outcome.result)))
  }

  /** The left-to-right result of a process, of which Step does one piece. */
  function Den(w: World, userMessage: string, p: Proc, values: map<string, string>): Res
    decreases p, 1
  {
    match p
    case Todo(node, path) => EvalNode(w, node, path, userMessage, values)
    case Reading(node, path, done, rest) =>
      EvalPrompt(w, node, path, userMessage, done + ResolveTemplate(rest, values), values)
    case Calling(node, path, prompt) => EvalPrompt(w, node, path, userMessage, prompt, values)
    case Storing(key, value, result) => Res(values[key := value], multiset{}, Ok(result))
    case InSeq(node, path, i, child) =>
      SeqThen(w, userMessage, node, path, i, Den(w, userMessage, child, values))
    case InLoop(node, path, rounds, i, child) =>
      LoopThen(w, userMessage, node, path, rounds, i, Den(w, userMessage, child, values))
    case InPar(procs) => DenPar(w, userMessage, procs, values, [])
    case Halt(o) => Res(values, multiset{}, o)
  }

  function DenPar(w: World, userMessage: string, procs: seq<Proc>, values: map<string, string>,
                  responses: seq<string>): Res
    decreases procs, 0
  {
    if procs == [] then Res(values, multiset{}, Ok(Plain(Join(NonEmpty(responses), "\n"))))
    else
      var r := Den(w, userMessage, procs[0], values);
      if !r.outcome.Ok? then r
      else r.Before(DenPar(w, userMessage, procs[1..], r.values, responses + [r.outcome.result.response]))
  }
}
