/** Schedules end: every effective move uses up work, and a process that has not ended can move. */
module ScheduleProgress {
  import opened World
  import opened Orchestrator
  import opened Schedule
  import opened ScheduleProofs

  function Size(node: AgentNode): nat
    decreases node, 2
  {
    match node.kind
    case Sequential => 1 + SizeFrom(node, 0)
    case Parallel => 2 + SizeFrom(node, 0)
    case Loop => 1 + Rounds(node, MaxIterations(node))
    case _ => |node.prompt| + 4
  }

  function SizeFrom(node: AgentNode, i: nat): nat
    requires i <= |node.agents|
    decreases node, 0, |node.agents| - i
  {
    if i == |node.agents| then 0 else Size(node.agents[i]) + 1 + SizeFrom(node, i + 1)
  }

  function Rounds(node: AgentNode, rounds: nat): nat
    decreases node, 1, rounds
  {
    if rounds == 0 then 0 else SizeFrom(node, 0) + Rounds(node, rounds - 1)
  }

  /** The moves a process has left, at most. */
  function Moves(p: Proc): nat
    decreases p, 1
  {
    match p
    case Todo(node, _) => Size(node)
    case Reading(_, _, _, rest) => |rest| + 3
    case Calling(_, _, _) => 2
    case Storing(_, _, _) => 1
    case InSeq(node, _, i, child) => Moves(child) + 1 + (if i < |node.agents| then SizeFrom(node, i + 1) else 0)
    case InLoop(node, _, rounds, i, child) =>
      Moves(child) + 1 + (if i < |node.agents| then SizeFrom(node, i + 1) else 0)
          + (if rounds > 0 then Rounds(node, rounds - 1) else 0)
    case InPar(procs) => 1 + MovesAll(procs)
    case Halt(_) => 0
  }

  function MovesAll(procs: seq<Proc>): nat
    decreases procs, 0
  {
    if procs == [] then 0 else Moves(procs[0]) + MovesAll(procs[1..])
  }

  lemma {:induction false} TodosMoves(node: AgentNode, path: seq<nat>, i: nat)
    requires i <= |node.agents|
    ensures MovesAll(Todos(node, path, i)) <= SizeFrom(node, i)
    decreases |node.agents| - i
  {
    if i < |node.agents| {
      TodosMoves(node, path, i + 1);
      assert Todos(node, path, i)[1..] == Todos(node, path, i + 1);
    }
  }

  lemma {:induction false} MovesReplaced(procs: seq<Proc>, j: nat, p2: Proc)
    requires j < |procs|
    ensures MovesAll(procs[j := p2]) == MovesAll(procs) - Moves(procs[j]) + Moves(p2)
  {
    var procs2 := procs[j := p2];
    if j == 0 {
      assert procs2[1..] == procs[1..];
    } else {
      assert procs2[1..] == procs[1..][j - 1 := p2];
      MovesReplaced(procs[1..], j - 1, p2);
    }
  }

  lemma BeginMoves(node: AgentNode, path: seq<nat>)
    ensures Moves(Begin(node, path)) < Size(node)
  {
    match node.kind
    case Sequential =>
      assert node.agents != [] ==> SizeFrom(node, 0) == Size(node.agents[0]) + 1 + SizeFrom(node, 1);
    case Parallel => TodosMoves(node, path, 0);
    case Loop =>
      if node.agents != [] && MaxIterations(node) > 0 {
        assert SizeFrom(node, 0) == Size(node.agents[0]) + 1 + SizeFrom(node, 1);
      }
    case _ =>
  }

  lemma LoopNextMoves(node: AgentNode, path: seq<nat>, rounds: nat, i: nat, o: Outcome)
    requires i < |node.agents| && rounds > 0
    ensures Moves(LoopNext(node, path, rounds, i, o)) < Moves(InLoop(node, path, rounds, i, Halt(o)))
  {
    assert SizeFrom(node, 0) == Size(node.agents[0]) + 1 + SizeFrom(node, 1);
  }

  /** Processes whose next move does not depend on a running child. */
  predicate MovesAlone(p: Proc) {
    match p
    case InSeq(_, _, _, child) => child.Halt?
    case InLoop(_, _, _, _, child) => child.Halt?
    case InPar(_) => false
    case Halt(_) => false
    case _ => true
  }

  lemma MoveAlone(w: World, userMessage: string, p: Proc, values: map<string, string>, choice: seq<nat>)
    requires Good(p) && MovesAlone(p)
    ensures Moves(Step(w, userMessage, p, values, choice).proc) < Moves(p)
  {
    match p
    case Todo(node, path) => BeginMoves(node, path);
    case InLoop(node, path, rounds, i, child) => LoopNextMoves(node, path, rounds, i, child.outcome);
    case _ =>
  }

  predicate StandsOrShrinks(p: Proc, m: Move) {
    (m.proc == p && m.write.None? && m.calls == []) || Moves(m.proc) < Moves(p)
  }

  lemma ParChildShrinks(procs: seq<Proc>, j: nat, m: Move)
    requires j < |procs| && StandsOrShrinks(procs[j], m)
    ensures StandsOrShrinks(InPar(procs), m.(proc := InPar(procs[j := m.proc])))
  {
    MovesReplaced(procs, j, m.proc);
    assert procs[j := procs[j]] == procs;
  }

  /** A move changes nothing or leaves fewer moves. */
  lemma {:induction false} MovesShrink(w: World, userMessage: string, p: Proc, values: map<string, string>,
                                       choice: seq<nat>)
    requires Good(p)
    ensures StandsOrShrinks(p, Step(w, userMessage, p, values, choice))
    decreases p
  {
    if MovesAlone(p) {
      MoveAlone(w, userMessage, p, values, choice);
    } else if p.InPar? {
      if choice != [] && choice[0] < |p.procs| {
        MovesShrink(w, userMessage, p.procs[choice[0]], values, choice[1..]);
        ParChildShrinks(p.procs, choice[0], Step(w, userMessage, p.procs[choice[0]], values, choice[1..]));
      }
    } else if !p.Halt? {
      MovesShrink(w, userMessage, p.child, values, choice);
    }
  }

  lemma {:induction false} SomeoneCanMove(procs: seq<Proc>)
    ensures AllEnded(procs) || FirstError(procs).Some? || exists j :: 0 <= j < |procs| && !procs[j].Halt?
  {
    if procs != [] && procs[0].Halt? && procs[0].outcome.Ok? {
      SomeoneCanMove(procs[1..]);
      if exists j :: 0 <= j < |procs[1..]| && !procs[1..][j].Halt? {
        var j :| 0 <= j < |procs[1..]| && !procs[1..][j].Halt?;
        assert !procs[j + 1].Halt?;
      }
    }
  }

  lemma ChildMoves(w: World, userMessage: string, procs: seq<Proc>, values: map<string, string>, j: nat, rest: seq<nat>)
    requires j < |procs| && Moves(Step(w, userMessage, procs[j], values, rest).proc) < Moves(procs[j])
    ensures Moves(Step(w, userMessage, InPar(procs), values, [j] + rest).proc) < Moves(InPar(procs))
  {
    assert ([j] + rest)[1..] == rest;
    MovesReplaced(procs, j, Step(w, userMessage, procs[j], values, rest).proc);
  }

  lemma CollectMoves(w: World, userMessage: string, procs: seq<Proc>, values: map<string, string>)
    requires AllEnded(procs) || FirstError(procs).Some?
    ensures Moves(Step(w, userMessage, InPar(procs), values, [|procs|]).proc) < Moves(InPar(procs))
  {
  }

  lemma OnlyChildMoves(w: World, userMessage: string, p: Proc, values: map<string, string>, choice: seq<nat>)
    requires (p.InSeq? || p.InLoop?) && !p.child.Halt?
    requires Moves(Step(w, userMessage, p.child, values, choice).proc) < Moves(p.child)
    ensures Moves(Step(w, userMessage, p, values, choice).proc) < Moves(p)
  {
  }

  /** A process that has not ended has a move that makes progress. */
  lemma {:induction false} CanMove(w: World, userMessage: string, p: Proc, values: map<string, string>)
    returns (choice: seq<nat>)
    requires Good(p) && !p.Halt?
    ensures Moves(Step(w, userMessage, p, values, choice).proc) < Moves(p)
    decreases p
  {
    if MovesAlone(p) {
      choice := [];
      MoveAlone(w, userMessage, p, values, choice);
    } else if p.InPar? {
      choice := ParCanMove(w, userMessage, p, values);
    } else {
      choice := CanMove(w, userMessage, p.child, values);
      OnlyChildMoves(w, userMessage, p, values, choice);
    }
  }

  lemma {:induction false} ParCanMove(w: World, userMessage: string, p: Proc, values: map<string, string>)
    returns (choice: seq<nat>)
    requires Good(p) && p.InPar?
    ensures Moves(Step(w, userMessage, p, values, choice).proc) < Moves(p)
    decreases p, 0
  {
    SomeoneCanMove(p.procs);
    if AllEnded(p.procs) || FirstError(p.procs).Some? {
      choice := [|p.procs|];
      CollectMoves(w, userMessage, p.procs, values);
    } else {
      var j :| 0 <= j < |p.procs| && !p.procs[j].Halt?;
      var rest := CanMove(w, userMessage, p.procs[j], values);
      choice := [j] + rest;
      ChildMoves(w, userMessage, p.procs, values, j, rest);
    }
  }

  /** Wherever the choices made so far have led, the run can be finished. */
  lemma {:induction false} CanFinish(w: World, userMessage: string, c: Config)
    returns (schedule: seq<seq<nat>>)
    requires Good(c.proc)
    ensures Follow(w, userMessage, c, schedule).proc.Halt? && |schedule| <= Moves(c.proc)
    decreases Moves(c.proc)
  {
    if c.proc.Halt? {
      schedule := [];
    } else {
      var choice := CanMove(w, userMessage, c.proc, c.values);
      StepGood(w, userMessage, c.proc, c.values, choice);
      var rest := CanFinish(w, userMessage, Next(w, userMessage, c, choice));
      schedule := [choice] + rest;
      assert schedule[1..] == rest;
    }
  }
}
