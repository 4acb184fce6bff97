/** Every schedule of a race-free tree ends like running its children from left to right. */
module ScheduleProofs {
  import opened Prelude
  import opened World
  import opened Orchestrator
  import opened PauseResume
  import opened Evaluation
  import opened Footprint
  import opened Schedule

  // ---------- a process depends on its own keys only ----------

  lemma {:induction false} DenFrame(w: World, userMessage: string, p: Proc, values: map<string, string>, k: string,
                                    x: string)
    requires Good(p)
    ensures Framed(k, x, PReads(p), PWrites(p), values, Den(w, userMessage, p, values),
                   Den(w, userMessage, p, values[k := x]))
    decreases p, 1
  {
    hide RaceFree, Apart, Reads, Writes, ReadsFrom, WritesFrom;
    match p
    case Todo(node, path) => NodeFrame(w, node, path, userMessage, values, k, x);
    case Reading(node, path, done, rest) =>
      PromptFrame(w, node, path, userMessage, done + ResolveTemplate(rest, values), values, k, x);
      if k !in Refs(rest) {
        ResolveFrame(rest, values, k, x);
      }
    case Calling(node, path, prompt) => PromptFrame(w, node, path, userMessage, prompt, values, k, x);
    case Storing(key, value, result) =>
      if k != key {
        assert values[k := x][key := value] == values[key := value][k := x];
      }
    case InSeq(node, path, i, child) =>
      DenFrame(w, userMessage, child, values, k, x);
      var r := Den(w, userMessage, child, values);
      if !r.outcome.Stops() {
        SeqFrame(w, node, path, userMessage, r.values, i + 1, Some(r.outcome.result), k, x);
      }
    case InLoop(node, path, rounds, i, child) =>
      DenFrame(w, userMessage, child, values, k, x);
      var r := Den(w, userMessage, child, values);
      if r.outcome.Ok? && !r.outcome.result.exitLoop {
        RoundFrame(w, node, path, userMessage, r.values, rounds, i + 1, Some(r.outcome.result), k, x);
      }
    case InPar(procs) => DenParFrame(w, userMessage, procs, values, [], k, x);
    case Halt(_) =>
  }

  lemma {:induction false} DenParFrame(w: World, userMessage: string, procs: seq<Proc>, values: map<string, string>,
                      responses: seq<string>, k: string, x: string)
    requires forall i :: 0 <= i < |procs| ==> Good(procs[i])
    ensures Framed(k, x, PReadsAll(procs), PWritesAll(procs), values,
                   DenPar(w, userMessage, procs, values, responses),
                   DenPar(w, userMessage, procs, values[k := x], responses))
    decreases procs, 0
  {
    if procs != [] {
      DenFrame(w, userMessage, procs[0], values, k, x);
      var r := Den(w, userMessage, procs[0], values);
      if r.outcome.Ok? {
        DenParFrame(w, userMessage, procs[1..], r.values, responses + [r.outcome.result.response], k, x);
      }
    }
  }

  lemma {:induction false} AllContains(procs: seq<Proc>, j: nat)
    requires j < |procs|
    ensures PReads(procs[j]) <= PReadsAll(procs) && PWrites(procs[j]) <= PWritesAll(procs)
  {
    if j > 0 {
      AllContains(procs[1..], j - 1);
    }
  }

  ghost predicate AgreeOn(keys: set<string>, a: map<string, string>, b: map<string, string>) {
    forall k :: k in keys ==> Lookup(a, k) == Lookup(b, k)
  }

  /** A move is decided by the keys the process can read. */
  lemma {:induction false} StepLocal(w: World, userMessage: string, p: Proc, a: map<string, string>,
                      b: map<string, string>, choice: seq<nat>)
    requires AgreeOn(PReads(p), a, b)
    ensures Step(w, userMessage, p, a, choice) == Step(w, userMessage, p, b, choice)
    decreases p
  {
    match p
    case InSeq(_, _, _, child) => StepLocal(w, userMessage, child, a, b, choice);
    case InLoop(_, _, _, _, child) => StepLocal(w, userMessage, child, a, b, choice);
    case InPar(procs) =>
      if choice != [] && choice[0] < |procs| {
        AllContains(procs, choice[0]);
        StepLocal(w, userMessage, procs[choice[0]], a, b, choice[1..]);
      }
    case _ =>
  }

  // ---------- moves keep processes well-formed ----------

  predicate Shrinks(p: Proc, p2: Proc) {
    PReads(p2) <= PReads(p) && PWrites(p2) <= PWrites(p)
  }

  lemma {:induction false} TodosAre(node: AgentNode, path: seq<nat>, i: nat)
    requires i <= |node.agents|
    ensures |Todos(node, path, i)| == |node.agents| - i
    ensures forall j :: 0 <= j < |Todos(node, path, i)| ==>
              Todos(node, path, i)[j] == Todo(node.agents[i + j], path + [i + j])
    ensures PReadsAll(Todos(node, path, i)) == ReadsFrom(node, i)
    ensures PWritesAll(Todos(node, path, i)) == WritesFrom(node, i)
    decreases |node.agents| - i
  {
    if i < |node.agents| {
      TodosAre(node, path, i + 1);
      assert Todos(node, path, i)[1..] == Todos(node, path, i + 1);
    }
  }

  lemma {:induction false} FromContains(node: AgentNode, i: nat)
    requires i < |node.agents|
    ensures Reads(node.agents[i]) <= ReadsFrom(node, 0) && Writes(node.agents[i]) <= WritesFrom(node, 0)
  {
    FromMonotone(node, i);
  }

  lemma TodoApart(node: AgentNode, i: nat, j: nat, p: seq<nat>, q: seq<nat>)
    requires RaceFree(node) && node.kind == Parallel && i < |node.agents| && j < |node.agents| && i != j
    ensures Apart(Todo(node.agents[i], p), Todo(node.agents[j], q))
  {
    assert Writes(node.agents[i]) !! (Reads(node.agents[j]) + Writes(node.agents[j]));
    assert Writes(node.agents[j]) !! (Reads(node.agents[i]) + Writes(node.agents[i]));
  }

  lemma TodoGood(node: AgentNode, i: nat, path: seq<nat>)
    requires RaceFree(node) && node.kind == Parallel && i < |node.agents|
    ensures Good(Todo(node.agents[i], path))
  {
  }

  lemma AllGood(procs: seq<Proc>)
    requires forall i :: 0 <= i < |procs| ==> Good(procs[i])
    requires forall i, j :: 0 <= i < j < |procs| ==> Apart(procs[i], procs[j])
    ensures Good(InPar(procs))
  {
    hide Apart;
  }

  lemma TodosGood(node: AgentNode, path: seq<nat>)
    requires RaceFree(node) && node.kind == Parallel
    ensures Good(InPar(Todos(node, path, 0)))
  {
    hide *;
    TodosAre(node, path, 0);
    var procs := Todos(node, path, 0);
    forall i, j | 0 <= i < j < |procs|
      ensures Apart(procs[i], procs[j])
    {
      TodoApart(node, i, j, path + [i], path + [j]);
    }
    forall i | 0 <= i < |procs|
      ensures Good(procs[i])
    {
      TodoGood(node, i, path + [i]);
    }
    AllGood(procs);
  }

  lemma BeginGood(node: AgentNode, path: seq<nat>)
    requires RaceFree(node)
    ensures Good(Begin(node, path)) && Shrinks(Todo(node, path), Begin(node, path))
  {
    match node.kind
    case Sequential =>
      if node.agents != [] {
        assert ReadsFrom(node, 0) == Reads(node.agents[0]) + ReadsFrom(node, 1);
        assert WritesFrom(node, 0) == Writes(node.agents[0]) + WritesFrom(node, 1);
      }
    case Loop =>
      if node.agents != [] {
        FromContains(node, 0);
      }
    case Parallel =>
      TodosAre(node, path, 0);
      TodosGood(node, path);
    case _ =>
  }

  lemma LoopNextGood(node: AgentNode, path: seq<nat>, rounds: nat, i: nat, o: Outcome)
    requires node.kind == Loop && RaceFree(node) && rounds > 0 && i < |node.agents|
    ensures Good(LoopNext(node, path, rounds, i, o))
    ensures Shrinks(InLoop(node, path, rounds, i, Halt(o)), LoopNext(node, path, rounds, i, o))
  {
    FromContains(node, 0);
    if i + 1 < |node.agents| {
      FromContains(node, i + 1);
    }
  }

  /** Replacing one of the children by a smaller one. */
  lemma {:induction false} AllShrinks(procs: seq<Proc>, j: nat, p2: Proc)
    requires j < |procs| && Shrinks(procs[j], p2)
    ensures PReadsAll(procs[j := p2]) <= PReadsAll(procs) && PWritesAll(procs[j := p2]) <= PWritesAll(procs)
  {
    var procs2 := procs[j := p2];
    if j == 0 {
      assert procs2[1..] == procs[1..];
    } else {
      assert procs2[1..] == procs[1..][j - 1 := p2];
      AllShrinks(procs[1..], j - 1, p2);
    }
  }

  lemma ParGood(procs: seq<Proc>, j: nat, p2: Proc)
    requires Good(InPar(procs)) && j < |procs| && Good(p2) && Shrinks(procs[j], p2)
    ensures Good(InPar(procs[j := p2]))
  {
    var procs2 := procs[j := p2];
    forall a, b | 0 <= a < b < |procs2|
      ensures Apart(procs2[a], procs2[b])
    {
      assert Apart(procs[a], procs[b]);
    }
  }

  lemma {:induction false} FirstErrorGood(procs: seq<Proc>)
    ensures FirstError(procs).Some? ==> !FirstError(procs).value.Ok?
  {
    if procs != [] {
      FirstErrorGood(procs[1..]);
    }
  }

  ghost predicate MoveGood(p: Proc, m: Move) {
    Good(m.proc) && Shrinks(p, m.proc) && (m.write.Some? ==> m.write.value.0 in PWrites(p))
  }

  lemma LeafGood(w: World, userMessage: string, p: Proc, values: map<string, string>, choice: seq<nat>)
    requires Good(p) && (p.Reading? || p.Calling? || p.Storing? || p.Halt?)
    ensures MoveGood(p, Step(w, userMessage, p, values, choice))
  {
  }

  lemma SeqNextGood(node: AgentNode, path: seq<nat>, i: nat, o: Outcome)
    requires node.kind == Sequential && RaceFree(node) && i < |node.agents|
    ensures MoveGood(InSeq(node, path, i, Halt(o)), Silent(SeqNext(node, path, i, o)))
  {
    if !o.Stops() && i + 1 < |node.agents| {
      var next := Todo(node.agents[i + 1], path + [i + 1]);
      assert ReadsFrom(node, i + 1) == PReads(next) + ReadsFrom(node, i + 2);
      assert WritesFrom(node, i + 1) == PWrites(next) + WritesFrom(node, i + 2);
      assert Good(next);
    }
  }

  lemma CollectGood(procs: seq<Proc>)
    requires Good(InPar(procs))
    ensures MoveGood(InPar(procs), Silent(Collect(procs)))
  {
  }

  lemma ChildGood(procs: seq<Proc>, j: nat, m: Move)
    requires Good(InPar(procs)) && j < |procs| && MoveGood(procs[j], m)
    ensures MoveGood(InPar(procs), m.(proc := InPar(procs[j := m.proc])))
  {
    ParGood(procs, j, m.proc);
    AllShrinks(procs, j, m.proc);
    AllContains(procs, j);
  }

  lemma {:induction false} StepGood(w: World, userMessage: string, p: Proc, values: map<string, string>,
                                    choice: seq<nat>)
    requires Good(p)
    ensures MoveGood(p, Step(w, userMessage, p, values, choice))
    decreases p
  {
    hide RaceFree, Reads, Writes, ReadsFrom, WritesFrom, Apart, SeqNext, LoopNext, Collect;
    match p
    case Todo(node, path) => BeginGood(node, path);
    case InSeq(node, path, i, child) =>
      if child.Halt? {
        SeqNextGood(node, path, i, child.outcome);
      } else {
        StepGood(w, userMessage, child, values, choice);
      }
    case InLoop(node, path, rounds, i, child) =>
      if child.Halt? {
        LoopNextGood(node, path, rounds, i, child.outcome);
      } else {
        StepGood(w, userMessage, child, values, choice);
      }
    case InPar(procs) =>
      if choice != [] {
        if choice[0] >= |procs| {
          CollectGood(procs);
        } else {
          StepGood(w, userMessage, procs[choice[0]], values, choice[1..]);
          ChildGood(procs, choice[0], Step(w, userMessage, procs[choice[0]], values, choice[1..]));
        }
      }
    case _ => LeafGood(w, userMessage, p, values, choice);
  }

  // ---------- moves keep the result ----------

  /** The rest of the run after a move, with the move's calls, is the run before it; and an error
      to come stays an error to come. */
  ghost predicate Keeps(before: Res, after: Res, calls: seq<Event>) {
    if before.outcome.Ok? then after == before.(calls := after.calls) && multiset(calls) + after.calls == before.calls
    else !after.outcome.Ok?
  }

  lemma {:induction false} EmptyLoop(w: World, node: AgentNode, path: seq<nat>, userMessage: string,
                      values: map<string, string>, rounds: nat)
    requires node.agents == []
    ensures EvalLoop(w, node, path, userMessage, values, rounds, None) == Res(values, multiset{}, LastOr(None))
    decreases rounds
  {
    if rounds > 0 {
      EmptyLoop(w, node, path, userMessage, values, rounds - 1);
    }
  }

  lemma {:induction false} TodosDen(w: World, userMessage: string, node: AgentNode, path: seq<nat>, i: nat,
                      values: map<string, string>, responses: seq<string>)
    requires i <= |node.agents|
    ensures DenPar(w, userMessage, Todos(node, path, i), values, responses)
            == EvalPar(w, node, path, userMessage, values, i, responses)
    decreases |node.agents| - i
  {
    if i < |node.agents| {
      var r := EvalNode(w, node.agents[i], path + [i], userMessage, values);
      assert Todos(node, path, i)[1..] == Todos(node, path, i + 1);
      if r.outcome.Ok? {
        TodosDen(w, userMessage, node, path, i + 1, r.values, responses + [r.outcome.result.response]);
      }
    }
  }

  /** A round with children left is its next child and then the rest. */
  lemma RoundStart(w: World, node: AgentNode, path: seq<nat>, userMessage: string, values: map<string, string>,
                   rounds: nat, i: nat, last: Option<NodeResult>)
    requires i < |node.agents| && rounds > 0
    ensures EvalRound(w, node, path, userMessage, values, rounds, i, last)
            == Den(w, userMessage, InLoop(node, path, rounds, i, Todo(node.agents[i], path + [i])), values)
  {
    assert Den(w, userMessage, Todo(node.agents[i], path + [i]), values)
           == EvalNode(w, node.agents[i], path + [i], userMessage, values);
  }

  lemma BeginDen(w: World, userMessage: string, node: AgentNode, path: seq<nat>, values: map<string, string>)
    ensures Den(w, userMessage, Begin(node, path), values) == EvalNode(w, node, path, userMessage, values)
  {
    hide ResolveTemplate, EvalPrompt, DenPar, Todos;
    match node.kind
    case Sequential =>
    case Parallel => TodosDen(w, userMessage, node, path, 0, values, []);
    case Loop =>
      if node.agents == [] {
        EmptyLoop(w, node, path, userMessage, values, MaxIterations(node));
      } else if MaxIterations(node) > 0 {
        RoundStart(w, node, path, userMessage, values, MaxIterations(node), 0, None);
      }
    case _ =>
      assert "" + ResolveTemplate(node.prompt, values) == ResolveTemplate(node.prompt, values);
  }

  /** The prompt a reading process ends up with. */
  function PromptOf(p: Proc, values: map<string, string>): string
    requires p.Reading? || p.Calling?
  {
    if p.Reading? then p.done + ResolveTemplate(p.rest, values) else p.prompt
  }

  lemma Associates(a: string, b: string, c: string)
    ensures a + b + c == a + (b + c)
  {
  }

  /** One piece read: piece is what it resolves to, rest what is left of the text. */
  lemma PieceRead(node: AgentNode, path: seq<nat>, done: string, text: string, values: map<string, string>,
                  piece: string, rest: string)
    requires ResolveTemplate(text, values) == piece + ResolveTemplate(rest, values)
    ensures PromptOf(Reading(node, path, done + piece, rest), values)
            == PromptOf(Reading(node, path, done, text), values)
  {
    Associates(done, piece, ResolveTemplate(rest, values));
  }

  lemma ReadOnPrompt(p: Proc, values: map<string, string>)
    requires p.Reading?
    ensures PromptOf(ReadOn(p, values), values) == PromptOf(p, values)
  {
    if p.rest == "" {
      assert p.done + "" == p.done;
    } else {
      match TakeRef(p.rest)
      case Some((key, rest)) => PieceRead(p.node, p.path, p.done, p.rest, values, RefText(key, values), rest);
      case None => PieceRead(p.node, p.path, p.done, p.rest, values, p.rest[..1], p.rest[1..]);
    }
  }

  lemma PromptDen(w: World, userMessage: string, p: Proc, prompt: string, values: map<string, string>)
    requires (p.Reading? || p.Calling?) && prompt == PromptOf(p, values)
    ensures Den(w, userMessage, p, values) == EvalPrompt(w, p.node, p.path, userMessage, prompt, values)
  {
  }

  lemma ReadOnDen(w: World, userMessage: string, p: Proc, values: map<string, string>)
    requires p.Reading?
    ensures Den(w, userMessage, ReadOn(p, values), values) == Den(w, userMessage, p, values)
  {
    var prompt := PromptOf(p, values);
    ReadOnPrompt(p, values);
    PromptDen(w, userMessage, p, prompt, values);
    PromptDen(w, userMessage, ReadOn(p, values), prompt, values);
  }

  lemma NothingBefore(values: map<string, string>, o: Outcome, r: Res)
    ensures Res(values, multiset{}, o).Before(r) == r
  {
    assert multiset{} + r.calls == r.calls;
  }

  lemma SeqNextDen(w: World, userMessage: string, node: AgentNode, path: seq<nat>, i: nat, o: Outcome,
                   values: map<string, string>)
    requires i < |node.agents|
    ensures Den(w, userMessage, SeqNext(node, path, i, o), values)
            == Den(w, userMessage, InSeq(node, path, i, Halt(o)), values)
  {
    if !o.Stops() {
      NothingBefore(values, o, EvalSeq(w, node, path, userMessage, values, i + 1, Some(o.result)));
    }
  }

  /** The end of a round is the start of the next, or the end of the loop. */
  lemma RoundEnds(w: World, node: AgentNode, path: seq<nat>, userMessage: string, values: map<string, string>,
                  rounds: nat, o: Outcome)
    requires rounds > 0 && node.agents != [] && o.Ok?
    ensures EvalRound(w, node, path, userMessage, values, rounds, |node.agents|, Some(o.result))
            == if rounds > 1 then EvalRound(w, node, path, userMessage, values, rounds - 1, 0, Some(o.result))
               else Res(values, multiset{}, o)
  {
    assert EvalRound(w, node, path, userMessage, values, rounds, |node.agents|, Some(o.result))
        == EvalLoop(w, node, path, userMessage, values, rounds - 1, Some(o.result));
  }

  lemma LoopHaltDen(w: World, userMessage: string, node: AgentNode, path: seq<nat>, rounds: nat, i: nat, o: Outcome,
                    values: map<string, string>)
    requires i < |node.agents| && rounds > 0 && o.Ok? && !o.result.exitLoop
    ensures Den(w, userMessage, InLoop(node, path, rounds, i, Halt(o)), values)
            == EvalRound(w, node, path, userMessage, values, rounds, i + 1, Some(o.result))
  {
    NothingBefore(values, o, EvalRound(w, node, path, userMessage, values, rounds, i + 1, Some(o.result)));
  }

  lemma LoopEndsDen(w: World, userMessage: string, node: AgentNode, path: seq<nat>, rounds: nat, i: nat, o: Outcome,
                    values: map<string, string>)
    requires i < |node.agents| && rounds > 0 && (!o.Ok? || o.result.exitLoop)
    ensures Den(w, userMessage, LoopNext(node, path, rounds, i, o), values)
            == Den(w, userMessage, InLoop(node, path, rounds, i, Halt(o)), values)
  {
  }

  lemma LoopGoesOnDen(w: World, userMessage: string, node: AgentNode, path: seq<nat>, rounds: nat, i: nat, o: Outcome,
                      values: map<string, string>)
    requires i < |node.agents| && rounds > 0 && o.Ok? && !o.result.exitLoop
    ensures Den(w, userMessage, LoopNext(node, path, rounds, i, o), values)
            == EvalRound(w, node, path, userMessage, values, rounds, i + 1, Some(o.result))
  {
    if i + 1 < |node.agents| {
      RoundStart(w, node, path, userMessage, values, rounds, i + 1, Some(o.result));
      hide Den, EvalRound;
    } else {
      RoundEnds(w, node, path, userMessage, values, rounds, o);
      if rounds > 1 {
        RoundStart(w, node, path, userMessage, values, rounds - 1, 0, Some(o.result));
        hide Den, EvalRound;
      } else {
        HaltDen(w, userMessage, o, values);
        hide Den, EvalRound;
      }
    }
  }

  lemma LoopNextDen(w: World, userMessage: string, node: AgentNode, path: seq<nat>, rounds: nat, i: nat, o: Outcome,
                    values: map<string, string>)
    requires i < |node.agents| && rounds > 0
    ensures Den(w, userMessage, LoopNext(node, path, rounds, i, o), values)
            == Den(w, userMessage, InLoop(node, path, rounds, i, Halt(o)), values)
  {
    hide *;
    if o.Ok? && !o.result.exitLoop {
      LoopHaltDen(w, userMessage, node, path, rounds, i, o, values);
      LoopGoesOnDen(w, userMessage, node, path, rounds, i, o, values);
    } else {
      LoopEndsDen(w, userMessage, node, path, rounds, i, o, values);
    }
  }

  /** A child that has ended only adds its response. */
  lemma HaltedDen(w: World, userMessage: string, procs: seq<Proc>, values: map<string, string>, responses: seq<string>)
    requires procs != [] && procs[0].Halt? && procs[0].outcome.Ok?
    ensures DenPar(w, userMessage, procs, values, responses)
            == DenPar(w, userMessage, procs[1..], values, responses + [procs[0].outcome.result.response])
  {
    NothingBefore(values, procs[0].outcome,
                  DenPar(w, userMessage, procs[1..], values, responses + [procs[0].outcome.result.response]));
  }

  lemma {:induction false} EndedDen(w: World, userMessage: string, procs: seq<Proc>, values: map<string, string>,
                      responses: seq<string>)
    requires AllEnded(procs)
    ensures DenPar(w, userMessage, procs, values, responses)
            == Res(values, multiset{}, Ok(Plain(Join(NonEmpty(responses + Responses(procs)), "\n"))))
    decreases |procs|
  {
    if procs == [] {
      assert responses + [] == responses;
    } else {
      var response := procs[0].outcome.result.response;
      HaltedDen(w, userMessage, procs, values, responses);
      EndedDen(w, userMessage, procs[1..], values, responses + [response]);
      assert responses + [response] + Responses(procs[1..]) == responses + Responses(procs);
    }
  }

  lemma {:induction false} ErrorDen(w: World, userMessage: string, procs: seq<Proc>, values: map<string, string>,
                      responses: seq<string>)
    requires FirstError(procs).Some?
    ensures !AllEnded(procs) && !DenPar(w, userMessage, procs, values, responses).outcome.Ok?
    decreases |procs|
  {
    var r := Den(w, userMessage, procs[0], values);
    if r.outcome.Ok? {
      ErrorDen(w, userMessage, procs[1..], r.values, responses + [r.outcome.result.response]);
    }
  }

  /** The move keeps the child's result from whatever values agree with the stored ones on its keys. */
  ghost predicate KeepsFrom(w: World, userMessage: string, p: Proc, p2: Proc, write: Option<(string, string)>,
                      calls: seq<Event>, values: map<string, string>) {
    forall at :: AgreeOn(PReads(p), values, at) ==>
      Keeps(Den(w, userMessage, p, at), Den(w, userMessage, p2, Stored(at, write)), calls)
  }

  lemma KeepsFromLater(w: World, userMessage: string, p: Proc, p2: Proc, write: Option<(string, string)>,
                       calls: seq<Event>, values: map<string, string>, later: map<string, string>)
    requires KeepsFrom(w, userMessage, p, p2, write, calls, values) && AgreeOn(PReads(p), values, later)
    ensures KeepsFrom(w, userMessage, p, p2, write, calls, later)
    ensures Keeps(Den(w, userMessage, p, later), Den(w, userMessage, p2, Stored(later, write)), calls)
  {
    forall at | AgreeOn(PReads(p), later, at)
      ensures Keeps(Den(w, userMessage, p, at), Den(w, userMessage, p2, Stored(at, write)), calls)
    {
      assert AgreeOn(PReads(p), values, at);
    }
  }

  lemma ParDenHead(w: World, userMessage: string, p: Proc, p2: Proc, rest: seq<Proc>, write: Option<(string, string)>,
                   calls: seq<Event>, 
                   values: map<string, string>, responses: seq<string>)
    requires Keeps(Den(w, userMessage, p, values), Den(w, userMessage, p2, Stored(values, write)), calls)
    ensures Keeps(DenPar(w, userMessage, [p] + rest, values, responses),
                  DenPar(w, userMessage, [p2] + rest, Stored(values, write), responses), calls)
  {
    assert ([p] + rest)[1..] == rest && ([p2] + rest)[1..] == rest;
  }

  lemma ParDenTail(w: World, userMessage: string, head: Proc, rest: seq<Proc>, rest2: seq<Proc>,
                   write: Option<(string, string)>, calls: seq<Event>, 
                   values: map<string, string>, responses: seq<string>)
    requires var r := Den(w, userMessage, head, values);
             && Den(w, userMessage, head, Stored(values, write)) == r.(values := Stored(r.values, write))
             && (r.outcome.Ok? ==>
                   Keeps(DenPar(w, userMessage, rest, r.values, responses + [r.outcome.result.response]),
                         DenPar(w, userMessage, rest2, Stored(r.values, write),
                                responses + [r.outcome.result.response]), calls))
    ensures Keeps(DenPar(w, userMessage, [head] + rest, values, responses),
                  DenPar(w, userMessage, [head] + rest2, Stored(values, write), responses), calls)
  {
    assert ([head] + rest)[1..] == rest && ([head] + rest2)[1..] == rest2;
  }

  /** A child moves at the stored values; the children before it are framed around its write. */
  lemma {:induction false} ParDen(w: World, userMessage: string, procs: seq<Proc>, j: nat, p2: Proc,
                      write: Option<(string, string)>, calls: seq<Event>, 
                                  values: map<string, string>, responses: seq<string>)
    requires Good(InPar(procs)) && j < |procs|
    requires write.Some? ==> write.value.0 in PWrites(procs[j])
    requires KeepsFrom(w, userMessage, procs[j], p2, write, calls, values)
    ensures Keeps(DenPar(w, userMessage, procs, values, responses),
                  DenPar(w, userMessage, procs[j := p2], Stored(values, write), responses), calls)
    decreases |procs|
  {
    hide Den, DenPar, Keeps, KeepsFrom, AgreeOn;
    var head, rest := procs[0], procs[1..];
    assert procs == [head] + rest;
    if j == 0 {
      KeepsFromLater(w, userMessage, head, p2, write, calls, values, values);
      ParDenHead(w, userMessage, head, p2, rest, write, calls, values, responses);
      assert procs[j := p2] == [p2] + rest;
    } else {
      assert Apart(head, procs[j]);
      HeadFrame(w, userMessage, head, procs[j], values, write);
      GoodTail(procs);
      var r := Den(w, userMessage, head, values);
      if r.outcome.Ok? {
        KeepsFromLater(w, userMessage, procs[j], p2, write, calls, values, r.values);
        ParDen(w, userMessage, rest, j - 1, p2, write, calls, r.values, responses + [r.outcome.result.response]);
      }
      ParDenTail(w, userMessage, head, rest, rest[j - 1 := p2], write, calls, values, responses);
      assert procs[j := p2] == [head] + rest[j - 1 := p2];
    }
  }

  lemma GoodTail(procs: seq<Proc>)
    requires Good(InPar(procs)) && procs != []
    ensures Good(InPar(procs[1..]))
  {
    var rest := procs[1..];
    forall i, j | 0 <= i < j < |rest|
      ensures Apart(rest[i], rest[j])
    {
      assert Apart(procs[i + 1], procs[j + 1]);
    }
  }

  /** A sibling's write passes through a child unchanged, and the child leaves the sibling's keys alone. */
  lemma HeadFrame(w: World, userMessage: string, head: Proc, mover: Proc, values: map<string, string>,
                  write: Option<(string, string)>)
    requires Good(head) && Apart(head, mover) && (write.Some? ==> write.value.0 in PWrites(mover))
    ensures var r := Den(w, userMessage, head, values);
            && Den(w, userMessage, head, Stored(values, write)) == r.(values := Stored(r.values, write))
            && AgreeOn(PReads(mover), values, r.values)
  {
    if write.Some? {
      DenFrame(w, userMessage, head, values, write.value.0, write.value.1);
    }
    var r := Den(w, userMessage, head, values);
    forall k | k in PReads(mover)
      ensures Lookup(values, k) == Lookup(r.values, k)
    {
      DenFrame(w, userMessage, head, values, k, "");
    }
  }

  lemma StillKeeps(r: Res)
    ensures Keeps(r, r, [])
  {
  }

  lemma BeforeKeeps(r: Res, r2: Res, calls: seq<Event>, rest: Res)
    requires Keeps(r, r2, calls) && r.outcome.Ok?
    ensures Keeps(r.Before(rest), r2.Before(rest), calls)
  {
  }

  lemma SeqThenKeeps(w: World, userMessage: string, node: AgentNode, path: seq<nat>, i: nat, r: Res, r2: Res,
                     calls: seq<Event>)
    requires Keeps(r, r2, calls)
    ensures Keeps(SeqThen(w, userMessage, node, path, i, r), SeqThen(w, userMessage, node, path, i, r2), calls)
  {
    if !r.outcome.Stops() && i < |node.agents| {
      BeforeKeeps(r, r2, calls, EvalSeq(w, node, path, userMessage, r.values, i + 1, Some(r.outcome.result)));
    }
  }

  lemma LoopThenKeeps(w: World, userMessage: string, node: AgentNode, path: seq<nat>, rounds: nat, i: nat, r: Res,
                      r2: Res, calls: seq<Event>)
    requires Keeps(r, r2, calls)
    ensures Keeps(LoopThen(w, userMessage, node, path, rounds, i, r),
                  LoopThen(w, userMessage, node, path, rounds, i, r2), calls)
  {
    if r.outcome.Ok? && i < |node.agents| && rounds > 0 && !r.outcome.result.exitLoop {
      BeforeKeeps(r, r2, calls, EvalRound(w, node, path, userMessage, r.values, rounds, i + 1, Some(r.outcome.result)));
    }
  }

  lemma CallKeeps(w: World, userMessage: string, node: AgentNode, path: seq<nat>, prompt: string,
                  values: map<string, string>)
    requires NeverAsks(w) && node.IsLeaf()
    ensures var act := LeafActOf(w, node, path, prompt, userMessage);
            Keeps(EvalPrompt(w, node, path, userMessage, prompt, values),
                  Den(w, userMessage, AfterCall(node, act), values), At(path, act.calls))
  {
    ActAgree(w, node, path, [], prompt, userMessage, true);
  }

  lemma ErrorKeeps(before: Res, values: map<string, string>, o: Outcome)
    requires !before.outcome.Ok? && !o.Ok?
    ensures Keeps(before, Res(values, multiset{}, o), [])
  {
  }

  lemma HaltDen(w: World, userMessage: string, o: Outcome, values: map<string, string>)
    ensures Den(w, userMessage, Halt(o), values) == Res(values, multiset{}, o)
  {
  }

  lemma CollectKeeps(w: World, userMessage: string, procs: seq<Proc>, values: map<string, string>)
    ensures Keeps(Den(w, userMessage, InPar(procs), values), Den(w, userMessage, Collect(procs), values), [])
  {
    var before := DenPar(w, userMessage, procs, values, []);
    assert Den(w, userMessage, InPar(procs), values) == before;
    StillKeeps(before);
    if FirstError(procs).Some? {
      ErrorDen(w, userMessage, procs, values, []);
      FirstErrorGood(procs);
      ErrorKeeps(before, values, FirstError(procs).value);
      HaltDen(w, userMessage, FirstError(procs).value, values);
    } else if AllEnded(procs) {
      var o := Ok(Plain(Join(NonEmpty(Responses(procs)), "\n")));
      EndedDen(w, userMessage, procs, values, []);
      assert [] + Responses(procs) == Responses(procs);
      HaltDen(w, userMessage, o, values);
      assert Collect(procs) == Halt(o);
    }
  }

  lemma {:induction false} StepKeeps(w: World, userMessage: string, p: Proc, values: map<string, string>,
                                     choice: seq<nat>)
    requires NeverAsks(w) && Good(p)
    ensures var m := Step(w, userMessage, p, values, choice);
            Keeps(Den(w, userMessage, p, values), Den(w, userMessage, m.proc, Stored(values, m.write)), m.calls)
    decreases p
  {
    StillKeeps(Den(w, userMessage, p, values));
    match p
    case Halt(_) =>
    case Todo(node, path) => BeginDen(w, userMessage, node, path, values);
    case Reading(_, _, _, _) => ReadOnDen(w, userMessage, p, values);
    case Calling(node, path, prompt) => CallKeeps(w, userMessage, node, path, prompt, values);
    case Storing(_, _, _) =>
    case InSeq(node, path, i, child) =>
      if child.Halt? {
        SeqNextDen(w, userMessage, node, path, i, child.outcome, values);
      } else {
        var m := Step(w, userMessage, child, values, choice);
        StepKeeps(w, userMessage, child, values, choice);
        SeqThenKeeps(w, userMessage, node, path, i, Den(w, userMessage, child, values),
                     Den(w, userMessage, m.proc, Stored(values, m.write)), m.calls);
      }
    case InLoop(node, path, rounds, i, child) =>
      if child.Halt? {
        LoopNextDen(w, userMessage, node, path, rounds, i, child.outcome, values);
      } else {
        var m := Step(w, userMessage, child, values, choice);
        StepKeeps(w, userMessage, child, values, choice);
        LoopThenKeeps(w, userMessage, node, path, rounds, i, Den(w, userMessage, child, values),
                      Den(w, userMessage, m.proc, Stored(values, m.write)), m.calls);
      }
    case InPar(procs) =>
      if choice != [] {
        if choice[0] >= |procs| {
          CollectKeeps(w, userMessage, procs, values);
        } else {
          var j := choice[0];
          var m := Step(w, userMessage, procs[j], values, choice[1..]);
          StepGood(w, userMessage, procs[j], values, choice[1..]);
          forall at | AgreeOn(PReads(procs[j]), values, at)
            ensures Keeps(Den(w, userMessage, procs[j], at), Den(w, userMessage, m.proc, Stored(at, m.write)), m.calls)
          {
            StepLocal(w, userMessage, procs[j], values, at, choice[1..]);
            StepKeeps(w, userMessage, procs[j], at, choice[1..]);
          }
          ParDen(w, userMessage, procs, j, m.proc, m.write, m.calls, values, []);
        }
      }
  }

  // ---------- whole schedules ----------

  /** From c on, the run ends in r. */
  ghost predicate Heads(w: World, userMessage: string, c: Config, r: Res) {
    && Good(c.proc)
    && var d := Den(w, userMessage, c.proc, c.values);
      if r.outcome.Ok? then d == r.(calls := d.calls) && c.calls + d.calls == r.calls else !d.outcome.Ok?
  }

  lemma {:induction false} FollowHeads(w: World, userMessage: string, c: Config, schedule: seq<seq<nat>>, r: Res)
    requires NeverAsks(w) && Heads(w, userMessage, c, r)
    ensures Heads(w, userMessage, Follow(w, userMessage, c, schedule), r)
    decreases |schedule|
  {
    if schedule != [] {
      StepGood(w, userMessage, c.proc, c.values, schedule[0]);
      StepKeeps(w, userMessage, c.proc, c.values, schedule[0]);
      FollowHeads(w, userMessage, Next(w, userMessage, c, schedule[0]), schedule[1..], r);
    }
  }

  lemma StartHeads(w: World, root: AgentNode, values: map<string, string>, made: multiset<Event>, userMessage: string,
                   path: seq<nat>, r: Res)
    requires RaceFree(root) && r == EvalNode(w, root, path, userMessage, values)
    ensures Heads(w, userMessage, Config(Todo(root, path), values, made), r.(calls := made + r.calls))
  {
  }

  lemma EndedHeads(w: World, userMessage: string, end: Config, r: Res)
    requires Heads(w, userMessage, end, r) && end.proc.Halt?
    ensures if r.outcome.Ok? then end.proc.outcome == r.outcome && end.values == r.values && end.calls == r.calls
            else !end.proc.outcome.Ok?
  {
  }

  /** Any schedule of a race-free tree that runs to its end leaves the session state, the result and
      the multiset of calls of the engine's left-to-right run; if that run fails, so does this one. */
  lemma ScheduleIndependent(w: World, root: AgentNode, c: Ctx, userMessage: string, path: seq<nat>,
                            schedule: seq<seq<nat>>)
    requires Memoryless(w) && NeverAsks(w) && RaceFree(root)
    ensures var end := Follow(w, userMessage, Config(Todo(root, path), c.values, multiset(c.trace)), schedule);
            var (c2, o) := ExecNode(w, root, c, userMessage, None, path, true);
            end.proc.Halt? ==>
              if o.Ok? then end.proc.outcome == o && end.values == c2.values && end.calls == multiset(c2.trace)
              else !end.proc.outcome.Ok?
  {
    var start := Config(Todo(root, path), c.values, multiset(c.trace));
    var r := EvalNode(w, root, path, userMessage, c.values);
    var whole := r.(calls := multiset(c.trace) + r.calls);
    NodeComputes(w, root, c, path, userMessage);
    StartHeads(w, root, c.values, multiset(c.trace), userMessage, path, r);
    FollowHeads(w, userMessage, start, schedule, whole);
    var end := Follow(w, userMessage, start, schedule);
    if end.proc.Halt? {
      EndedHeads(w, userMessage, end, whole);
    }
  }
}
