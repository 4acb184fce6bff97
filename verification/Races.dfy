/** Two parallel children that store under one key: the schedule decides what is left. */
module Races {
  import opened World
  import opened Orchestrator
  import opened Evaluation
  import opened Footprint
  import opened Schedule

  function Writer(model: string): AgentNode {
    AgentNode(model, LLM, model, "", "k", false, 0, [], false, [])
  }

  const RACE := AgentNode("race", Parallel, "", "", "", false, 0, [Writer("a"), Writer("b")], false, [])

  predicate Says(w: World, model: string, userMessage: string) {
    w.modelReady(model) && w.llm([], ModelCall(Writer(model), "", userMessage)) == LlmText(model)
  }

  lemma {:induction false} FollowThen(w: World, userMessage: string, c: Config, first: seq<seq<nat>>,
                                      rest: seq<seq<nat>>)
    ensures Follow(w, userMessage, c, first + rest) == Follow(w, userMessage, Follow(w, userMessage, c, first), rest)
    decreases |first|
  {
    if first == [] {
      assert first + rest == rest;
    } else {
      assert (first + rest)[0] == first[0] && (first + rest)[1..] == first[1..] + rest;
      FollowThen(w, userMessage, Next(w, userMessage, c, first[0]), first[1..], rest);
    }
  }

  lemma FollowOne(w: World, userMessage: string, c: Config, choice: seq<nat>)
    ensures Follow(w, userMessage, c, [choice]) == Next(w, userMessage, c, choice)
  {
    assert [choice][1..] == [];
  }

  /** Child j, from its start to its end, without anyone in between. */
  lemma ChildRuns(w: World, userMessage: string, procs: seq<Proc>, j: nat, model: string, values: map<string, string>,
                  calls: multiset<Event>)
    returns (schedule: seq<seq<nat>>, made: multiset<Event>)
    requires j < |procs| && procs[j] == Todo(Writer(model), [j]) && Says(w, model, userMessage)
    ensures Follow(w, userMessage, Config(InPar(procs), values, calls), schedule)
            == Config(InPar(procs[j := Halt(Ok(Plain(model)))]), values["k" := model], made)
  {
    var node, path := Writer(model), [j];
    var act := LeafActOf(w, node, path, "", userMessage);
    var p1, p2, p3 := Reading(node, path, "", ""), Calling(node, path, ""), Storing("k", model, Plain(model));
    var c0 := Config(InPar(procs), values, calls);
    var c1 := Config(InPar(procs[j := p1]), values, calls);
    var c2 := Config(InPar(procs[j := p2]), values, calls);
    made := calls + multiset(At(path, act.calls));
    var c3 := Config(InPar(procs[j := p3]), values, made);
    var c4 := Config(InPar(procs[j := Halt(Ok(Plain(model)))]), values["k" := model], made);
    assert procs[j := p1][j := p2] == procs[j := p2] && procs[j := p2][j := p3] == procs[j := p3];
    assert procs[j := p3][j := c4.proc.procs[j]] == c4.proc.procs;
    ChildMoves(w, userMessage, procs, j, procs[j], c0, c1);
    ChildMoves(w, userMessage, procs[j := p1], j, p1, c1, c2);
    ChildMoves(w, userMessage, procs[j := p2], j, p2, c2, c3);
    ChildMoves(w, userMessage, procs[j := p3], j, p3, c3, c4);
    schedule := [[j]] + [[j]] + [[j]] + [[j]];
    FollowOne(w, userMessage, c0, [j]);
    FollowOne(w, userMessage, c1, [j]);
    FollowOne(w, userMessage, c2, [j]);
    FollowOne(w, userMessage, c3, [j]);
    FollowThen(w, userMessage, c0, [[j]], [[j]]);
    FollowThen(w, userMessage, c0, [[j]] + [[j]], [[j]]);
    FollowThen(w, userMessage, c0, [[j]] + [[j]] + [[j]], [[j]]);
  }

  lemma ChildMoves(w: World, userMessage: string, procs: seq<Proc>, j: nat, p: Proc, c: Config, c2: Config)
    requires j < |procs| && procs[j] == p && c.proc == InPar(procs)
    requires var m := Step(w, userMessage, p, c.values, []);
             c2 == Config(InPar(procs[j := m.proc]), Stored(c.values, m.write), c.calls + multiset(m.calls))
    ensures Next(w, userMessage, c, [j]) == c2
  {
    assert [j][1..] == [];
  }

  lemma Begins(w: World, userMessage: string, values: map<string, string>)
    ensures Next(w, userMessage, Config(Todo(RACE, []), values, multiset{}), [])
            == Config(InPar([Todo(Writer("a"), [0]), Todo(Writer("b"), [1])]), values, multiset{})
  {
    assert [] + [0] == [0] && [] + [1] == [1];
    assert Todos(RACE, [], 2) == [];
    assert Todos(RACE, [], 1) == [Todo(Writer("b"), [1])];
    assert Todos(RACE, [], 0) == [Todo(Writer("a"), [0])] + [Todo(Writer("b"), [1])];
    assert Todos(RACE, [], 0) == [Todo(Writer("a"), [0]), Todo(Writer("b"), [1])];
    assert Begin(RACE, []) == InPar(Todos(RACE, [], 0));
  }

  lemma Ends(w: World, userMessage: string, procs: seq<Proc>, values: map<string, string>, calls: multiset<Event>)
    requires procs == [Halt(Ok(Plain("a"))), Halt(Ok(Plain("b")))]
    ensures Next(w, userMessage, Config(InPar(procs), values, calls), [2]).proc.Halt?
    ensures Next(w, userMessage, Config(InPar(procs), values, calls), [2]).values == values
  {
    BothEnded(procs);
  }

  lemma BothEnded(procs: seq<Proc>)
    requires procs == [Halt(Ok(Plain("a"))), Halt(Ok(Plain("b")))]
    ensures AllEnded(procs) && FirstError(procs).None?
  {
    var last := procs[1..];
    assert last == [Halt(Ok(Plain("b")))] && last[1..] == [];
    assert AllEnded([]) && FirstError([]).None?;
    assert AllEnded(last) && FirstError(last).None?;
  }

  /** Both schedules run to the end, and leave different session states. */
  lemma ScheduleDecides(w: World, userMessage: string)
    returns (first: seq<seq<nat>>, second: seq<seq<nat>>)
    requires Says(w, "a", userMessage) && Says(w, "b", userMessage)
    ensures !RaceFree(RACE)
    ensures var start := Config(Todo(RACE, []), map[], multiset{});
            var c, d := Follow(w, userMessage, start, first), Follow(w, userMessage, start, second);
            && c.proc.Halt? && d.proc.Halt? && c.values == map["k" := "b"] && d.values == map["k" := "a"]
  {
    assert "k" in Writes(RACE.agents[0]) && "k" in Writes(RACE.agents[1]);
    first := InOrder(w, userMessage, 0, "a", "b");
    second := InOrder(w, userMessage, 1, "b", "a");
  }

  lemma FollowFour(w: World, userMessage: string, c: Config, s1: seq<seq<nat>>, s2: seq<seq<nat>>, s3: seq<seq<nat>>,
                   s4: seq<seq<nat>>,
                   c1: Config, c2: Config, c3: Config, c4: Config)
    requires Follow(w, userMessage, c, s1) == c1 && Follow(w, userMessage, c1, s2) == c2
    requires Follow(w, userMessage, c2, s3) == c3 && Follow(w, userMessage, c3, s4) == c4
    ensures Follow(w, userMessage, c, s1 + s2 + s3 + s4) == c4
  {
    FollowThen(w, userMessage, c, s1, s2);
    FollowThen(w, userMessage, c, s1 + s2, s3);
    FollowThen(w, userMessage, c, s1 + s2 + s3, s4);
  }

  /** Child j runs first, then the other. */
  lemma InOrder(w: World, userMessage: string, j: nat, early: string, late: string)
    returns (schedule: seq<seq<nat>>)
    requires Says(w, "a", userMessage) && Says(w, "b", userMessage)
    requires (j == 0 && early == "a" && late == "b") || (j == 1 && early == "b" && late == "a")
    ensures var c := Follow(w, userMessage, Config(Todo(RACE, []), map[], multiset{}), schedule);
            c.proc.Halt? && c.values == map["k" := late]
  {
    hide Follow, Next, Todos, AllEnded, FirstError, Says;
    var start := Config(Todo(RACE, []), map[], multiset{});
    var procs := [Todo(Writer("a"), [0]), Todo(Writer("b"), [1])];
    var procs1 := procs[j := Halt(Ok(Plain(early)))];
    var procs2 := procs1[1 - j := Halt(Ok(Plain(late)))];
    var none: map<string, string> := map[];
    Begins(w, userMessage, none);
    FollowOne(w, userMessage, start, []);
    var s1, calls1 := ChildRuns(w, userMessage, procs, j, early, none, multiset{});
    var s2, calls2 := ChildRuns(w, userMessage, procs1, 1 - j, late, none["k" := early], calls1);
    assert procs2 == [Halt(Ok(Plain("a"))), Halt(Ok(Plain("b")))];
    var c1 := Config(InPar(procs), none, multiset{});
    var c2 := Config(InPar(procs1), none["k" := early], calls1);
    var c3 := Config(InPar(procs2), none["k" := early]["k" := late], calls2);
    Ends(w, userMessage, procs2, c3.values, calls2);
    FollowOne(w, userMessage, c3, [2]);
    schedule := [[]] + s1 + s2 + [[2]];
    FollowFour(w, userMessage, start, [[]], s1, s2, [[2]], c1, c2, c3, Next(w, userMessage, c3, [2]));
  }
}
