/** The composite tool client: several servers behind one tool list and one routing index. */
module ToolIndex {
  import opened Prelude

  datatype Tool = Tool(name: string, server: string)

  /** A tool name and the position of the server that offers it. */
  datatype Offer = Offer(name: string, owner: nat)

  datatype StartResult =
    | Started
    | ServerFailed(server: nat)
    | DuplicateTool(name: string, first: string, second: string)

  function Tagged(offered: seq<string>, owner: nat): seq<Offer> {
    seq(|offered|, k requires 0 <= k < |offered| => Offer(offered[k], owner))
  }

  /** Everything offered, server by server. */
  function Flat(offered: seq<seq<string>>): seq<Offer> {
    if offered == [] then [] else Flat(offered[..|offered| - 1]) + Tagged(offered[|offered| - 1], |offered| - 1)
  }

  /** The offer at d is the first whose name has been offered before, at e. */
  ghost predicate FirstRepeat(flat: seq<Offer>, e: nat, d: nat) {
    && e < d < |flat| && flat[e].name == flat[d].name
    && Distinct(flat[..d])
  }

  /** What a start refused at d says and leaves in the index. */
  ghost predicate RefusedAt(names: seq<string>, flat: seq<Offer>, e: nat, d: nat, stale: map<string, nat>,
                      index: map<string, nat>, r: StartResult)
    requires Owned(names, flat)
  {
    && FirstRepeat(flat, e, d) && r == DuplicateTool(flat[d].name, names[flat[e].owner], names[flat[d].owner])
    && index == stale + Index(flat[..d])
  }

  /** A start over these offers was refused at the first repeated name. */
  ghost predicate Refused(names: seq<string>, flat: seq<Offer>, stale: map<string, nat>, index: map<string, nat>,
                          r: StartResult)
    requires Owned(names, flat)
  {
    exists e: nat, d: nat :: RefusedAt(names, flat, e, d, stale, index, r)
  }

  ghost predicate Distinct(flat: seq<Offer>) {
    forall i, j :: 0 <= i < j < |flat| ==> flat[i].name != flat[j].name
  }

  function Index(flat: seq<Offer>): map<string, nat> {
    if flat == [] then map[] else Index(flat[..|flat| - 1])[flat[|flat| - 1].name := flat[|flat| - 1].owner]
  }

  ghost predicate Owned(names: seq<string>, flat: seq<Offer>) {
    forall k :: 0 <= k < |flat| ==> flat[k].owner < |names|
  }

  function Listed(names: seq<string>, flat: seq<Offer>): seq<Tool>
    requires Owned(names, flat)
  {
    seq(|flat|, k requires 0 <= k < |flat| => Tool(flat[k].name, names[flat[k].owner]))
  }

  /** The first tool of that name. */
  function Scan(tools: seq<Tool>, name: string): (r: Option<Tool>)
    ensures r.Some? <==> exists k :: 0 <= k < |tools| && tools[k].name == name
  {
    if tools == [] then None
    else if tools[0].name == name then Some(tools[0])
    else Scan(tools[1..], name)
  }

  lemma {:induction false} FlatOwned(names: seq<string>, offered: seq<seq<string>>)
    requires |offered| <= |names|
    ensures Owned(names, Flat(offered))
  {
    if offered != [] {
      FlatOwned(names, offered[..|offered| - 1]);
    }
  }

  lemma {:induction false} IndexHolds(flat: seq<Offer>)
    ensures forall k :: 0 <= k < |flat| ==> flat[k].name in Index(flat)
    ensures forall name :: name in Index(flat) ==>
              exists k :: 0 <= k < |flat| && flat[k].name == name && flat[k].owner == Index(flat)[name]
  {
    if flat != [] {
      var front := flat[..|flat| - 1];
      IndexHolds(front);
      forall name | name in Index(flat)
        ensures exists k :: 0 <= k < |flat| && flat[k].name == name && flat[k].owner == Index(flat)[name]
      {
        if name == flat[|flat| - 1].name {
          assert flat[|flat| - 1].owner == Index(flat)[name];
        } else {
          var k :| 0 <= k < |front| && front[k].name == name && front[k].owner == Index(front)[name];
          assert flat[k] == front[k];
        }
      }
    }
  }

  lemma {:induction false} ScanDistinct(tools: seq<Tool>, k: nat)
    requires k < |tools| && forall i, j :: 0 <= i < j < |tools| ==> tools[i].name != tools[j].name
    ensures Scan(tools, tools[k].name) == Some(tools[k])
  {
    if k > 0 {
      assert tools[1..][k - 1] == tools[k];
      ScanDistinct(tools[1..], k - 1);
    }
  }

  ghost function OfferedNames(flat: seq<Offer>): set<string> {
    set k | 0 <= k < |flat| :: flat[k].name
  }

  lemma ListedScan(names: seq<string>, flat: seq<Offer>, name: string)
    requires Owned(names, flat)
    ensures Scan(Listed(names, flat), name).Some? <==> name in OfferedNames(flat)
  {
    var tools := Listed(names, flat);
    if name in OfferedNames(flat) {
      var k :| 0 <= k < |flat| && flat[k].name == name;
      assert tools[k].name == name;
    }
  }

  lemma ListedRoute(names: seq<string>, flat: seq<Offer>, name: string)
    requires Owned(names, flat) && Distinct(flat) && name in OfferedNames(flat)
    ensures name in Index(flat) && Index(flat)[name] < |names|
    ensures Scan(Listed(names, flat), name) == Some(Tool(name, names[Index(flat)[name]]))
  {
    IndexHolds(flat);
    var tools := Listed(names, flat);
    var k :| 0 <= k < |flat| && flat[k].name == name && flat[k].owner == Index(flat)[name];
    forall i, j | 0 <= i < j < |tools|
      ensures tools[i].name != tools[j].name
    {
      assert flat[i].name != flat[j].name;
    }
    ScanDistinct(tools, k);
  }

  /** Every listed tool is routed to the server its listing names. */
  ghost predicate RoutesListed(names: seq<string>, tools: seq<Tool>, index: map<string, nat>) {
    forall name :: Scan(tools, name).Some? ==>
      name in index && index[name] < |names| && Scan(tools, name).value == Tool(name, names[index[name]])
  }

  /** After a start that added these offers to an index that held stale: every listed tool is routed
      to the server its listing names, and the index routes nothing else exactly when every stale
      name is offered again, as it is in a first start. */
  lemma IndexAgreesWithScan(names: seq<string>, flat: seq<Offer>, stale: map<string, nat>)
    requires Owned(names, flat) && Distinct(flat)
    ensures var tools, index := Listed(names, flat), stale + Index(flat);
            && RoutesListed(names, tools, index)
            && ((forall name :: name in index ==> Scan(tools, name).Some?) <==> stale.Keys <= OfferedNames(flat))
  {
    var tools, index := Listed(names, flat), stale + Index(flat);
    IndexHolds(flat);
    forall name
      ensures Scan(tools, name).Some? <==> name in OfferedNames(flat)
      ensures name in OfferedNames(flat) ==> name in Index(flat)
      ensures name in OfferedNames(flat) ==>
                Index(flat)[name] < |names| && Scan(tools, name).value == Tool(name, names[Index(flat)[name]])
    {
      ListedScan(names, flat, name);
      if name in OfferedNames(flat) {
        ListedRoute(names, flat, name);
      }
    }
    assert forall name :: name in Index(flat) ==> name in OfferedNames(flat);
    assert index.Keys == stale.Keys + Index(flat).Keys;
  }

  /** The list and the index, after these offers. */
  ghost predicate Filled(names: seq<string>, stale: map<string, nat>, flat: seq<Offer>, index: map<string, nat>,
                      tools: seq<Tool>) {
    && Owned(names, flat) && Distinct(flat) && tools == Listed(names, flat) && index == stale + Index(flat)
    && (forall name :: name in index ==> index[name] < |names|)
  }

  /** The table of owners, after these offers. */
  ghost predicate OwnersKnown(names: seq<string>, flat: seq<Offer>, owner: map<string, string>)
    requires Owned(names, flat)
  {
    && (forall k :: 0 <= k < |flat| ==> flat[k].name in owner && owner[flat[k].name] == names[flat[k].owner])
    && (forall name :: name in owner ==> name in OfferedNames(flat))
  }

  ghost predicate Gathered(names: seq<string>, stale: map<string, nat>, flat: seq<Offer>, index: map<string, nat>,
                      tools: seq<Tool>, owner: map<string, string>) {
    Filled(names, stale, flat, index, tools) && OwnersKnown(names, flat, owner)
  }

  lemma GatheredGives(names: seq<string>, stale: map<string, nat>, flat: seq<Offer>, index: map<string, nat>,
                      tools: seq<Tool>, owner: map<string, string>)
    requires Gathered(names, stale, flat, index, tools, owner)
    ensures Owned(names, flat) && Distinct(flat) && tools == Listed(names, flat) && index == stale + Index(flat)
    ensures forall name :: name in index ==> index[name] < |names|
  {
  }

  lemma GatheredNone(names: seq<string>, stale: map<string, nat>)
    requires forall name :: name in stale ==> stale[name] < |names|
    ensures Gathered(names, stale, [], stale, [], map[])
  {
    assert Index([]) == map[];
  }

  lemma FillNext(names: seq<string>, stale: map<string, nat>, flat: seq<Offer>, index: map<string, nat>,
                 tools: seq<Tool>, o: Offer)
    requires Filled(names, stale, flat, index, tools) && o.name !in OfferedNames(flat) && o.owner < |names|
    ensures Filled(names, stale, flat + [o], index[o.name := o.owner], tools + [Tool(o.name, names[o.owner])])
  {
    var flat2 := flat + [o];
    assert flat2[..|flat|] == flat;
    assert Listed(names, flat2) == tools + [Tool(o.name, names[o.owner])];
    assert forall k :: 0 <= k < |flat| ==> flat[k].name in OfferedNames(flat);
  }

  lemma OfferedSnoc(flat: seq<Offer>, o: Offer)
    ensures OfferedNames(flat + [o]) == OfferedNames(flat) + {o.name}
  {
    var flat2 := flat + [o];
    assert flat2[|flat|] == o;
    forall name | name in OfferedNames(flat)
      ensures name in OfferedNames(flat2)
    {
      var k :| 0 <= k < |flat| && flat[k].name == name;
      assert flat2[k].name == name;
    }
  }

  lemma OwnersNext(names: seq<string>, flat: seq<Offer>, owner: map<string, string>, o: Offer)
    requires Owned(names, flat) && OwnersKnown(names, flat, owner) && o.name !in owner && o.owner < |names|
    ensures Owned(names, flat + [o]) && OwnersKnown(names, flat + [o], owner[o.name := names[o.owner]])
  {
    OfferedSnoc(flat, o);
  }

  lemma GatherNext(names: seq<string>, stale: map<string, nat>, flat: seq<Offer>, index: map<string, nat>,
                   tools: seq<Tool>, owner: map<string, string>, o: Offer)
    requires Gathered(names, stale, flat, index, tools, owner) && o.name !in owner && o.owner < |names|
    ensures Gathered(names, stale, flat + [o], index[o.name := o.owner], tools + [Tool(o.name, names[o.owner])],
                     owner[o.name := names[o.owner]])
  {
    assert forall k :: 0 <= k < |flat| ==> flat[k].name in owner;
    FillNext(names, stale, flat, index, tools, o);
    OwnersNext(names, flat, owner, o);
  }

  lemma GatherStops(names: seq<string>, stale: map<string, nat>, flat: seq<Offer>, index: map<string, nat>,
                    tools: seq<Tool>, owner: map<string, string>, 
                    o: Offer, all: seq<Offer>)
    requires Gathered(names, stale, flat, index, tools, owner) && o.name in owner && o.owner < |names|
    requires flat + [o] <= all && Owned(names, all)
    ensures !Distinct(all)
    ensures Refused(names, all, stale, index, DuplicateTool(o.name, owner[o.name], names[o.owner]))
  {
    var d := |flat|;
    assert o.name in OfferedNames(flat);
    var e :| 0 <= e < |flat| && flat[e].name == o.name;
    assert all[..d + 1] == flat + [o];
    assert all[..d] == (flat + [o])[..d] == flat;
    assert all[d] == (flat + [o])[d] == o && all[e] == flat[e];
    assert RefusedAt(names, all, e, d, stale, index, DuplicateTool(o.name, owner[o.name], names[o.owner]));
  }

  // ---------- the client ----------

  class CompositeClient {
    const names: seq<string>
    var running: seq<bool>
    var tools: seq<Tool>
    var toolMap: map<string, nat>
    var started: bool

    constructor (names: seq<string>)
      ensures this.names == names && Valid() && !started && tools == [] && toolMap == map[]
    {
      this.names := names;
      running := seq(|names|, _ => false);
      tools, toolMap, started := [], map[], false;
    }

    /** The servers all run, or none does; while they run, listing and routing agree. */
    ghost predicate Valid()
      reads this
    {
      && |running| == |names|
      && (forall i :: 0 <= i < |running| ==> running[i] == started)
      && (forall name :: name in toolMap ==> toolMap[name] < |names|)
      && (started ==> RoutesListed(names, tools, toolMap))
    }

    /** Position i + 1 is the end of what the first i + 1 servers offer. */
    lemma FlatNext(offered: seq<seq<string>>, i: nat)
      requires i < |offered|
      ensures Flat(offered[..i + 1]) == Flat(offered[..i]) + Tagged(offered[i], i)
    {
      assert offered[..i + 1][..i] == offered[..i];
    }

    lemma FlatEnds(offered: seq<seq<string>>)
      ensures Flat(offered[..0]) == [] && Flat(offered[..|offered|]) == Flat(offered)
    {
      assert offered[..0] == [] && offered[..|offered|] == offered;
    }

    /** fails says which servers do not come up this time, offered what those that do offer. */
    method Start(fails: seq<bool>, offered: seq<seq<string>>) returns (r: StartResult)
      requires Valid() && |fails| == |names| && |offered| == |names|
      modifies this
      ensures Valid()
      ensures var flat := Flat(offered);
              if old(started) then r == Started && unchanged(this)
              else if exists i :: 0 <= i < |fails| && fails[i] then
                && r.ServerFailed? && r.server < |fails| && fails[r.server]
                && (forall j :: 0 <= j < r.server ==> !fails[j])
                && !started && unchanged(`tools) && unchanged(`toolMap)
              else if Distinct(flat) then
                r == Started && started && Owned(names, flat) && tools == Listed(names, flat)
                && toolMap == old(toolMap) + Index(flat)
              else
                && !started && unchanged(`tools) && r.DuplicateTool? && Owned(names, flat)
                && Refused(names, flat, old(toolMap), toolMap, r)
    {
      if started {
        return Started;
      }
      var failed := StartAll(fails);
      if failed.Some? {
        return ServerFailed(failed.value);
      }
      r := Gather(offered);
    }

    /** Starts the servers in order, and stops those that run again when one fails. */
    method StartAll(fails: seq<bool>) returns (failed: Option<nat>)
      requires Valid() && !started && |fails| == |names|
      modifies this`running
      ensures |running| == |names| && forall i :: 0 <= i < |running| ==> running[i] == failed.None?
      ensures failed.None? ==> forall i :: 0 <= i < |fails| ==> !fails[i]
      ensures failed.Some? ==>
                && failed.value < |fails| && fails[failed.value]
                && forall j :: 0 <= j < failed.value ==> !fails[j]
    {
      for i := 0 to |names|
        invariant |running| == |names| && forall k :: 0 <= k < |running| ==> running[k] == (k < i)
        invariant forall j :: 0 <= j < i ==> !fails[j]
      {
        if fails[i] {
          var j := i;
          while j > 0
            invariant 0 <= j <= i && |running| == |names| && forall k :: 0 <= k < |running| ==> running[k] == (k < j)
          {
            j := j - 1;
            running := running[j := false];
          }
          return Some(i);
        }
        running := running[i := true];
      }
      return None;
    }

    /** Lists and indexes the tools of the running servers; a name offered twice stops them all. */
    method Gather(offered: seq<seq<string>>) returns (r: StartResult)
      requires |offered| == |names| == |running| && !started
      requires forall i :: 0 <= i < |running| ==> running[i]
      requires forall name :: name in toolMap ==> toolMap[name] < |names|
      modifies this
      ensures Valid() && Owned(names, Flat(offered))
      ensures var flat := Flat(offered);
              if Distinct(flat) then
                r == Started && started && tools == Listed(names, flat) && toolMap == old(toolMap) + Index(flat)
              else
                && !started && unchanged(`tools) && r.DuplicateTool?
                && Refused(names, flat, old(toolMap), toolMap, r)
    {
      FlatOwned(names, offered);
      hide *;
      var refused, allTools := GatherAll(offered);
      if refused.Some? {
        return refused.value;
      }
      IndexAgreesWithScan(names, Flat(offered), old(toolMap));
      tools := allTools;
      started := true;
      r := Started;
    }

    method GatherAll(offered: seq<seq<string>>) returns (refused: Option<StartResult>, allTools: seq<Tool>)
      requires |offered| == |names| == |running| && Owned(names, Flat(offered))
      requires forall name :: name in toolMap ==> toolMap[name] < |names|
      modifies this`toolMap, this`running
      ensures |running| == |names| && forall name :: name in toolMap ==> toolMap[name] < |names|
      ensures refused.None? ==>
                && Distinct(Flat(offered)) && unchanged(`running)
                && allTools == Listed(names, Flat(offered)) && toolMap == old(toolMap) + Index(Flat(offered))
      ensures refused.Some? ==>
                && refused.value.DuplicateTool? && !Distinct(Flat(offered))
                && (forall k :: 0 <= k < |running| ==> !running[k])
                && Refused(names, Flat(offered), old(toolMap), toolMap, refused.value)
    {
      ghost var all, stale := Flat(offered), toolMap;
      GatheredNone(names, stale);
      FlatEnds(offered);
      hide *;
      ghost var flat: seq<Offer> := [];
      var toolOwner: map<string, string> := map[];
      allTools := [];
      for i := 0 to |names|
        invariant flat == Flat(offered[..i]) && unchanged(`running)
        invariant Gathered(names, stale, flat, toolMap, allTools, toolOwner)
      {
        FlatNext(offered, i);
        FlatPrefix(offered, i + 1);
        refused, allTools, toolOwner := GatherServer(offered[i], i, allTools, toolOwner, stale, flat, all);
        if refused.Some? {
          return;
        }
        flat := flat + Tagged(offered[i], i);
      }
      GatheredGives(names, stale, flat, toolMap, allTools, toolOwner);
      refused := None;
    }

    /** The tools of one server. */
    method GatherServer(own: seq<string>, i: nat, tools0: seq<Tool>, owner0: map<string, string>,
                        ghost stale: map<string, nat>, ghost before: seq<Offer>, ghost all: seq<Offer>)
      returns (refused: Option<StartResult>, allTools: seq<Tool>, toolOwner: map<string, string>)
      requires i < |names| == |running| && Gathered(names, stale, before, toolMap, tools0, owner0)
      requires before + Tagged(own, i) <= all && Owned(names, all)
      modifies this`toolMap, this`running
      ensures |running| == |names|
      ensures refused.None? ==>
                Gathered(names, stale, before + Tagged(own, i), toolMap, allTools, toolOwner) && unchanged(`running)
      ensures refused.Some? ==>
                && refused.value.DuplicateTool? && !Distinct(all) && (forall k :: 0 <= k < |running| ==> !running[k])
                && (forall name :: name in toolMap ==> toolMap[name] < |names|)
                && Refused(names, all, stale, toolMap, refused.value)
    {
      allTools, toolOwner := tools0, owner0;
      ghost var flat, tags := before, Tagged(own, i);
      hide Distinct, OwnersKnown, Listed, Index, Refused, OfferedNames;
      for k := 0 to |own|
        invariant flat == before + tags[..k]
        invariant Gathered(names, stale, flat, toolMap, allTools, toolOwner) && unchanged(`running)
      {
        var name := own[k];
        ghost var o := Offer(name, i);
        OneMore(before, tags, k, all);
        if name in toolOwner {
          GatherStops(names, stale, flat, toolMap, allTools, toolOwner, o, all);
          running := seq(|running|, _ => false);
          refused := Some(DuplicateTool(name, toolOwner[name], names[i]));
          return;
        }
        GatherNext(names, stale, flat, toolMap, allTools, toolOwner, o);
        toolOwner := toolOwner[name := names[i]];
        toolMap := toolMap[name := i];
        allTools := allTools + [Tool(name, names[i])];
        flat := flat + [o];
      }
      assert tags[..|own|] == tags;
      refused := None;
    }

    lemma OneMore(before: seq<Offer>, own: seq<Offer>, k: nat, all: seq<Offer>)
      requires k < |own| && before + own <= all
      ensures before + own[..k + 1] == before + own[..k] + [own[k]] <= all
    {
      assert own == own[..k + 1] + own[k + 1..];
      assert before + own == before + own[..k + 1] + own[k + 1..];
    }

    lemma {:induction false} FlatPrefix(offered: seq<seq<string>>, i: nat)
      requires i <= |offered|
      ensures Flat(offered[..i]) <= Flat(offered)
      decreases |offered| - i
    {
      if i < |offered| {
        FlatNext(offered, i);
        FlatPrefix(offered, i + 1);
      } else {
        assert offered[..i] == offered;
      }
    }

    method Stop()
      requires Valid()
      modifies this
      ensures Valid() && !started && unchanged(`tools) && unchanged(`toolMap)
    {
      if started {
        started := false;
        running := seq(|running|, _ => false);
      }
    }

    method GetTool(name: string) returns (r: Option<Tool>)
      ensures r == Scan(tools, name)
    {
      for i := 0 to |tools|
        invariant Scan(tools, name) == Scan(tools[i..], name)
      {
        assert tools[i..][0] == tools[i] && tools[i..][1..] == tools[i + 1..];
        if tools[i].name == name {
          return Some(tools[i]);
        }
      }
      return None;
    }

    /** A call goes to the server the index names; call is what that server answers. While the servers
        run, a listed tool is always called at the server its listing names. */
    method CallTool(name: string, call: (nat, string) -> string) returns (r: Option<string>)
      requires Valid()
      ensures r.Some? <==> name in toolMap
      ensures r.Some? ==> toolMap[name] < |names| && r.value == call(toolMap[name], name)
      ensures started && Scan(tools, name).Some? ==>
                r.Some? && Scan(tools, name).value == Tool(name, names[toolMap[name]])
    {
      if name !in toolMap {
        return None;
      }
      r := Some(call(toolMap[name], name));
    }
  }
}
