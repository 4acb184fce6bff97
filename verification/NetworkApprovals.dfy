/** Answering an approval at one end of a chain of proxies. */
module NetworkApprovals {
  import opened Prelude
  import opened Conversations
  import opened World
  import opened Orchestrator
  import opened RunFacts
  import opened SimpleAgent
  import opened Api
  import opened Network
  import opened NetworkProofs

  // ---------- chains ----------

  /** The conversation the proxy of id stands for. */
  ghost function NextOf(net: seq<Agent>, g: Grid, id: Id): Option<Id>
    requires id in g.store
  {
    if Waits(g, id) && g.store[id].conv.pending.value.IsProxy() then
      var t := g.store[id].conv.pending.value.remoteTaskId;
      if t in g.store && g.store[id].host < g.store[t].host < |net| then Some(t) else None
    else None
  }

  /** id and every conversation its approval stands for, in order. */
  ghost function Chain(net: seq<Agent>, g: Grid, id: Id): (r: seq<Id>)
    requires id in g.store
    ensures r != [] && r[0] == id && forall x :: x in r ==> x in g.store && g.store[x].host >= g.store[id].host
    decreases |net| - g.store[id].host
  {
    var next := NextOf(net, g, id);
    [id] + if next.Some? then Chain(net, g, next.value) else []
  }

  ghost function Tail(net: seq<Agent>, g: Grid, id: Id): Id
    requires id in g.store
  {
    var chain := Chain(net, g, id);
    chain[|chain| - 1]
  }

  /** Chains only see what lies at or beyond their first agent. */
  lemma {:induction false} ChainFrame(net: seq<Agent>, g: Grid, g2: Grid, id: Id)
    requires id in g.store && Extends(g, g2)
    requires forall x :: x in g.store && g.store[x].host >= g.store[id].host ==> g2.store[x] == g.store[x]
    requires forall x :: x in g.store && Waits(g, x) && g.store[x].conv.pending.value.IsProxy() ==>
               g.store[x].conv.pending.value.remoteTaskId in g.store
    ensures Chain(net, g2, id) == Chain(net, g, id)
    decreases |net| - g.store[id].host
  {
    var next := NextOf(net, g, id);
    assert NextOf(net, g2, id) == next;
    if next.Some? {
      ChainFrame(net, g, g2, next.value);
    }
  }

  // ---------- logs ----------

  /** The n-th new call is made, and no other new call is marked. */
  ghost predicate GateAt(net: seq<Agent>, g: Grid, g2: Grid, n: nat, made: Made) {
    && g.log <= g2.log && |g.log| + n < |g2.log| && g2.log[|g.log| + n] == made
    && forall k :: |g.log| <= k < |g2.log| ==>
         && g2.log[k].host < |net|
         && (Marked(net[g2.log[k].host].w, g2.log[k].call) ==> k == |g.log| + n && g2.log[k] == made)
  }

  lemma GateThen(net: seq<Agent>, g: Grid, g1: Grid, g2: Grid, n: nat, made: Made)
    requires GateAt(net, g, g1, n, made) && LogQuiet(net, g1, g2)
    ensures GateAt(net, g, g2, n, made)
  {
    forall k | |g.log| <= k < |g2.log|
      ensures g2.log[k].host < |net|
      ensures Marked(net[g2.log[k].host].w, g2.log[k].call) ==> k == |g.log| + n && g2.log[k] == made
    {
      if k < |g1.log| {
        assert g2.log[k] == g1.log[k];
      }
    }
  }

  /** One unmarked call first. */
  lemma GateAfterOne(net: seq<Agent>, g: Grid, g1: Grid, g2: Grid, first: Made, n: nat, made: Made)
    requires g1.log == g.log + [first] && first.host < |net| && first.call.ContinueTask?
    requires GateAt(net, g1, g2, n, made)
    ensures GateAt(net, g, g2, n + 1, made)
  {
    forall k | |g.log| <= k < |g2.log|
      ensures g2.log[k].host < |net|
      ensures Marked(net[g2.log[k].host].w, g2.log[k].call) ==> k == |g.log| + (n + 1) && g2.log[k] == made
    {
      if k == |g.log| {
        assert g2.log[k] == g1.log[k] == first;
      }
    }
  }

  lemma GateMoves(net: seq<Agent>, g: Grid, g1: Grid, g2: Grid, first: Made, n: nat, made: Made, m: nat, moved: Made)
    requires g1.log == g.log + [first] && first.host < |net| && first.call.ContinueTask?
    requires GateAt(net, g1, g2, n, made) && m == n + 1 && moved == made
    ensures GateAt(net, g, g2, m, moved)
  {
    GateAfterOne(net, g, g1, g2, first, n, made);
  }

  lemma PutOne(g: Grid, id: Id, c: Ctx, call: Call)
    requires id in g.store && c.trace == g.trace + [ChatEvent(call)]
    ensures Put(g, id, c).log == g.log + [Made(g.store[id].host, call)]
  {
    assert c.trace[|g.trace|..] == [ChatEvent(call)];
  }

  // ---------- the approval is cleared ----------

  ghost predicate FrameBelow(g: Grid, g2: Grid, id: Id)
    requires id in g.store
  {
    Extends(g, g2) && forall x :: x in g.store && g.store[x].host <= g.store[id].host && x != id ==>
      g2.store[x] == g.store[x]
  }

  /** Clearing a local approval keeps agreement; clearing a proxy opens the hole at its task. */
  lemma PutCleared(net: seq<Agent>, g: Grid, id: Id, c2: Ctx)
    requires Inv(net, g, Some(id)) && Waits(g, id)
    requires ConvStep(Open(g, g.store[id].conv), c2) && c2.conv.pending.None?
    ensures var g2 := Put(g, id, c2);
            var p := g.store[id].conv.pending.value;
            && Inv(net, g2, if p.IsProxy() then Some(p.remoteTaskId) else None) && Frame(g, g2, id) && !Waits(g2, id)
  {
    var g2 := Put(g, id, c2);
    PutSeats(net, g, id, c2);
    assert g.store[id].conv.pending.value.IsProxy() ==> Points(g, id, g.store[id].conv.pending.value.remoteTaskId);
    forall u: Id, t: Id | Points(g2, u, t)
      ensures LinkOk(net, g2, u, t) && !Points(g, id, t) && t !in g2.orphans
    {
      assert Points(g, u, t);
    }
    forall t: Id | Waits(g2, t) && g2.store[t].upstream.Some? && t !in g2.orphans && !Points(g, id, t)
      ensures Points(g2, g2.store[t].upstream.value, t)
    {
      assert Points(g, g.store[t].upstream.value, t);
    }
  }

  lemma Orphaned(net: seq<Agent>, g: Grid, t: Id)
    requires Inv(net, g, Some(t)) && Waits(g, t) && g.store[t].upstream.Some?
    ensures Inv(net, g.(orphans := g.orphans + {t}), None)
  {
    var g2 := g.(orphans := g.orphans + {t});
    forall x | x in g2.store
      ensures SeatOk(net, g2, x)
    {
      assert SeatOk(net, g, x);
    }
    forall u: Id, x: Id | Points(g2, u, x)
      ensures LinkOk(net, g2, u, x) && x !in g2.orphans
    {
      assert Points(g, u, x);
    }
    forall x: Id | Waits(g2, x) && g2.store[x].upstream.Some? && x !in g2.orphans
      ensures Points(g2, g2.store[x].upstream.value, x)
    {
      assert Points(g, g.store[x].upstream.value, x);
    }
  }

  /** The letter is written so, or as a capital. */
  predicate IsLetter(c: char, letter: char) {
    || c == letter || ('a' <= letter <= 'z' && c as int == letter as int - 32)
    || (letter == 'i' && c as int == 0x130) || (letter == 'k' && c as int == 0x212A)
  }

  predicate IsWord(s: string, word: string) {
    |s| == |word| && forall i :: 0 <= i < |s| ==> IsLetter(s[i], word[i])
  }

  predicate IsSmall(word: string) {
    word != "" && forall i :: 0 <= i < |word| ==> 'a' <= word[i] <= 'z'
  }

  predicate AllBlank(s: string) {
    forall i :: 0 <= i < |s| ==> IsBlank(s[i])
  }

  lemma {:induction false} LowerIs(s: string, word: string)
    requires forall i :: 0 <= i < |word| ==> 'a' <= word[i] <= 'z'
    ensures ToLower(s) == word <==> IsWord(s, word)
  {
    if s != "" && word != "" {
      LowerIs(s[1..], word[1..]);
      assert word == [word[0]] + word[1..];
      assert IsWord(s[1..], word[1..]) && IsLetter(s[0], word[0]) ==> IsWord(s, word) by {
        assert forall i :: 1 <= i < |s| ==> s[i] == s[1..][i - 1];
      }
      assert IsWord(s, word) ==> IsWord(s[1..], word[1..]);
    }
  }

  lemma {:induction false} TrimmedLeft(s: string)
    ensures exists left :: AllBlank(left) && s == left + TrimLeft(s)
  {
    if s != "" && IsBlank(s[0]) {
      TrimmedLeft(s[1..]);
      var left :| AllBlank(left) && s[1..] == left + TrimLeft(s[1..]);
      assert AllBlank([s[0]] + left) && s == [s[0]] + left + TrimLeft(s);
    } else {
      assert AllBlank("") && s == "" + TrimLeft(s);
    }
  }

  lemma {:induction false} TrimmedRight(s: string)
    ensures exists right :: AllBlank(right) && s == TrimRight(s) + right
  {
    if s != "" && IsBlank(s[|s| - 1]) {
      var front := s[..|s| - 1];
      TrimmedRight(front);
      var right :| AllBlank(right) && front == TrimRight(front) + right;
      assert AllBlank(right + [s[|s| - 1]]) && s == TrimRight(s) + (right + [s[|s| - 1]]);
    } else {
      assert AllBlank("") && s == TrimRight(s) + "";
    }
  }

  lemma {:induction false} TrimsLeft(left: string, s: string)
    requires AllBlank(left) && s != "" && !IsBlank(s[0])
    ensures TrimLeft(left + s) == s
  {
    if left == "" {
      assert left + s == s;
    } else {
      assert (left + s)[1..] == left[1..] + s;
      TrimsLeft(left[1..], s);
    }
  }

  lemma {:induction false} TrimsRight(s: string, right: string)
    requires AllBlank(right) && s != "" && !IsBlank(s[|s| - 1])
    ensures TrimRight(s + right) == s
  {
    if right == "" {
      assert s + right == s;
    } else {
      assert (s + right)[..|s + right| - 1] == s + right[..|right| - 1];
      TrimsRight(s, right[..|right| - 1]);
    }
  }

  /** The word stands between blanks. */
  predicate Says(text: string, left: string, s: string, right: string, word: string) {
    text == left + s + right && AllBlank(left) && AllBlank(right) && IsWord(s, word)
  }

  lemma SaysRead(text: string, left: string, s: string, right: string, word: string)
    requires IsSmall(word) && Says(text, left, s, right, word)
    ensures ToLower(TrimRight(TrimLeft(text))) == word
  {
    hide ToLower, TrimLeft, TrimRight;
    assert IsLetter(s[0], word[0]) && IsLetter(s[|s| - 1], word[|s| - 1]);
    assert text == left + (s + right) && (s + right)[0] == s[0];
    TrimsLeft(left, s + right);
    TrimsRight(s, right);
    LowerIs(s, word);
  }

  lemma ReadSays(text: string, word: string)
    requires IsSmall(word) && ToLower(TrimRight(TrimLeft(text))) == word
    ensures exists left, s, right :: Says(text, left, s, right, word)
  {
    hide ToLower, TrimLeft, TrimRight, IsWord, AllBlank;
    var s := TrimRight(TrimLeft(text));
    LowerIs(s, word);
    TrimmedLeft(text);
    TrimmedRight(TrimLeft(text));
    var left :| AllBlank(left) && text == left + TrimLeft(text);
    var right :| AllBlank(right) && TrimLeft(text) == s + right;
    assert left + (s + right) == left + s + right;
    assert Says(text, left, s, right, word);
  }

  lemma ReadsAs(text: string, word: string)
    requires IsSmall(word)
    ensures ToLower(TrimRight(TrimLeft(text))) == word <==> exists left, s, right :: Says(text, left, s, right, word)
  {
    hide ToLower, TrimLeft, TrimRight, Says, IsSmall;
    if ToLower(TrimRight(TrimLeft(text))) == word {
      ReadSays(text, word);
    }
    forall left, s, right | Says(text, left, s, right, word)
      ensures ToLower(TrimRight(TrimLeft(text))) == word
    {
      SaysRead(text, left, s, right, word);
    }
  }

  /** Exactly seven words, in any letters and between any blanks, are read as an approval; everything else
      is a rejection. */
  lemma SevenWordsApprove(text: string)
    ensures IsApprovalMessage(text)
            <==> exists word, left, s, right ::
              word in ["yes", "y", "true", "approve", "approved", "ok", "confirm"] && Says(text, left, s, right, word)
  {
    hide ToLower, TrimLeft, TrimRight, Says;
    var words := ["yes", "y", "true", "approve", "approved", "ok", "confirm"];
    forall word | word in words
      ensures ToLower(TrimRight(TrimLeft(text))) == word <==> exists left, s, right :: Says(text, left, s, right, word)
    {
      SmallWords(word);
      ReadsAs(text, word);
    }
    var lower := ToLower(TrimRight(TrimLeft(text)));
    assert IsApprovalMessage(text) <==> lower in words;
  }

  lemma SmallWords(word: string)
    requires word in ["yes", "y", "true", "approve", "approved", "ok", "confirm"]
    ensures IsSmall(word)
  {
  }

  /** The two answers proxies pass down are read as what they say. */
  lemma ApprovalWords()
    ensures IsApprovalMessage(ANSWER_APPROVED) && !IsApprovalMessage(ANSWER_REJECTED)
  {
    hide ToLower, TrimLeft, TrimRight;
    WordItself("approved");
    WordItself("rejected");
  }

  lemma WordItself(word: string)
    requires IsSmall(word)
    ensures ToLower(TrimRight(TrimLeft(word))) == word
  {
    assert Says(word, "", word, "", word);
    ReadsAs(word, word);
  }

  // ---------- a granted approval ----------

  /** The call the end of the chain waits for. */
  ghost function TailCall(net: seq<Agent>, g: Grid, id: Id): Made
    requires id in g.store
  {
    var t := Tail(net, g, id);
    var p := g.store[t].conv.pending;
    Made(g.store[t].host, if p.Some? then ApprovedCall(p.value.toolName, p.value.toolArgs) else RunTool("", map[]))
  }

  /** A granted approval is answered; agreement holds but for its conversation; and the only marked
      call made is the one the end of the chain waited for, right after the answers passed down. */
  ghost predicate Granted(net: seq<Agent>, g: Grid, id: Id, r: (Grid, Reply))
    requires id in g.store
  {
    && r.1.Replied? && Inv(net, r.0, Some(id)) && FrameBelow(g, r.0, id)
    && (r.1.result.authRequired ==> !Waits(r.0, id))
    && GateAt(net, g, r.0, |Chain(net, g, id)| - 1, TailCall(net, g, id))
  }

  lemma FrameThen(g: Grid, g1: Grid, g2: Grid, id: Id)
    requires id in g.store && id in g1.store && FrameBelow(g, g1, id) && Frame(g1, g2, id)
    ensures FrameBelow(g, g2, id)
  {
  }

  /** A turn after the released call completes the grant. */
  lemma TurnCompletes(net: seq<Agent>, g: Grid, g1: Grid, id: Id, r: (Grid, NodeResult))
    requires id in g.store && id in g1.store && FrameBelow(g, g1, id) && LoopDone(net, g1, id, r)
    requires GateAt(net, g, g1, |Chain(net, g, id)| - 1, TailCall(net, g, id))
    ensures Granted(net, g, id, (r.0, Replied(r.1)))
  {
    hide Inv, FrameBelow, Frame, GateAt, LogQuiet, Chain, TailCall, Waits;
    FrameThen(g, g1, r.0, id);
    GateThen(net, g, g1, r.0, |Chain(net, g, id)| - 1, TailCall(net, g, id));
  }

  lemma InvSeats(net: seq<Agent>, g: Grid, id: Id)
    requires Inv(net, g, None) && id in g.store
    ensures Seated(net, g, id)
  {
  }

  lemma RunOnGranted(net: seq<Agent>, g: Grid, g1: Grid, id: Id)
    requires Inv(net, g1, None) && id in g.store && id in g1.store && !Waits(g1, id) && FrameBelow(g, g1, id)
    requires GateAt(net, g, g1, |Chain(net, g, id)| - 1, TailCall(net, g, id))
    ensures Granted(net, g, id, RunOn(net, g1, id))
  {
    assert Seated(net, g1, id);
    hide Inv, Waits, FrameBelow, GateAt, Chain, TailCall, Granted, LoopDone, Converse;
    ConverseKeeps(net, g1, id, MAX_TOOL_ITERATIONS);
    TurnCompletes(net, g, g1, id, Converse(net, g1, id, MAX_TOOL_ITERATIONS));
  }

  lemma LocalChain(net: seq<Agent>, g: Grid, id: Id)
    requires Waits(g, id) && !g.store[id].conv.pending.value.IsProxy()
    ensures Chain(net, g, id) == [id]
    ensures var p := g.store[id].conv.pending.value;
            TailCall(net, g, id) == Made(g.store[id].host, ApprovedCall(p.toolName, p.toolArgs))
  {
  }

  /** The released call has been made and its record kept. */
  lemma ReleasedPut(net: seq<Agent>, g: Grid, id: Id, c: Ctx)
    requires Inv(net, g, Some(id)) && Waits(g, id) && !g.store[id].conv.pending.value.IsProxy()
    requires ConvStep(Open(g, g.store[id].conv), c) && c.conv.pending.None?
    requires var p := g.store[id].conv.pending.value;
             c.trace == g.trace + [ChatEvent(ApprovedCall(p.toolName, p.toolArgs))]
    ensures var g1 := Put(g, id, c);
            && Inv(net, g1, None) && FrameBelow(g, g1, id) && !Waits(g1, id) && Seated(net, g1, id)
            && GateAt(net, g, g1, |Chain(net, g, id)| - 1, TailCall(net, g, id))
  {
    var p := g.store[id].conv.pending.value;
    PutCleared(net, g, id, c);
    PutOne(g, id, c, ApprovedCall(p.toolName, p.toolArgs));
    LocalChain(net, g, id);
  }

  lemma ToolGranted(net: seq<Agent>, g: Grid, id: Id, p: Pending, c: Ctx, reply: ToolReply)
    requires Inv(net, g, Some(id)) && Waits(g, id) && p == g.store[id].conv.pending.value && !p.IsProxy()
    requires ConvStep(Open(g, g.store[id].conv), c) && c.conv.pending.None? && c.nextId == g.nextId
    requires c.trace == g.trace + [ChatEvent(ApprovedCall(p.toolName, p.toolArgs))]
    ensures Granted(net, g, id, ResolveTool(net, g, id, p, c, reply))
  {
    assert SeatOk(net, g, id);
    hide Inv, FrameBelow, GateAt, Chain, TailCall, RunOn, NetOk, Hosted, ConvStep, SeatOk;
    var w := net[g.store[id].host].w;
    match reply
    case ToolAuthRequired =>
      var server := if p.toolName in w.tools then w.tools[p.toolName].server else p.toolName;
      var over := AnswerAuth(c, w.render(AuthNeeded("", server)));
      ReleasedPut(net, g, id, over.c);
      NobodyPoints(net, Put(g, id, over.c), id);
    case ToolFailed(e) =>
      var c2 := c.Say([ResultRecord(p.toolName, w.render(ToolBroken("", e)), true)]);
      ReleasedPut(net, g, id, c2);
      RunOnGranted(net, g, Put(g, id, c2), id);
    case ToolOk(text, isError) =>
      var c2 := c.Say([ResultRecord(p.toolName, text, isError)]);
      ReleasedPut(net, g, id, c2);
      RunOnGranted(net, g, Put(g, id, c2), id);
  }

  /** Nobody is a proxy for a conversation that does not wait. */
  lemma NobodyPoints(net: seq<Agent>, g: Grid, id: Id)
    requires Inv(net, g, None) && !Waits(g, id)
    ensures Inv(net, g, Some(id))
  {
    assert forall u: Id :: Points(g, u, id) ==> LinkOk(net, g, u, id);
  }

  lemma KnownSeats(net: seq<Agent>, g: Grid, id: Id, agent: string, reply: RemoteReply)
    requires TaskKnown(net, g, id, agent, reply)
    ensures Seated(net, g, id)
  {
    hide Agreement, SeatOk, Hosted, NetOk;
  }

  lemma AfterGrantGranted(net: seq<Agent>, g: Grid, g2: Grid, id: Id, p: Pending, agent: string, reply: RemoteReply)
    requires id in g.store && TaskKnown(net, g2, id, agent, reply) && !Waits(g2, id) && FrameBelow(g, g2, id)
    requires GateAt(net, g, g2, |Chain(net, g, id)| - 1, TailCall(net, g, id))
    ensures Granted(net, g, id, AfterGrant(net, g2, id, p, reply))
  {
    assert SeatOk(net, g2, id);
    var w, c := net[g2.store[id].host].w, Open(g2, g2.store[id].conv);
    hide Inv, FrameBelow, GateAt, Chain, TailCall, Granted, RunOn, PlainStep, NetOk, Hosted, LastSaid;
    match reply
    case RemoteError(e) =>
      var text := w.render(AgentFailed("", e));
      var c2 := c.Say([ResultRecord(p.toolName, text, true)]);
      ResultIsPlain(w, c, c2, p.toolName, text, true);
      SayOn(net, g, g2, id, c2, Put(g2, id, c2));
    case RemoteTask(task) =>
      var c2 := c.Say([ResultRecord(p.toolName, task.text, task.state.TaskFailed?)]);
      ResultIsPlain(w, c, c2, p.toolName, task.text, task.state.TaskFailed?);
      if task.state.InputRequired? {
        Orphaned(net, g2, task.id);
        OrphanKeeps(net, g, g2, id, task.id, |Chain(net, g, id)| - 1, TailCall(net, g, id));
        var g3 := g2.(orphans := g2.orphans + {task.id});
        SayOn(net, g, g3, id, c2, Put(g3, id, c2));
      } else {
        HoleFills(net, g2, task.id);
        SayOn(net, g, g2, id, c2, Put(g2, id, c2));
      }
  }

  lemma OrphanKeeps(net: seq<Agent>, g: Grid, g2: Grid, id: Id, t: Id, n: nat, made: Made)
    requires id in g.store && FrameBelow(g, g2, id) && GateAt(net, g, g2, n, made) && !Waits(g2, id)
    ensures var g3 := g2.(orphans := g2.orphans + {t});
            FrameBelow(g, g3, id) && GateAt(net, g, g3, n, made) && !Waits(g3, id)
  {
  }

  lemma ResultIsPlain(w: World, c: Ctx, c2: Ctx, name: string, text: string, isError: bool)
    requires c.conv.pending.None? && c.conv.pipeline.None? && c.conv.StatusAgrees()
    requires c2 == c.Say([ResultRecord(name, text, isError)])
    ensures PlainStep(w, c, c2) && c2.conv.pending.None?
  {
  }

  /** Recording the result and running on. */
  lemma SayOn(net: seq<Agent>, g: Grid, g2: Grid, id: Id, c2: Ctx, g3: Grid)
    requires Inv(net, g2, None) && id in g.store && id in g2.store && !Waits(g2, id) && FrameBelow(g, g2, id)
    requires g2.store[id].host < |net| && g3 == Put(g2, id, c2)
    requires PlainStep(net[g2.store[id].host].w, Open(g2, g2.store[id].conv), c2) && c2.conv.pending.None?
    requires GateAt(net, g, g2, |Chain(net, g, id)| - 1, TailCall(net, g, id))
    ensures Seated(net, g3, id) && Granted(net, g, id, RunOn(net, g3, id))
  {
    hide Inv, Waits, FrameBelow, Frame, GateAt, LogQuiet, Chain, TailCall, Granted, RunOn, PlainStep;
    PutIdle(net, g2, id, c2);
    InvSeats(net, g3, id);
    FrameThen(g, g2, g3, id);
    GateThen(net, g, g2, g3, |Chain(net, g, id)| - 1, TailCall(net, g, id));
    RunOnGranted(net, g, g3, id);
  }

  /** A new task's reply tells its state, and nothing else has moved. */
  lemma SentKnown(net: seq<Agent>, g: Grid, g1: Grid, id: Id, agent: string, r: (Grid, RemoteReply))
    requires id in g.store && id in g1.store && FrameBelow(g, g1, id) && !Waits(g1, id)
    requires g1.store[id].host < |net| && agent in net[g1.store[id].host].links
    requires SendDone(net, g1, net[g1.store[id].host].links[agent], id, r)
    ensures TaskKnown(net, r.0, id, agent, r.1) && !Waits(r.0, id) && FrameBelow(g, r.0, id) && LogQuiet(net, g1, r.0)
  {
    hide Inv, LogQuiet;
  }

  lemma DelegationGranted(net: seq<Agent>, g: Grid, id: Id, p: Pending, agent: string, c: Ctx)
    requires Inv(net, g, Some(id)) && Waits(g, id) && p == g.store[id].conv.pending.value && !p.IsProxy()
    requires HasPrefix(p.toolName, A2A_PREFIX) && agent == TrimPrefix(p.toolName, A2A_PREFIX)
    requires ConvStep(Open(g, g.store[id].conv), c) && c.conv.pending.None? && c.nextId == g.nextId
    requires c.trace == g.trace
    ensures Granted(net, g, id, ResolveDelegation(net, g, id, p, agent, c))
  {
    assert SeatOk(net, g, id);
    var text := MessageArg(p.toolArgs);
    var b := net[g.store[id].host].links[agent];
    hide Inv, FrameBelow, Frame, GateAt, LogQuiet, Chain, TailCall, AfterGrant, Granted, TaskKnown, SendDone, SendTo;
    var g1 := Put(g, id, Log(c, SendTask(agent, text)));
    ReleasedPut(net, g, id, Log(c, SendTask(agent, text)));
    var (g2, reply) := SendTo(net, g1, b, text, id);
    SendKeeps(net, g1, b, text, id);
    SentKnown(net, g, g1, id, agent, (g2, reply));
    GateThen(net, g, g1, g2, |Chain(net, g, id)| - 1, TailCall(net, g, id));
    AfterGrantGranted(net, g, g2, id, p, agent, reply);
  }

  /** The conversation behind a proxy is there, waits, and is the next in the chain. */
  lemma ProxyNext(net: seq<Agent>, g: Grid, id: Id)
    requires Inv(net, g, Some(id)) && Waits(g, id) && g.store[id].conv.pending.value.IsProxy()
    ensures var p := g.store[id].conv.pending.value;
            var t := p.remoteTaskId;
            && LinkOk(net, g, id, t) && NextOf(net, g, id) == Some(t)
            && Chain(net, g, id) == [id] + Chain(net, g, t) && TailCall(net, g, id) == TailCall(net, g, t)
  {
    var t := g.store[id].conv.pending.value.remoteTaskId;
    assert Points(g, id, t);
    assert SeatOk(net, g, t);
    var rest := Chain(net, g, t);
    assert ([id] + rest)[|[id] + rest| - 1] == rest[|rest| - 1];
  }

  /** The proxy's own step leaves the rest of the chain as it was. */
  lemma ProxyPut(net: seq<Agent>, g: Grid, id: Id, c: Ctx)
    requires Inv(net, g, Some(id)) && Waits(g, id) && g.store[id].conv.pending.value.IsProxy()
    requires ConvStep(Open(g, g.store[id].conv), c) && c.conv.pending.None?
    ensures var t, g1 := g.store[id].conv.pending.value.remoteTaskId, Put(g, id, c);
            && Inv(net, g1, Some(t)) && Frame(g, g1, id) && !Waits(g1, id) && t in g.store && t != id && Waits(g1, t)
            && Chain(net, g1, t) == Chain(net, g, t) && TailCall(net, g1, t) == TailCall(net, g, t)
            && g.store[id].host < g.store[t].host
  {
    var t, g1 := g.store[id].conv.pending.value.remoteTaskId, Put(g, id, c);
    PutCleared(net, g, id, c);
    ProxyNext(net, g, id);
    assert SeatOk(net, g, t);
    forall x | x in g.store && Waits(g, x) && g.store[x].conv.pending.value.IsProxy()
      ensures g.store[x].conv.pending.value.remoteTaskId in g.store
    {
      assert Points(g, x, g.store[x].conv.pending.value.remoteTaskId);
    }
    ChainFrame(net, g, g1, t);
    var tail := Tail(net, g, t);
    assert tail in Chain(net, g, t);
  }

  /** The task made of an answered conversation tells whether it waits. */
  lemma TaskTells(net: seq<Agent>, g: Grid, id: Id, t: Id, agent: string, result: NodeResult)
    requires Inv(net, g, Some(t)) && t in g.store && t != id && t != NO_ID && g.store[t].upstream == Some(id)
    requires id in g.store
    requires g.store[id].host < |net| && agent in net[g.store[id].host].links
    requires net[g.store[id].host].links[agent] == g.store[t].host
    requires result.authRequired ==> !Waits(g, t)
    ensures TaskKnown(net, g, id, agent, RemoteTask(TaskOf(net[g.store[t].host].w, g.store[t].conv, result)))
  {
    assert SeatOk(net, g, t);
  }

  /** The answer has been passed down and the task's reply is back. */
  ghost predicate Passed(net: seq<Agent>, g: Grid, id: Id, agent: string, r: (Grid, RemoteReply))
    requires id in g.store
  {
    && r.1.RemoteTask? && TaskKnown(net, r.0, id, agent, r.1) && !Waits(r.0, id) && FrameBelow(g, r.0, id)
    && GateAt(net, g, r.0, |Chain(net, g, id)| - 1, TailCall(net, g, id))
  }

  /** Passing "approved" to a waiting task resolves its approval. */
  lemma ContinueResolves(net: seq<Agent>, g: Grid, t: Id, text: string)
    requires Inv(net, g, Some(t)) && Waits(g, t)
    ensures var (g2, reply) := Resolve(net, g, t, IsApprovalMessage(text));
            ContinueOn(net, g, g.store[t].host, t, text)
            == (g2, if reply.Replied? then RemoteTask(TaskOf(net[g.store[t].host].w, g2.store[t].conv, reply.result))
                else RemoteError("approval failed"))
  {
    assert SeatOk(net, g, t);
  }

  /** The released call is counted from before the answer was passed down. */
  lemma ProxyFacts(net: seq<Agent>, g: Grid, g1: Grid, id: Id, t: Id)
    requires Inv(net, g, Some(id)) && Waits(g, id) && g.store[id].conv.pending.value.IsProxy()
    requires t == g.store[id].conv.pending.value.remoteTaskId
    requires t in g.store && t in g1.store && Chain(net, g1, t) == Chain(net, g, t)
    requires TailCall(net, g1, t) == TailCall(net, g, t)
    ensures |Chain(net, g, id)| == 1 + |Chain(net, g1, t)| && TailCall(net, g, id) == TailCall(net, g1, t)
    ensures g.store[id].host < |net|
  {
    hide Inv, TailCall, Tail;
    ProxyNext(net, g, id);
  }

  lemma ProxyGate(net: seq<Agent>, g: Grid, g1: Grid, g2: Grid, id: Id, t: Id, call: Call)
    requires Inv(net, g, Some(id)) && Waits(g, id) && g.store[id].conv.pending.value.IsProxy()
    requires t == g.store[id].conv.pending.value.remoteTaskId
    requires t in g.store && t in g1.store && g1.log == g.log + [Made(g.store[id].host, call)] && call.ContinueTask?
    requires Chain(net, g1, t) == Chain(net, g, t) && TailCall(net, g1, t) == TailCall(net, g, t)
    requires GateAt(net, g1, g2, |Chain(net, g1, t)| - 1, TailCall(net, g1, t))
    ensures GateAt(net, g, g2, |Chain(net, g, id)| - 1, TailCall(net, g, id))
  {
    hide Chain, TailCall, Tail, NextOf, GateAt, Inv, LinkOk;
    ProxyFacts(net, g, g1, id, t);
    GateMoves(net, g, g1, g2, Made(g.store[id].host, call), |Chain(net, g1, t)| - 1, TailCall(net, g1, t),
              |Chain(net, g, id)| - 1, TailCall(net, g, id));
  }

  /** A granted task's reply, seen from its upstream. */
  lemma PassedUp(net: seq<Agent>, g: Grid, g1: Grid, id: Id, t: Id, agent: string, call: Call, r: (Grid, Reply))
    requires Inv(net, g, Some(id)) && Waits(g, id) && g.store[id].conv.pending.value.IsProxy()
    requires t == g.store[id].conv.pending.value.remoteTaskId
    requires t in g.store && g.store[id].host < g.store[t].host < |net|
    requires agent == g.store[id].conv.pending.value.remoteAgent && g1.log == g.log + [Made(g.store[id].host, call)]
    requires call.ContinueTask?
    requires Frame(g, g1, id) && !Waits(g1, id) && t in g1.store && Granted(net, g1, t, r) && t in r.0.store
    requires r.1.Replied?
    requires Chain(net, g1, t) == Chain(net, g, t) && TailCall(net, g1, t) == TailCall(net, g, t)
    ensures Passed(net, g, id, agent, (r.0, RemoteTask(TaskOf(net[g.store[t].host].w, r.0.store[t].conv, r.1.result))))
  {
    PassedFrame(g, g1, r.0, id, t);
    PassedKnown(net, g, g1, id, t, agent, r);
    hide TaskOf, Chain, Tail, TailCall, GateAt, TaskKnown, Inv, FrameBelow, Frame, Waits, NextOf;
    ProxyGate(net, g, g1, r.0, id, t, call);
  }

  lemma PassedKnown(net: seq<Agent>, g: Grid, g1: Grid, id: Id, t: Id, agent: string, r: (Grid, Reply))
    requires Inv(net, g, Some(id)) && Waits(g, id) && g.store[id].conv.pending.value.IsProxy()
    requires t == g.store[id].conv.pending.value.remoteTaskId
    requires t in g.store && g.store[id].host < g.store[t].host < |net|
    requires agent == g.store[id].conv.pending.value.remoteAgent
    requires Frame(g, g1, id) && !Waits(g1, id) && t in g1.store && Granted(net, g1, t, r) && t in r.0.store
    requires r.1.Replied?
    ensures TaskKnown(net, r.0, id, agent, RemoteTask(TaskOf(net[g.store[t].host].w, r.0.store[t].conv, r.1.result)))
  {
    ProxyNext(net, g, id);
    PassedFrame(g, g1, r.0, id, t);
    hide TaskOf, Chain, Tail, TailCall, GateAt, TaskKnown, Inv, FrameBelow, Frame, Waits, NextOf;
    TaskTells(net, r.0, id, t, agent, r.1.result);
  }

  lemma PassedFrame(g: Grid, g1: Grid, g2: Grid, id: Id, t: Id)
    requires id in g.store && id in g1.store && t in g.store && t in g1.store && g.store[id].host < g.store[t].host
    requires Frame(g, g1, id) && FrameBelow(g1, g2, t) && !Waits(g1, id)
    ensures FrameBelow(g, g2, id) && !Waits(g2, id) && id in g2.store && t in g2.store
    ensures g2.store[id].host == g.store[id].host && g2.store[t].host == g.store[t].host
    ensures g2.store[t].upstream == g.store[t].upstream
  {
  }

  lemma {:induction false} ProxyPasses(net: seq<Agent>, g: Grid, id: Id, p: Pending, c: Ctx)
    requires Inv(net, g, Some(id)) && Waits(g, id) && p == g.store[id].conv.pending.value && p.IsProxy()
    requires ConvStep(Open(g, g.store[id].conv), c) && c.conv.pending.None? && c.nextId == g.nextId
    requires c.trace == g.trace
    ensures var g1 := Put(g, id, Log(c, ContinueTask(p.remoteAgent, p.remoteTaskId, ANSWER_APPROVED)));
            && p.remoteAgent in net[g.store[id].host].links
            && Passed(net, g, id, p.remoteAgent,
                      ContinueOn(net, g1, net[g.store[id].host].links[p.remoteAgent], p.remoteTaskId, ANSWER_APPROVED))
    decreases |net| - g.store[id].host, 2, 0
  {
    var t := p.remoteTaskId;
    var call := ContinueTask(p.remoteAgent, t, ANSWER_APPROVED);
    var g1 := Put(g, id, Log(c, call));
    ProxyNext(net, g, id);
    ProxyPut(net, g, id, Log(c, call));
    PutOne(g, id, Log(c, call), call);
    ApprovalWords();
    ResolveGranted(net, g1, t);
    ContinueResolves(net, g1, t, ANSWER_APPROVED);
    PassedUp(net, g, g1, id, t, p.remoteAgent, call, Resolve(net, g1, t, true));
  }

  lemma ReplyGranted(net: seq<Agent>, g: Grid, g2: Grid, id: Id, p: Pending, reply: RemoteReply)
    requires id in g.store && Passed(net, g, id, p.remoteAgent, (g2, reply))
    ensures var (g3, result) := TakeReply(net, g2, id, MAX_TOOL_ITERATIONS, p.remoteAgent, p.toolName, p.toolArgs,
                                          reply);
            Granted(net, g, id, (g3, Replied(result)))
  {
    hide TaskKnown, Waits, FrameBelow, GateAt, Chain, TailCall, Granted, LoopDone, TakeReply, NetOk, Hosted;
    KnownSeats(net, g2, id, p.remoteAgent, reply);
    TakeReplyKeeps(net, g2, id, MAX_TOOL_ITERATIONS, p.remoteAgent, p.toolName, p.toolArgs, reply);
    TurnCompletes(net, g, g2, id,
                  TakeReply(net, g2, id, MAX_TOOL_ITERATIONS, p.remoteAgent, p.toolName, p.toolArgs, reply));
  }

  lemma {:induction false} ProxyGranted(net: seq<Agent>, g: Grid, id: Id, p: Pending, c: Ctx)
    requires Inv(net, g, Some(id)) && Waits(g, id) && p == g.store[id].conv.pending.value && p.IsProxy()
    requires ConvStep(Open(g, g.store[id].conv), c) && c.conv.pending.None? && c.nextId == g.nextId
    requires c.trace == g.trace
    ensures Granted(net, g, id, ResolveProxy(net, g, id, p, c))
    decreases |net| - g.store[id].host, 2, 1
  {
    hide FrameBelow, GateAt, Chain, TailCall, Granted, TakeReply, TaskKnown, ContinueOn;
    ProxyPasses(net, g, id, p, c);
    var g1 := Put(g, id, Log(c, ContinueTask(p.remoteAgent, p.remoteTaskId, ANSWER_APPROVED)));
    var (g2, reply) := ContinueOn(net, g1, net[g.store[id].host].links[p.remoteAgent], p.remoteTaskId, ANSWER_APPROVED);
    ReplyGranted(net, g, g2, id, p, reply);
  }

  /** Granting the approval of any conversation, whatever chain of proxies hangs on it. */
  lemma {:induction false} ResolveGranted(net: seq<Agent>, g: Grid, id: Id)
    requires Inv(net, g, Some(id)) && Waits(g, id)
    ensures Granted(net, g, id, Resolve(net, g, id, true))
    decreases |net| - g.store[id].host, 3
  {
    assert SeatOk(net, g, id);
    var c := Open(g, g.store[id].conv);
    var p := c.conv.pending.value;
    var c1 := Cleared(c).Say([Text(RoleUser, APPROVED_TEXT)]);
    if p.IsProxy() {
      ProxyGranted(net, g, id, p, c1);
    } else if HasPrefix(p.toolName, A2A_PREFIX) {
      DelegationGranted(net, g, id, p, TrimPrefix(p.toolName, A2A_PREFIX), c1);
    } else {
      ToolGranted(net, g, id, p, Log(c1, RunTool(p.toolName, p.toolArgs)),
                  net[g.store[id].host].w.runTool(g.trace, p.toolName, p.toolArgs));
    }
  }

  // ---------- a rejected approval ----------

  ghost predicate OnlyContinues(g: Grid, g2: Grid) {
    g.log <= g2.log && forall k :: |g.log| <= k < |g2.log| ==> g2.log[k].call.ContinueTask?
  }

  /** A rejection is answered; nothing in the chain waits any more; only answers were passed on. */
  ghost predicate Rejected(net: seq<Agent>, g: Grid, id: Id, r: (Grid, Reply))
    requires id in g.store
  {
    && r.1.Replied? && !r.1.result.authRequired && Inv(net, r.0, Some(id)) && FrameBelow(g, r.0, id)
    && (forall x :: x in Chain(net, g, id) ==> !Waits(r.0, x))
    && OnlyContinues(g, r.0) && r.0.orphans == g.orphans
  }

  lemma {:induction false} ResolveRejects(net: seq<Agent>, g: Grid, id: Id)
    requires Inv(net, g, Some(id)) && Waits(g, id)
    ensures Rejected(net, g, id, Resolve(net, g, id, false))
    decreases |net| - g.store[id].host, 3
  {
    assert SeatOk(net, g, id);
    var p := g.store[id].conv.pending.value;
    var text := net[g.store[id].host].w.render(Cancelled);
    var c := Cleared(Open(g, g.store[id].conv)).Say([Text(RoleUser, REJECTED_TEXT), Text(RoleAssistant, text)]);
    if p.IsProxy() {
      ProxyRejects(net, g, id, p, c);
    } else {
      PutCleared(net, g, id, c);
      NobodyPoints(net, Put(g, id, c), id);
      LocalChain(net, g, id);
      assert c.trace[|g.trace|..] == [];
    }
  }

  lemma ContinuesAfterOne(g: Grid, g1: Grid, g2: Grid, first: Made)
    requires g1.log == g.log + [first] && first.call.ContinueTask? && OnlyContinues(g1, g2)
    ensures OnlyContinues(g, g2)
  {
    forall k | |g.log| <= k < |g2.log|
      ensures g2.log[k].call.ContinueTask?
    {
      if k == |g.log| {
        assert g2.log[k] == g1.log[k];
      }
    }
  }

  lemma {:induction false} ProxyRejects(net: seq<Agent>, g: Grid, id: Id, p: Pending, c: Ctx)
    requires Inv(net, g, Some(id)) && Waits(g, id) && p == g.store[id].conv.pending.value && p.IsProxy()
    requires ConvStep(Open(g, g.store[id].conv), c) && c.conv.pending.None? && c.nextId == g.nextId
    requires c.trace == g.trace
    ensures var g1 := Put(g, id, Log(c, ContinueTask(p.remoteAgent, p.remoteTaskId, ANSWER_REJECTED)));
            && p.remoteAgent in net[g.store[id].host].links
            && Rejected(net, g, id,
                        (ContinueOn(net, g1, net[g.store[id].host].links[p.remoteAgent], p.remoteTaskId,
                                    ANSWER_REJECTED).0, Replied(Plain(""))))
    decreases |net| - g.store[id].host, 2
  {
    var t := p.remoteTaskId;
    var call := ContinueTask(p.remoteAgent, t, ANSWER_REJECTED);
    var g1 := Put(g, id, Log(c, call));
    ProxyNext(net, g, id);
    ProxyPut(net, g, id, Log(c, call));
    PutOne(g, id, Log(c, call), call);
    ApprovalWords();
    ResolveRejects(net, g1, t);
    ContinueResolves(net, g1, t, ANSWER_REJECTED);
    RejectedUp(net, g, g1, id, t, call, Resolve(net, g1, t, false));
  }

  /** A rejected task, seen from its upstream. */
  lemma RejectedUp(net: seq<Agent>, g: Grid, g1: Grid, id: Id, t: Id, call: Call, r: (Grid, Reply))
    requires Inv(net, g, Some(id)) && Waits(g, id) && g.store[id].conv.pending.value.IsProxy()
    requires t == g.store[id].conv.pending.value.remoteTaskId
    requires t in g.store && t in g1.store && g.store[id].host < g.store[t].host
    requires g1.log == g.log + [Made(g.store[id].host, call)] && call.ContinueTask? && g1.orphans == g.orphans
    requires Frame(g, g1, id) && !Waits(g1, id) && Rejected(net, g1, t, r) && Chain(net, g1, t) == Chain(net, g, t)
    ensures Rejected(net, g, id, (r.0, Replied(Plain(""))))
  {
    ProxyNext(net, g, id);
    PassedFrame(g, g1, r.0, id, t);
    assert t in Chain(net, g1, t);
    HoleFills(net, r.0, t);
    NobodyPoints(net, r.0, id);
    ContinuesAfterOne(g, g1, r.0, Made(g.store[id].host, call));
    hide Inv, FrameBelow, Frame, OnlyContinues, NextOf, LinkOk;
  }

  // ---------- whole runs ----------

  /** What users may ask: of conversations they started, not of those delegated to others. */
  datatype Demand = Begin(host: nat) | Say(id: Id, text: string) | Decide(id: Id, approved: bool)

  const NOTHING := Grid(map[], [], 1, [], {})

  ghost function Serve(net: seq<Agent>, g: Grid, d: Demand): Grid
    requires NetOk(net) && Hosted(net, g)
  {
    match d
    case Begin(host) =>
      if host >= |net| then g
      else g.(store := g.store[g.nextId := Seat(host, NewConv(g.nextId, net[host].system), None)],
              nextId := g.nextId + 1)
    case Say(id, text) =>
      if id !in g.store || g.store[id].upstream.Some? || text == "" || g.store[id].conv.status == WaitingApproval then g
      else Converse(net, Put(g, id, Open(g, g.store[id].conv.AddMessage(RoleUser, text))), id, MAX_TOOL_ITERATIONS).0
    case Decide(id, approved) =>
      if id !in g.store || g.store[id].upstream.Some? then g else Resolve(net, g, id, approved).0
  }

  ghost function ServeAll(net: seq<Agent>, ds: seq<Demand>): (g: Grid)
    requires NetOk(net)
    ensures Hosted(net, g)
  {
    if ds == [] then NOTHING
    else
      var g := ServeAll(net, ds[..|ds| - 1]);
      var r := Serve(net, g, ds[|ds| - 1]);
      assert Hosted(net, r) by { ServeHosted(net, g, ds[|ds| - 1]); }
      r
  }

  lemma ServeHosted(net: seq<Agent>, g: Grid, d: Demand)
    requires NetOk(net) && Hosted(net, g)
    ensures Hosted(net, Serve(net, g, d))
  {
  }

  lemma HeadHole(net: seq<Agent>, g: Grid, id: Id)
    requires id in g.store && g.store[id].upstream.None?
    ensures Inv(net, g, None) <==> Inv(net, g, Some(id))
  {
    if Inv(net, g, None) {
      assert forall u: Id :: Points(g, u, id) ==> LinkOk(net, g, u, id);
    }
  }

  lemma SayStarts(net: seq<Agent>, g: Grid, id: Id, text: string)
    requires Inv(net, g, None) && id in g.store && g.store[id].conv.status != WaitingApproval
    ensures var g1 := Put(g, id, Open(g, g.store[id].conv.AddMessage(RoleUser, text)));
            Inv(net, g1, None) && !Waits(g1, id) && id in g1.store && LogQuiet(net, g, g1)
  {
    assert SeatOk(net, g, id);
    PutIdle(net, g, id, Open(g, g.store[id].conv.AddMessage(RoleUser, text)));
  }

  lemma BeginKeeps(net: seq<Agent>, g: Grid, host: nat)
    requires Inv(net, g, None) && host < |net|
    ensures Inv(net, Serve(net, g, Begin(host)), None)
  {
    var g2 := Serve(net, g, Begin(host));
    forall x | x in g2.store
      ensures SeatOk(net, g2, x)
    {
      assert x in g.store ==> SeatOk(net, g, x);
    }
    forall u: Id, x: Id | Points(g2, u, x)
      ensures LinkOk(net, g2, u, x) && x !in g2.orphans
    {
      assert Points(g, u, x);
    }
    forall x: Id | Waits(g2, x) && g2.store[x].upstream.Some? && x !in g2.orphans
      ensures Points(g2, g2.store[x].upstream.value, x)
    {
      assert Points(g, g.store[x].upstream.value, x);
    }
  }

  lemma ServeAgrees(net: seq<Agent>, g: Grid, d: Demand)
    requires Inv(net, g, None)
    ensures Inv(net, Serve(net, g, d), None)
  {
    match d
    case Begin(host) =>
      if host < |net| {
        BeginKeeps(net, g, host);
      }
    case Say(id, text) =>
      if id in g.store && g.store[id].upstream.None? && text != "" && g.store[id].conv.status != WaitingApproval {
        SayStarts(net, g, id, text);
        var g1 := Put(g, id, Open(g, g.store[id].conv.AddMessage(RoleUser, text)));
        ConverseKeeps(net, g1, id, MAX_TOOL_ITERATIONS);
        HeadHole(net, Serve(net, g, d), id);
      }
    case Decide(id, approved) =>
      if Waits(g, id) && g.store[id].upstream.None? {
        HeadHole(net, g, id);
        if approved {
          ResolveGranted(net, g, id);
        } else {
          ResolveRejects(net, g, id);
        }
        HeadHole(net, Serve(net, g, d), id);
      }
  }

  lemma {:induction false} ServeAllAgrees(net: seq<Agent>, ds: seq<Demand>)
    requires NetOk(net)
    ensures Inv(net, ServeAll(net, ds), None)
  {
    if ds != [] {
      ServeAllAgrees(net, ds[..|ds| - 1]);
      ServeAgrees(net, ServeAll(net, ds[..|ds| - 1]), ds[|ds| - 1]);
    }
  }

  /** After any demands: a delegated task waits exactly when its upstream waits on a proxy for it or
      it is the task of a granted delegation whose input-required answer was taken as a result; the
      two never coincide, and nobody else has a proxy for it. */
  lemma ProxiesAgree(net: seq<Agent>, ds: seq<Demand>, t: Id)
    requires NetOk(net) && t in ServeAll(net, ds).store && ServeAll(net, ds).store[t].upstream.Some?
    ensures var g := ServeAll(net, ds);
            && (Waits(g, t) <==> Points(g, g.store[t].upstream.value, t) || t in g.orphans)
            && !(Points(g, g.store[t].upstream.value, t) && t in g.orphans)
            && (forall u: Id :: Points(g, u, t) ==> u == g.store[t].upstream.value)
  {
    ServeAllAgrees(net, ds);
    var g := ServeAll(net, ds);
    assert forall u: Id :: Points(g, u, t) ==> LinkOk(net, g, u, t);
  }

  /** A message makes no marked call anywhere. A rejection makes none either, passes only answers
      on, and leaves nothing in its chain waiting. A grant makes the call the end of the chain
      waited for, right after the answers passed down to it, and no other marked one. */
  lemma ChainDecides(net: seq<Agent>, ds: seq<Demand>, d: Demand)
    requires NetOk(net)
    ensures var g, g2 := ServeAll(net, ds), Serve(net, ServeAll(net, ds), d);
            match d
            case Begin(_) => g2.log == g.log
            case Say(_, _) => LogQuiet(net, g, g2)
            case Decide(id, approved) =>
              Waits(g, id) && g.store[id].upstream.None? ==>
                if approved then GateAt(net, g, g2, |Chain(net, g, id)| - 1, TailCall(net, g, id))
                else OnlyContinues(g, g2) && forall x :: x in Chain(net, g, id) ==> !Waits(g2, x)
  {
    ServeAllAgrees(net, ds);
    var g := ServeAll(net, ds);
    match d
    case Begin(_) =>
    case Say(id, text) =>
      if id in g.store && g.store[id].upstream.None? && text != "" && g.store[id].conv.status != WaitingApproval {
        SayStarts(net, g, id, text);
        var g1 := Put(g, id, Open(g, g.store[id].conv.AddMessage(RoleUser, text)));
        ConverseKeeps(net, g1, id, MAX_TOOL_ITERATIONS);
        QuietTrans(net, g, g1, Serve(net, g, d));
      }
    case Decide(id, approved) =>
      if Waits(g, id) && g.store[id].upstream.None? {
        HeadHole(net, g, id);
        if approved {
          ResolveGranted(net, g, id);
        } else {
          ResolveRejects(net, g, id);
        }
      }
  }
}
