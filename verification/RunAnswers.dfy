/** What a run leaves in the session and answers with: texts the outside gave. */
module RunAnswers {
  import opened Prelude
  import opened Conversations
  import opened World
  import opened Orchestrator
  import opened Footprint
  import opened RunInduction

  // ---------- the session ----------

  /** The text the outside gave in answer to event k, if it is one to go on with. */
  function TextOf(w: World, trace: seq<Event>, k: nat): Option<string>
    requires k < |trace|
  {
    match trace[k].call
    case AskModel(_, _, _, _) =>
      var reply := w.llm(trace[..k], trace[k].call);
      if reply.LlmText? then Some(reply.text) else None
    case RunTool(name, args) =>
      var reply := w.runTool(trace[..k], name, args);
      if reply.ToolOk? then Some(reply.text) else None
    case SendTask(agent, text) =>
      var reply := w.send(trace[..k], agent, text);
      if reply.RemoteTask? && !reply.task.state.InputRequired? && !reply.task.state.AuthRequired? then
        Some(reply.task.text)
      else None
    case ContinueTask(_, _, _) => None
  }

  /** The key under which the node that made the event stores its output, if it stores any. */
  function KeyAt(root: AgentNode, e: Event): string {
    if e.Event? && Reached(root, e.path) then LeafAt(root, e.path).outputKey else ""
  }

  /** The session after the events from position from on: each answer under its node's key. */
  function SessionAfter(w: World, root: AgentNode, values: map<string, string>, trace: seq<Event>, from: nat)
    : map<string, string>
  {
    if |trace| <= from then values
    else
      var front := SessionAfter(w, root, values, trace[..|trace| - 1], from);
      var key, text := KeyAt(root, trace[|trace| - 1]), TextOf(w, trace, |trace| - 1);
      if key != "" && text.Some? then front[key := text.value] else front
  }

  ghost predicate SameBut(keys: set<string>, a: map<string, string>, b: map<string, string>) {
    forall k :: k !in keys ==> SameAt(k, a, b)
  }

  ghost predicate Stores(w: World, root: AgentNode, keys: set<string>, c: Ctx, d: Ctx) {
    c.trace <= d.trace && SameBut(keys, d.values, SessionAfter(w, root, c.values, d.trace, |c.trace|))
  }

  lemma {:induction false} SessionSplits(w: World, root: AgentNode, values: map<string, string>, trace: seq<Event>,
                                         from: nat, mid: nat)
    requires from <= mid <= |trace|
    ensures SessionAfter(w, root, values, trace, from)
            == SessionAfter(w, root, SessionAfter(w, root, values, trace[..mid], from), trace, mid)
    decreases |trace|
  {
    if mid < |trace| {
      assert trace[..|trace| - 1][..mid] == trace[..mid];
      SessionSplits(w, root, values, trace[..|trace| - 1], from, mid);
    } else {
      assert trace[..mid] == trace;
    }
  }

  lemma {:induction false} SessionSame(w: World, root: AgentNode, keys: set<string>, a: map<string, string>,
                                       b: map<string, string>, trace: seq<Event>, from: nat)
    requires SameBut(keys, a, b)
    ensures SameBut(keys, SessionAfter(w, root, a, trace, from), SessionAfter(w, root, b, trace, from))
    decreases |trace|
  {
    if |trace| > from {
      SessionSame(w, root, keys, a, b, trace[..|trace| - 1], from);
    }
  }

  lemma StoresThen(w: World, root: AgentNode, keys: set<string>, a: Ctx, b: Ctx, c: Ctx)
    requires Stores(w, root, keys, a, b) && Stores(w, root, keys, b, c)
    ensures Stores(w, root, keys, a, c)
  {
    assert c.trace[..|b.trace|] == b.trace;
    SessionSplits(w, root, a.values, c.trace, |a.trace|, |b.trace|);
    SessionSame(w, root, keys, b.values, SessionAfter(w, root, a.values, b.trace, |a.trace|), c.trace, |b.trace|);
    hide SessionAfter;
  }

  /** What a leaf's calls gave: only its last call can have given a text, which is its output. */
  ghost predicate OutputDue(w: World, hist: seq<Event>, path: seq<nat>, act: Act) {
    var trace := hist + At(path, act.calls);
    && |act.calls| <= 2
    && (act.calls == [] ==> act.out.None?)
    && (act.calls != [] ==> act.out == TextOf(w, trace, |trace| - 1))
    && (|act.calls| == 2 ==> TextOf(w, trace, |hist|).None?)
    && (act.out.Some? ==> act.end.Reply?)
  }

  lemma DelegateOutput(w: World, node: AgentNode, hist: seq<Event>, path: seq<nat>, agent: string, name: string,
                       args: Args, text: string)
    ensures OutputDue(w, hist, path, Delegate(w, node, hist, [], agent, name, args, text, true))
  {
    OneCall(hist, path, SendTask(agent, text));
    assert [] + [SendTask(agent, text)] == [SendTask(agent, text)];
  }

  lemma AskedDelegateOutput(w: World, node: AgentNode, hist: seq<Event>, path: seq<nat>, ask: Call, agent: string,
                            name: string, args: Args, text: string)
    requires ask.AskModel? && !w.llm(hist, ask).LlmText?
    ensures OutputDue(w, hist, path,
                      Delegate(w, node, hist + [Event(path, ask)], [ask], agent, name, args, text, false))
  {
    TwoCalls(hist, path, ask, SendTask(agent, text));
    assert [ask] + [SendTask(agent, text)] == [ask, SendTask(agent, text)];
  }

  lemma UseToolOutput(w: World, node: AgentNode, hist: seq<Event>, path: seq<nat>, ask: Call, name: string, args: Args,
                      allow: bool)
    requires ask.AskModel? && !w.llm(hist, ask).LlmText?
    ensures OutputDue(w, hist, path, LlmUseTool(w, node, path, hist + [Event(path, ask)], ask, name, args, allow))
  {
    OneCall(hist, path, ask);
    TwoCalls(hist, path, ask, RunTool(name, args));
  }

  lemma NoOutput(w: World, hist: seq<Event>, path: seq<nat>, act: Act)
    requires act.calls == [] && act.out.None?
    ensures OutputDue(w, hist, path, act)
  {
  }

  lemma AskOutput(w: World, hist: seq<Event>, path: seq<nat>, ask: Call, act: Act)
    requires ask.AskModel? && act.calls == [ask] && (act.out.Some? ==> act.end.Reply?)
    requires var reply := w.llm(hist, ask); act.out == if reply.LlmText? then Some(reply.text) else None
    ensures OutputDue(w, hist, path, act)
  {
    OneCall(hist, path, ask);
  }

  lemma ActOutput(w: World, node: AgentNode, path: seq<nat>, hist: seq<Event>, prompt: string, userMessage: string,
                  allow: bool)
    requires node.IsLeaf()
    ensures OutputDue(w, hist, path, LeafAct(w, node, path, hist, prompt, userMessage, allow))
  {
    hide Delegate, LlmUseTool, OutputDue;
    var act := LeafAct(w, node, path, hist, prompt, userMessage, allow);
    if node.kind == A2A {
      if act.calls == [] && act.out.None? {
        NoOutput(w, hist, path, act);
      }
      var text := if node.prompt != "" then prompt else userMessage;
      DelegateOutput(w, node, hist, path, node.name, A2A_PREFIX + node.name, map["message" := Str(text)], text);
    } else if !w.modelReady(node.model) {
      NoOutput(w, hist, path, act);
    } else {
      var ask := ModelCall(node, prompt, userMessage);
      var reply := w.llm(hist, ask);
      if !reply.LlmTool? || reply.name == EXIT_LOOP {
        AskOutput(w, hist, path, ask, act);
      } else if HasPrefix(reply.name, A2A_PREFIX) {
        var agent := TrimPrefix(reply.name, A2A_PREFIX);
        if agent !in w.clients || (w.clients[agent] && !allow) {
          AskOutput(w, hist, path, ask, act);
        } else {
          AskedDelegateOutput(w, node, hist, path, ask, agent, reply.name, reply.args, MessageArg(reply.args));
        }
      } else {
        UseToolOutput(w, node, hist, path, ask, reply.name, reply.args, allow);
      }
    }
  }

  lemma SessionSnoc(w: World, root: AgentNode, values: map<string, string>, trace: seq<Event>, e: Event, from: nat)
    requires from <= |trace|
    ensures SessionAfter(w, root, values, trace + [e], from)
            == var front, text := SessionAfter(w, root, values, trace, from), TextOf(w, trace + [e], |trace|);
               if KeyAt(root, e) != "" && text.Some? then front[KeyAt(root, e) := text.value] else front
  {
    assert (trace + [e])[..|trace|] == trace;
  }

  lemma TextLater(w: World, trace: seq<Event>, e: Event, k: nat)
    requires k < |trace|
    ensures TextOf(w, trace + [e], k) == TextOf(w, trace, k)
  {
    assert (trace + [e])[..k] == trace[..k];
  }

  /** A leaf's calls leave its output in the session. */
  lemma CallsStore(w: World, root: AgentNode, q: seq<nat>, values: map<string, string>, hist: seq<Event>, act: Act)
    requires Reached(root, q) && OutputDue(w, hist, q, act)
    ensures var key := LeafAt(root, q).outputKey;
            SessionAfter(w, root, values, hist + At(q, act.calls), |hist|)
            == if key != "" && act.out.Some? then values[key := act.out.value] else values
  {
    hide TextOf;
    if |act.calls| == 0 {
      assert hist + At(q, act.calls) == hist;
    } else if |act.calls| == 1 {
      OneCall(hist, q, act.calls[0]);
      assert act.calls == [act.calls[0]];
      SessionSnoc(w, root, values, hist, Event(q, act.calls[0]), |hist|);
    } else {
      var e, e2 := Event(q, act.calls[0]), Event(q, act.calls[1]);
      TwoCalls(hist, q, act.calls[0], act.calls[1]);
      assert act.calls == [act.calls[0], act.calls[1]];
      SessionSnoc(w, root, values, hist, e, |hist|);
      SessionSnoc(w, root, values, hist + [e], e2, |hist|);
      TextLater(w, hist + [e], e2, |hist|);
    }
  }

  lemma PerformStores(w: World, root: AgentNode, q: seq<nat>, c: Ctx, userMessage: string, act: Act)
    requires Reached(root, q) && OutputDue(w, c.trace, q, act)
    ensures Stores(w, root, {}, c, Perform(w, LeafAt(root, q), c, q, userMessage, act).0)
  {
    CallsStore(w, root, q, c.values, c.trace, act);
    hide SessionAfter, TextOf, At;
  }

  lemma LeafStores(w: World, root: AgentNode, q: seq<nat>, c: Ctx, userMessage: string, allow: bool)
    requires Reached(root, q)
    ensures Stores(w, root, {}, c, ExecLeaf(w, LeafAt(root, q), c, userMessage, q, allow).0)
  {
    var leaf := LeafAt(root, q);
    ReachedIsOpenOrBelow(root, q);
    var prompt := ResolveTemplate(leaf.prompt, c.values);
    hide Perform, LeafAct, OutputDue, Stores, ResolveTemplate;
    ActOutput(w, leaf, q, c.trace, prompt, userMessage, allow);
    PerformStores(w, root, q, c, userMessage, LeafAct(w, leaf, q, c.trace, prompt, userMessage, allow));
  }

  lemma StoresMore(w: World, root: AgentNode, keys: set<string>, c: Ctx, d: Ctx)
    requires Stores(w, root, {}, c, d)
    ensures Stores(w, root, keys, c, d)
  {
    hide SessionAfter;
  }

  lemma ResumeStores(w: World, root: AgentNode, leaf: AgentNode, c: Ctx, r: Resume)
    ensures Stores(w, root, {r.outputKey}, c, ResumeLeaf(w, leaf, c, r).0)
  {
  }

  /** Any run of any tree: under each key the session holds the last text the outside gave a node that
      stores its output there, and otherwise what it held before. A resumed run also stores the result
      it resumes with. */
  lemma RunsStoreAnswers(w: World, root: AgentNode, c: Ctx, userMessage: string, resume: Option<Resume>, allow: bool)
    ensures Stores(w, root, ResumeKeys(resume), c, ExecNode(w, root, c, userMessage, resume, [], allow).0)
  {
    var keys := ResumeKeys(resume);
    var keeps := (c: Ctx, d: Ctx) => Stores(w, root, keys, c, d);
    hide Stores, ExecNode, ExecLeaf, ResumeLeaf;
    forall c, d, e | keeps(c, d) && keeps(d, e)
      ensures keeps(c, e)
    {
      StoresThen(w, root, keys, c, d, e);
    }
    forall c
      ensures keeps(c, c)
    {
      StoresSame(w, root, keys, c);
    }
    forall q | Reached(root, q)
      ensures LeafHolds(w, LeafAt(root, q), [] + q, userMessage, keys, keeps)
    {
      assert [] + q == q;
      forall c, allow
        ensures keeps(c, ExecLeaf(w, LeafAt(root, q), c, userMessage, q, allow).0)
      {
        LeafStores(w, root, q, c, userMessage, allow);
        StoresMore(w, root, keys, c, ExecLeaf(w, LeafAt(root, q), c, userMessage, q, allow).0);
      }
      forall c, r: Resume | r.outputKey in keys
        ensures keeps(c, ResumeLeaf(w, LeafAt(root, q), c, r).0)
      {
        ResumeStores(w, root, LeafAt(root, q), c, r);
      }
    }
    NodeInduct(w, root, c, userMessage, resume, [], allow, keys, keeps);
  }

  lemma StoresSame(w: World, root: AgentNode, keys: set<string>, c: Ctx)
    ensures Stores(w, root, keys, c, c)
  {
  }
}
