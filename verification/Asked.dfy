/** What the nodes of a tree send to models, tools and remote agents. */
module Asked {
  import opened Prelude
  import opened Conversations
  import opened World
  import opened Orchestrator
  import opened Footprint
  import opened RunInduction

  // ---------- what each call must be ----------

  /** A session state a run of the tree may have reached from values. */
  ghost predicate MayBecome(root: AgentNode, values: map<string, string>, later: map<string, string>) {
    forall k :: k !in Writes(root) ==> SameAt(k, values, later)
  }

  /** The text is the template, resolved in such a state. */
  ghost predicate Prompted(root: AgentNode, values: map<string, string>, tmpl: string, text: string) {
    exists later :: MayBecome(root, values, later) && text == ResolveTemplate(tmpl, later)
  }

  /** The event before k is this node's model call, made after from, and the model asked for this tool. */
  predicate ToolAsked(w: World, trace: seq<Event>, from: nat, k: nat, name: string, args: Args)
    requires k < |trace| && trace[k].Event?
  {
    && from < k && trace[k - 1].Event? && trace[k - 1].path == trace[k].path && trace[k - 1].call.AskModel?
    && w.llm(trace[..k - 1], trace[k - 1].call) == LlmTool(name, args)
  }

  /** Event k of a run that began at from is one its node had to make: a model is shown the node's own
      prompt, the user's message and the node's own offer; a tool or a remote agent is called with what
      the model asked for; an a2a node sends its prompt or, without one, the user's message. */
  ghost predicate Warranted(w: World, root: AgentNode, values: map<string, string>, userMessage: string,
                            trace: seq<Event>, from: nat, k: nat)
    requires k < |trace|
  {
    && trace[k].Event? && Reached(root, trace[k].path)
    && var leaf := LeafAt(root, trace[k].path);
      match trace[k].call
      case AskModel(model, system, messages, offer) =>
        && leaf.kind != A2A && model == leaf.model && messages == [LlmMessage(UserTurn, userMessage)]
        && offer == NodeOffer(leaf.a2a, leaf.canExitLoop) && Prompted(root, values, leaf.prompt, system)
      case RunTool(name, args) =>
        leaf.kind != A2A && ToolAsked(w, trace, from, k, name, args) && name != "exit_loop" && !HasPrefix(name, "a2a_")
      case SendTask(agent, text) =>
        if leaf.kind == A2A then
          agent == leaf.name && if leaf.prompt == "" then text == userMessage
          else Prompted(root, values, leaf.prompt, text)
        else
          exists args :: ToolAsked(w, trace, from, k, "a2a_" + agent, args) && IsMessageOf(args, text)
      case ContinueTask(_, _, _) => false
  }

  ghost predicate CallsDue(w: World, root: AgentNode, userMessage: string, c: Ctx, d: Ctx) {
    && c.trace <= d.trace && MayBecome(root, c.values, d.values)
    && forall k :: |c.trace| <= k < |d.trace| ==> Warranted(w, root, c.values, userMessage, d.trace, |c.trace|, k)
  }

  // ---------- one leaf ----------

  lemma {:induction false} LeafWrites(root: AgentNode, q: seq<nat>)
    requires Reached(root, q)
    ensures KeyOf(LeafAt(root, q)) <= Writes(root)
    decreases |q|
  {
    if q != [] {
      LeafWrites(root.agents[q[0]], q[1..]);
      FromContains(root, q[0]);
    }
  }

  lemma {:induction false} FromHolds(node: AgentNode, k: nat, i: nat)
    requires k <= i < |node.agents|
    ensures Writes(node.agents[i]) <= WritesFrom(node, k)
    decreases i - k
  {
    if k < i {
      FromHolds(node, k + 1, i);
    }
  }

  lemma FromContains(node: AgentNode, i: nat)
    requires i < |node.agents| && !node.IsLeaf()
    ensures Writes(node.agents[i]) <= Writes(node)
  {
    FromHolds(node, 0, i);
  }

  /** The calls of a leaf. */
  ghost predicate ActDue(w: World, leaf: AgentNode, path: seq<nat>, hist: seq<Event>, prompt: string,
                         userMessage: string, calls: seq<Call>)
  {
    if leaf.kind == A2A then
      calls == [] || calls == [SendTask(leaf.name, if leaf.prompt == "" then userMessage else prompt)]
    else
      || calls == []
      || (calls[0]
          == AskModel(leaf.model, prompt, [LlmMessage(UserTurn, userMessage)], NodeOffer(leaf.a2a, leaf.canExitLoop))
          && (|calls| == 1 || (|calls| == 2 && CallDue(w.llm(hist, calls[0]), calls[1]))))
  }

  predicate CallDue(reply: LlmReply, call: Call) {
    && reply.LlmTool?
    && match call
      case RunTool(name, args) => reply == LlmTool(name, args) && name != "exit_loop" && !HasPrefix(name, "a2a_")
      case SendTask(agent, text) =>
        reply.name == "a2a_" + agent && IsMessageOf(reply.args, text)
      case _ => false
  }

  lemma LeafCalls(w: World, leaf: AgentNode, path: seq<nat>, hist: seq<Event>, prompt: string, userMessage: string,
                  allow: bool)
    requires leaf.IsLeaf()
    ensures ActDue(w, leaf, path, hist, prompt, userMessage,
                   LeafAct(w, leaf, path, hist, prompt, userMessage, allow).calls)
  {
    hide At;
    var ask := ModelCall(leaf, prompt, userMessage);
    if leaf.kind != A2A && w.llm(hist, ask).LlmTool? {
      var name := w.llm(hist, ask).name;
      if HasPrefix(name, A2A_PREFIX) {
        assert name == A2A_PREFIX + TrimPrefix(name, A2A_PREFIX);
      }
    }
  }

  lemma LeafDue(w: World, root: AgentNode, q: seq<nat>, c: Ctx, userMessage: string, allow: bool)
    requires Reached(root, q)
    ensures CallsDue(w, root, userMessage, c, ExecLeaf(w, LeafAt(root, q), c, userMessage, q, allow).0)
  {
    var leaf := LeafAt(root, q);
    var prompt := ResolveTemplate(leaf.prompt, c.values);
    var act := LeafAct(w, leaf, q, c.trace, prompt, userMessage, allow);
    var d := ExecLeaf(w, leaf, c, userMessage, q, allow).0;
    ReachedIsOpenOrBelow(root, q);
    LeafCalls(w, leaf, q, c.trace, prompt, userMessage, allow);
    LeafWrites(root, q);
    assert d.trace == c.trace + At(q, act.calls);
    EventsDue(w, root, q, c, userMessage, prompt, act.calls, d.trace);
  }

  lemma EventsDue(w: World, root: AgentNode, q: seq<nat>, c: Ctx, userMessage: string, prompt: string,
                  calls: seq<Call>, trace: seq<Event>)
    requires Reached(root, q) && prompt == ResolveTemplate(LeafAt(root, q).prompt, c.values)
    requires ActDue(w, LeafAt(root, q), q, c.trace, prompt, userMessage, calls) && trace == c.trace + At(q, calls)
    ensures forall k :: |c.trace| <= k < |trace| ==> Warranted(w, root, c.values, userMessage, trace, |c.trace|, k)
  {
    hide ResolveTemplate, Writes;
    assert MayBecome(root, c.values, c.values);
    forall k | |c.trace| <= k < |trace|
      ensures Warranted(w, root, c.values, userMessage, trace, |c.trace|, k)
    {
      assert trace[k] == Event(q, calls[k - |c.trace|]);
      if k > |c.trace| {
        assert trace[..k - 1] == c.trace;
        assert trace[k - 1] == Event(q, calls[0]);
        if calls[1].SendTask? {
          assert ToolAsked(w, trace, |c.trace|, k, "a2a_" + calls[1].agent, w.llm(c.trace, calls[0]).args);
        }
      }
    }
  }

  // ---------- whole runs ----------

  lemma DueLater(w: World, root: AgentNode, values: map<string, string>, userMessage: string, trace: seq<Event>,
                 more: seq<Event>, from: nat, k: nat)
    requires k < |trace| && trace <= more && Warranted(w, root, values, userMessage, trace, from, k)
    ensures Warranted(w, root, values, userMessage, more, from, k)
  {
    hide ResolveTemplate, Writes, MayBecome, Prompted, Reached, LeafAt;
    assert more[k] == trace[k];
    if k > 0 {
      assert more[k - 1] == trace[k - 1] && more[..k - 1] == trace[..k - 1];
    }
    if more[k].call.SendTask? && LeafAt(root, more[k].path).kind != A2A {
      var call := more[k].call;
      var args :| ToolAsked(w, trace, from, k, "a2a_" + call.agent, args) && IsMessageOf(args, call.text);
      assert ToolAsked(w, more, from, k, "a2a_" + call.agent, args);
    }
  }

  /** Seen from an earlier start of the same run. */
  lemma DueEarlier(w: World, root: AgentNode, values: map<string, string>, later: map<string, string>,
                   userMessage: string, trace: seq<Event>, from: nat, mid: nat, k: nat)
    requires k < |trace| && from <= mid && MayBecome(root, values, later)
    requires Warranted(w, root, later, userMessage, trace, mid, k)
    ensures Warranted(w, root, values, userMessage, trace, from, k)
  {
    hide ResolveTemplate, Writes, Reached, LeafAt;
    forall tmpl, text | Prompted(root, later, tmpl, text)
      ensures Prompted(root, values, tmpl, text)
    {
      var v :| MayBecome(root, later, v) && text == ResolveTemplate(tmpl, v);
      assert MayBecome(root, values, v);
    }
    hide Prompted;
    if trace[k].call.SendTask? && LeafAt(root, trace[k].path).kind != A2A {
      var call := trace[k].call;
      var args :| ToolAsked(w, trace, mid, k, "a2a_" + call.agent, args) && IsMessageOf(args, call.text);
      assert ToolAsked(w, trace, from, k, "a2a_" + call.agent, args);
    }
  }

  lemma CallsDueThen(w: World, root: AgentNode, userMessage: string, a: Ctx, b: Ctx, c: Ctx)
    requires CallsDue(w, root, userMessage, a, b) && CallsDue(w, root, userMessage, b, c)
    ensures CallsDue(w, root, userMessage, a, c)
  {
    hide Warranted, Writes;
    forall k | |a.trace| <= k < |c.trace|
      ensures Warranted(w, root, a.values, userMessage, c.trace, |a.trace|, k)
    {
      if k < |b.trace| {
        DueLater(w, root, a.values, userMessage, b.trace, c.trace, |a.trace|, k);
      } else {
        DueEarlier(w, root, a.values, b.values, userMessage, c.trace, |a.trace|, |b.trace|, k);
      }
    }
  }

  lemma ResumeDue(w: World, root: AgentNode, userMessage: string, leaf: AgentNode, c: Ctx, r: Resume)
    requires r.outputKey == "" || r.outputKey in Writes(root)
    ensures CallsDue(w, root, userMessage, c, ResumeLeaf(w, leaf, c, r).0)
  {
    hide Warranted;
  }

  /** Any run of any tree, fresh or resumed, allowed or not: every call it makes is due. */
  lemma RunsCallWhatIsDue(w: World, root: AgentNode, c: Ctx, userMessage: string, resume: Option<Resume>, allow: bool)
    requires resume.Some? ==> resume.value.outputKey == "" || resume.value.outputKey in Writes(root)
    ensures CallsDue(w, root, userMessage, c, ExecNode(w, root, c, userMessage, resume, [], allow).0)
  {
    var keeps := (c: Ctx, d: Ctx) => CallsDue(w, root, userMessage, c, d);
    hide Warranted, CallsDue, Writes, ExecNode, ExecLeaf, ResumeLeaf;
    forall c, d, e | keeps(c, d) && keeps(d, e)
      ensures keeps(c, e)
    {
      CallsDueThen(w, root, userMessage, c, d, e);
    }
    forall c
      ensures keeps(c, c)
    {
      SameDue(w, root, userMessage, c);
    }
    forall q | Reached(root, q)
      ensures LeafHolds(w, LeafAt(root, q), [] + q, userMessage, ResumeKeys(resume), keeps)
    {
      assert [] + q == q;
      forall c, allow
        ensures keeps(c, ExecLeaf(w, LeafAt(root, q), c, userMessage, q, allow).0)
      {
        LeafDue(w, root, q, c, userMessage, allow);
      }
      forall c, r: Resume | r.outputKey in ResumeKeys(resume)
        ensures keeps(c, ResumeLeaf(w, LeafAt(root, q), c, r).0)
      {
        ResumeDue(w, root, userMessage, LeafAt(root, q), c, r);
      }
    }
    NodeInduct(w, root, c, userMessage, resume, [], allow, ResumeKeys(resume), keeps);
  }

  lemma SameDue(w: World, root: AgentNode, userMessage: string, c: Ctx)
    ensures CallsDue(w, root, userMessage, c, c)
  {
  }

  /** A prompt that refers to no key that is set or that the tree can set is sent as it is written. */
  lemma PlainPromptIsSent(root: AgentNode, values: map<string, string>, tmpl: string, text: string)
    requires Prompted(root, values, tmpl, text)
    requires forall k :: k in Refs(tmpl) ==> k !in Writes(root) && Lookup(values, k) == ""
    ensures text == tmpl
  {
    var later :| MayBecome(root, values, later) && text == ResolveTemplate(tmpl, later);
    UnsetReferencesStay(tmpl, later);
  }
}
