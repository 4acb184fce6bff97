/** How much work granted pauses below parallel and loop nodes may repeat. */
module BlockWork {
  import opened Prelude
  import opened Conversations
  import opened World
  import opened Orchestrator
  import opened RunFacts
  import opened PauseResume
  import opened RunInduction
  import opened Budget
  import opened Api
  import opened ApprovalRuns

  // ---------- one resumed run ----------

  lemma MoreBudget(node: AgentNode, path: seq<nat>, userMessage: string, c: Ctx, r: (Ctx, Outcome), quota: nat,
                   more: nat)
    requires Budgeted(node, path, userMessage, c, r, quota) && quota <= more
    ensures Budgeted(node, path, userMessage, c, r, more)
  {
    if r.1.Waits() {
      var q :| PausedIn(node, path, userMessage, c, r.0, q, quota);
      assert PausedIn(node, path, userMessage, c, r.0, q, more);
    }
  }

  lemma {:induction false} WorkAfter(node: AgentNode, k: nat, i: nat)
    requires k <= i < |node.agents|
    ensures Work(node.agents[i]) + WorkFrom(node, i + 1) <= WorkFrom(node, k)
    decreases i - k
  {
    if k < i {
      WorkAfter(node, k + 1, i);
    }
  }

  /** A run resumed at a leaf below a parallel or loop node starts that node over, and stays within the
      work of a whole run. */
  lemma {:induction false} ReachedBudget(w: World, node: AgentNode, c: Ctx, userMessage: string, r: Resume,
                                         path: seq<nat>, allow: bool)
    requires TasksHaveIds(w) && Reached(node, r.path) && !Spine(node, r.path)
    ensures Budgeted(node, path, userMessage, c, ExecNode(w, node, c, userMessage, Some(r), path, allow), Work(node))
    decreases |r.path|
  {
    if node.kind == Sequential {
      var k := r.path[0];
      var r1 := r.(path := r.path[1..]);
      ReachedBudget(w, node.agents[k], c, userMessage, r1, path + [k], allow);
      SeqReachedBudget(w, node, c, userMessage, r, r1, path, allow, k);
    } else {
      NodeBudget(w, node, c, userMessage, None, path, allow);
    }
  }

  lemma {:induction false} SeqReachedBudget(w: World, node: AgentNode, c: Ctx, userMessage: string, r: Resume,
                                            r1: Resume, path: seq<nat>, allow: bool, k: nat)
    requires TasksHaveIds(w) && node.kind == Sequential && r.path != [] && r.path[0] == k < |node.agents|
    requires r1 == r.(path := r.path[1..])
    requires Budgeted(node.agents[k], path + [k], userMessage, c,
                      ExecNode(w, node.agents[k], c, userMessage, Some(r1), path + [k], allow), Work(node.agents[k]))
    ensures Budgeted(node, path, userMessage, c, ExecNode(w, node, c, userMessage, Some(r), path, allow), Work(node))
  {
    var (c1, o) := ExecNode(w, node.agents[k], c, userMessage, Some(r1), path + [k], allow);
    var run := ExecNode(w, node, c, userMessage, Some(r), path, allow);
    assert run == ExecSequential(w, node, c, userMessage, Some(r), path, allow);
    hide Budgeted, Work, WorkFrom, TasksHaveIds;
    var first, rest := Work(node.agents[k]), WorkFrom(node, k + 1);
    WorkAfter(node, 0, k);
    if o.Stops() {
      BudgetLift(node, path, userMessage, k, c, (c1, o), first);
      assert run == (c1, o);
    } else {
      var last := SeqFrom(w, node, c1, userMessage, path, allow, k + 1, None);
      SeqBudget(w, node, c1, userMessage, path, allow, k + 1, None);
      BudgetThen(node, path, userMessage, c, c1, last, first, rest);
      assert run == last;
    }
    MoreBudget(node, path, userMessage, c, run, first + rest, Work(node));
  }

  // ---------- one grant ----------

  /** After b grants below blocks: base is where the run after the last of them began, and what has
      been spent since is within the work of one run. */
  ghost predicate Repeating(root: AgentNode, text: string, c0: Ctx, base: Ctx, d: Driven, q: seq<nat>, b: nat) {
    Within(c0, base, b * Work(root), b * Work(root) + b) && Spending(root, text, base, d, q)
  }

  ghost predicate Repeated(root: AgentNode, c0: Ctx, base: Ctx, d: Driven, b: nat) {
    Within(c0, base, b * Work(root), b * Work(root) + b) && Spent(root, base, d)
  }

  predicate BelowBlock(root: AgentNode, d: Driven) {
    d.Waits() && UnderBlock(root, d.c.conv.pipeline.value.path)
  }

  lemma NextBase(c0: Ctx, base: Ctx, c: Ctx, start: Ctx, unit: nat, b: nat)
    requires Within(c0, base, b * unit, b * unit + b) && Within(base, c, unit, unit) && Within(c, start, 0, 1)
    ensures Within(c0, start, (b + 1) * unit, (b + 1) * unit + b + 1)
  {
    assert (b + 1) * unit == b * unit + unit;
  }

  /** A grant of a pause below a block. */
  lemma BlockGrant(w: World, cfg: Config, text: string, base: Ctx, d: Driven, q: seq<nat>)
    returns (start: Ctx, q2: seq<nat>)
    requires TasksHaveIds(w) && cfg.root.Some?
    requires Spending(cfg.root.value, text, base, d, q) && BelowBlock(cfg.root.value, d)
    ensures Within(d.c, start, 0, 1)
    ensures var d2 := Grant(w, cfg, d);
            Spent(cfg.root.value, start, d2) || Spending(cfg.root.value, text, start, d2, q2)
  {
    var root := cfg.root.value;
    var pl := d.c.conv.pipeline.value;
    OpenPauseIsFaithful(root, text, base, d.c, q, Work(root));
    var resumed, c3, result, viaProxy := GrantOpens(w, cfg, d.c);
    start, q2 := c3, [];
    if resumed {
      var loaded := c3.(values := pl.session);
      start := if viaProxy then loaded.Set(pl.outputKey, result) else loaded;
      var r := Resume(q, result, pl.outputKey);
      var run := ExecNode(w, root, start, text, Some(r), [], false);
      ReachedBudget(w, root, start, text, r, [], false);
      if run.1.Waits() {
        q2 :| PausedIn(root, [], text, start, run.0, q2, Work(root));
      }
    }
  }

  // ---------- whole runs ----------

  /** How many of the next n grants answer pauses below a parallel or loop node. */
  function BlockGrants(w: World, cfg: Config, d: Driven, n: nat): nat
    requires cfg.root.Some?
    decreases n
  {
    if n == 0 || !d.Waits() then 0
    else (if BelowBlock(cfg.root.value, d) then 1 else 0) + BlockGrants(w, cfg, Grant(w, cfg, d), n - 1)
  }

  /** One grant of either kind. */
  lemma GrantRepeats(w: World, cfg: Config, text: string, c0: Ctx, base: Ctx, d: Driven, q: seq<nat>, b: nat)
    returns (base2: Ctx, q2: seq<nat>)
    requires TasksHaveIds(w) && cfg.root.Some? && Repeating(cfg.root.value, text, c0, base, d, q, b)
    ensures var b2, d2 := b + (if BelowBlock(cfg.root.value, d) then 1 else 0), Grant(w, cfg, d);
            || Repeated(cfg.root.value, c0, base2, d2, b2)
            || Repeating(cfg.root.value, text, c0, base2, d2, q2, b2)
  {
    hide Within, Grant, PausedIn, UnderBlock;
    if BelowBlock(cfg.root.value, d) {
      base2, q2 := BlockGrant(w, cfg, text, base, d, q);
      NextBase(c0, base, d.c, base2, Work(cfg.root.value), b);
    } else {
      base2 := base;
      q2 := GrantSpends(w, cfg, text, base, d, q);
    }
  }

  lemma {:induction false} GrantAllRepeats(w: World, cfg: Config, text: string, c0: Ctx, base: Ctx, d: Driven,
                                           q: seq<nat>, b: nat, n: nat)
    returns (base2: Ctx, q2: seq<nat>)
    requires TasksHaveIds(w) && cfg.root.Some? && Repeating(cfg.root.value, text, c0, base, d, q, b)
    ensures var b2, end := b + BlockGrants(w, cfg, d, n), GrantAll(w, cfg, d, n);
            || Repeated(cfg.root.value, c0, base2, end, b2)
            || Repeating(cfg.root.value, text, c0, base2, end, q2, b2)
    decreases n
  {
    hide Within, Grant, PausedIn, BelowBlock;
    base2, q2 := base, q;
    if n > 0 {
      var b1, d1 := b + (if BelowBlock(cfg.root.value, d) then 1 else 0), Grant(w, cfg, d);
      base2, q2 := GrantRepeats(w, cfg, text, c0, base, d, q, b);
      if d1.Waits() {
        base2, q2 := GrantAllRepeats(w, cfg, text, c0, base2, d1, q2, b1, n - 1);
      }
    }
  }

  lemma Total(c0: Ctx, base: Ctx, c: Ctx, unit: nat, b: nat)
    requires Within(c0, base, b * unit, b * unit + b) && Within(base, c, unit, unit)
    ensures Within(c0, c, (1 + b) * unit, (1 + b) * unit + b)
  {
    assert (1 + b) * unit == unit + b * unit;
  }

  /** Whatever is granted and wherever it paused: each grant of a pause below a parallel or loop node
      may repeat at most one run's work, besides its own call, and no grant runs off its path. */
  lemma WorkRepeatedByBlocks(w: World, cfg: Config, c: Ctx, text: string, n: nat)
    requires TasksHaveIds(w) && !cfg.IsSimple() && c.conv.status != WaitingApproval
    ensures var root, d := cfg.root.value, Send(w, cfg, c, text);
            var b, end := BlockGrants(w, cfg, d, n), GrantAll(w, cfg, d, n);
            Within(c, end.c, (1 + b) * Work(root), (1 + b) * Work(root) + b) && !end.reply.Crashed?
  {
    hide Send, Within, PausedIn, Grant, BelowBlock, Work;
    var root, d := cfg.root.value, Send(w, cfg, c, text);
    var q := SendSpends(w, cfg, c, text);
    SameWithin(c, c);
    var base := c;
    if d.Waits() {
      assert 0 * Work(root) == 0;
      base, q := GrantAllRepeats(w, cfg, text, c, c, d, q, 0, n);
    } else {
      assert GrantAll(w, cfg, d, n) == d && BlockGrants(w, cfg, d, n) == 0;
    }
    Total(c, base, GrantAll(w, cfg, d, n).c, Work(root), BlockGrants(w, cfg, d, n));
  }

  lemma SameWithin(c: Ctx, d: Ctx)
    requires c.trace == d.trace
    ensures Within(c, d, 0, 0)
  {
  }
}
