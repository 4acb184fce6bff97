/** One agent serving requests over its stored conversations, for ever. */
module Lifecycle {
  import opened Prelude
  import opened Conversations
  import opened World
  import opened Orchestrator
  import opened RunFacts
  import opened Api
  import opened ApiFacts

  datatype Request =
    | Start
    | UserMessage(id: Id, text: string)
    | ApprovalAnswer(uuid: Id, approved: bool)

  /** A served request: the conversation it found, whether it was answered, the calls it made. */
  datatype Entry = Entry(request: Request, found: Option<Conv>, ok: bool, calls: seq<Event>)

  datatype Sys = Sys(store: map<Id, Conv>, trace: seq<Event>, nextId: Id, log: seq<Entry>)

  const EMPTY := Sys(map[], [], 1, [])

  /** The conversation whose pending approval has this UUID. */
  ghost function FindByUuid(store: map<Id, Conv>, uuid: Id): (r: Option<Id>)
    ensures r.Some? <==> exists id :: id in store && Holds(store[id], uuid)
    ensures r.Some? ==> r.value in store && Holds(store[r.value], uuid)
  {
    if exists id :: id in store && Holds(store[id], uuid) then
      var id :| id in store && Holds(store[id], uuid);
      Some(id)
    else None
  }

  predicate Holds(c: Conv, uuid: Id) {
    c.pending.Some? && c.pending.value.uuid == uuid
  }

  function Open(s: Sys, c: Conv): Ctx {
    Ctx(map[], c, c, s.trace, s.nextId)
  }

  /** Keeps what the handler saved and logs the request. */
  function Close(s: Sys, request: Request, c: Conv, r: (Ctx, Reply)): Sys {
    Sys(s.store[c.id := r.0.saved], r.0.trace, r.0.nextId,
        s.log + [Entry(request, Some(c), r.1.Replied?, if s.trace <= r.0.trace then r.0.trace[|s.trace|..] else [])])
  }

  function Refused(s: Sys, request: Request): Sys {
    s.(log := s.log + [Entry(request, None, false, [])])
  }

  ghost function Step(w: World, cfg: Config, s: Sys, request: Request): Sys {
    match request
    case Start =>
      s.(store := s.store[s.nextId := NewConv(s.nextId, cfg.system)], nextId := s.nextId + 1,
         log := s.log + [Entry(request, None, true, [])])
    case UserMessage(id, text) =>
      if id !in s.store || text == "" then Refused(s, request)
      else Close(s, request, s.store[id], ProcessMessage(w, cfg, Open(s, s.store[id]), text))
    case ApprovalAnswer(uuid, approved) =>
      var found := FindByUuid(s.store, uuid);
      if found.None? then Refused(s, request)
      else Close(s, request, s.store[found.value], ResolveApproval(w, cfg, Open(s, s.store[found.value]), approved))
  }

  ghost function Serve(w: World, cfg: Config, requests: seq<Request>): Sys {
    if requests == [] then EMPTY
    else Step(w, cfg, Serve(w, cfg, requests[..|requests| - 1]), requests[|requests| - 1])
  }

  // ---------- the invariant ----------

  ghost predicate StoreValid(s: Sys) {
    && (forall id :: id in s.store ==> s.store[id].id == id && id < s.nextId && s.store[id].StatusAgrees())
    && (forall id :: id in s.store && s.store[id].pending.Some? ==> s.store[id].pending.value.uuid < s.nextId)
    && (forall i, j, u: Id :: i in s.store && j in s.store && Holds(s.store[i], u) && Holds(s.store[j], u) ==> i == j)
  }

  /** The entry settled the approval u: its answer was accepted. */
  predicate Settles(e: Entry, u: Id) {
    e.request.ApprovalAnswer? && e.request.uuid == u && e.ok
  }

  /** Every call was gated, or is the call stored in the approval this entry grants. */
  predicate CallsGated(w: World, cfg: Config, e: Entry) {
    forall k :: 0 <= k < |e.calls| ==>
      || Gated(w, cfg, e.calls[k])
      || (k == 0 && e.request.ApprovalAnswer? && e.request.approved
          && e.found.Some? && Holds(e.found.value, e.request.uuid) && Releases(e.found.value.pending.value, e.calls[k]))
  }

  predicate RejectsQuietly(e: Entry) {
    e.request.ApprovalAnswer? && !e.request.approved ==>
      forall k :: 0 <= k < |e.calls| ==> e.calls[k].call.ContinueTask?
  }

  /** Once settled, an approval is gone: never pending again, never answered again. */
  ghost predicate SettledForGood(s: Sys) {
    && (forall k, u: Id :: 0 <= k < |s.log| && Settles(s.log[k], u) ==>
          u < s.nextId && forall id :: id in s.store ==> !Holds(s.store[id], u))
    && (forall j, k, u: Id :: 0 <= j < k < |s.log| && Settles(s.log[j], u) ==>
          s.log[k].request.ApprovalAnswer? && s.log[k].request.uuid == u ==> !s.log[k].ok && s.log[k].calls == [])
  }

  ghost predicate Invariant(w: World, cfg: Config, s: Sys) {
    && StoreValid(s) && SettledForGood(s) && s.nextId > 0
    && forall k :: 0 <= k < |s.log| ==> CallsGated(w, cfg, s.log[k]) && RejectsQuietly(s.log[k])
  }

  /** What any handler does to the stored copy of its conversation. */
  ghost predicate Handled(s: Sys, c: Conv, request: Request, r: (Ctx, Reply)) {
    && s.trace <= r.0.trace && s.nextId <= r.0.nextId
    && r.0.saved.id == c.id && r.0.saved.StatusAgrees()
    && (r.0.saved.pending == c.pending || r.0.saved.pending.None?
        || s.nextId <= r.0.saved.pending.value.uuid < r.0.nextId)
    && (request.ApprovalAnswer? && r.1.Replied? ==> !Holds(r.0.saved, request.uuid))
  }

  lemma CloseKeepsStore(s: Sys, request: Request, c: Conv, r: (Ctx, Reply))
    requires StoreValid(s) && c.id in s.store && s.store[c.id] == c && Handled(s, c, request, r)
    ensures StoreValid(Close(s, request, c, r))
  {
  }

  lemma CloseKeepsSettled(s: Sys, request: Request, c: Conv, r: (Ctx, Reply))
    requires StoreValid(s) && c.id in s.store && s.store[c.id] == c && Handled(s, c, request, r)
    requires SettledForGood(s)
    requires request.ApprovalAnswer? ==> Holds(c, request.uuid)
    ensures SettledForGood(Close(s, request, c, r))
  {
    var s2 := Close(s, request, c, r);
    forall k, u: Id | 0 <= k < |s2.log| && Settles(s2.log[k], u)
      ensures u < s2.nextId && forall id :: id in s2.store ==> !Holds(s2.store[id], u)
    {
      if k < |s.log| {
        assert Settles(s.log[k], u);
      } else {
        assert Holds(s.store[c.id], u);
      }
    }
    forall j, k, u: Id |
      && 0 <= j < k < |s2.log| && Settles(s2.log[j], u)
      && s2.log[k].request.ApprovalAnswer? && s2.log[k].request.uuid == u
      ensures !s2.log[k].ok && s2.log[k].calls == []
    {
      assert Settles(s.log[j], u);
      if k == |s.log| {
        assert false;
      }
    }
  }

  lemma CloseKeeps(w: World, cfg: Config, s: Sys, request: Request, c: Conv, r: (Ctx, Reply))
    requires Invariant(w, cfg, s) && c.id in s.store && s.store[c.id] == c && Handled(s, c, request, r)
    requires request.ApprovalAnswer? ==> Holds(c, request.uuid)
    requires var e := Entry(request, Some(c), r.1.Replied?, r.0.trace[|s.trace|..]);
             CallsGated(w, cfg, e) && RejectsQuietly(e)
    ensures Invariant(w, cfg, Close(s, request, c, r))
  {
    CloseKeepsStore(s, request, c, r);
    CloseKeepsSettled(s, request, c, r);
  }

  lemma StepKeeps(w: World, cfg: Config, s: Sys, request: Request)
    requires Invariant(w, cfg, s)
    ensures Invariant(w, cfg, Step(w, cfg, s, request))
  {
    match request
    case Start =>
      StartKeeps(w, cfg, s);
    case UserMessage(id, text) =>
      if id in s.store && text != "" {
        var c := s.store[id];
        ProcessMessageGrows(w, cfg, Open(s, c), text);
        CloseKeeps(w, cfg, s, request, c, ProcessMessage(w, cfg, Open(s, c), text));
      } else {
        RefusedKeeps(w, cfg, s, request);
      }
    case ApprovalAnswer(uuid, approved) =>
      var found := FindByUuid(s.store, uuid);
      if found.Some? {
        var c := s.store[found.value];
        ResolveApprovalResolves(w, cfg, Open(s, c), approved);
        CloseKeeps(w, cfg, s, request, c, ResolveApproval(w, cfg, Open(s, c), approved));
      } else {
        RefusedKeeps(w, cfg, s, request);
      }
  }

  lemma RefusedKeeps(w: World, cfg: Config, s: Sys, request: Request)
    requires Invariant(w, cfg, s)
    ensures Invariant(w, cfg, Refused(s, request))
  {
    var s2 := Refused(s, request);
    forall k, u: Id | 0 <= k < |s2.log| && Settles(s2.log[k], u)
      ensures u < s2.nextId && forall id :: id in s2.store ==> !Holds(s2.store[id], u)
    {
      assert Settles(s.log[k], u);
    }
  }

  lemma StartKeeps(w: World, cfg: Config, s: Sys)
    requires Invariant(w, cfg, s)
    ensures Invariant(w, cfg, Step(w, cfg, s, Start))
  {
    var s2 := Step(w, cfg, s, Start);
    forall k, u: Id | 0 <= k < |s2.log| && Settles(s2.log[k], u)
      ensures u < s2.nextId && forall id :: id in s2.store ==> !Holds(s2.store[id], u)
    {
      assert Settles(s.log[k], u);
    }
  }

  /** Every state an agent can reach satisfies the invariant. */
  lemma {:induction false} ServeKeeps(w: World, cfg: Config, requests: seq<Request>)
    ensures Invariant(w, cfg, Serve(w, cfg, requests))
  {
    if requests != [] {
      ServeKeeps(w, cfg, requests[..|requests| - 1]);
      StepKeeps(w, cfg, Serve(w, cfg, requests[..|requests| - 1]), requests[|requests| - 1]);
    }
  }

  // ---------- what it means for callers ----------

  /** Waiting and pending coincide; an approval is settled at most once; a rejection calls nothing
      but the remote agent that holds the task, and its approval is never answered again. */
  lemma ApprovalLifecycle(w: World, cfg: Config, requests: seq<Request>)
    ensures var s := Serve(w, cfg, requests);
            && (forall id :: id in s.store ==> (s.store[id].status == WaitingApproval <==> s.store[id].pending.Some?))
            && (forall j, k, u: Id :: 0 <= j < k < |s.log| && Settles(s.log[j], u) ==> !Settles(s.log[k], u))
            && (forall j, k, u: Id :: 0 <= j <= k < |s.log| && Settles(s.log[j], u) && !s.log[j].request.approved ==>
                  s.log[k].request.ApprovalAnswer? && s.log[k].request.uuid == u ==>
                  forall i :: 0 <= i < |s.log[k].calls| ==> s.log[k].calls[i].call.ContinueTask?)
  {
    ServeKeeps(w, cfg, requests);
    var s := Serve(w, cfg, requests);
    forall j, k, u: Id | 0 <= j <= k < |s.log| && Settles(s.log[j], u) && !s.log[j].request.approved
      && s.log[k].request.ApprovalAnswer? && s.log[k].request.uuid == u
      ensures forall i :: 0 <= i < |s.log[k].calls| ==> s.log[k].calls[i].call.ContinueTask?
    {
      assert RejectsQuietly(s.log[j]);
    }
  }

  /** In every run, a call that is marked destructive lies under a parallel or loop node, or is the
      one the settled approval was for, made first and with the stored name and arguments. */
  lemma ApprovalGate(w: World, cfg: Config, requests: seq<Request>, k: nat, i: nat)
    requires k < |Serve(w, cfg, requests).log| && i < |Serve(w, cfg, requests).log[k].calls|
    ensures var e := Serve(w, cfg, requests).log[k];
            var event := e.calls[i];
            var blocked := cfg.root.Some? && event.Event? && UnderBlock(cfg.root.value, event.path);
            var destructive := if event.Event? && cfg.root.Some? && NodeAt(cfg.root.value, event.path).Some?
                               then Destructive(w, NodeAt(cfg.root.value, event.path).value, event.call)
                               else Marked(w, event.call);
            destructive && !blocked ==>
              && i == 0 && e.request.ApprovalAnswer? && e.request.approved && e.found.Some?
              && Holds(e.found.value, e.request.uuid)
              && var p := e.found.value.pending.value; event.call == ApprovedCall(p.toolName, p.toolArgs)
  {
    ServeKeeps(w, cfg, requests);
    var e := Serve(w, cfg, requests).log[k];
    assert CallsGated(w, cfg, e);
    var event := e.calls[i];
    assert event.Event? ==> event.path[0..] == event.path;
  }

  /** A message to a waiting conversation changes neither the store nor the outside. */
  lemma MessageWhileWaitingIsInert(w: World, cfg: Config, requests: seq<Request>, id: Id, text: string)
    requires id in Serve(w, cfg, requests).store && Serve(w, cfg, requests).store[id].pending.Some?
    ensures var s, s2 := Serve(w, cfg, requests), Serve(w, cfg, requests + [UserMessage(id, text)]);
            s2.store == s.store && s2.trace == s.trace && s2.nextId == s.nextId
  {
    ServeKeeps(w, cfg, requests);
    assert (requests + [UserMessage(id, text)])[..|requests|] == requests;
    var s := Serve(w, cfg, requests);
    assert s.store[id := s.store[id]] == s.store;
  }
}
