/** The crash protocol between durable authority markers and operating-system grants: which single
    steps are allowed, and that every grant stays covered by a marker along any sequence of them. */
module SandboxProtocol {
  import opened Wrappers
  import opened Placement
  import opened MutationScope
  import opened MutationScopeLaws
  import opened MutationScopeUndo

  /** One allow entry that a sandbox SID holds on a runtime root or on a Session-0 object. */
  datatype Ace =
    | RootAce(sid: Sid, fold: string)
    | StationAce(sid: Sid)
    | DesktopAce(sid: Sid)

  /** The authority file, the access lists, and how the host derives the identity of a lease. */
  datatype HostState = HostState(authority: Authority, grants: set<Ace>, sidOf: LeaseKey -> Sid)

  predicate Marks(r: Record, ace: Ace) {
    && r.sid == Some(ace.sid)
    && match ace
       case RootAce(_, fold) => r.MarksRoot(fold)
       case StationAce(_) => r.session.Some?
       case DesktopAce(_) => r.session.Some?
  }

  ghost predicate Marked(s: Authority, ace: Ace) {
    exists id | id in s.scopes :: Marks(s.scopes[id], ace)
  }

  /** No sandbox SID holds an entry that no durable record would make cleanup remove. */
  ghost predicate Covered(h: HostState) {
    forall ace | ace in h.grants :: Marked(h.authority, ace)
  }

  predicate Derives(r: Record, sidOf: LeaseKey -> Sid) {
    r.sid.Some? ==> r.sid.value == sidOf(r.seal.lease)
  }

  /** Every recorded identity is the one derived from its lease. */
  ghost predicate Derived(s: Authority, sidOf: LeaseKey -> Sid) {
    forall id | id in s.scopes :: Derives(s.scopes[id], sidOf)
  }

  ghost predicate Sane(h: HostState) {
    Good(h.authority) && Covered(h) && Derived(h.authority, h.sidOf)
  }

  ghost predicate Injective(sidOf: LeaseKey -> Sid) {
    forall a, b :: sidOf(a) == sidOf(b) ==> a == b
  }

  /** No other scope derives the identity of this one. */
  ghost predicate OwnIdentity(s: Authority, id: ScopeId, sidOf: LeaseKey -> Sid) {
    id in s.scopes
    && forall other | other in s.scopes && other != id :: sidOf(s.scopes[other].seal.lease) != sidOf(s.scopes[id].seal.lease)
  }

  /** One atomic step: a store transaction, a grant taking effect, or entries disappearing. */
  datatype HostStep =
    | Store(op: StoreOp)
    | Grant(ace: Ace)
    | Strip(gone: set<Ace>)

  function Next(h: HostState, step: HostStep): HostState {
    match step
    case Store(op) => h.(authority := Apply(h.authority, op).0)
    case Grant(ace) => h.(grants := h.grants + {ace})
    case Strip(gone) => h.(grants := h.grants - gone)
  }

  /** Grants need a marker first; a marker goes only once the entries it stands for are absent; an
      identity is reserved only for the lease it derives from. */
  ghost predicate Guarded(h: HostState, step: HostStep) {
    match step
    case Grant(ace) => Marked(h.authority, ace)
    case Strip(_) => true
    case Store(op) =>
      && Allowed(h.authority, op)
      && (op.DoReserveIdentity? && op.id in h.authority.scopes ==> op.sid == h.sidOf(h.authority.scopes[op.id].seal.lease))
      && (op.DoClearRoot? ==> RootAce(op.sid, op.root.fold) !in h.grants)
      && (op.DoClearSession? ==> StationAce(op.sid) !in h.grants && DesktopAce(op.sid) !in h.grants)
      && (op.DoTerminalizeCommit? && Apply(h.authority, op).0 != h.authority ==>
            h.authority.scopes[op.id].roots == {} && h.authority.scopes[op.id].session.None?)
  }

  function RunHost(h: HostState, steps: seq<HostStep>): HostState {
    if steps == [] then h else Next(RunHost(h, steps[..|steps| - 1]), steps[|steps| - 1])
  }

  ghost predicate AllGuarded(h: HostState, steps: seq<HostStep>) {
    steps != [] ==>
      && AllGuarded(h, steps[..|steps| - 1])
      && Guarded(RunHost(h, steps[..|steps| - 1]), steps[|steps| - 1])
  }

  /** Some crash point of the run leaves an entry that no marker covers. */
  ghost predicate Exposed(h: HostState, steps: seq<HostStep>) {
    exists crash | 0 <= crash <= |steps| :: !Covered(RunHost(h, steps[..crash]))
  }

  lemma Appended(h: HostState, steps: seq<HostStep>, step: HostStep)
    ensures RunHost(h, steps + [step]) == Next(RunHost(h, steps), step)
    ensures AllGuarded(h, steps + [step]) <==> AllGuarded(h, steps) && Guarded(RunHost(h, steps), step)
  {
    assert (steps + [step])[..|steps|] == steps;
  }

  lemma StoreAppended(origin: HostState, steps: seq<HostStep>, now: HostState, op: StoreOp)
    requires RunHost(origin, steps) == now
    ensures var longer := steps + [Store(op)];
            && RunHost(origin, longer) == now.(authority := Apply(now.authority, op).0)
            && (AllGuarded(origin, longer) <==> AllGuarded(origin, steps) && Guarded(now, Store(op)))
  {
    hide Apply, Guarded;
    Appended(origin, steps, Store(op));
  }

  /** A transaction that needs no guard: it mints no scope, reserves no identity, clears no root or
      session marker, and ends no scope. */
  predicate Unconditional(op: StoreOp) {
    && !op.DoProvision? && !op.DoReserveIdentity? && !op.DoClearRoot? && !op.DoClearSession?
    && !op.DoTerminalizeCommit?
  }

  lemma UnconditionalAppended(origin: HostState, steps: seq<HostStep>, now: HostState, op: StoreOp)
    requires RunHost(origin, steps) == now && Unconditional(op)
    ensures var longer := steps + [Store(op)];
            && RunHost(origin, longer) == now.(authority := Apply(now.authority, op).0)
            && (AllGuarded(origin, longer) <==> AllGuarded(origin, steps))
  {
    hide Apply;
    StoreAppended(origin, steps, now, op);
  }

  /** What the guard of each guarded transaction comes to. */
  lemma GuardOf(h: HostState, op: StoreOp)
    ensures op.DoReserveIdentity? ==>
              (Guarded(h, Store(op)) <==>
               (op.id in h.authority.scopes ==> op.sid == h.sidOf(h.authority.scopes[op.id].seal.lease)))
    ensures op.DoClearRoot? ==> (Guarded(h, Store(op)) <==> RootAce(op.sid, op.root.fold) !in h.grants)
    ensures op.DoClearSession? ==>
              (Guarded(h, Store(op)) <==> StationAce(op.sid) !in h.grants && DesktopAce(op.sid) !in h.grants)
  {
    hide Apply;
  }

  /** The transaction that each step performs. */
  lemma AppliesTo(s: Authority, op: StoreOp)
    ensures match op
            case DoRevalidate(id, generation, c, None) => Apply(s, op) == RevalidateScope(s, id, generation, c)
            case DoReserveIdentity(id, generation, sid) => Apply(s, op) == ReserveIdentity(s, id, generation, sid)
            case DoReserveRoot(id, generation, sid, root) => Apply(s, op) == ReserveRoot(s, id, generation, sid, root)
            case DoClearRoot(id, generation, sid, root) => Apply(s, op) == ClearRoot(s, id, generation, sid, root)
            case DoReserveSession(id, generation, sid, binding) => Apply(s, op) == ReserveSession(s, id, generation, sid, binding)
            case DoClearSession(id, generation, sid, binding) => Apply(s, op) == ClearSession(s, id, generation, sid, binding)
            case DoClearWrite(id, generation, sid) => Apply(s, op) == ClearWrite(s, id, generation, sid)
            case DoRevoke(id, generation) => Apply(s, op) == Revoke(s, id, generation)
            case DoTerminalizeBegin(id, generation, c, hasCleanup) =>
              Apply(s, op) == TerminalizeBegin(s, id, generation, c, hasCleanup)
            case DoTerminalizeCommit(id, generation, c, cleanup, closure) =>
              Apply(s, op) == TerminalizeCommit(s, id, generation, c, cleanup, closure)
            case _ => true
  {
    hide RevalidateScope, ReserveIdentity, ReserveRoot, ClearRoot, ReserveSession, ClearSession, ClearWrite, Revoke;
    hide TerminalizeBegin, TerminalizeCommit, Provision, BindProcess, ReleaseProcess, RevalidateForOperation;
  }

  /** Only provisioning adds a sealed payload; nothing ever changes one. */
  lemma SealsStand(s: Authority, op: StoreOp)
    requires Good(s) && !op.DoProvision?
    ensures Seals(Apply(s, op).0) == Seals(s)
  {
    hide Good, Apply;
    OthersUntouched(s, op);
    StepKeeps(s, op);
    SealsAgree(s, Apply(s, op).0, op.id);
  }

  lemma SealsAgree(s: Authority, t: Authority, id: ScopeId)
    requires SameBut(s, t, id) && Evolves(s, t)
    ensures Seals(t) == Seals(s)
  {
    forall other | other in t.scopes || other in s.scopes
      ensures other in t.scopes && other in s.scopes && t.scopes[other].seal == s.scopes[other].seal {
      if other != id {
        assert other in t.scopes - {id} || other in s.scopes - {id};
        assert (s.scopes - {id})[other] == (t.scopes - {id})[other];
      }
    }
  }

  lemma OwnIdentityStands(s: Authority, t: Authority, id: ScopeId, sidOf: LeaseKey -> Sid)
    requires Seals(s) == Seals(t)
    ensures OwnIdentity(s, id, sidOf) <==> OwnIdentity(t, id, sidOf)
  {
    assert forall other :: other in s.scopes <==> other in Seals(s);
    assert forall other :: other in t.scopes <==> other in Seals(t);
    assert forall other | other in s.scopes :: s.scopes[other].seal == Seals(s)[other] == t.scopes[other].seal;
  }

  // ---------- markers that grants rely on ----------

  /** The record that activation grants under. */
  ghost predicate Ready(s: Authority, id: ScopeId, generation: nat, sid: Sid) {
    && id in s.scopes && s.scopes[id].seal.generation == generation && s.scopes[id].seal.scopeId == id
    && s.scopes[id].state.Active? && s.scopes[id].sid == Some(sid) && s.scopes[id].write
    && s.scopes[id].jobs == {} && s.scopes[id].pids == {}
  }

  /** A reserved root marker covers the grant that follows it. */
  lemma ReservedRoot(s: Authority, id: ScopeId, generation: nat, sid: Sid, root: RootPath)
    requires id in s.scopes ==> s.scopes[id].seal.scopeId == id
    ensures var after := ReserveRoot(s, id, generation, sid, root);
            && (after.1.Ok? ==> Marked(after.0, RootAce(sid, root.fold)))
            && (Ready(s, id, generation, sid) ==>
                  Ready(after.0, id, generation, sid) && (after.1.Ok? <==> root.text != ""))
  {
    var after := ReserveRoot(s, id, generation, sid, root);
    if after.1.Ok? {
      var r := s.scopes[id];
      assert if r.MarksRoot(root.fold) then after.1.value.roots == r.roots else root in after.1.value.roots;
      assert Marks(after.0.scopes[id], RootAce(sid, root.fold));
    }
  }

  /** Clearing is accepted on a ready record, leaves it ready, and leaves no spelling of the root. */
  lemma ClearedRoot(s: Authority, id: ScopeId, generation: nat, sid: Sid, root: RootPath)
    requires id in s.scopes ==> s.scopes[id].seal.scopeId == id
    ensures var after := ClearRoot(s, id, generation, sid, root);
            && (after.1.Ok? ==> id in after.0.scopes && !after.0.scopes[id].MarksRoot(root.fold))
            && (Ready(s, id, generation, sid) ==>
                  Ready(after.0, id, generation, sid) && (after.1.Ok? <==> root.text != ""))
  {
  }

  /** What a clearing or revoking transaction leaves of the record and of every other one. */
  lemma ClearedRecord(s: Authority, op: StoreOp)
    requires op.DoClearRoot? || op.DoClearSession? || op.DoClearWrite? || op.DoRevoke?
    requires op.id in s.scopes ==> s.scopes[op.id].seal.scopeId == op.id
    ensures var t := Apply(s, op).0;
            || t == s
            || (op.id in s.scopes && op.id in t.scopes && t.scopes == s.scopes[op.id := t.scopes[op.id]]
                && t.scopes[op.id].sid == s.scopes[op.id].sid && t.scopes[op.id].roots <= s.scopes[op.id].roots
                && (t.scopes[op.id].session.Some? ==> s.scopes[op.id].session.Some?))
  {
  }

  /** Clearing markers, clearing write authority and revoking mark nothing new. */
  lemma ClearsOnly(s: Authority, op: StoreOp, ace: Ace)
    requires op.DoClearRoot? || op.DoClearSession? || op.DoClearWrite? || op.DoRevoke?
    requires op.id in s.scopes ==> s.scopes[op.id].seal.scopeId == op.id
    requires Marked(Apply(s, op).0, ace)
    ensures Marked(s, ace)
  {
    hide Apply, Marks;
    var t := Apply(s, op).0;
    ClearedRecord(s, op);
    var id :| id in t.scopes && Marks(t.scopes[id], ace);
    if id == op.id && t != s {
      FewerMarks(s.scopes[id], t.scopes[id], ace);
    }
    assert Marks(s.scopes[id], ace);
  }

  lemma ClearRootMarksLess(s: Authority, id: ScopeId, generation: nat, sid: Sid, root: RootPath)
    requires id in s.scopes ==> s.scopes[id].seal.scopeId == id
    ensures forall ace :: Marked(ClearRoot(s, id, generation, sid, root).0, ace) ==> Marked(s, ace)
    ensures id in s.scopes ==>
              id in ClearRoot(s, id, generation, sid, root).0.scopes
              && ClearRoot(s, id, generation, sid, root).0.scopes[id].roots <= s.scopes[id].roots
  {
    var op := DoClearRoot(id, generation, sid, root);
    AppliesTo(s, op);
    hide Marked;
    forall ace | Marked(ClearRoot(s, id, generation, sid, root).0, ace) ensures Marked(s, ace) {
      ClearsOnly(s, op, ace);
    }
  }

  lemma FewerMarks(r: Record, t: Record, ace: Ace)
    requires t.sid == r.sid && t.roots <= r.roots && (t.session.Some? ==> r.session.Some?) && Marks(t, ace)
    ensures Marks(r, ace)
  {
    if ace.RootAce? {
      var root :| root in t.roots && root.fold == ace.fold;
      assert root in r.roots;
    }
  }

  lemma ReservedIdentity(s: Authority, op: StoreOp)
    requires op.DoReserveIdentity? && (op.id in s.scopes ==> Sound(s, op.id) && s.scopes[op.id].sid.None?)
    ensures Apply(s, op).1.Ok? ==> Ready(Apply(s, op).0, op.id, op.generation, op.sid)
    ensures Apply(s, op) == ReserveIdentity(s, op.id, op.generation, op.sid)
    ensures Apply(s, op).1.Ok? <==>
              op.sid != "" && op.id in s.scopes && s.scopes[op.id].seal.generation == op.generation && s.scopes[op.id].Current()
  {
  }

  lemma ReservedSession(s: Authority, op: StoreOp)
    requires op.DoReserveSession? && (op.id in s.scopes ==> s.scopes[op.id].seal.scopeId == op.id)
    ensures Apply(s, op).1.Ok? ==>
              Marked(Apply(s, op).0, StationAce(op.sid)) && Marked(Apply(s, op).0, DesktopAce(op.sid))
    ensures Apply(s, op) == ReserveSession(s, op.id, op.generation, op.sid, op.binding)
  {
    var after := Apply(s, op);
    if after.1.Ok? {
      assert Marks(after.0.scopes[op.id], StationAce(op.sid)) && Marks(after.0.scopes[op.id], DesktopAce(op.sid));
    }
  }

  /** A commit whose closure read the scope's present markers respects its guard. */
  lemma CommitGuarded(h: HostState, op: StoreOp)
    requires op.DoTerminalizeCommit? && op.id in h.authority.scopes
    requires op.closure.roots == h.authority.scopes[op.id].roots
    requires op.closure.session == h.authority.scopes[op.id].session
    ensures Guarded(h, Store(op))
  {
  }

  // ---------- identities ----------

  lemma OwnRecordDerives(s: Authority, op: StoreOp, sidOf: LeaseKey -> Sid)
    requires !op.DoProvision? && op.id in s.scopes && Sound(s, op.id) && Derives(s.scopes[op.id], sidOf)
    requires op.DoReserveIdentity? ==> op.sid == sidOf(s.scopes[op.id].seal.lease)
    ensures op.id in Apply(s, op).0.scopes && Derives(Apply(s, op).0.scopes[op.id], sidOf)
  {
    hide Apply, Sound, Derives;
    if op.DoRevalidate? {
      RevalidatedDerives(s, op, sidOf);
    } else if op.DoTerminalizeBegin? || op.DoTerminalizeCommit? {
      TerminalizedDerives(s, op, sidOf);
    } else {
      ChangedDerives(s, op, sidOf);
    }
  }

  lemma RevalidatedDerives(s: Authority, op: StoreOp, sidOf: LeaseKey -> Sid)
    requires op.DoRevalidate? && op.id in s.scopes && Sound(s, op.id) && Derives(s.scopes[op.id], sidOf)
    ensures op.id in Apply(s, op).0.scopes && Derives(Apply(s, op).0.scopes[op.id], sidOf)
  {
    hide Apply, RevalidateScope, IndexChecks;
    RevalidateApplied(s, op);
    RevalidatedRecord(s, op.id, op.generation, op.c);
  }

  /** Revalidation at most marks the record expired. */
  lemma RevalidatedRecord(s: Authority, id: ScopeId, generation: nat, c: Claim)
    requires id in s.scopes && s.scopes[id].seal.scopeId == id
    ensures var t := RevalidateScope(s, id, generation, c).0;
            id in t.scopes && (t.scopes[id] == s.scopes[id] || t.scopes[id] == MarkExpired(s.scopes[id], c.now))
  {
    hide Admission, DigestOf, MarkExpired;
    assert MarkExpired(s.scopes[id], c.now).seal == s.scopes[id].seal by {
      ExpiryKeepsSeal(s.scopes[id], c.now);
    }
  }

  lemma ExpiryKeepsSeal(r: Record, now: int)
    ensures MarkExpired(r, now).seal == r.seal
  {
  }

  lemma TerminalizedDerives(s: Authority, op: StoreOp, sidOf: LeaseKey -> Sid)
    requires op.DoTerminalizeBegin? || op.DoTerminalizeCommit?
    requires op.id in s.scopes && Sound(s, op.id) && Derives(s.scopes[op.id], sidOf)
    ensures op.id in Apply(s, op).0.scopes && Derives(Apply(s, op).0.scopes[op.id], sidOf)
  {
    hide ValidateSealed, ClosureChecks, IndexChecks;
  }

  lemma ChangedDerives(s: Authority, op: StoreOp, sidOf: LeaseKey -> Sid)
    requires !op.DoProvision? && !op.DoRevalidate? && !op.DoTerminalizeBegin? && !op.DoTerminalizeCommit?
    requires op.id in s.scopes && Sound(s, op.id) && Derives(s.scopes[op.id], sidOf)
    requires op.DoReserveIdentity? ==> op.sid == sidOf(s.scopes[op.id].seal.lease)
    ensures op.id in Apply(s, op).0.scopes && Derives(Apply(s, op).0.scopes[op.id], sidOf)
  {
    hide IndexChecks;
  }

  lemma ProvisionDerives(s: Authority, c: Claim, operations: set<string>, freshId: ScopeId, workspaceId: string,
                         sidOf: LeaseKey -> Sid)
    requires Derived(s, sidOf)
    ensures Derived(Provision(s, c, operations, freshId, workspaceId).0, sidOf)
  {
    hide Resolve, Admission, IndexChecks;
  }

  /** A guarded transaction records no identity but the derived one. */
  lemma StoreStepDerives(h: HostState, op: StoreOp)
    requires Good(h.authority) && Derived(h.authority, h.sidOf) && Guarded(h, Store(op))
    ensures Derived(Apply(h.authority, op).0, h.sidOf)
  {
    var s := h.authority;
    if op.DoProvision? {
      ProvisionDerives(s, op.c, op.operations, op.freshId, op.workspaceId, h.sidOf);
    } else {
      hide Good, Apply, Sound;
      OthersUntouched(s, op);
      if op.id in s.scopes {
        GoodIsSound(s, op.id);
        OwnRecordDerives(s, op, h.sidOf);
      }
      OthersDerive(s, Apply(s, op).0, op.id, h.sidOf);
    }
  }

  lemma OthersDerive(s: Authority, t: Authority, id: ScopeId, sidOf: LeaseKey -> Sid)
    requires Derived(s, sidOf) && SameBut(s, t, id)
    requires id in s.scopes ==> id in t.scopes && Derives(t.scopes[id], sidOf)
    ensures Derived(t, sidOf)
  {
    forall other | other in t.scopes ensures Derives(t.scopes[other], sidOf) {
      if other != id {
        assert other in t.scopes - {id};
        assert (s.scopes - {id})[other] == (t.scopes - {id})[other];
      }
    }
  }

  /** Leases are unique, so an injective derivation gives every scope an identity of its own. */
  lemma InjectiveMeansOwn(s: Authority, id: ScopeId, sidOf: LeaseKey -> Sid)
    requires Good(s) && id in s.scopes && Injective(sidOf)
    ensures OwnIdentity(s, id, sidOf)
  {
    forall other | other in s.scopes && other != id
      ensures sidOf(s.scopes[other].seal.lease) != sidOf(s.scopes[id].seal.lease) {
      if s.scopes[other].seal.lease == s.scopes[id].seal.lease {
        OneHolder(s, other, id);
      }
    }
  }

  // ---------- one guarded step ----------

  lemma RetainedMark(s: Authority, t: Authority, ace: Ace)
    requires Evolves(s, t, true) && Marked(s, ace)
    ensures Marked(t, ace)
  {
    var id :| id in s.scopes && Marks(s.scopes[id], ace);
    assert Marks(t.scopes[id], ace);
  }

  /** A clearing transaction that respects its guard takes away no marker that is still needed. */
  lemma ClearLeavesMark(h: HostState, op: StoreOp, ace: Ace)
    requires Clears(op) && Guarded(h, Store(op)) && ace in h.grants && Marked(h.authority, ace)
    requires op.id in h.authority.scopes ==> Sound(h.authority, op.id)
    ensures Marked(Apply(h.authority, op).0, ace)
  {
    var s := h.authority;
    var t := Apply(s, op).0;
    var id :| id in s.scopes && Marks(s.scopes[id], ace);
    if t != s {
      assert id in t.scopes;
      if id == op.id && op.DoClearRoot? && ace.RootAce? {
        var root :| root in s.scopes[id].roots && root.fold == ace.fold;
        assert root in t.scopes[id].roots;
      }
      assert Marks(t.scopes[id], ace);
    }
  }

  /** One guarded step keeps the store's invariant, the coverage and the derived identities. */
  lemma StepSane(h: HostState, step: HostStep)
    requires Sane(h) && Guarded(h, step)
    ensures Sane(Next(h, step))
  {
    hide Good, Apply, Guarded, Marked, Derived;
    if step.Store? {
      var t := Apply(h.authority, step.op).0;
      AllowedIfGuarded(h, step.op);
      StepGood(h.authority, step.op);
      StoreStepDerives(h, step.op);
      forall ace | ace in h.grants ensures Marked(t, ace) {
        StoreStepKeepsMark(h, step.op, ace);
      }
    } else if step.Grant? {
      GrantIsMarked(h, step.ace);
    }
  }

  lemma AllowedIfGuarded(h: HostState, op: StoreOp)
    requires Guarded(h, Store(op))
    ensures Allowed(h.authority, op)
  {
    hide Apply;
  }

  lemma GrantIsMarked(h: HostState, ace: Ace)
    requires Guarded(h, Grant(ace))
    ensures Marked(h.authority, ace)
  {
  }

  lemma StoreStepKeepsMark(h: HostState, op: StoreOp, ace: Ace)
    requires Good(h.authority) && Guarded(h, Store(op)) && ace in h.grants && Marked(h.authority, ace)
    ensures Marked(Apply(h.authority, op).0, ace)
  {
    hide Good, Apply, Guarded, Marked;
    if Clears(op) {
      if op.id in h.authority.scopes {
        GoodIsSound(h.authority, op.id);
      }
      ClearLeavesMark(h, op, ace);
    } else {
      AllowedIfGuarded(h, op);
      StepKeeps(h.authority, op);
      RetainedMark(h.authority, Apply(h.authority, op).0, ace);
    }
  }

  // ---------- any number of steps, cut off anywhere ----------

  /** Whatever guarded steps run, in any interleaving over any scopes, and wherever a crash cuts
      them off, the host is left covered. */
  lemma {:induction false} CoveredThroughout(h: HostState, steps: seq<HostStep>, crash: nat)
    requires Sane(h) && AllGuarded(h, steps) && crash <= |steps|
    ensures Sane(RunHost(h, steps[..crash])) && Covered(RunHost(h, steps[..crash]))
    decreases |steps|
  {
    hide Good, Guarded, Covered, Derived, Next;
    if crash < |steps| {
      assert steps[..|steps| - 1][..crash] == steps[..crash];
      CoveredThroughout(h, steps[..|steps| - 1], crash);
    } else if steps != [] {
      var front := steps[..|steps| - 1];
      assert front[..|front|] == front && steps[..crash] == steps;
      CoveredThroughout(h, front, |front|);
      StepSane(RunHost(h, front), steps[|steps| - 1]);
    }
  }

  lemma GuardedIsNotExposed(h: HostState, steps: seq<HostStep>)
    requires Sane(h) && AllGuarded(h, steps)
    ensures !Exposed(h, steps) && Sane(RunHost(h, steps))
  {
    hide Sane, Covered, AllGuarded, RunHost;
    forall crash | 0 <= crash <= |steps| ensures Covered(RunHost(h, steps[..crash])) {
      CoveredThroughout(h, steps, crash);
    }
    CoveredThroughout(h, steps, |steps|);
    assert steps[..|steps|] == steps;
  }

  lemma ExposedGrows(h: HostState, steps: seq<HostStep>, longer: seq<HostStep>)
    requires Exposed(h, steps) && steps <= longer
    ensures Exposed(h, longer)
  {
    hide Covered, RunHost;
    var crash :| 0 <= crash <= |steps| && !Covered(RunHost(h, steps[..crash]));
    assert longer[..crash] == steps[..crash];
  }

  /** A sane host holds nothing for a terminal scope: none of its entries outlives it. */
  lemma TerminalHoldsNothing(h: HostState, id: ScopeId, ace: Ace)
    requires Sane(h) && Injective(h.sidOf)
    requires id in h.authority.scopes && h.authority.scopes[id].state.Terminal?
    requires ace.sid == h.sidOf(h.authority.scopes[id].seal.lease)
    ensures ace !in h.grants
  {
    var s := h.authority;
    InjectiveMeansOwn(s, id, h.sidOf);
    ScopeIdsAgree(s, id);
    forall holder | holder in s.scopes ensures !Marks(s.scopes[holder], ace) {
      assert Derives(s.scopes[holder], h.sidOf) && ResidualOk(s.scopes[id]);
    }
    assert ace in h.grants ==> Marked(s, ace);
  }

  // ---------- the one guard the code can miss ----------

  /** Clearing a root marker keeps the host covered exactly when the root no longer carries the SID. */
  lemma ClearRootCoveredIff(h: HostState, op: StoreOp)
    requires Sane(h) && op.DoClearRoot? && Apply(h.authority, op).1.Ok? && OwnIdentity(h.authority, op.id, h.sidOf)
    ensures Covered(Next(h, Store(op))) <==> RootAce(op.sid, op.root.fold) !in h.grants
  {
    var ace := RootAce(op.sid, op.root.fold);
    if ace !in h.grants {
      StepSane(h, Store(op));
    } else {
      ScopeIdsAgree(h.authority, op.id);
      ClearedIsUnmarked(h.authority, op, h.sidOf);
    }
  }

  lemma ClearedIsUnmarked(s: Authority, op: StoreOp, sidOf: LeaseKey -> Sid)
    requires Derived(s, sidOf) && op.DoClearRoot? && Apply(s, op).1.Ok? && OwnIdentity(s, op.id, sidOf)
    requires s.scopes[op.id].seal.scopeId == op.id
    ensures !Marked(Apply(s, op).0, RootAce(op.sid, op.root.fold))
  {
    var t := Apply(s, op).0;
    forall id | id in t.scopes ensures !Marks(t.scopes[id], RootAce(op.sid, op.root.fold)) {
      assert id in s.scopes && Derives(s.scopes[id], sidOf) && Derives(s.scopes[op.id], sidOf);
    }
  }

  /** After a run that kept every guard, clearing the marker of a root that still carries the SID leaves a
      crash point uncovered. */
  lemma ClearExposes(h: HostState, steps: seq<HostStep>, op: StoreOp)
    requires Sane(h) && AllGuarded(h, steps)
    requires var now := RunHost(h, steps);
             && op.DoClearRoot? && Apply(now.authority, op).1.Ok? && OwnIdentity(now.authority, op.id, now.sidOf)
             && RootAce(op.sid, op.root.fold) in now.grants
    ensures Exposed(h, steps + [Store(op)])
  {
    hide Sane, Covered, AllGuarded, Apply, OwnIdentity, Next;
    var longer := steps + [Store(op)];
    GuardedIsNotExposed(h, steps);
    ClearRootCoveredIff(RunHost(h, steps), op);
    Appended(h, steps, Store(op));
    assert longer[..|longer|] == longer;
  }
}
