/** Which calls of each transaction are accepted, and what an accepted call changes, both exactly. A
    refused call changes nothing, but for an expiry or a policy drift that it has observed. */
module MutationScopeExact {
  import opened Wrappers
  import opened Placement
  import opened MutationScope
  import opened MutationScopeLaws
  import opened MutationScopeRuns

  predicate Names(s: Authority, id: ScopeId, generation: nat) {
    id in s.scopes && s.scopes[id].seal.generation == generation
  }

  predicate Live(s: Authority, id: ScopeId, generation: nat) {
    Names(s, id, generation) && s.scopes[id].Current()
  }

  /** The record of `id`, and nothing else, is replaced, and the reply hands the new one out. */
  function Replaced(s: Authority, id: ScopeId, r: Record): (Authority, Reply) {
    (s.(scopes := s.scopes[id := r]), Ok(r))
  }

  // ---------- admission ----------

  /** An operation class is admitted exactly for an admissible claim on a scope minted for that class; the
      call then changes nothing and answers with the record as it stands. */
  lemma OperationIff(s: Authority, id: ScopeId, generation: nat, c: Claim, operation: string)
    requires Good(s)
    ensures var after := RevalidateForOperation(s, id, generation, c, operation);
            && (after.1.Ok? <==> operation != "" && Admissible(s, id, generation, c)
                                 && operation in s.scopes[id].seal.operations)
            && (after.1.Ok? ==> after == (s, Ok(s.scopes[id])))
  {
    hide Good, RevalidateScope, Resolve;
    RevalidateIff(s, id, generation, c);
  }

  /** What a revalidation writes: the expiry of a scope whose time is over, or the policy it observed for a
      live one. */
  lemma RevalidateWrites(s: Authority, id: ScopeId, generation: nat, c: Claim)
    requires id in s.scopes ==> s.scopes[id].seal.scopeId == id
    ensures var t := RevalidateScope(s, id, generation, c).0;
            if !Live(s, id, generation) then t == s
            else if c.now < s.scopes[id].seal.expiresAt then t == Observe(s, c.Digest())
            else t == Replaced(s, id, s.scopes[id].(state := Expired, terminalizedAt := Some(c.now))).0
  {
    hide Admission, DigestOf;
  }

  // ---------- provisioning ----------

  /** The placement a provisioning call derives, if it derives one it may use. */
  function Derivation(s: Authority, c: Claim): Option<Evidence> {
    match Resolve(c.policy, c.repository, c.lineage, Observe(s, c.Digest()).generation, c.providerRoots, c.host)
    case Err(_) => None
    case Ok(e) => if Overlaps(c.host.authorityRoot, e.workspace) then None else Some(e)
  }

  predicate Under(p: Path, root: Path) {
    root <= p
  }

  /** Two places overlap exactly when some path lies under both. */
  lemma OverlapsIff(one: Path, other: Path)
    ensures Overlaps(one, other) <==> exists p :: Under(p, one) && Under(p, other)
  {
    if Overlaps(one, other) {
      var p := if one <= other then other else one;
      assert Under(p, one) && Under(p, other);
    }
    if p :| Under(p, one) && Under(p, other) {
      assert one == p[..|one|] && other == p[..|other|];
      if |one| <= |other| {
        assert one == other[..|one|];
      } else {
        assert other == one[..|other|];
      }
    }
  }

  /** The scope an Attempt has already is given out again: it is live, unexpired, minted for these operation
      classes, and lies at the placement derived now. */
  predicate Reissued(s: Authority, c: Claim, operations: set<string>, e: Evidence, id: ScopeId) {
    && id in s.scopes && s.scopes[id].seal.placement == e && s.scopes[id].seal.operations == operations
    && s.scopes[id].Current() && c.now < s.scopes[id].seal.expiresAt
  }

  /** Neither the lease nor the workspace of the placement has a holder. */
  predicate Vacant(s: Authority, c: Claim, e: Evidence) {
    e.workspace !in s.workspaces && LeaseKeyFor(c.repository, c.lineage, e.generation, e.workspace) !in s.leases
  }

  predicate Provisionable(s: Authority, c: Claim, operations: set<string>) {
    var e := Derivation(s, c);
    var key := AttemptKey(c.repository, c.lineage);
    && operations != {} && e.Some?
    && if key in s.attempts then Reissued(s, c, operations, e.value, s.attempts[key]) else Vacant(s, c, e.value)
  }

  /** A scope as it is minted: idle, sealed to its placement, and good for the policy's time to live. */
  predicate Minted(r: Record, c: Claim, operations: set<string>, e: Evidence, id: ScopeId, workspaceId: string) {
    && r.state.Provisioned? && r.sid.None? && !r.HoldsAuthority() && r.terminalizedAt.None?
    && r.seal.scopeId == id && r.seal.workspaceId == workspaceId && r.seal.generation == 1
    && r.seal.placement == e && r.seal.operations == operations
    && r.seal.issuedAt == c.now && r.seal.expiresAt == c.now + c.policy.scopeTtl
    && r.seal.attempt == AttemptKey(c.repository, c.lineage)
    && r.seal.lease == LeaseKeyFor(c.repository, c.lineage, e.generation, e.workspace)
  }

  /** Exactly when a scope is given out: the Attempt's own scope, with nothing changed, or a new one that
      enters the scopes and all three indexes under the observed policy. */
  lemma ProvisionIff(s: Authority, c: Claim, operations: set<string>, freshId: ScopeId, workspaceId: string)
    requires Good(s) && freshId !in s.scopes
    ensures var after := Provision(s, c, operations, freshId, workspaceId);
            var key := AttemptKey(c.repository, c.lineage);
            && (after.1.Ok? <==> Provisionable(s, c, operations))
            && (after.1.Ok? ==>
                  if key in s.attempts then after == (s, Ok(s.scopes[s.attempts[key]]))
                  else
                    && Minted(after.1.value, c, operations, Derivation(s, c).value, freshId, workspaceId)
                    && after.0 == Publish(Observe(s, c.Digest()), after.1.value))
  {
    hide Good, Resolve, ProvisionAgain, ProvisionFirst, Reissued, Vacant, Minted, DigestOf, Publish;
    var m := Observe(s, c.Digest());
    var placed := Resolve(c.policy, c.repository, c.lineage, m.generation, c.providerRoots, c.host);
    var key := AttemptKey(c.repository, c.lineage);
    if placed.Ok? {
      var r := Mint(c, operations, freshId, workspaceId, placed.value);
      MintedIs(c, operations, placed.value, freshId, workspaceId);
      if key in s.attempts {
        AttemptIsHeld(s, key);
        GoodIsSealed(s, s.attempts[key]);
        GoodIsCovered(s, s.attempts[key]);
        HolderOf(s, key);
        RetryIff(s, s.attempts[key], c, operations, placed.value);
      } else {
        FirstIff(s, c, r);
      }
    }
  }

  /** A refused provisioning mints nothing and leaves the indexes alone: it writes at most the policy it
      observed and the expiry of the Attempt's own scope. */
  lemma RefusedProvisionWrites(s: Authority, c: Claim, operations: set<string>, freshId: ScopeId, workspaceId: string)
    requires Good(s) && freshId !in s.scopes && Provision(s, c, operations, freshId, workspaceId).1.Err?
    ensures var t := Provision(s, c, operations, freshId, workspaceId).0;
            var m := Observe(s, c.Digest());
            var key := AttemptKey(c.repository, c.lineage);
            || t == s || t == m
            || (key in s.attempts && s.attempts[key] in s.scopes
                && var r := s.scopes[s.attempts[key]];
                   && r.Current() && r.seal.expiresAt <= c.now
                   && t == Replaced(m, r.seal.scopeId, r.(state := Expired, terminalizedAt := Some(c.now))).0)
  {
    hide Good, Resolve, IndexChecks, Admission, DigestOf, SealOk, ProvisionFirst;
    var m := Observe(s, c.Digest());
    var placed := Resolve(c.policy, c.repository, c.lineage, m.generation, c.providerRoots, c.host);
    var key := AttemptKey(c.repository, c.lineage);
    assert Observe(m, c.Digest()) == m;
    if placed.Ok? {
      if key in s.attempts {
        AttemptIsHeld(s, key);
        ScopeIdsAgree(s, s.attempts[key]);
      } else {
        RefusedFirstWrites(s, m, Mint(c, operations, freshId, workspaceId, placed.value));
      }
    }
  }

  lemma RefusedFirstWrites(s: Authority, m: Authority, r: Record)
    ensures ProvisionFirst(s, m, r).1.Err? ==> ProvisionFirst(s, m, r).0 == s || ProvisionFirst(s, m, r).0 == m
  {
  }

  lemma MintedIs(c: Claim, operations: set<string>, e: Evidence, freshId: ScopeId, workspaceId: string)
    requires e.repository == c.repository && e.lineage == c.lineage
    ensures Minted(Mint(c, operations, freshId, workspaceId, e), c, operations, e, freshId, workspaceId)
  {
  }

  lemma RetryIff(s: Authority, id: ScopeId, c: Claim, operations: set<string>, e: Evidence)
    requires Sound(s, id) && SealOk(id, s.scopes[id].seal) && GenerationCovers(s.generation, s.scopes[id].seal.placement)
    requires s.scopes[id].seal.attempt == AttemptKey(c.repository, c.lineage)
    requires Resolve(c.policy, c.repository, c.lineage, Observe(s, c.Digest()).generation, c.providerRoots, c.host) == Ok(e)
    ensures var after := ProvisionAgain(s, Observe(s, c.Digest()), s.scopes[id], c, operations, e);
            && (after.1.Ok? <==> Reissued(s, c, operations, e, id))
            && (after.1.Ok? ==> after == (s, Ok(s.scopes[id])))
  {
    var m := Observe(s, c.Digest());
    ObservedIsSound(s, id, c.Digest());
    assert Observe(m, c.Digest()) == m;
    LockedMoves(m, id, c);
    AdmissionIff(m, id, c);
  }

  lemma MintedIsSealed(m: Authority, c: Claim, r: Record)
    requires Good(m) && m == Observe(m, c.Digest())
    requires Minted(r, c, r.seal.operations, r.seal.placement, r.seal.scopeId, r.seal.workspaceId)
    requires Resolve(c.policy, c.repository, c.lineage, m.generation, c.providerRoots, c.host) == Ok(r.seal.placement)
    ensures SealOk(r.seal.scopeId, r.seal) && ResidualOk(r) && GenerationCovers(m.generation, r.seal.placement)
  {
  }

  lemma FirstIff(s: Authority, c: Claim, r: Record)
    requires Good(s) && Minted(r, c, r.seal.operations, r.seal.placement, r.seal.scopeId, r.seal.workspaceId)
    requires r.seal.scopeId !in s.scopes && r.seal.attempt !in s.attempts
    requires Resolve(c.policy, c.repository, c.lineage, Observe(s, c.Digest()).generation, c.providerRoots, c.host)
             == Ok(r.seal.placement)
    ensures var after := ProvisionFirst(s, Observe(s, c.Digest()), r);
            && (after.1.Ok? <==> Vacant(s, c, r.seal.placement))
            && (after.1.Ok? ==> after == (Publish(Observe(s, c.Digest()), r), Ok(r)))
  {
    hide Good, IndexInv, IndexChecks;
    var m := Observe(s, c.Digest());
    ObserveKeeps(s, c.Digest());
    if Vacant(s, c, r.seal.placement) {
      MintedIsSealed(m, c, r);
      PublishKeeps(m, r);
      GoodIsIndexed(Publish(m, r));
      IndexChecksPass(Publish(m, r), r.seal.scopeId);
    }
  }

  // ---------- identity, processes and write authority ----------

  predicate IdentityReservable(s: Authority, id: ScopeId, generation: nat, sid: Sid) {
    sid != "" && Live(s, id, generation) && (s.scopes[id].sid.None? || s.scopes[id].sid == Some(sid))
  }

  /** An identity is recorded, together with write authority, on a live scope that has no other one. */
  lemma ReserveIdentityIff(s: Authority, id: ScopeId, generation: nat, sid: Sid)
    requires Good(s)
    ensures var after := ReserveIdentity(s, id, generation, sid);
            if IdentityReservable(s, id, generation, sid)
            then after == Replaced(s, id, s.scopes[id].(state := Active, sid := Some(sid), write := true))
            else after == (s, Err(if sid == "" then InvalidArgument
                                  else if Live(s, id, generation) then Conflict else NotCurrent))
  {
    hide Good, IndexChecks;
    if id in s.scopes {
      GoodIsSound(s, id);
    }
  }

  predicate Bindable(s: Authority, id: ScopeId, generation: nat, sid: Sid, job: string, pid: nat) {
    && job != "" && pid != 0 && Live(s, id, generation)
    && s.scopes[id].sid == Some(sid) && s.scopes[id].write
  }

  /** A process is bound only to a live, writable scope of exactly that identity, and adds its job and pid. */
  lemma BindIff(s: Authority, id: ScopeId, generation: nat, sid: Sid, job: string, pid: nat)
    requires Good(s)
    ensures var after := BindProcess(s, id, generation, sid, job, pid);
            if Bindable(s, id, generation, sid, job, pid)
            then after == Replaced(s, id, s.scopes[id].(jobs := s.scopes[id].jobs + {job},
                                                        pids := s.scopes[id].pids + {pid}))
            else after == (s, Err(if job == "" || pid == 0 then InvalidArgument
                                  else if Live(s, id, generation) then Conflict else NotCurrent))
  {
    hide Good, IndexChecks;
    if id in s.scopes {
      GoodIsSound(s, id);
    }
  }

  /** A process is released from every scope of that name, whatever its state. */
  lemma ReleaseIff(s: Authority, id: ScopeId, generation: nat, job: string, pid: nat)
    requires Good(s)
    ensures var after := ReleaseProcess(s, id, generation, job, pid);
            if Names(s, id, generation)
            then after == Replaced(s, id, s.scopes[id].(jobs := s.scopes[id].jobs - {job},
                                                        pids := s.scopes[id].pids - {pid}))
            else after == (s, Err(NotCurrent))
  {
    hide Good;
    ScopeIdsAgree(s, id);
  }

  predicate WriteClearable(s: Authority, id: ScopeId, generation: nat, sid: Sid) {
    Names(s, id, generation) && s.scopes[id].sid == Some(sid) && s.scopes[id].jobs == {} && s.scopes[id].pids == {}
  }

  lemma ClearWriteIff(s: Authority, id: ScopeId, generation: nat, sid: Sid)
    requires Good(s)
    ensures var after := ClearWrite(s, id, generation, sid);
            if WriteClearable(s, id, generation, sid) then after == Replaced(s, id, s.scopes[id].(write := false))
            else after == (s, Err(if !Names(s, id, generation) then NotCurrent
                                  else if s.scopes[id].sid == Some(sid) then StillActive else Conflict))
  {
    hide Good;
    ScopeIdsAgree(s, id);
  }

  lemma RevokeIff(s: Authority, id: ScopeId, generation: nat)
    requires Good(s)
    ensures var after := Revoke(s, id, generation);
            if !Names(s, id, generation) then after == (s, Err(NotCurrent))
            else if s.scopes[id].state.Terminal? then after == (s, Ok(s.scopes[id]))
            else after == Replaced(s, id, s.scopes[id].(state := Revoked))
  {
    hide Good;
    ScopeIdsAgree(s, id);
  }

  // ---------- markers ----------

  predicate Acting(s: Authority, id: ScopeId, generation: nat) {
    Names(s, id, generation) && s.scopes[id].state.Active?
  }

  predicate Open(s: Authority, id: ScopeId, generation: nat) {
    Names(s, id, generation) && !s.scopes[id].state.Terminal?
  }

  /** An active scope that is writable under this identity. */
  predicate Writable(s: Authority, id: ScopeId, generation: nat, sid: Sid) {
    Acting(s, id, generation) && s.scopes[id].sid == Some(sid) && s.scopes[id].write
  }

  /** A scope of this identity whose markers may still be cleared. */
  predicate Unfinished(s: Authority, id: ScopeId, generation: nat, sid: Sid) {
    Open(s, id, generation) && s.scopes[id].sid == Some(sid)
  }

  /** A root is marked once, whatever its case; one that is marked already keeps its spelling. */
  lemma ReserveRootIff(s: Authority, id: ScopeId, generation: nat, sid: Sid, root: RootPath)
    requires Good(s)
    ensures var after := ReserveRoot(s, id, generation, sid, root);
            if root.text != "" && Writable(s, id, generation, sid)
            then after == Replaced(s, id, if s.scopes[id].MarksRoot(root.fold) then s.scopes[id]
                                          else s.scopes[id].(roots := s.scopes[id].roots + {root}))
            else after == (s, Err(if root.text == "" then InvalidArgument
                                  else if Acting(s, id, generation) then Conflict else NotCurrent))
  {
    hide Good;
    ScopeIdsAgree(s, id);
  }

  /** Clearing takes every spelling of the root and no other root. */
  lemma ClearRootIff(s: Authority, id: ScopeId, generation: nat, sid: Sid, root: RootPath)
    requires Good(s)
    ensures var after := ClearRoot(s, id, generation, sid, root);
            if root.text != "" && Unfinished(s, id, generation, sid)
            then && after.1.Ok? && after == Replaced(s, id, s.scopes[id].(roots := after.1.value.roots))
                 && forall kept :: kept in after.1.value.roots <==> kept in s.scopes[id].roots && kept.fold != root.fold
            else after == (s, Err(if root.text == "" then InvalidArgument
                                  else if Open(s, id, generation) then Conflict else NotCurrent))
  {
    hide Good;
    ScopeIdsAgree(s, id);
  }

  predicate SessionReservable(s: Authority, id: ScopeId, generation: nat, sid: Sid, binding: SessionBinding) {
    Writable(s, id, generation, sid) && (s.scopes[id].session.None? || s.scopes[id].session == Some(binding))
  }

  /** A Session-0 binding is recorded on a writable scope that holds no other binding. */
  lemma ReserveSessionIff(s: Authority, id: ScopeId, generation: nat, sid: Sid, binding: SessionBinding)
    requires Good(s)
    ensures var after := ReserveSession(s, id, generation, sid, binding);
            if SessionReservable(s, id, generation, sid, binding)
            then after == Replaced(s, id, s.scopes[id].(session := Some(binding)))
            else after == (s, Err(if Acting(s, id, generation) then Conflict else NotCurrent))
  {
    hide Good;
    ScopeIdsAgree(s, id);
  }

  predicate SessionClearable(s: Authority, id: ScopeId, generation: nat, sid: Sid, binding: SessionBinding) {
    Unfinished(s, id, generation, sid) && s.scopes[id].session == Some(binding)
  }

  /** Only the recorded binding is cleared. */
  lemma ClearSessionIff(s: Authority, id: ScopeId, generation: nat, sid: Sid, binding: SessionBinding)
    requires Good(s)
    ensures var after := ClearSession(s, id, generation, sid, binding);
            if SessionClearable(s, id, generation, sid, binding)
            then after == Replaced(s, id, s.scopes[id].(session := None))
            else after == (s, Err(if Open(s, id, generation) then Conflict else NotCurrent))
  {
    hide Good;
    ScopeIdsAgree(s, id);
  }

  // ---------- terminalization ----------

  /** The binding that a terminalizing call has to present. */
  predicate Terminalizable(s: Authority, id: ScopeId, generation: nat, c: Claim) {
    && Open(s, id, generation)
    && s.scopes[id].seal.placement.repository == c.repository && s.scopes[id].seal.placement.lineage == c.lineage
  }

  /** The first phase ends a scope without authority at once. One that holds authority is revoked and handed
      to cleanup; without a cleanup its end is refused and the record stays as it was. */
  lemma BeginIff(s: Authority, id: ScopeId, generation: nat, c: Claim, hasCleanup: bool)
    requires Good(s)
    ensures var after := TerminalizeBegin(s, id, generation, c, hasCleanup);
            var m := Observe(s, c.Digest());
            if !Terminalizable(s, id, generation, c)
            then after == (s, Err(if !Open(s, id, generation) then NotCurrent
                                  else if s.scopes[id].seal.placement.repository == c.repository && !c.lineage.Complete()
                                  then InvalidArgument else BindingMismatch))
            else var r := s.scopes[id];
              if !r.HoldsAuthority() then after == Replaced(m, id, r.(state := Terminal, terminalizedAt := Some(c.now)))
              else if hasCleanup then after == Replaced(m, id, r.(state := Revoked))
              else after == (m, Err(if r.jobs == {} && r.pids == {} then ResidualAuthority else StillActive))
  {
    hide Good, Sound, SealOk, ValidateSealed, DigestOf;
    if id in s.scopes {
      GoodIsSealed(s, id);
      ScopeIdsAgree(s, id);
      ObservedIsSound(s, id, c.Digest());
      SealedBindingIff(Observe(s, c.Digest()), id, c.repository, c.lineage);
    }
  }

  predicate EmptyClosure(closure: Closure, sid: Option<Sid>) {
    && closure.sid == sid && closure.jobs == {} && closure.pids == {} && !closure.write
    && closure.roots == {} && closure.session.None?
  }

  predicate Committable(s: Authority, id: ScopeId, generation: nat, c: Claim, cleanup: Record, closure: Closure) {
    && EmptyClosure(closure, cleanup.sid) && Terminalizable(s, id, generation, c)
    && s.scopes[id].state.Revoked? && s.scopes[id].seal == cleanup.seal
  }

  /** The second phase ends exactly a scope that is still revoked, under the seal handed to cleanup, on an
      empty closure for its identity. */
  lemma CommitIff(s: Authority, id: ScopeId, generation: nat, c: Claim, cleanup: Record, closure: Closure)
    requires Good(s)
    ensures var after := TerminalizeCommit(s, id, generation, c, cleanup, closure);
            if Committable(s, id, generation, c, cleanup, closure)
            then after == Replaced(s, id, s.scopes[id].(state := Terminal, jobs := {}, pids := {}, write := false, roots := {},
                                                        session := None, terminalizedAt := Some(c.now)))
            else after.0 == s && after.1.Err?
  {
    hide Good, Sound, SealOk, ValidateSealed, Contested;
    if id in s.scopes {
      GoodIsSealed(s, id);
      ScopeIdsAgree(s, id);
      SealedBindingIff(s, id, c.repository, c.lineage);
      var op := DoTerminalizeCommit(id, generation, c, cleanup, closure);
      CommitMoves(s, op);
    }
  }
}
