/** What one transaction of the mutation-scope store undoes of another, and what it leaves alone. */
module MutationScopeUndo {
  import opened Wrappers
  import opened Placement
  import opened MutationScope
  import opened MutationScopeLaws
  import opened MutationScopeRuns
  import opened MutationScopeExact

  lemma PutBack(s: Authority, r: Record, t: Record)
    requires r.seal.scopeId in s.scopes && s.scopes[r.seal.scopeId] == r && t.seal.scopeId == r.seal.scopeId
    ensures Put(Put(s, t), r) == s
    ensures Put(Put(s, t), t) == s <==> t == r
  {
    assert Put(Put(s, t), r).scopes == s.scopes;
    assert Put(Put(s, t), t).scopes[r.seal.scopeId] == t;
  }

  /** Releasing a process undoes its binding exactly when neither its job nor its pid was bound before. */
  lemma ReleaseUndoesBindIff(s: Authority, id: ScopeId, generation: nat, sid: Sid, job: string, pid: nat)
    requires Good(s) && BindProcess(s, id, generation, sid, job, pid).1.Ok?
    ensures ReleaseProcess(BindProcess(s, id, generation, sid, job, pid).0, id, generation, job, pid).0 == s
       <==> job !in s.scopes[id].jobs && pid !in s.scopes[id].pids
  {
    hide Good, IndexChecks;
    ScopeIdsAgree(s, id);
    var r := s.scopes[id];
    var bound := r.(jobs := r.jobs + {job}, pids := r.pids + {pid});
    var released := bound.(jobs := bound.jobs - {job}, pids := bound.pids - {pid});
    PutBack(s, r, bound);
    assert Put(Put(s, bound), released).scopes[id] == released;
    assert released == r <==> job !in r.jobs && pid !in r.pids;
  }

  /** Clearing a root undoes its reservation exactly when no spelling of the root was marked before. */
  lemma ClearUndoesReserveRootIff(s: Authority, id: ScopeId, generation: nat, sid: Sid, root: RootPath)
    requires Good(s) && ReserveRoot(s, id, generation, sid, root).1.Ok?
    ensures ClearRoot(ReserveRoot(s, id, generation, sid, root).0, id, generation, sid, root).0 == s
       <==> !s.scopes[id].MarksRoot(root.fold)
  {
    hide Good, IndexChecks;
    ScopeIdsAgree(s, id);
    var r := s.scopes[id];
    var reserved := r.(roots := if r.MarksRoot(root.fold) then r.roots else r.roots + {root});
    var cleared := reserved.(roots := set kept | kept in reserved.roots && kept.fold != root.fold);
    PutBack(s, r, reserved);
    assert Put(Put(s, reserved), cleared).scopes[id] == cleared;
    if r.MarksRoot(root.fold) {
      var marked :| marked in r.roots && marked.fold == root.fold;
      assert marked !in cleared.roots;
    } else {
      assert cleared.roots == r.roots;
    }
  }

  /** Clearing a Session-0 binding undoes its reservation exactly when none was recorded before. */
  lemma ClearUndoesReserveSessionIff(s: Authority, id: ScopeId, generation: nat, sid: Sid, binding: SessionBinding)
    requires Good(s) && ReserveSession(s, id, generation, sid, binding).1.Ok?
    ensures ClearSession(ReserveSession(s, id, generation, sid, binding).0, id, generation, sid, binding).0 == s
       <==> s.scopes[id].session.None?
  {
    hide Good, IndexChecks;
    ScopeIdsAgree(s, id);
    var r := s.scopes[id];
    var reserved := r.(session := Some(binding));
    var cleared := reserved.(session := None);
    PutBack(s, r, reserved);
    assert Put(Put(s, reserved), cleared).scopes[id] == cleared;
  }

  /** The scopes are the same ones, and every other scope and all three indexes are as they were. */
  ghost predicate SameBut(s: Authority, t: Authority, id: ScopeId) {
    && s.scopes.Keys == t.scopes.Keys && s.scopes - {id} == t.scopes - {id}
    && t.leases == s.leases && t.attempts == s.attempts && t.workspaces == s.workspaces
  }

  /** A transaction on one scope leaves every other scope and all three indexes as they were; only
      provisioning touches an index. */
  lemma OthersUntouched(s: Authority, op: StoreOp)
    requires Good(s) && !op.DoProvision?
    ensures SameBut(s, Apply(s, op).0, op.id)
  {
    if op.id in s.scopes {
      GoodIsSound(s, op.id);
    }
    if op.DoRevalidate? {
      RevalidateStepUntouched(s, op);
    } else if op.DoTerminalizeBegin? {
      BeginStepUntouched(s, op);
    } else {
      MoveStepUntouched(s, op);
    }
  }

  lemma RevalidateStepUntouched(s: Authority, op: StoreOp)
    requires op.DoRevalidate? && (op.id in s.scopes ==> Sound(s, op.id))
    ensures SameBut(s, Apply(s, op).0, op.id)
  {
    RevalidateUntouched(s, op.id, op.generation, op.c);
  }

  lemma BeginStepUntouched(s: Authority, op: StoreOp)
    requires op.DoTerminalizeBegin? && (op.id in s.scopes ==> Sound(s, op.id))
    ensures SameBut(s, Apply(s, op).0, op.id)
  {
    TransactionMoves(s, op);
    MoveUntouched(s, op.id, Observe(s, op.c.Digest()), Apply(s, op), true);
  }

  lemma MoveStepUntouched(s: Authority, op: StoreOp)
    requires !op.DoProvision? && !op.DoRevalidate? && !op.DoTerminalizeBegin?
    requires op.id in s.scopes ==> Sound(s, op.id)
    ensures SameBut(s, Apply(s, op).0, op.id)
  {
    TransactionMoves(s, op);
    MoveUntouched(s, op.id, s, Apply(s, op), !Clears(op));
  }

  lemma MoveUntouched(s: Authority, id: ScopeId, m: Authority, after: (Authority, Reply), keep: bool)
    requires m.scopes == s.scopes && m.leases == s.leases && m.attempts == s.attempts && m.workspaces == s.workspaces
    requires Moves(m, id, after, keep) || (!Torn(after.1) && after.0 == s)
    ensures SameBut(s, after.0, id)
  {
  }

  lemma RevalidateUntouched(s: Authority, id: ScopeId, generation: nat, c: Claim)
    requires id in s.scopes ==> Sound(s, id)
    ensures SameBut(s, RevalidateScope(s, id, generation, c).0, id)
  {
    RevalidateMoves(s, id, generation, c);
    var after := RevalidateScope(s, id, generation, c);
    if Moves(s, id, after, true) {
      MoveUntouched(s, id, s, after, true);
    }
  }

  // ---------- provisioning again ----------

  /** What a successful provisioning leaves behind. */
  ghost predicate Provisioned(t: Authority, c: Claim, operations: set<string>, r: Record) {
    && t.generation.Some? && t == Observe(t, c.Digest())
    && r.seal.scopeId in t.scopes && t.scopes[r.seal.scopeId] == r && r.Current()
    && Resolve(c.policy, c.repository, c.lineage, t.generation, c.providerRoots, c.host) == Ok(r.seal.placement)
    && r.seal.operations == operations && operations != {}
    && !Overlaps(c.host.authorityRoot, r.seal.placement.workspace)
    && AttemptKey(r.seal.placement.repository, c.lineage) == r.seal.attempt
  }

  /** A scope at the placement derived now was minted under the stored policy: observing it changes nothing. */
  lemma DerivedIsObserved(s: Authority, c: Claim, e: Evidence)
    requires GenerationCovers(s.generation, e)
    requires Resolve(c.policy, c.repository, c.lineage, Observe(s, c.Digest()).generation, c.providerRoots, c.host) == Ok(e)
    ensures Observe(s, c.Digest()) == s
  {
    hide DigestOf;
  }

  lemma ProvisionSucceeds(s: Authority, c: Claim, operations: set<string>, freshId: ScopeId, workspaceId: string)
    requires Good(s) && freshId !in s.scopes && Provision(s, c, operations, freshId, workspaceId).1.Ok?
    ensures var (t, reply) := Provision(s, c, operations, freshId, workspaceId);
            Good(t) && Provisioned(t, c, operations, reply.value)
  {
    hide Good, Provision, Resolve, DigestOf;
    ProvisionGood(s, c, operations, freshId, workspaceId);
    ProvisionIff(s, c, operations, freshId, workspaceId);
    var key := AttemptKey(c.repository, c.lineage);
    if key in s.attempts {
      GoodIsSealed(s, s.attempts[key]);
      GoodIsCovered(s, s.attempts[key]);
      DerivedIsObserved(s, c, s.scopes[s.attempts[key]].seal.placement);
    }
  }

  lemma ProvisionGood(s: Authority, c: Claim, operations: set<string>, freshId: ScopeId, workspaceId: string)
    requires Good(s) && freshId !in s.scopes
    ensures Good(Provision(s, c, operations, freshId, workspaceId).0)
  {
    hide Good, Provision;
    ProvisionKeeps(s, c, operations, freshId, workspaceId);
  }

  lemma ProvisionedIsSealed(t: Authority, c: Claim, operations: set<string>, r: Record)
    requires Good(t) && Provisioned(t, c, operations, r)
    ensures Sound(t, r.seal.scopeId) && SealOk(r.seal.scopeId, r.seal) && GenerationCovers(t.generation, r.seal.placement)
    ensures r.seal.attempt in t.attempts && t.attempts[r.seal.attempt] == r.seal.scopeId
  {
    GoodIsSound(t, r.seal.scopeId);
    assert Seals(t)[r.seal.scopeId] == r.seal;
  }

  lemma SealedReadmits(t: Authority, c: Claim, operations: set<string>, r: Record)
    requires Provisioned(t, c, operations, r) && Sound(t, r.seal.scopeId) && SealOk(r.seal.scopeId, r.seal)
    requires GenerationCovers(t.generation, r.seal.placement)
    ensures r.seal.lease == LeaseKeyFor(r.seal.placement.repository, c.lineage, r.seal.placement.generation, r.seal.placement.workspace)
    ensures var v := RevalidateLocked(t, r, c);
            (v.reply == Ok(r) <==> c.now < r.seal.expiresAt) && (v.reply == Ok(r) ==> v.memory == t)
  {
    LockedMoves(t, r.seal.scopeId, c);
    AdmissionIff(t, r.seal.scopeId, c);
  }

  lemma ProvisionedAnswers(t: Authority, c: Claim, operations: set<string>, r: Record, freshId: ScopeId, workspaceId: string)
    requires Good(t) && Provisioned(t, c, operations, r)
    ensures Provision(t, c, operations, freshId, workspaceId) == (t, Ok(r)) <==> c.now < r.seal.expiresAt
  {
    ProvisionedIsSealed(t, c, operations, r);
    SealedReadmits(t, c, operations, r);
    ReadmittedAnswers(t, c, operations, r, freshId, workspaceId);
  }

  lemma ReadmittedAnswers(t: Authority, c: Claim, operations: set<string>, r: Record, freshId: ScopeId, workspaceId: string)
    requires Provisioned(t, c, operations, r)
    requires r.seal.attempt in t.attempts && t.attempts[r.seal.attempt] == r.seal.scopeId
    requires r.seal.lease == LeaseKeyFor(r.seal.placement.repository, c.lineage, r.seal.placement.generation, r.seal.placement.workspace)
    requires RevalidateLocked(t, r, c).reply == Ok(r) ==> RevalidateLocked(t, r, c).memory == t
    ensures Provision(t, c, operations, freshId, workspaceId) == (t, Ok(r)) <==> RevalidateLocked(t, r, c).reply == Ok(r)
  {
    var minted := Mint(c, operations, freshId, workspaceId, r.seal.placement);
    assert Provision(t, c, operations, freshId, workspaceId) == ProvisionPlaced(t, t, c, minted);
    assert minted.seal.attempt == r.seal.attempt;
  }

  /** Repeating a successful provisioning answers with the same scope and changes nothing, exactly while
      the scope has not expired, whatever fresh names the second call draws. */
  lemma ProvisionRepeatsIff(s: Authority, c: Claim, operations: set<string>, freshId: ScopeId, workspaceId: string,
                            otherId: ScopeId, otherWorkspaceId: string)
    requires Good(s) && freshId !in s.scopes && Provision(s, c, operations, freshId, workspaceId).1.Ok?
    ensures var (t, reply) := Provision(s, c, operations, freshId, workspaceId);
            Provision(t, c, operations, otherId, otherWorkspaceId) == (t, reply) <==> c.now < reply.value.seal.expiresAt
  {
    ProvisionSucceeds(s, c, operations, freshId, workspaceId);
    var (t, reply) := Provision(s, c, operations, freshId, workspaceId);
    ProvisionedAnswers(t, c, operations, reply.value, otherId, otherWorkspaceId);
  }
}
