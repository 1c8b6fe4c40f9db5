/** The store object: every method is one locked load, change in memory, and durable write. */
module MutationScopeStore {
  import opened Wrappers
  import opened Placement
  import opened MutationScope
  import opened MutationScopeLaws
  import opened MutationScopeRuns
  import opened MutationScopeExact

  class Store {
    /** The contents of the authority file; replacing it is atomic. */
    var durable: Authority

    ghost predicate Valid()
      reads this
    {
      Good(durable)
    }

    constructor ()
      ensures Valid() && durable == EMPTY_AUTHORITY
    {
      durable := EMPTY_AUTHORITY;
    }

    /** A restarted process finds whatever state the authority file holds. */
    constructor Load(state: Authority)
      requires Good(state)
      ensures Valid() && durable == state
    {
      durable := state;
    }

    /** The shared body of revalidation, on a loaded state. A drifted generation is written at once. */
    method RevalidateLoaded(state: Authority, record: Record, c: Claim) returns (memory: Authority, reply: Reply)
      modifies this
      ensures var v := RevalidateLocked(state, record, c);
              memory == v.memory && reply == v.reply && durable == if v.flushed then v.memory else old(durable)
    {
      memory := state;
      var current := record;
      if record.Current() && record.seal.expiresAt <= c.now {
        current := record.(state := Expired, terminalizedAt := Some(c.now));
        memory := Put(memory, current);
      }
      if !current.Current() {
        return memory, Err(NotCurrent);
      }
      var observed := Observe(memory, c.Digest());
      if observed.generation != memory.generation {
        memory := observed;
        durable := memory;
      }
      var refusal := Admission(memory, current, c);
      if refusal.Some? {
        return memory, Err(refusal.value);
      }
      reply := Ok(current);
    }

    method ProvisionScope(c: Claim, operations: set<string>, freshId: ScopeId, workspaceId: string) returns (reply: Reply)
      requires Valid() && freshId !in durable.scopes
      modifies this
      ensures (durable, reply) == Provision(old(durable), c, operations, freshId, workspaceId)
      ensures reply.Ok? <==> Provisionable(old(durable), c, operations)
      ensures Valid()
    {
      hide Good;
      StepGood(durable, DoProvision(c, operations, freshId, workspaceId));
      ProvisionIff(durable, c, operations, freshId, workspaceId);
      if operations == {} {
        return Err(InvalidArgument);
      }
      var state := Observe(durable, c.Digest());
      var placed := Resolve(c.policy, c.repository, c.lineage, state.generation, c.providerRoots, c.host);
      if placed.Err? {
        return Err(PlacementFailed(placed.error));
      }
      var e := placed.value;
      if Overlaps(c.host.authorityRoot, e.workspace) {
        durable := state;
        return Err(Conflict);
      }
      var record := Mint(c, operations, freshId, workspaceId, e);
      if record.seal.attempt in state.attempts {
        reply := Retry(state, state.attempts[record.seal.attempt], c, record);
        return;
      }
      if record.seal.lease in state.leases {
        durable := state;
        return Err(LeaseWithoutAttempt);
      }
      if e.workspace in state.workspaces {
        return Err(if state.workspaces[e.workspace].lease != record.seal.lease then WorkspaceSealed else WorkspaceWithoutLease);
      }
      state := state.(scopes := state.scopes[freshId := record]);
      state := state.(leases := state.leases[record.seal.lease := freshId]);
      state := state.(attempts := state.attempts[record.seal.attempt := freshId]);
      state := state.(workspaces := state.workspaces[e.workspace := WorkspaceEntry(record.seal.lease, freshId)]);
      var refusal := IndexChecks(state, record);
      if refusal.Some? {
        return Err(refusal.value);
      }
      durable := state;
      reply := Ok(record);
    }

    method Retry(state: Authority, id: ScopeId, c: Claim, draft: Record) returns (reply: Reply)
      modifies this
      ensures (durable, reply) == if id !in state.scopes then (old(durable), Err(NotCurrent)) else
        ProvisionAgain(old(durable), state, state.scopes[id], c, draft.seal.operations, draft.seal.placement)
    {
      if id !in state.scopes {
        return Err(NotCurrent);
      }
      var existing := state.scopes[id];
      var e := draft.seal.placement;
      if existing.seal.attempt != AttemptKey(e.repository, c.lineage) {
        return Err(Conflict);
      }
      var sealed := existing.seal.placement;
      if existing.seal.lease != LeaseKeyFor(e.repository, c.lineage, e.generation, e.workspace)
        || sealed.workspace != e.workspace || sealed.repository != e.repository || sealed.lineage != e.lineage
        || sealed.generation != e.generation || sealed.policy != e.policy
      {
        durable := state;
        return Err(BindingMismatch);
      }
      var memory;
      memory, reply := RevalidateLoaded(state, existing, c);
      if reply == Err(NotCurrent) {
        durable := memory;
      } else if reply.Ok? {
        if reply.value.seal.operations != draft.seal.operations {
          return Err(Conflict);
        }
        durable := memory;
      }
    }

    method Revalidated(id: ScopeId, generation: nat, c: Claim) returns (reply: Reply)
      requires Valid()
      modifies this
      ensures (durable, reply) == RevalidateScope(old(durable), id, generation, c)
      ensures reply.Ok? <==> Admissible(old(durable), id, generation, c)
      ensures Valid()
    {
      hide Good;
      StepGood(durable, DoRevalidate(id, generation, c, None));
      RevalidateIff(durable, id, generation, c);
      reply := Lookup(durable, id, generation);
      if reply.Ok? {
        var memory;
        memory, reply := RevalidateLoaded(durable, reply.value, c);
        if reply == Err(NotCurrent) {
          durable := memory;
        }
      }
    }

    method RevalidatedForOperation(id: ScopeId, generation: nat, c: Claim, operation: string) returns (reply: Reply)
      requires Valid()
      modifies this
      ensures (durable, reply) == RevalidateForOperation(old(durable), id, generation, c, operation)
      ensures reply.Ok? <==> operation != "" && Admissible(old(durable), id, generation, c)
                             && operation in old(durable).scopes[id].seal.operations
      ensures Valid()
    {
      hide Good, RevalidateScope;
      OperationIff(durable, id, generation, c, operation);
      if operation == "" {
        return Err(InvalidArgument);
      }
      reply := Revalidated(id, generation, c);
      if reply.Ok? && operation !in reply.value.seal.operations {
        reply := Err(OperationNotAllowed);
      }
    }

    method ReserveSandboxIdentity(id: ScopeId, generation: nat, sid: Sid) returns (reply: Reply)
      requires Valid()
      modifies this
      ensures (durable, reply) == ReserveIdentity(old(durable), id, generation, sid)
      ensures reply.Ok? <==> IdentityReservable(old(durable), id, generation, sid)
      ensures Valid()
    {
      hide Good;
      StepGood(durable, DoReserveIdentity(id, generation, sid));
      ReserveIdentityIff(durable, id, generation, sid);
      if sid == "" {
        return Err(InvalidArgument);
      }
      reply := Lookup(durable, id, generation);
      if reply.Err? {
        return;
      }
      var record := reply.value;
      if !record.Current() {
        return Err(NotCurrent);
      }
      var refusal := IndexChecks(durable, record);
      if refusal.Some? {
        return Err(refusal.value);
      }
      if record.sid.Some? && record.sid != Some(sid) {
        return Err(Conflict);
      }
      record := record.(state := Active, sid := Some(sid), write := true);
      durable := Put(durable, record);
      reply := Ok(record);
    }

    method BindRuntimeProcess(id: ScopeId, generation: nat, sid: Sid, job: string, pid: nat) returns (reply: Reply)
      requires Valid()
      modifies this
      ensures (durable, reply) == BindProcess(old(durable), id, generation, sid, job, pid)
      ensures reply.Ok? <==> Bindable(old(durable), id, generation, sid, job, pid)
      ensures Valid()
    {
      hide Good;
      StepGood(durable, DoBind(id, generation, sid, job, pid));
      BindIff(durable, id, generation, sid, job, pid);
      if job == "" || pid == 0 {
        return Err(InvalidArgument);
      }
      reply := Lookup(durable, id, generation);
      if reply.Err? {
        return;
      }
      var record := reply.value;
      if !record.Current() {
        return Err(NotCurrent);
      }
      if record.sid != Some(sid) || !record.write {
        return Err(Conflict);
      }
      var refusal := IndexChecks(durable, record);
      if refusal.Some? {
        return Err(refusal.value);
      }
      record := record.(jobs := record.jobs + {job});
      record := record.(pids := record.pids + {pid});
      durable := Put(durable, record);
      reply := Ok(record);
    }

    method ReleaseRuntimeProcess(id: ScopeId, generation: nat, job: string, pid: nat) returns (reply: Reply)
      requires Valid()
      modifies this
      ensures (durable, reply) == ReleaseProcess(old(durable), id, generation, job, pid)
      ensures reply.Ok? <==> Names(old(durable), id, generation)
      ensures Valid()
    {
      hide Good;
      StepGood(durable, DoRelease(id, generation, job, pid));
      ReleaseIff(durable, id, generation, job, pid);
      reply := Lookup(durable, id, generation);
      if reply.Ok? {
        var record := reply.value;
        record := record.(jobs := record.jobs - {job});
        record := record.(pids := record.pids - {pid});
        durable := Put(durable, record);
        reply := Ok(record);
      }
    }

    method ReserveRuntimeRead(id: ScopeId, generation: nat, sid: Sid, root: RootPath) returns (reply: Reply)
      requires Valid()
      modifies this
      ensures (durable, reply) == ReserveRoot(old(durable), id, generation, sid, root)
      ensures reply.Ok? <==> root.text != "" && Writable(old(durable), id, generation, sid)
      ensures Valid()
    {
      hide Good;
      StepGood(durable, DoReserveRoot(id, generation, sid, root));
      ReserveRootIff(durable, id, generation, sid, root);
      if root.text == "" {
        return Err(InvalidArgument);
      }
      reply := Lookup(durable, id, generation);
      if reply.Err? {
        return;
      }
      var record := reply.value;
      if !record.state.Active? {
        return Err(NotCurrent);
      }
      if record.sid != Some(sid) || !record.write {
        return Err(Conflict);
      }
      if !record.MarksRoot(root.fold) {
        record := record.(roots := record.roots + {root});
      }
      durable := Put(durable, record);
      reply := Ok(record);
    }

    method ClearRuntimeRead(id: ScopeId, generation: nat, sid: Sid, root: RootPath) returns (reply: Reply)
      requires Valid()
      modifies this
      ensures (durable, reply) == ClearRoot(old(durable), id, generation, sid, root)
      ensures reply.Ok? <==> root.text != "" && Unfinished(old(durable), id, generation, sid)
      ensures Valid()
    {
      hide Good;
      StepGood(durable, DoClearRoot(id, generation, sid, root));
      ClearRootIff(durable, id, generation, sid, root);
      if root.text == "" {
        return Err(InvalidArgument);
      }
      reply := Lookup(durable, id, generation);
      if reply.Err? {
        return;
      }
      var record := reply.value;
      if record.state.Terminal? {
        return Err(NotCurrent);
      }
      if record.sid != Some(sid) {
        return Err(Conflict);
      }
      record := record.(roots := set kept | kept in record.roots && kept.fold != root.fold);
      durable := Put(durable, record);
      reply := Ok(record);
    }

    method ReserveSessionRead(id: ScopeId, generation: nat, sid: Sid, binding: SessionBinding) returns (reply: Reply)
      requires Valid()
      modifies this
      ensures (durable, reply) == ReserveSession(old(durable), id, generation, sid, binding)
      ensures reply.Ok? <==> SessionReservable(old(durable), id, generation, sid, binding)
      ensures Valid()
    {
      hide Good;
      StepGood(durable, DoReserveSession(id, generation, sid, binding));
      ReserveSessionIff(durable, id, generation, sid, binding);
      reply := Lookup(durable, id, generation);
      if reply.Err? {
        return;
      }
      var record := reply.value;
      if !record.state.Active? {
        return Err(NotCurrent);
      }
      if record.sid != Some(sid) || !record.write {
        return Err(Conflict);
      }
      if record.session.Some? && record.session.value != binding {
        return Err(Conflict);
      }
      record := record.(session := Some(binding));
      durable := Put(durable, record);
      reply := Ok(record);
    }

    method ClearSessionRead(id: ScopeId, generation: nat, sid: Sid, binding: SessionBinding) returns (reply: Reply)
      requires Valid()
      modifies this
      ensures (durable, reply) == ClearSession(old(durable), id, generation, sid, binding)
      ensures reply.Ok? <==> SessionClearable(old(durable), id, generation, sid, binding)
      ensures Valid()
    {
      hide Good;
      StepGood(durable, DoClearSession(id, generation, sid, binding));
      ClearSessionIff(durable, id, generation, sid, binding);
      reply := Lookup(durable, id, generation);
      if reply.Err? {
        return;
      }
      var record := reply.value;
      if record.state.Terminal? {
        return Err(NotCurrent);
      }
      if record.sid != Some(sid) || record.session != Some(binding) {
        return Err(Conflict);
      }
      record := record.(session := None);
      durable := Put(durable, record);
      reply := Ok(record);
    }

    method ClearWriteAuthority(id: ScopeId, generation: nat, sid: Sid) returns (reply: Reply)
      requires Valid()
      modifies this
      ensures (durable, reply) == ClearWrite(old(durable), id, generation, sid)
      ensures reply.Ok? <==> WriteClearable(old(durable), id, generation, sid)
      ensures Valid()
    {
      hide Good;
      StepGood(durable, DoClearWrite(id, generation, sid));
      ClearWriteIff(durable, id, generation, sid);
      reply := Lookup(durable, id, generation);
      if reply.Err? {
        return;
      }
      var record := reply.value;
      if record.sid != Some(sid) {
        return Err(Conflict);
      }
      if record.jobs != {} || record.pids != {} {
        return Err(StillActive);
      }
      record := record.(write := false);
      durable := Put(durable, record);
      reply := Ok(record);
    }

    method RevokeScope(id: ScopeId, generation: nat) returns (reply: Reply)
      requires Valid()
      modifies this
      ensures (durable, reply) == Revoke(old(durable), id, generation)
      ensures reply.Ok? <==> Names(old(durable), id, generation)
      ensures Valid()
    {
      hide Good;
      StepGood(durable, DoRevoke(id, generation));
      RevokeIff(durable, id, generation);
      reply := Lookup(durable, id, generation);
      if reply.Ok? && !reply.value.state.Terminal? {
        var record := reply.value.(state := Revoked);
        durable := Put(durable, record);
        reply := Ok(record);
      }
    }

    /** First phase: revokes admission, or closes at once a scope that holds no runtime authority. */
    method BeginTerminalization(id: ScopeId, generation: nat, c: Claim, hasCleanup: bool) returns (reply: Reply)
      requires Valid()
      modifies this
      ensures (durable, reply) == TerminalizeBegin(old(durable), id, generation, c, hasCleanup)
      ensures reply.Ok? <==> Terminalizable(old(durable), id, generation, c)
                             && (hasCleanup || !old(durable).scopes[id].HoldsAuthority())
      ensures Valid()
    {
      hide Good;
      StepGood(durable, DoTerminalizeBegin(id, generation, c, hasCleanup));
      BeginIff(durable, id, generation, c, hasCleanup);
      if id !in durable.scopes {
        return Err(NotCurrent);
      }
      var record := durable.scopes[id];
      var state := Observe(durable, c.Digest());
      if record.seal.generation != generation {
        return Err(NotCurrent);
      }
      var refusal := ValidateSealed(state, record, c.repository, c.lineage);
      if refusal.Some? {
        return Err(refusal.value);
      }
      durable := state;
      if !record.HoldsAuthority() {
        record := record.(state := Terminal, terminalizedAt := Some(c.now));
      } else if !hasCleanup {
        return Err(if record.jobs != {} || record.pids != {} then StillActive else ResidualAuthority);
      } else {
        record := record.(state := Revoked);
      }
      durable := Put(durable, record);
      reply := Ok(record);
    }

    /** Second phase: publishes terminal success only on an empty closure of the same sealed scope. */
    method CommitTerminalization(id: ScopeId, generation: nat, c: Claim, cleanup: Record, closure: Closure) returns (reply: Reply)
      requires Valid()
      modifies this
      ensures (durable, reply) == TerminalizeCommit(old(durable), id, generation, c, cleanup, closure)
      ensures reply.Ok? <==> Committable(old(durable), id, generation, c, cleanup, closure)
      ensures Valid()
    {
      hide Good;
      StepGood(durable, DoTerminalizeCommit(id, generation, c, cleanup, closure));
      CommitIff(durable, id, generation, c, cleanup, closure);
      var refusal := ClosureChecks(cleanup, closure);
      if refusal.Some? {
        return Err(refusal.value);
      }
      reply := Lookup(durable, id, generation);
      if reply.Err? {
        return;
      }
      var record := reply.value;
      refusal := ValidateSealed(durable, record, c.repository, c.lineage);
      if refusal.Some? {
        return Err(refusal.value);
      }
      if !record.state.Revoked? || record.seal != cleanup.seal {
        return Err(TerminalizationFailed);
      }
      record := record.(state := Terminal, jobs := closure.jobs, pids := closure.pids, write := closure.write,
                        roots := closure.roots, session := closure.session, terminalizedAt := Some(c.now));
      durable := Put(durable, record);
      reply := if Contested(durable, record) then Err(TerminalizationFailed) else Ok(record);
    }
  }
}
