/** The durable mutation-scope authority: its records, its four coupled indexes, and every
    transaction of the store as a function from one durable state to the next. */
module MutationScope {
  import opened Wrappers
  import opened Placement

  type ScopeId = string
  type Sid = string

  datatype Lifecycle = Provisioned | Active | Expired | Revoked | Terminal

  /** A runtime root as it was spelled, with its case-folded form. */
  datatype RootPath = RootPath(text: string, fold: string)

  datatype SessionBinding = SessionBinding(station: string, desktop: string, stationMask: nat, desktopMask: nat)

  /** The immutable payload that a scope digest covers. */
  datatype Seal = Seal(
    workspaceId: string,
    scopeId: ScopeId,
    generation: nat,
    lease: LeaseKey,
    attempt: AttemptKey,
    placement: Evidence,
    operations: set<string>,
    issuedAt: int,
    expiresAt: int)

  datatype Record = Record(
    seal: Seal,
    state: Lifecycle,
    sid: Option<Sid>,
    jobs: set<string>,
    pids: set<nat>,
    write: bool,
    roots: set<RootPath>,
    session: Option<SessionBinding>,
    terminalizedAt: Option<int>)
  {
    predicate Current() {
      state.Provisioned? || state.Active?
    }

    predicate HoldsAuthority() {
      jobs != {} || pids != {} || write || roots != {} || session.Some?
    }

    predicate MarksRoot(fold: string) {
      exists root | root in roots :: root.fold == fold
    }
  }

  /** The operating-system read-back that cleanup hands to terminalization. */
  datatype Closure = Closure(
    sid: Option<Sid>,
    jobs: set<string>,
    pids: set<nat>,
    write: bool,
    roots: set<RootPath>,
    session: Option<SessionBinding>)

  datatype WorkspaceEntry = WorkspaceEntry(lease: LeaseKey, scopeId: ScopeId)

  datatype Authority = Authority(
    scopes: map<ScopeId, Record>,
    leases: map<LeaseKey, ScopeId>,
    attempts: map<AttemptKey, ScopeId>,
    workspaces: map<Path, WorkspaceEntry>,
    generation: Option<Generation>)

  const EMPTY_AUTHORITY := Authority(map[], map[], map[], map[], None)

  datatype StoreError =
    | NotCurrent
    | BindingMismatch
    | Conflict
    | IndexMismatch
    | CompetingScope
    | LeaseWithoutAttempt
    | WorkspaceSealed
    | WorkspaceWithoutLease
    | OperationNotAllowed
    | StillActive
    | ResidualAuthority
    | TerminalizationFailed
    | PlacementFailed(cause: PlacementError)
    | InvalidArgument

  type Reply = Result<Record, StoreError>

  /** What a caller presents for admission, with the host and the clock it is judged under. */
  datatype Claim = Claim(
    policy: Policy, repository: string, lineage: Lineage, providerRoots: seq<Path>, host: Host, now: int)
  {
    function Digest(): PolicyDigest {
      DigestOf(policy, host)
    }
  }

  // ---------- shared steps of the transactions ----------

  function Put(s: Authority, r: Record): Authority {
    s.(scopes := s.scopes[r.seal.scopeId := r])
  }

  function Lookup(s: Authority, id: ScopeId, generation: nat): Reply {
    if id !in s.scopes then Err(NotCurrent)
    else if s.scopes[id].seal.generation != generation then Err(NotCurrent)
    else Ok(s.scopes[id])
  }

  /** The host-wide generation after observing a policy: the first policy is generation 1, and each one that
      differs from the stored one adds 1. */
  function Observe(s: Authority, digest: PolicyDigest): (m: Authority)
    ensures m == s.(generation := m.generation) && m.generation.Some? && m.generation.value.policy == digest
    ensures s.generation.None? ==> m.generation.value.number == 1
    ensures s.generation.Some? ==> (s.generation.value.policy == digest <==> m == s)
                                   && m.generation.value.number
                                      == s.generation.value.number + (if s.generation.value.policy == digest then 0 else 1)
  {
    s.(generation := Some(if s.generation.None? then Generation(digest, 1) else s.generation.value.Evolve(digest)))
  }

  predicate Indexed(s: Authority, r: Record) {
    && r.seal.lease in s.leases && s.leases[r.seal.lease] == r.seal.scopeId
    && r.seal.attempt in s.attempts && s.attempts[r.seal.attempt] == r.seal.scopeId
    && r.seal.placement.workspace in s.workspaces
    && s.workspaces[r.seal.placement.workspace] == WorkspaceEntry(r.seal.lease, r.seal.scopeId)
  }

  predicate Rivals(one: Record, other: Record) {
    one.seal.lease == other.seal.lease || one.seal.placement.workspace == other.seal.placement.workspace
  }

  predicate Contested(s: Authority, r: Record) {
    exists id | id in s.scopes :: id != r.seal.scopeId && s.scopes[id].Current() && Rivals(s.scopes[id], r)
  }

  function IndexChecks(s: Authority, r: Record): Option<StoreError> {
    if !Indexed(s, r) then Some(IndexMismatch)
    else if Contested(s, r) then Some(CompetingScope)
    else None
  }

  function MarkExpired(r: Record, now: int): Record {
    if r.Current() && r.seal.expiresAt <= now then r.(state := Expired, terminalizedAt := Some(now)) else r
  }

  /** The checks of a revalidation, once the generation has been observed. */
  function Admission(s: Authority, r: Record, c: Claim): Option<StoreError> {
    var placement := r.seal.placement;
    if s.generation != Some(Generation(placement.policy, placement.generation)) then Some(BindingMismatch)
    else if !c.lineage.Complete() then Some(InvalidArgument)
    else if AttemptKey(placement.repository, c.lineage) != r.seal.attempt then Some(BindingMismatch)
    else if LeaseKeyFor(placement.repository, c.lineage, placement.generation, placement.workspace) != r.seal.lease
    then Some(BindingMismatch)
    else if IndexChecks(s, r).Some? then IndexChecks(s, r)
    else if placement.lineage != c.lineage then Some(BindingMismatch)
    else match Revalidate(placement, c.policy, c.repository, c.lineage, c.providerRoots, c.host)
      case Ok(_) => None
      case Err(cause) => Some(PlacementFailed(cause))
  }

  /** `memory` is the state dictionary after the call; `flushed` says it was written part-way. */
  datatype Revalidation = Revalidation(memory: Authority, flushed: bool, reply: Reply)

  function RevalidateLocked(s: Authority, r: Record, c: Claim): Revalidation {
    var aged := MarkExpired(r, c.now);
    var marked := if aged != r then Put(s, aged) else s;
    if !aged.Current() then Revalidation(marked, false, Err(NotCurrent)) else
    var observed := Observe(marked, c.Digest());
    Revalidation(
      observed, observed != marked,
      match Admission(observed, aged, c) case None => Ok(aged) case Some(error) => Err(error))
  }

  function ValidateSealed(s: Authority, r: Record, repository: string, lineage: Lineage): Option<StoreError> {
    var placement := r.seal.placement;
    if r.state.Terminal? then Some(NotCurrent)
    else if placement.repository != repository then Some(BindingMismatch)
    else if !lineage.Complete() then Some(InvalidArgument)
    else if AttemptKey(placement.repository, lineage) != r.seal.attempt then Some(BindingMismatch)
    else if LeaseKeyFor(placement.repository, lineage, placement.generation, placement.workspace) != r.seal.lease
    then Some(BindingMismatch)
    else if placement.lineage != lineage then Some(BindingMismatch)
    else IndexChecks(s, r)
  }

  // ---------- the transactions ----------

  predicate Overlaps(one: Path, other: Path) {
    one <= other || other <= one
  }

  function Mint(c: Claim, operations: set<string>, freshId: ScopeId, workspaceId: string, e: Evidence): Record {
    var lease := LeaseKeyFor(e.repository, c.lineage, e.generation, e.workspace);
    var seal := Seal(workspaceId, freshId, 1, lease, AttemptKey(e.repository, c.lineage), e, operations,
                     c.now, c.now + c.policy.scopeTtl);
    Record(seal, Provisioned, None, {}, {}, false, {}, None, None)
  }

  function Publish(s: Authority, r: Record): Authority {
    Authority(
      s.scopes[r.seal.scopeId := r],
      s.leases[r.seal.lease := r.seal.scopeId],
      s.attempts[r.seal.attempt := r.seal.scopeId],
      s.workspaces[r.seal.placement.workspace := WorkspaceEntry(r.seal.lease, r.seal.scopeId)],
      s.generation)
  }

  /** A retry for an Attempt that already has a scope. `s` is durable, `m` has observed the policy. */
  function ProvisionAgain(s: Authority, m: Authority, existing: Record, c: Claim, operations: set<string>,
                          e: Evidence): (Authority, Reply)
  {
    var lease := LeaseKeyFor(e.repository, c.lineage, e.generation, e.workspace);
    if existing.seal.attempt != AttemptKey(e.repository, c.lineage) then (s, Err(Conflict))
    else if existing.seal.lease != lease || existing.seal.placement.workspace != e.workspace
      || existing.seal.placement.repository != e.repository || existing.seal.placement.lineage != e.lineage
      || existing.seal.placement.generation != e.generation || existing.seal.placement.policy != e.policy
    then (m, Err(BindingMismatch))
    else
      var v := RevalidateLocked(m, existing, c);
      if v.reply == Err(NotCurrent) then (v.memory, v.reply)
      else if v.reply.Err? then (if v.flushed then v.memory else s, v.reply)
      else if v.reply.value.seal.operations != operations then (if v.flushed then v.memory else s, Err(Conflict))
      else (v.memory, v.reply)
  }

  /** The first scope of an Attempt, once no retry applies. */
  function ProvisionFirst(s: Authority, m: Authority, record: Record): (Authority, Reply) {
    var workspace := record.seal.placement.workspace;
    if record.seal.lease in m.leases then (m, Err(LeaseWithoutAttempt))
    else if workspace in m.workspaces then
      (s, Err(if m.workspaces[workspace].lease != record.seal.lease then WorkspaceSealed else WorkspaceWithoutLease))
    else
      var published := Publish(m, record);
      match IndexChecks(published, record)
      case Some(error) => (s, Err(error))
      case None => (published, Ok(record))
  }

  function ProvisionPlaced(s: Authority, m: Authority, c: Claim, record: Record): (Authority, Reply) {
    var e := record.seal.placement;
    if Overlaps(c.host.authorityRoot, e.workspace) then (m, Err(Conflict))
    else if record.seal.attempt in m.attempts then
      var id := m.attempts[record.seal.attempt];
      if id !in m.scopes then (s, Err(NotCurrent))
      else ProvisionAgain(s, m, m.scopes[id], c, record.seal.operations, e)
    else ProvisionFirst(s, m, record)
  }

  function Provision(s: Authority, c: Claim, operations: set<string>, freshId: ScopeId, workspaceId: string): (Authority, Reply) {
    if operations == {} then (s, Err(InvalidArgument)) else
    var m := Observe(s, c.Digest());
    var placed := Resolve(c.policy, c.repository, c.lineage, m.generation, c.providerRoots, c.host);
    if placed.Err? then (s, Err(PlacementFailed(placed.error)))
    else ProvisionPlaced(s, m, c, Mint(c, operations, freshId, workspaceId, placed.value))
  }

  function RevalidateScope(s: Authority, id: ScopeId, generation: nat, c: Claim): (Authority, Reply) {
    var found := Lookup(s, id, generation);
    if found.Err? then (s, found) else
    var v := RevalidateLocked(s, found.value, c);
    if v.reply == Err(NotCurrent) then (v.memory, v.reply)
    else (if v.flushed then v.memory else s, v.reply)
  }

  function RevalidateForOperation(s: Authority, id: ScopeId, generation: nat, c: Claim, operation: string): (Authority, Reply) {
    if operation == "" then (s, Err(InvalidArgument)) else
    var (after, reply) := RevalidateScope(s, id, generation, c);
    if reply.Ok? && operation !in reply.value.seal.operations then (after, Err(OperationNotAllowed))
    else (after, reply)
  }

  function ReserveIdentity(s: Authority, id: ScopeId, generation: nat, sid: Sid): (Authority, Reply) {
    if sid == "" then (s, Err(InvalidArgument)) else
    var found := Lookup(s, id, generation);
    if found.Err? then (s, found) else
    var r := found.value;
    if !r.Current() then (s, Err(NotCurrent))
    else if IndexChecks(s, r).Some? then (s, Err(IndexChecks(s, r).value))
    else if r.sid.Some? && r.sid != Some(sid) then (s, Err(Conflict))
    else
      var updated := r.(state := Active, sid := Some(sid), write := true);
      (Put(s, updated), Ok(updated))
  }

  function BindProcess(s: Authority, id: ScopeId, generation: nat, sid: Sid, job: string, pid: nat): (Authority, Reply) {
    if job == "" || pid == 0 then (s, Err(InvalidArgument)) else
    var found := Lookup(s, id, generation);
    if found.Err? then (s, found) else
    var r := found.value;
    if !r.Current() then (s, Err(NotCurrent))
    else if r.sid != Some(sid) || !r.write then (s, Err(Conflict))
    else if IndexChecks(s, r).Some? then (s, Err(IndexChecks(s, r).value))
    else
      var updated := r.(jobs := r.jobs + {job}, pids := r.pids + {pid});
      (Put(s, updated), Ok(updated))
  }

  function ReleaseProcess(s: Authority, id: ScopeId, generation: nat, job: string, pid: nat): (Authority, Reply) {
    var found := Lookup(s, id, generation);
    if found.Err? then (s, found) else
    var r := found.value;
    var updated := r.(jobs := r.jobs - {job}, pids := r.pids - {pid});
    (Put(s, updated), Ok(updated))
  }

  function ReserveRoot(s: Authority, id: ScopeId, generation: nat, sid: Sid, root: RootPath): (Authority, Reply) {
    if root.text == "" then (s, Err(InvalidArgument)) else
    var found := Lookup(s, id, generation);
    if found.Err? then (s, found) else
    var r := found.value;
    if !r.state.Active? then (s, Err(NotCurrent))
    else if r.sid != Some(sid) || !r.write then (s, Err(Conflict))
    else
      var updated := r.(roots := if r.MarksRoot(root.fold) then r.roots else r.roots + {root});
      (Put(s, updated), Ok(updated))
  }

  function ClearRoot(s: Authority, id: ScopeId, generation: nat, sid: Sid, root: RootPath): (Authority, Reply) {
    if root.text == "" then (s, Err(InvalidArgument)) else
    var found := Lookup(s, id, generation);
    if found.Err? then (s, found) else
    var r := found.value;
    if r.state.Terminal? then (s, Err(NotCurrent))
    else if r.sid != Some(sid) then (s, Err(Conflict))
    else
      var updated := r.(roots := set kept | kept in r.roots && kept.fold != root.fold);
      (Put(s, updated), Ok(updated))
  }

  function ReserveSession(s: Authority, id: ScopeId, generation: nat, sid: Sid, binding: SessionBinding): (Authority, Reply) {
    var found := Lookup(s, id, generation);
    if found.Err? then (s, found) else
    var r := found.value;
    if !r.state.Active? then (s, Err(NotCurrent))
    else if r.sid != Some(sid) || !r.write then (s, Err(Conflict))
    else if r.session.Some? && r.session != Some(binding) then (s, Err(Conflict))
    else
      var updated := r.(session := Some(binding));
      (Put(s, updated), Ok(updated))
  }

  function ClearSession(s: Authority, id: ScopeId, generation: nat, sid: Sid, binding: SessionBinding): (Authority, Reply) {
    var found := Lookup(s, id, generation);
    if found.Err? then (s, found) else
    var r := found.value;
    if r.state.Terminal? then (s, Err(NotCurrent))
    else if r.sid != Some(sid) || r.session != Some(binding) then (s, Err(Conflict))
    else
      var updated := r.(session := None);
      (Put(s, updated), Ok(updated))
  }

  function ClearWrite(s: Authority, id: ScopeId, generation: nat, sid: Sid): (Authority, Reply) {
    var found := Lookup(s, id, generation);
    if found.Err? then (s, found) else
    var r := found.value;
    if r.sid != Some(sid) then (s, Err(Conflict))
    else if r.jobs != {} || r.pids != {} then (s, Err(StillActive))
    else
      var updated := r.(write := false);
      (Put(s, updated), Ok(updated))
  }

  function Revoke(s: Authority, id: ScopeId, generation: nat): (Authority, Reply) {
    var found := Lookup(s, id, generation);
    if found.Err? then (s, found) else
    var r := found.value;
    if r.state.Terminal? then (s, Ok(r)) else
    var updated := r.(state := Revoked);
    (Put(s, updated), Ok(updated))
  }

  /** The first locked phase of terminalization. An `Ok` reply that is not terminal is the record
      handed to cleanup. */
  function TerminalizeBegin(s: Authority, id: ScopeId, generation: nat, c: Claim, hasCleanup: bool): (Authority, Reply) {
    if id !in s.scopes then (s, Err(NotCurrent)) else
    var r := s.scopes[id];
    var m := Observe(s, c.Digest());
    if r.seal.generation != generation then (s, Err(NotCurrent))
    else if ValidateSealed(m, r, c.repository, c.lineage).Some?
    then (s, Err(ValidateSealed(m, r, c.repository, c.lineage).value))
    else CloseOrRevoke(m, r, c.now, hasCleanup)
  }

  function CloseOrRevoke(m: Authority, r: Record, now: int, hasCleanup: bool): (Authority, Reply) {
    if !r.HoldsAuthority() then
      var terminal := r.(state := Terminal, terminalizedAt := Some(now));
      (Put(m, terminal), Ok(terminal))
    else if !hasCleanup then (m, Err(if r.jobs != {} || r.pids != {} then StillActive else ResidualAuthority))
    else
      var revoked := r.(state := Revoked);
      (Put(m, revoked), Ok(revoked))
  }

  function ClosureChecks(cleanup: Record, closure: Closure): Option<StoreError> {
    if closure.sid != cleanup.sid then Some(TerminalizationFailed)
    else if closure.jobs != {} || closure.pids != {} then Some(StillActive)
    else if closure.write || closure.roots != {} || closure.session.Some? then Some(ResidualAuthority)
    else None
  }

  /** The second locked phase, after the operating-system cleanup of `cleanup` returned `closure`. */
  function TerminalizeCommit(s: Authority, id: ScopeId, generation: nat, c: Claim, cleanup: Record, closure: Closure): (after: (Authority, Reply))
    ensures after.1.Ok? ==> after.1.value.state.Terminal? && !after.1.value.HoldsAuthority()
  {
    if ClosureChecks(cleanup, closure).Some? then (s, Err(ClosureChecks(cleanup, closure).value)) else
    var found := Lookup(s, id, generation);
    if found.Err? then (s, found) else
    var r := found.value;
    if ValidateSealed(s, r, c.repository, c.lineage).Some?
    then (s, Err(ValidateSealed(s, r, c.repository, c.lineage).value))
    else if !r.state.Revoked? || r.seal != cleanup.seal then (s, Err(TerminalizationFailed))
    else
      var terminal := r.(state := Terminal, jobs := closure.jobs, pids := closure.pids, write := closure.write,
                         roots := closure.roots, session := closure.session, terminalizedAt := Some(c.now));
      (Put(s, terminal), if Contested(Put(s, terminal), terminal) then Err(TerminalizationFailed) else Ok(terminal))
  }

  // ---------- one step, and runs of steps ----------

  /** One locked transaction with its arguments. */
  datatype StoreOp =
    | DoProvision(c: Claim, operations: set<string>, freshId: ScopeId, workspaceId: string)
    | DoRevalidate(id: ScopeId, generation: nat, c: Claim, operation: Option<string>)
    | DoReserveIdentity(id: ScopeId, generation: nat, sid: Sid)
    | DoBind(id: ScopeId, generation: nat, sid: Sid, job: string, pid: nat)
    | DoRelease(id: ScopeId, generation: nat, job: string, pid: nat)
    | DoReserveRoot(id: ScopeId, generation: nat, sid: Sid, root: RootPath)
    | DoClearRoot(id: ScopeId, generation: nat, sid: Sid, root: RootPath)
    | DoReserveSession(id: ScopeId, generation: nat, sid: Sid, binding: SessionBinding)
    | DoClearSession(id: ScopeId, generation: nat, sid: Sid, binding: SessionBinding)
    | DoClearWrite(id: ScopeId, generation: nat, sid: Sid)
    | DoRevoke(id: ScopeId, generation: nat)
    | DoTerminalizeBegin(id: ScopeId, generation: nat, c: Claim, hasCleanup: bool)
    | DoTerminalizeCommit(id: ScopeId, generation: nat, c: Claim, cleanup: Record, closure: Closure)

  function Apply(s: Authority, op: StoreOp): (Authority, Reply) {
    match op
    case DoProvision(c, operations, freshId, workspaceId) => Provision(s, c, operations, freshId, workspaceId)
    case DoRevalidate(id, generation, c, None) => RevalidateScope(s, id, generation, c)
    case DoRevalidate(id, generation, c, Some(operation)) => RevalidateForOperation(s, id, generation, c, operation)
    case DoReserveIdentity(id, generation, sid) => ReserveIdentity(s, id, generation, sid)
    case DoBind(id, generation, sid, job, pid) => BindProcess(s, id, generation, sid, job, pid)
    case DoRelease(id, generation, job, pid) => ReleaseProcess(s, id, generation, job, pid)
    case DoReserveRoot(id, generation, sid, root) => ReserveRoot(s, id, generation, sid, root)
    case DoClearRoot(id, generation, sid, root) => ClearRoot(s, id, generation, sid, root)
    case DoReserveSession(id, generation, sid, binding) => ReserveSession(s, id, generation, sid, binding)
    case DoClearSession(id, generation, sid, binding) => ClearSession(s, id, generation, sid, binding)
    case DoClearWrite(id, generation, sid) => ClearWrite(s, id, generation, sid)
    case DoRevoke(id, generation) => Revoke(s, id, generation)
    case DoTerminalizeBegin(id, generation, c, hasCleanup) => TerminalizeBegin(s, id, generation, c, hasCleanup)
    case DoTerminalizeCommit(id, generation, c, cleanup, closure) =>
      TerminalizeCommit(s, id, generation, c, cleanup, closure)
  }

  /** Random scope tokens never repeat. */
  predicate Allowed(s: Authority, op: StoreOp) {
    op.DoProvision? ==> op.freshId !in s.scopes
  }

  function Run(s: Authority, ops: seq<StoreOp>): Authority
    decreases |ops|
  {
    if ops == [] then s else Run(Apply(s, ops[0]).0, ops[1..])
  }

  predicate AllAllowed(s: Authority, ops: seq<StoreOp>)
    decreases |ops|
  {
    ops != [] ==> Allowed(s, ops[0]) && AllAllowed(Apply(s, ops[0]).0, ops[1..])
  }
}
