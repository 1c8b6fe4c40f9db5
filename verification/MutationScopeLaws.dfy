/** What every transaction of the mutation-scope store keeps, and what holds over every run. */
module MutationScopeLaws {
  import opened Wrappers
  import opened Placement
  import opened MutationScope

  // ---------- the invariant ----------

  ghost predicate SealOk(id: ScopeId, seal: Seal) {
    var p := seal.placement;
    && seal.scopeId == id && seal.generation == 1 && p.lineage.Complete() && p.generation >= 1
    && seal.attempt == AttemptKey(p.repository, p.lineage)
    && seal.lease == LeaseKeyFor(p.repository, p.lineage, p.generation, p.workspace)
  }

  ghost function Seals(s: Authority): map<ScopeId, Seal> {
    map id | id in s.scopes :: s.scopes[id].seal
  }

  ghost predicate LeasesMatch(seals: map<ScopeId, Seal>, leases: map<LeaseKey, ScopeId>) {
    && (forall id | id in seals :: seals[id].lease in leases && leases[seals[id].lease] == id)
    && (forall k | k in leases :: leases[k] in seals && seals[leases[k]].lease == k)
  }

  ghost predicate AttemptsMatch(seals: map<ScopeId, Seal>, attempts: map<AttemptKey, ScopeId>) {
    && (forall id | id in seals :: seals[id].attempt in attempts && attempts[seals[id].attempt] == id)
    && (forall k | k in attempts :: attempts[k] in seals && seals[attempts[k]].attempt == k)
  }

  ghost predicate WorkspacesMatch(seals: map<ScopeId, Seal>, workspaces: map<Path, WorkspaceEntry>) {
    && (forall id | id in seals :: seals[id].placement.workspace in workspaces
                                   && workspaces[seals[id].placement.workspace] == WorkspaceEntry(seals[id].lease, id))
    && (forall w | w in workspaces ::
          workspaces[w].scopeId in seals && seals[workspaces[w].scopeId].placement.workspace == w)
  }

  ghost predicate SealsOk(seals: map<ScopeId, Seal>) {
    forall id | id in seals :: SealOk(id, seals[id])
  }

  /** Scopes, leases, attempts and workspaces are in one-to-one correspondence. */
  ghost predicate IndexInv(s: Authority) {
    && SealsOk(Seals(s))
    && LeasesMatch(Seals(s), s.leases) && AttemptsMatch(Seals(s), s.attempts)
    && WorkspacesMatch(Seals(s), s.workspaces)
  }

  ghost predicate GenerationCovers(g: Option<Generation>, e: Evidence) {
    && g.Some? && e.generation <= g.value.number
    && (e.generation == g.value.number ==> e.policy == g.value.policy)
  }

  ghost predicate GenerationInv(seals: map<ScopeId, Seal>, g: Option<Generation>) {
    && (g.Some? ==> g.value.number >= 1)
    && forall id | id in seals :: GenerationCovers(g, seals[id].placement)
  }

  /** Runtime authority is only ever recorded together with what cleanup needs to undo it. */
  ghost predicate ResidualOk(r: Record) {
    && (r.jobs != {} || r.pids != {} ==> r.write)
    && (r.write || r.roots != {} || r.session.Some? ==> r.sid.Some?)
    && (r.state.Provisioned? || r.state.Terminal? ==> !r.HoldsAuthority())
    && (forall root | root in r.roots :: root.text != "")
  }

  ghost predicate Good(s: Authority) {
    IndexInv(s) && GenerationInv(Seals(s), s.generation) && forall id | id in s.scopes :: ResidualOk(s.scopes[id])
  }

  // ---------- how one record may change ----------

  function Rank(state: Lifecycle): nat {
    match state
    case Provisioned => 0
    case Active => 1
    case Expired => 2
    case Revoked => 3
    case Terminal => 4
  }

  ghost predicate Shrinks(r: Record, t: Record) {
    && t.jobs <= r.jobs && t.pids <= r.pids && t.roots <= r.roots
    && (t.write ==> r.write) && (t.session.Some? ==> t.session == r.session)
  }

  ghost predicate Follows(r: Record, t: Record) {
    && t.seal == r.seal
    && Rank(r.state) <= Rank(t.state)
    && (r.sid.Some? ==> t.sid == r.sid)
    && (!r.Current() ==> Shrinks(r, t) && t.sid == r.sid)
    && (r.state.Terminal? ==> t == r)
  }

  /** Every marker that tells cleanup what to undo is still there. */
  ghost predicate Retains(r: Record, t: Record) {
    && (r.sid.Some? ==> t.sid == r.sid) && r.roots <= t.roots && (r.session.Some? ==> t.session == r.session)
  }

  /** The transactions that may drop such a marker. */
  predicate Clears(op: StoreOp) {
    op.DoClearRoot? || op.DoClearSession? || op.DoTerminalizeCommit?
  }

  ghost predicate GenerationLe(g: Option<Generation>, h: Option<Generation>) {
    g.Some? ==> h.Some? && g.value.number <= h.value.number && (g.value.number == h.value.number ==> g == h)
  }

  /** With `keep`, no marker is dropped either. */
  ghost predicate Evolves(s: Authority, t: Authority, keep: bool := false) {
    && GenerationLe(s.generation, t.generation)
    && forall id | id in s.scopes ::
         id in t.scopes && Follows(s.scopes[id], t.scopes[id]) && (keep ==> Retains(s.scopes[id], t.scopes[id]))
  }

  lemma EvolvesTransitive(s: Authority, t: Authority, u: Authority, keep: bool := false)
    requires Evolves(s, t, keep) && Evolves(t, u, keep)
    ensures Evolves(s, u, keep)
  {
    forall id | id in s.scopes ensures id in u.scopes && Follows(s.scopes[id], u.scopes[id])
                                       && (keep ==> Retains(s.scopes[id], u.scopes[id])) {
      assert id in t.scopes && Follows(s.scopes[id], t.scopes[id]);
    }
  }

  // ---------- the four ways a transaction changes the state ----------

  lemma PutKeeps(s: Authority, r: Record, t: Record, keep: bool)
    requires Good(s) && r.seal.scopeId in s.scopes && s.scopes[r.seal.scopeId] == r
    requires Follows(r, t) && (keep ==> Retains(r, t)) && ResidualOk(t)
    ensures Good(Put(s, t)) && Evolves(s, Put(s, t), keep)
  {
    hide SealsOk, LeasesMatch, AttemptsMatch, WorkspacesMatch, GenerationInv, Follows, Retains, ResidualOk;
    FollowingKeepsSeal(r, t);
    assert Seals(Put(s, t)) == Seals(s);
    forall id | id in s.scopes ensures Follows(s.scopes[id], s.scopes[id]) && Retains(s.scopes[id], s.scopes[id]) {
      StandingFollows(s.scopes[id]);
    }
  }

  lemma FollowingKeepsSeal(r: Record, t: Record)
    requires Follows(r, t)
    ensures t.seal == r.seal
  {
  }

  lemma StandingFollows(r: Record)
    ensures Follows(r, r) && Retains(r, r)
  {
  }

  lemma ObserveKeeps(s: Authority, digest: PolicyDigest)
    requires Good(s)
    ensures Good(Observe(s, digest)) && Evolves(s, Observe(s, digest), true)
  {
    assert Seals(Observe(s, digest)) == Seals(s);
  }

  lemma PublishKeeps(s: Authority, r: Record)
    requires Good(s) && SealOk(r.seal.scopeId, r.seal) && ResidualOk(r)
    requires r.seal.scopeId !in s.scopes && r.seal.lease !in s.leases && r.seal.attempt !in s.attempts
    requires r.seal.placement.workspace !in s.workspaces
    requires GenerationCovers(s.generation, r.seal.placement)
    ensures Good(Publish(s, r)) && Evolves(s, Publish(s, r), true)
  {
    PublishKeepsIndex(s, r);
    PublishKeepsRecords(s, r);
  }

  lemma PublishKeepsRecords(s: Authority, r: Record)
    requires (forall id | id in s.scopes :: ResidualOk(s.scopes[id])) && ResidualOk(r) && r.seal.scopeId !in s.scopes
    ensures var t := Publish(s, r); (forall id | id in t.scopes :: ResidualOk(t.scopes[id])) && Evolves(s, t, true)
  {
  }

  lemma PublishKeepsIndex(s: Authority, r: Record)
    requires IndexInv(s) && GenerationInv(Seals(s), s.generation) && SealOk(r.seal.scopeId, r.seal)
    requires r.seal.scopeId !in s.scopes && r.seal.lease !in s.leases && r.seal.attempt !in s.attempts
    requires r.seal.placement.workspace !in s.workspaces
    requires GenerationCovers(s.generation, r.seal.placement)
    ensures var t := Publish(s, r); IndexInv(t) && GenerationInv(Seals(t), t.generation)
  {
    var id := r.seal.scopeId;
    assert Seals(Publish(s, r)) == Seals(s)[id := r.seal];
    PublishKeepsGeneration(Seals(s), s.generation, id, r.seal);
    PublishKeepsLeases(Seals(s), s.leases, id, r.seal);
    PublishKeepsAttempts(Seals(s), s.attempts, id, r.seal);
    PublishKeepsWorkspaces(Seals(s), s.workspaces, id, r.seal);
  }

  lemma PublishKeepsGeneration(seals: map<ScopeId, Seal>, g: Option<Generation>, id: ScopeId, seal: Seal)
    requires SealsOk(seals) && GenerationInv(seals, g) && SealOk(id, seal) && GenerationCovers(g, seal.placement)
    ensures SealsOk(seals[id := seal]) && GenerationInv(seals[id := seal], g)
  {
  }

  lemma PublishKeepsLeases(seals: map<ScopeId, Seal>, leases: map<LeaseKey, ScopeId>, id: ScopeId, seal: Seal)
    requires LeasesMatch(seals, leases) && id !in seals && seal.lease !in leases
    ensures LeasesMatch(seals[id := seal], leases[seal.lease := id])
  {
  }

  lemma PublishKeepsAttempts(seals: map<ScopeId, Seal>, attempts: map<AttemptKey, ScopeId>, id: ScopeId, seal: Seal)
    requires AttemptsMatch(seals, attempts) && id !in seals && seal.attempt !in attempts
    ensures AttemptsMatch(seals[id := seal], attempts[seal.attempt := id])
  {
  }

  lemma PublishKeepsWorkspaces(seals: map<ScopeId, Seal>, workspaces: map<Path, WorkspaceEntry>, id: ScopeId, seal: Seal)
    requires WorkspacesMatch(seals, workspaces) && id !in seals && seal.placement.workspace !in workspaces
    ensures WorkspacesMatch(seals[id := seal], workspaces[seal.placement.workspace := WorkspaceEntry(seal.lease, id)])
  {
  }

  /** Two scopes never share a lease, an Attempt or a workspace, whatever their states. */
  lemma OneHolder(s: Authority, one: ScopeId, other: ScopeId)
    requires IndexInv(s) && one in s.scopes && other in s.scopes
    requires Rivals(s.scopes[one], s.scopes[other]) || s.scopes[one].seal.attempt == s.scopes[other].seal.attempt
    ensures one == other
  {
    assert Seals(s)[one] == s.scopes[one].seal && Seals(s)[other] == s.scopes[other].seal;
  }

  /** Whatever state the indexes are in, they bind no lease, Attempt or workspace to two different scopes. */
  lemma IndexedOnce(s: Authority, one: Record, other: Record)
    requires Indexed(s, one) && Indexed(s, other)
    requires Rivals(one, other) || one.seal.attempt == other.seal.attempt
    ensures one.seal.scopeId == other.seal.scopeId
  {
  }

  /** The index and competing-scope assertions of the code never raise. */
  lemma IndexChecksPass(s: Authority, id: ScopeId)
    requires IndexInv(s) && id in s.scopes
    ensures IndexChecks(s, s.scopes[id]).None?
  {
    var r := s.scopes[id];
    assert Seals(s)[id] == r.seal;
    assert SealOk(id, r.seal) && Indexed(s, r);
    if Contested(s, r) {
      var other :| other in s.scopes && other != r.seal.scopeId && s.scopes[other].Current() && Rivals(s.scopes[other], r);
      OneHolder(s, other, id);
      assert false;
    }
  }

  // ---------- every transaction keeps the invariant ----------

  /** Replies that would mean the indexes had come apart. */
  predicate Torn(reply: Reply) {
    reply.Err? && (reply.error.IndexMismatch? || reply.error.CompetingScope? || reply.error.WorkspaceWithoutLease?)
  }

  ghost predicate Kept(s: Authority, after: (Authority, Reply), keep: bool) {
    Good(after.0) && Evolves(s, after.0, keep) && !Torn(after.1)
  }

  /** What a transaction needs to know about the record it looks up. */
  ghost predicate Sound(s: Authority, id: ScopeId) {
    && id in s.scopes && s.scopes[id].seal.scopeId == id && ResidualOk(s.scopes[id])
    && IndexChecks(s, s.scopes[id]).None?
  }

  lemma GoodIsIndexed(s: Authority)
    requires Good(s)
    ensures IndexInv(s)
  {
  }

  lemma ScopeIdsAgree(s: Authority, id: ScopeId)
    requires Good(s)
    ensures id in s.scopes ==> s.scopes[id].seal.scopeId == id
  {
    assert id in s.scopes ==> SealOk(id, Seals(s)[id]);
  }

  lemma GoodIsSound(s: Authority, id: ScopeId)
    requires Good(s) && id in s.scopes
    ensures Sound(s, id)
  {
    assert SealOk(id, Seals(s)[id]);
    IndexChecksPass(s, id);
  }

  /** The whole effect of a transaction on existing scopes: nothing, or one record moved forward. */
  ghost predicate Moves(s: Authority, id: ScopeId, after: (Authority, Reply), keep: bool) {
    && !Torn(after.1)
    && (after.0 == s || (id in s.scopes && s.scopes[id].seal.scopeId == id && id in after.0.scopes && after.0 == Put(s, after.0.scopes[id])
                         && Follows(s.scopes[id], after.0.scopes[id]) && ResidualOk(after.0.scopes[id])
                         && (keep ==> Retains(s.scopes[id], after.0.scopes[id]))))
  }

  /** The state a transaction starts to move records from. */
  function Observed(s: Authority, op: StoreOp): Authority {
    if op.DoTerminalizeBegin? then Observe(s, op.c.Digest()) else s
  }

  lemma MovesKeeps(s: Authority, id: ScopeId, m: Authority, after: (Authority, Reply), keep: bool)
    requires Good(s) && Good(m) && Evolves(s, m, true)
    requires Moves(m, id, after, keep) || (!Torn(after.1) && after.0 == s)
    ensures Kept(s, after, keep)
  {
    if after.0 != s && after.0 != m {
      PutKeeps(m, m.scopes[id], after.0.scopes[id], keep);
      EvolvesTransitive(s, m, after.0, keep);
    }
  }

  lemma TransactionMoves(s: Authority, op: StoreOp)
    requires !op.DoProvision? && !op.DoRevalidate?
    requires op.id in s.scopes ==> Sound(s, op.id)
    ensures Moves(Observed(s, op), op.id, Apply(s, op), !Clears(op)) || (!Torn(Apply(s, op).1) && Apply(s, op).0 == s)
  {
    match op {
      case DoTerminalizeBegin(_, _, _, _) => BeginMoves(s, op);
      case DoTerminalizeCommit(_, _, _, _, _) => CommitMoves(s, op);
      case DoBind(_, _, _, _, _) => ProcessMoves(s, op);
      case DoRelease(_, _, _, _) => ProcessMoves(s, op);
      case DoReserveRoot(_, _, _, _) => RootMoves(s, op);
      case DoClearRoot(_, _, _, _) => RootMoves(s, op);
      case DoReserveSession(_, _, _, _) => SessionMoves(s, op);
      case DoClearSession(_, _, _, _) => SessionMoves(s, op);
      case _ => AuthorityMoves(s, op);
    }
  }

  lemma AuthorityMoves(s: Authority, op: StoreOp)
    requires op.DoReserveIdentity? || op.DoClearWrite? || op.DoRevoke?
    requires op.id in s.scopes ==> Sound(s, op.id)
    ensures Moves(s, op.id, Apply(s, op), !Clears(op))
  {
  }

  lemma ProcessMoves(s: Authority, op: StoreOp)
    requires op.DoBind? || op.DoRelease?
    requires op.id in s.scopes ==> Sound(s, op.id)
    ensures Moves(s, op.id, Apply(s, op), !Clears(op))
  {
  }

  lemma RootMoves(s: Authority, op: StoreOp)
    requires op.DoReserveRoot? || op.DoClearRoot?
    requires op.id in s.scopes ==> Sound(s, op.id)
    ensures Moves(s, op.id, Apply(s, op), !Clears(op))
  {
  }

  lemma SessionMoves(s: Authority, op: StoreOp)
    requires op.DoReserveSession? || op.DoClearSession?
    requires op.id in s.scopes ==> Sound(s, op.id)
    ensures Moves(s, op.id, Apply(s, op), !Clears(op))
  {
  }

  lemma BeginMoves(s: Authority, op: StoreOp)
    requires op.DoTerminalizeBegin?
    requires op.id in s.scopes ==> Sound(s, op.id)
    ensures Moves(Observe(s, op.c.Digest()), op.id, Apply(s, op), true) || (Apply(s, op).0 == s && !Torn(Apply(s, op).1))
  {
    var m := Observe(s, op.c.Digest());
    if op.id in s.scopes {
      assert IndexChecks(m, m.scopes[op.id]) == IndexChecks(s, s.scopes[op.id]);
    }
  }

  lemma CommitMoves(s: Authority, op: StoreOp)
    requires op.DoTerminalizeCommit?
    requires op.id in s.scopes ==> Sound(s, op.id)
    ensures Moves(s, op.id, Apply(s, op), !Clears(op))
    ensures Apply(s, op).0 != s ==> Apply(s, op).1 == Ok(Apply(s, op).0.scopes[op.id])
  {
  }

  lemma LockedMoves(s: Authority, id: ScopeId, c: Claim)
    requires Sound(s, id)
    ensures var v := RevalidateLocked(s, s.scopes[id], c);
            && !Torn(v.reply)
            && (v.reply == Err(NotCurrent) ==> Moves(s, id, (v.memory, v.reply), true))
            && (v.reply != Err(NotCurrent) ==> v.memory == Observe(s, c.Digest()))
            && (v.reply.Ok? && GenerationCovers(s.generation, s.scopes[id].seal.placement)
                ==> v.memory == s && v.reply.value == s.scopes[id])
  {
    var m := Observe(s, c.Digest());
    assert IndexChecks(m, m.scopes[id]) == IndexChecks(s, s.scopes[id]);
  }

  lemma RevalidateMoves(s: Authority, id: ScopeId, generation: nat, c: Claim)
    requires id in s.scopes ==> Sound(s, id)
    ensures var after := RevalidateScope(s, id, generation, c);
            Moves(s, id, after, true) || (!Torn(after.1) && after.0 == Observe(s, c.Digest()))
  {
    if Lookup(s, id, generation).Ok? {
      LockedMoves(s, id, c);
    }
  }

  lemma RevalidateKeeps(s: Authority, id: ScopeId, generation: nat, c: Claim)
    requires Good(s)
    ensures Kept(s, RevalidateScope(s, id, generation, c), true)
  {
    if id in s.scopes {
      GoodIsSound(s, id);
    }
    RevalidateMoves(s, id, generation, c);
    var after := RevalidateScope(s, id, generation, c);
    if Moves(s, id, after, true) {
      MovesKeeps(s, id, s, after, true);
    } else {
      ObserveKeeps(s, c.Digest());
    }
  }

  /** A retry leaves the durable state, the observed one, or the observed one with an expired record. */
  lemma ProvisionAgainMoves(s: Authority, id: ScopeId, c: Claim, operations: set<string>, e: Evidence)
    requires var m := Observe(s, c.Digest()); Sound(m, id)
    ensures var m := Observe(s, c.Digest());
            var after := ProvisionAgain(s, m, m.scopes[id], c, operations, e);
            Moves(m, id, after, true) || (!Torn(after.1) && after.0 == s)
  {
    var m := Observe(s, c.Digest());
    LockedMoves(m, id, c);
    assert Observe(m, c.Digest()) == m;
  }

  lemma FirstOutcome(s: Authority, m: Authority, r: Record)
    requires r.seal.placement.workspace in m.workspaces ==> m.workspaces[r.seal.placement.workspace].lease in m.leases
    requires r.seal.placement.workspace !in m.workspaces && r.seal.lease !in m.leases ==> IndexChecks(Publish(m, r), r).None?
    ensures var after := ProvisionFirst(s, m, r);
            && !Torn(after.1)
            && after.0 == if r.seal.lease in m.leases then m
                          else if r.seal.placement.workspace in m.workspaces then s else Publish(m, r)
  {
  }

  lemma FirstKeeps(s: Authority, m: Authority, r: Record)
    requires Good(s) && Good(m) && Evolves(s, m, true)
    requires SealOk(r.seal.scopeId, r.seal) && ResidualOk(r) && r.seal.scopeId !in m.scopes
    requires r.seal.attempt !in m.attempts && GenerationCovers(m.generation, r.seal.placement)
    ensures Kept(s, ProvisionFirst(s, m, r), true)
  {
    hide Good, IndexInv, IndexChecks, ProvisionFirst;
    GoodIsIndexed(m);
    if r.seal.placement.workspace in m.workspaces {
      SealedWorkspaceHasLease(m, r.seal.placement.workspace);
    } else if r.seal.lease !in m.leases {
      PublishKeeps(m, r);
      GoodIsIndexed(Publish(m, r));
      IndexChecksPass(Publish(m, r), r.seal.scopeId);
      EvolvesTransitive(s, m, Publish(m, r), true);
    }
    FirstOutcome(s, m, r);
  }

  lemma ProvisionKeeps(s: Authority, c: Claim, operations: set<string>, freshId: ScopeId, workspaceId: string)
    requires Good(s) && freshId !in s.scopes
    ensures Kept(s, Provision(s, c, operations, freshId, workspaceId), true)
  {
    hide ProvisionPlaced;
    var m := Observe(s, c.Digest());
    ObserveKeeps(s, c.Digest());
    var placed := Resolve(c.policy, c.repository, c.lineage, m.generation, c.providerRoots, c.host);
    if placed.Ok? && operations != {} {
      PlacedKeeps(s, m, c, Mint(c, operations, freshId, workspaceId, placed.value));
    }
  }

  lemma PlacedKeeps(s: Authority, m: Authority, c: Claim, r: Record)
    requires Good(s) && Good(m) && Evolves(s, m, true) && m == Observe(s, c.Digest())
    requires SealOk(r.seal.scopeId, r.seal) && ResidualOk(r) && r.seal.scopeId !in m.scopes
    requires GenerationCovers(m.generation, r.seal.placement)
    ensures Kept(s, ProvisionPlaced(s, m, c, r), true)
  {
    hide Good, ProvisionAgain, ProvisionFirst;
    if r.seal.attempt in m.attempts {
      AttemptIsHeld(m, r.seal.attempt);
      RetryKeeps(s, m.attempts[r.seal.attempt], c, r.seal.operations, r.seal.placement);
    } else {
      FirstKeeps(s, m, r);
    }
  }

  lemma AttemptIsHeld(s: Authority, key: AttemptKey)
    requires Good(s) && key in s.attempts
    ensures s.attempts[key] in s.scopes
  {
    assert s.attempts[key] in Seals(s);
  }

  lemma RetryKeeps(s: Authority, id: ScopeId, c: Claim, operations: set<string>, e: Evidence)
    requires Good(s) && id in s.scopes
    ensures Kept(s, ProvisionAgain(s, Observe(s, c.Digest()), s.scopes[id], c, operations, e), true)
  {
    hide Good, ProvisionAgain;
    var m := Observe(s, c.Digest());
    ObserveKeeps(s, c.Digest());
    GoodIsSound(m, id);
    ProvisionAgainMoves(s, id, c, operations, e);
    MovesKeeps(s, id, m, ProvisionAgain(s, m, m.scopes[id], c, operations, e), true);
  }

  lemma SealedWorkspaceHasLease(s: Authority, workspace: Path)
    requires IndexInv(s) && workspace in s.workspaces
    ensures s.workspaces[workspace].lease in s.leases
  {
    var holder := s.workspaces[workspace].scopeId;
    assert Seals(s)[holder].placement.workspace == workspace;
  }

  /** One transaction: the invariant survives, every record moves only forward, and no index
      assertion raises. */
  lemma StepKeeps(s: Authority, op: StoreOp)
    requires Good(s) && Allowed(s, op)
    ensures Kept(s, Apply(s, op), !Clears(op))
  {
    hide Good, Kept, Apply;
    if op.DoProvision? {
      ProvisionStepKeeps(s, op);
    } else if op.DoRevalidate? {
      RevalidateStepKeeps(s, op);
    } else if op.DoTerminalizeBegin? {
      BeginStepKeeps(s, op);
    } else {
      MoveStepKeeps(s, op);
    }
  }

  lemma ProvisionStepKeeps(s: Authority, op: StoreOp)
    requires Good(s) && op.DoProvision? && Allowed(s, op)
    ensures Kept(s, Apply(s, op), !Clears(op))
  {
    ProvisionKeeps(s, op.c, op.operations, op.freshId, op.workspaceId);
  }

  lemma RevalidateStepKeeps(s: Authority, op: StoreOp)
    requires Good(s) && op.DoRevalidate?
    ensures Kept(s, Apply(s, op), !Clears(op))
  {
    hide Good, Apply, RevalidateScope;
    RevalidateKeeps(s, op.id, op.generation, op.c);
    RevalidateApplied(s, op);
  }

  /** Revalidating for one operation class only changes the reply. */
  lemma RevalidateApplied(s: Authority, op: StoreOp)
    requires op.DoRevalidate?
    ensures var after := RevalidateScope(s, op.id, op.generation, op.c);
            && (Apply(s, op).0 == after.0 || Apply(s, op).0 == s)
            && (Torn(Apply(s, op).1) ==> Torn(after.1))
  {
    hide RevalidateScope;
  }

  lemma BeginStepKeeps(s: Authority, op: StoreOp)
    requires Good(s) && op.DoTerminalizeBegin?
    ensures Kept(s, Apply(s, op), !Clears(op))
  {
    hide Good, Apply;
    if op.id in s.scopes {
      GoodIsSound(s, op.id);
    }
    TransactionMoves(s, op);
    ObserveKeeps(s, op.c.Digest());
    MovesKeeps(s, op.id, Observe(s, op.c.Digest()), Apply(s, op), true);
  }

  lemma MoveStepKeeps(s: Authority, op: StoreOp)
    requires Good(s) && !op.DoProvision? && !op.DoRevalidate? && !op.DoTerminalizeBegin?
    ensures Kept(s, Apply(s, op), !Clears(op))
  {
    hide Good, Apply;
    if op.id in s.scopes {
      GoodIsSound(s, op.id);
    }
    TransactionMoves(s, op);
    MovesKeeps(s, op.id, s, Apply(s, op), !Clears(op));
  }

  lemma StepGood(s: Authority, op: StoreOp)
    requires Good(s) && Allowed(s, op)
    ensures Good(Apply(s, op).0)
  {
    StepKeeps(s, op);
  }

  // ---------- runs ----------

  /** Over every run: the invariant, the forward motion of every record, and a generation that
      never falls. */
  lemma {:induction false} RunKeeps(s: Authority, ops: seq<StoreOp>)
    requires Good(s) && AllAllowed(s, ops)
    ensures Good(Run(s, ops)) && Evolves(s, Run(s, ops))
    decreases |ops|
  {
    if ops != [] {
      var t := Apply(s, ops[0]).0;
      StepKeeps(s, ops[0]);
      RunKeeps(t, ops[1..]);
      EvolvesTransitive(s, t, Run(t, ops[1..]));
    }
  }

  /** Every state reachable from the empty store is in one-to-one correspondence, keeps residual
      authority recorded, and bounds every scope by the stored generation. */
  lemma ReachableGood(ops: seq<StoreOp>)
    requires AllAllowed(EMPTY_AUTHORITY, ops)
    ensures Good(Run(EMPTY_AUTHORITY, ops))
  {
    RunKeeps(EMPTY_AUTHORITY, ops);
  }
}
