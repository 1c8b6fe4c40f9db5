/** The promises of the mutation-scope store over whole runs: admission, one scope per Attempt,
    generations that never come back, and two-phase terminalization under interleaving. */
module MutationScopeRuns {
  import opened Wrappers
  import opened Placement
  import opened MutationScope
  import opened MutationScopeLaws

  // ---------- admission ----------

  /** A scope is admitted exactly when it is live, unexpired, and deriving the claim's placement
      under the stored generation gives back the sealed placement. */
  ghost predicate Admissible(s: Authority, id: ScopeId, generation: nat, c: Claim) {
    && id in s.scopes && s.scopes[id].seal.generation == generation
    && s.scopes[id].Current() && c.now < s.scopes[id].seal.expiresAt
    && Resolve(c.policy, c.repository, c.lineage, s.generation, c.providerRoots, c.host)
       == Ok(s.scopes[id].seal.placement)
  }

  lemma AdmissionIff(s: Authority, id: ScopeId, c: Claim)
    requires Sound(s, id) && SealOk(id, s.scopes[id].seal)
    requires GenerationCovers(s.generation, s.scopes[id].seal.placement)
    ensures var m := Observe(s, c.Digest());
            Admission(m, s.scopes[id], c).None?
            <==> Resolve(c.policy, c.repository, c.lineage, s.generation, c.providerRoots, c.host)
                 == Ok(s.scopes[id].seal.placement)
  {
    var r := s.scopes[id];
    var m := Observe(s, c.Digest());
    assert IndexChecks(m, r) == IndexChecks(s, r);
    var p := r.seal.placement;
    var derived := Resolve(c.policy, c.repository, c.lineage, s.generation, c.providerRoots, c.host);
    if derived == Ok(p) {
      assert s.generation.value == Generation(p.policy, p.generation);
    }
  }

  /** Revalidation succeeds exactly on admissible claims, and then changes nothing at all. */
  lemma RevalidateIff(s: Authority, id: ScopeId, generation: nat, c: Claim)
    requires Good(s)
    ensures var after := RevalidateScope(s, id, generation, c);
            && (after.1.Ok? <==> Admissible(s, id, generation, c))
            && (after.1.Ok? ==> after.0 == s && after.1.value == s.scopes[id])
  {
    hide Good, Sound, SealOk, GenerationCovers, RevalidateScope, Admissible;
    if id in s.scopes {
      GoodIsSealed(s, id);
      GoodIsCovered(s, id);
    }
    SealedRevalidateIff(s, id, generation, c);
  }

  lemma GoodIsCovered(s: Authority, id: ScopeId)
    requires Good(s) && id in s.scopes
    ensures GenerationCovers(s.generation, s.scopes[id].seal.placement)
  {
    assert Seals(s)[id] == s.scopes[id].seal;
  }

  lemma SealedRevalidateIff(s: Authority, id: ScopeId, generation: nat, c: Claim)
    requires id in s.scopes ==> Sound(s, id) && SealOk(id, s.scopes[id].seal)
    requires id in s.scopes ==> GenerationCovers(s.generation, s.scopes[id].seal.placement)
    ensures var after := RevalidateScope(s, id, generation, c);
            && (after.1.Ok? <==> Admissible(s, id, generation, c))
            && (after.1.Ok? ==> after.0 == s && after.1.value == s.scopes[id])
  {
    hide Resolve, SealOk, IndexChecks;
    if Lookup(s, id, generation).Ok? {
      LockedMoves(s, id, c);
      AdmissionIff(s, id, c);
    }
  }

  // ---------- generations ----------

  lemma PassedScopeIsRefused(s: Authority, id: ScopeId, generation: nat, c: Claim)
    requires Good(s) && id in s.scopes && s.generation.Some?
    requires s.scopes[id].seal.placement.generation < s.generation.value.number
    ensures RevalidateScope(s, id, generation, c).1.Err?
  {
    RevalidateIff(s, id, generation, c);
  }

  /** Once the stored generation has moved past a scope, no later revalidation of it succeeds,
      whatever policy the claim presents. */
  lemma GenerationNeverReturns(s: Authority, ops: seq<StoreOp>, id: ScopeId, generation: nat, c: Claim)
    requires Good(s) && AllAllowed(s, ops) && id in s.scopes && s.generation.Some?
    requires s.scopes[id].seal.placement.generation < s.generation.value.number
    ensures RevalidateScope(Run(s, ops), id, generation, c).1.Err?
  {
    RecordsMoveForward(s, ops, id);
    StoredGenerationRises(s, ops);
    PassedScopeIsRefused(Run(s, ops), id, generation, c);
  }

  /** The stored generation never decreases, and while it stands still so does its policy. */
  lemma StoredGenerationRises(s: Authority, ops: seq<StoreOp>)
    requires Good(s) && AllAllowed(s, ops)
    ensures Good(Run(s, ops)) && GenerationLe(s.generation, Run(s, ops).generation)
  {
    RunKeeps(s, ops);
  }

  /** Minting under a policy that differs from the stored one, on a workspace another scope sealed. */
  predicate SealedElsewhere(s: Authority, c: Claim) {
    var m := Observe(s, c.Digest());
    var placed := Resolve(c.policy, c.repository, c.lineage, m.generation, c.providerRoots, c.host);
    && placed.Ok?
    && !Overlaps(c.host.authorityRoot, placed.value.workspace)
    && AttemptKey(c.repository, c.lineage) !in s.attempts
    && LeaseKeyFor(c.repository, c.lineage, placed.value.generation, placed.value.workspace) !in s.leases
    && placed.value.workspace in s.workspaces
  }

  /** A provisioning call records the policy it observed unless its arguments are refused before
      placement or its workspace is sealed to another lease: then a drift is forgotten. */
  lemma DriftRecordedIff(s: Authority, c: Claim, operations: set<string>, freshId: ScopeId, workspaceId: string)
    requires Good(s) && freshId !in s.scopes
    requires s.generation.Some? && s.generation.value.policy != c.Digest()
    ensures var m := Observe(s, c.Digest());
            Provision(s, c, operations, freshId, workspaceId).0.generation == m.generation
            <==> operations != {} && !SealedElsewhere(s, c)
                 && Resolve(c.policy, c.repository, c.lineage, m.generation, c.providerRoots, c.host).Ok?
  {
    hide Good, Resolve, DigestOf, ProvisionAgain, ProvisionFirst;
    var m := Observe(s, c.Digest());
    var placed := Resolve(c.policy, c.repository, c.lineage, m.generation, c.providerRoots, c.host);
    if operations != {} && placed.Ok? {
      var r := Mint(c, operations, freshId, workspaceId, placed.value);
      if r.seal.attempt in s.attempts {
        HolderOf(s, r.seal.attempt);
        GoodIsSealed(s, s.attempts[r.seal.attempt]);
        GoodIsCovered(s, s.attempts[r.seal.attempt]);
        RetryRecordsDrift(s, s.attempts[r.seal.attempt], c, operations, placed.value);
      } else {
        FirstRecordsDrift(s, c, r);
      }
    }
  }

  lemma HolderOf(s: Authority, key: AttemptKey)
    requires Good(s) && key in s.attempts
    ensures s.attempts[key] in s.scopes && s.scopes[s.attempts[key]].seal.attempt == key
  {
    assert s.attempts[key] in Seals(s);
  }

  /** A drifted policy never derives the sealed placement again, so the retry is refused for its binding. */
  lemma RetryRecordsDrift(s: Authority, id: ScopeId, c: Claim, operations: set<string>, e: Evidence)
    requires Sound(s, id) && SealOk(id, s.scopes[id].seal) && GenerationCovers(s.generation, s.scopes[id].seal.placement)
    requires s.scopes[id].seal.attempt == AttemptKey(c.repository, c.lineage)
    requires s.generation.Some? && s.generation.value.policy != c.Digest()
    requires Resolve(c.policy, c.repository, c.lineage, Observe(s, c.Digest()).generation, c.providerRoots, c.host) == Ok(e)
    ensures ProvisionAgain(s, Observe(s, c.Digest()), s.scopes[id], c, operations, e).0 == Observe(s, c.Digest())
  {
    hide DigestOf, RevalidateLocked;
  }

  lemma FirstRecordsDrift(s: Authority, c: Claim, r: Record)
    requires Good(s) && r.seal.scopeId !in s.scopes && r.seal.attempt !in s.attempts
    requires s.generation.Some? && s.generation.value.policy != c.Digest()
    requires SealOk(r.seal.scopeId, r.seal) && ResidualOk(r)
    requires GenerationCovers(Observe(s, c.Digest()).generation, r.seal.placement)
    ensures var m := Observe(s, c.Digest());
            ProvisionFirst(s, m, r).0.generation == m.generation
            <==> r.seal.lease in s.leases || r.seal.placement.workspace !in s.workspaces
  {
    hide Good, IndexInv, IndexChecks, DigestOf;
    var m := Observe(s, c.Digest());
    ObserveKeeps(s, c.Digest());
    GoodIsIndexed(m);
    if r.seal.placement.workspace in m.workspaces {
      SealedWorkspaceHasLease(m, r.seal.placement.workspace);
    } else if r.seal.lease !in m.leases {
      PublishKeeps(m, r);
      GoodIsIndexed(Publish(m, r));
      IndexChecksPass(Publish(m, r), r.seal.scopeId);
    }
  }

  /** A terminalizing call records the policy it observed exactly when it names a scope that is not yet
      terminal, under its own generation, repository and lineage: otherwise a drift is forgotten. */
  lemma TerminalizeRecordsDriftIff(s: Authority, id: ScopeId, generation: nat, c: Claim, hasCleanup: bool)
    requires Good(s) && s.generation.Some? && s.generation.value.policy != c.Digest()
    ensures TerminalizeBegin(s, id, generation, c, hasCleanup).0.generation == Observe(s, c.Digest()).generation
       <==> id in s.scopes && s.scopes[id].seal.generation == generation && !s.scopes[id].state.Terminal?
            && s.scopes[id].seal.placement.repository == c.repository && s.scopes[id].seal.placement.lineage == c.lineage
  {
    assert Observe(s, c.Digest()).generation != s.generation;
    if id in s.scopes {
      GoodIsSealed(s, id);
      ObservedIsSound(s, id, c.Digest());
      SealedBindingIff(Observe(s, c.Digest()), id, c.repository, c.lineage);
    }
  }

  lemma GoodIsSealed(s: Authority, id: ScopeId)
    requires Good(s) && id in s.scopes
    ensures Sound(s, id) && SealOk(id, s.scopes[id].seal)
  {
    GoodIsSound(s, id);
    assert Seals(s)[id] == s.scopes[id].seal;
  }

  /** The sealed binding is accepted for exactly one repository and lineage, until the scope is terminal; a
      malformed lineage is told apart from a foreign one. */
  lemma SealedBindingIff(s: Authority, id: ScopeId, repository: string, lineage: Lineage)
    requires Sound(s, id) && SealOk(id, s.scopes[id].seal)
    ensures var r := s.scopes[id];
            ValidateSealed(s, r, repository, lineage).None?
            <==> !r.state.Terminal? && r.seal.placement.repository == repository && r.seal.placement.lineage == lineage
    ensures var r := s.scopes[id];
            ValidateSealed(s, r, repository, lineage).Some? ==>
              ValidateSealed(s, r, repository, lineage).value
              == if r.state.Terminal? then NotCurrent
                 else if r.seal.placement.repository == repository && !lineage.Complete() then InvalidArgument
                 else BindingMismatch
  {
  }

  lemma ObservedIsSound(s: Authority, id: ScopeId, digest: PolicyDigest)
    requires Sound(s, id)
    ensures Sound(Observe(s, digest), id)
  {
    assert IndexChecks(Observe(s, digest), s.scopes[id]) == IndexChecks(s, s.scopes[id]);
  }

  // ---------- one scope per Attempt ----------

  /** Scopes that a run mints for one Attempt. */
  ghost function Mints(s: Authority, ops: seq<StoreOp>, key: AttemptKey): nat
    decreases |ops|
  {
    if ops == [] then 0 else
    var t := Apply(s, ops[0]).0;
    (if exists id :: id in t.scopes && id !in s.scopes && t.scopes[id].seal.attempt == key then 1 else 0)
    + Mints(t, ops[1..], key)
  }

  /** An Attempt mints at most one scope ever, and none once it has one. */
  lemma {:induction false} AttemptMintsOnce(s: Authority, ops: seq<StoreOp>, key: AttemptKey)
    requires Good(s) && AllAllowed(s, ops)
    ensures Mints(s, ops, key) <= if key in s.attempts then 0 else 1
    decreases |ops|
  {
    hide Good, Apply, Allowed;
    if ops != [] {
      var t := Apply(s, ops[0]).0;
      StepKeeps(s, ops[0]);
      AttemptMintsOnce(t, ops[1..], key);
      if key in s.attempts {
        KnownAttemptMintsNothing(s, t, key);
      } else if id :| id in t.scopes && id !in s.scopes && t.scopes[id].seal.attempt == key {
        HeldAttemptIsKnown(t, id, key);
      }
    }
  }

  lemma HeldAttemptIsKnown(t: Authority, id: ScopeId, key: AttemptKey)
    requires Good(t) && id in t.scopes && t.scopes[id].seal.attempt == key
    ensures key in t.attempts
  {
    assert Seals(t)[id].attempt == key;
  }

  lemma KnownAttemptMintsNothing(s: Authority, t: Authority, key: AttemptKey)
    requires Good(s) && Good(t) && Evolves(s, t) && key in s.attempts
    ensures key in t.attempts && forall id :: id in t.scopes && t.scopes[id].seal.attempt == key ==> id in s.scopes
  {
    var holder := s.attempts[key];
    assert Seals(s)[holder].attempt == key;
    assert Seals(t)[holder].attempt == key;
    forall id | id in t.scopes && t.scopes[id].seal.attempt == key ensures id in s.scopes {
      OneHolder(t, id, holder);
    }
  }

  /** In every reachable state at most one scope, live or not, holds any lease, workspace or Attempt. */
  lemma ReachableOneHolder(ops: seq<StoreOp>, one: ScopeId, other: ScopeId)
    requires AllAllowed(EMPTY_AUTHORITY, ops)
    requires var s := Run(EMPTY_AUTHORITY, ops);
             && one in s.scopes && other in s.scopes
             && (Rivals(s.scopes[one], s.scopes[other]) || s.scopes[one].seal.attempt == s.scopes[other].seal.attempt)
    ensures one == other
  {
    ReachableGood(ops);
    OneHolder(Run(EMPTY_AUTHORITY, ops), one, other);
  }

  // ---------- two-phase terminalization ----------

  lemma BeginHandsOverRevoked(s: Authority, begin: StoreOp)
    requires Good(s) && begin.DoTerminalizeBegin?
    requires Apply(s, begin).1.Ok? && !Apply(s, begin).1.value.state.Terminal?
    ensures var t := Apply(s, begin).0;
            && begin.id in t.scopes && t.scopes[begin.id] == Apply(s, begin).1.value
            && t.scopes[begin.id].state.Revoked?
  {
    hide Good;
    GoodIsSound(s, begin.id);
    SoundHandsOverRevoked(s, begin);
  }

  lemma SoundHandsOverRevoked(s: Authority, begin: StoreOp)
    requires begin.DoTerminalizeBegin? && Sound(s, begin.id)
    requires Apply(s, begin).1.Ok? && !Apply(s, begin).1.value.state.Terminal?
    ensures var t := Apply(s, begin).0;
            && begin.id in t.scopes && t.scopes[begin.id] == Apply(s, begin).1.value
            && t.scopes[begin.id].state.Revoked?
  {
  }

  lemma RevokedOnlyShrinks(s: Authority, ops: seq<StoreOp>, id: ScopeId)
    requires Good(s) && AllAllowed(s, ops) && id in s.scopes && !s.scopes[id].Current()
    ensures Good(Run(s, ops)) && id in Run(s, ops).scopes && Shrinks(s.scopes[id], Run(s, ops).scopes[id])
    ensures Run(s, ops).scopes[id].seal == s.scopes[id].seal
  {
    RunKeeps(s, ops);
    assert Follows(s.scopes[id], Run(s, ops).scopes[id]);
  }

  lemma CommitClosesRevoked(s: Authority, commit: StoreOp)
    requires commit.DoTerminalizeCommit? && Apply(s, commit).1.Ok?
    ensures commit.id in s.scopes && s.scopes[commit.id].state.Revoked?
    ensures Apply(s, commit).1.value.state.Terminal? && !Apply(s, commit).1.value.HoldsAuthority()
  {
  }

  /** Whatever runs between the revoking phase and the committing phase, the record that commits
      holds no authority beyond the record that was handed to cleanup. */
  lemma CleanupSawEverything(s: Authority, begin: StoreOp, ops: seq<StoreOp>, commit: StoreOp)
    requires Good(s) && begin.DoTerminalizeBegin? && commit.DoTerminalizeCommit? && begin.id == commit.id
    requires Apply(s, begin).1.Ok? && !Apply(s, begin).1.value.state.Terminal?
    requires AllAllowed(Apply(s, begin).0, ops)
    ensures var handed := Apply(s, begin).1.value;
            var before := Run(Apply(s, begin).0, ops);
            && handed.state.Revoked? && begin.id in before.scopes
            && Shrinks(handed, before.scopes[begin.id]) && before.scopes[begin.id].seal == handed.seal
            && (Apply(before, commit).1.Ok? ==>
                  && before.scopes[begin.id].state.Revoked?
                  && Apply(before, commit).1.value.state.Terminal? && !Apply(before, commit).1.value.HoldsAuthority())
  {
    var t := Apply(s, begin).0;
    StepKeeps(s, begin);
    BeginHandsOverRevoked(s, begin);
    RevokedOnlyShrinks(t, ops, begin.id);
    if Apply(Run(t, ops), commit).1.Ok? {
      CommitClosesRevoked(Run(t, ops), commit);
    }
  }

  /** A transaction whose reply reports that it made `id` terminal. */
  predicate CommitsTerminal(s: Authority, op: StoreOp, id: ScopeId) {
    && (op.DoTerminalizeBegin? || op.DoTerminalizeCommit?) && op.id == id
    && Apply(s, op).1.Ok? && Apply(s, op).1.value.state.Terminal?
  }

  function TerminalCommits(s: Authority, ops: seq<StoreOp>, id: ScopeId): nat
    decreases |ops|
  {
    if ops == [] then 0
    else (if CommitsTerminal(s, ops[0], id) then 1 else 0) + TerminalCommits(Apply(s, ops[0]).0, ops[1..], id)
  }

  lemma CommitOnlyOnce(s: Authority, op: StoreOp, id: ScopeId)
    requires Good(s) && CommitsTerminal(s, op, id)
    ensures id in s.scopes && !s.scopes[id].state.Terminal?
    ensures id in Apply(s, op).0.scopes && Apply(s, op).0.scopes[id].state.Terminal?
  {
    if id in s.scopes {
      GoodIsSound(s, id);
    }
    CommitOfLiveScope(s, op, id);
  }

  lemma CommitOfLiveScope(s: Authority, op: StoreOp, id: ScopeId)
    requires (id in s.scopes ==> Sound(s, id)) && CommitsTerminal(s, op, id)
    ensures id in s.scopes && !s.scopes[id].state.Terminal?
    ensures id in Apply(s, op).0.scopes && Apply(s, op).0.scopes[id].state.Terminal?
  {
  }

  /** Over every run, however many terminalizations of a scope interleave, at most one commits. */
  lemma {:induction false} TerminalOnce(s: Authority, ops: seq<StoreOp>, id: ScopeId)
    requires Good(s) && AllAllowed(s, ops)
    ensures TerminalCommits(s, ops, id) <= if id in s.scopes && s.scopes[id].state.Terminal? then 0 else 1
    decreases |ops|
  {
    if ops != [] {
      var t := Apply(s, ops[0]).0;
      StepKeeps(s, ops[0]);
      TerminalOnce(t, ops[1..], id);
      if CommitsTerminal(s, ops[0], id) {
        CommitOnlyOnce(s, ops[0], id);
      } else if id in s.scopes && s.scopes[id].state.Terminal? {
        assert Follows(s.scopes[id], t.scopes[id]);
      }
    }
  }

  /** The lifecycle rank never falls, the sealed payload never changes, and a sandbox identity
      never changes once set, between any two points of any run. */
  lemma RecordsMoveForward(s: Authority, ops: seq<StoreOp>, id: ScopeId)
    requires Good(s) && AllAllowed(s, ops) && id in s.scopes
    ensures var t := Run(s, ops);
            && id in t.scopes && t.scopes[id].seal == s.scopes[id].seal
            && Rank(s.scopes[id].state) <= Rank(t.scopes[id].state)
            && (s.scopes[id].sid.Some? ==> t.scopes[id].sid == s.scopes[id].sid)
            && (s.scopes[id].state.Terminal? ==> t.scopes[id] == s.scopes[id])
            && ResidualOk(t.scopes[id])
  {
    RunKeeps(s, ops);
    assert Follows(s.scopes[id], Run(s, ops).scopes[id]);
  }
}
