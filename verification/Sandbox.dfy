/** Sandbox activation, Session-0 grants and cleanup, with every operating-system call and every
    store call free to fail. The object logs each atomic step, so a crash leaves a prefix of the log. */
module Sandbox {
  import opened Wrappers
  import opened Placement
  import opened MutationScope
  import opened MutationScopeLaws
  import opened MutationScopeRuns
  import opened MutationScopeExact
  import opened MutationScopeStore
  import opened SandboxProtocol
  import opened SandboxFaults

  datatype GrantOutcome = Granted | Refused | Residual

  datatype ActivationOutcome = Rejected | Activated | Failed

  /** No entry went away except, possibly, those of the given roots. */
  ghost predicate OnlyTook(before: set<Ace>, after: set<Ace>, sid: Sid, roots: seq<RootPath>) {
    forall ace | ace in before :: ace in after || exists root | root in roots :: ace == RootAce(sid, root.fold)
  }

  /** The record of a failed activation: no longer writable and revoked, but for calls lost before their write. */
  predicate Abandoned(r: Record, f: ActivationFaults) {
    r.write == f.clearWrite.LostBefore? && r.state == (if f.revoke.LostBefore? then Active else Revoked)
  }

  lemma TookOne(before: set<Ace>, after: set<Ace>, sid: Sid, root: RootPath)
    requires after - {RootAce(sid, root.fold)} == before - {RootAce(sid, root.fold)}
    ensures OnlyTook(before, after, sid, [root])
  {
    assert root in [root];
    forall ace | ace in before ensures ace in after || ace == RootAce(sid, root.fold) {
      assert ace in after - {RootAce(sid, root.fold)} || ace == RootAce(sid, root.fold);
    }
  }

  lemma AllHeldIf(roots: seq<RootPath>, sid: Sid, grants: set<Ace>)
    requires forall root | root in roots :: RootAce(sid, root.fold) in grants
    ensures AllHeld(roots, sid, grants)
  {
  }

  lemma TookNothing(grants: set<Ace>, sid: Sid)
    ensures OnlyTook(grants, grants, sid, [])
  {
  }

  lemma TookFrom(first: set<Ace>, before: set<Ace>, after: set<Ace>, sid: Sid, some: seq<RootPath>, more: seq<RootPath>,
                 roots: seq<RootPath>)
    requires OnlyTook(first, before, sid, some) && OnlyTook(before, after, sid, more)
    requires forall root | root in some || root in more :: root in roots
    ensures OnlyTook(first, after, sid, roots)
  {
    forall ace | ace in first && ace !in after ensures exists root | root in roots :: ace == RootAce(sid, root.fold) {
      if ace in before {
        var root :| root in more && ace == RootAce(sid, root.fold);
        assert root in roots;
      } else {
        var root :| root in some && ace == RootAce(sid, root.fold);
        assert root in roots;
      }
    }
  }

  lemma {:induction false} StrandedIf(roots: seq<RootPath>, f: ActivationFaults, sid: Sid, before: set<Ace>, h: HostState)
    requires |f.roots| == |roots| && OnlyTook(before, h.grants, sid, Touched(roots, f))
    requires var n := GrantedRoots(roots, f.roots);
             !f.aclFails && n < |roots| && LosesMarker(roots[n], f.roots[n], RootAce(sid, roots[n].fold) in before)
             ==> !Marked(h.authority, RootAce(sid, roots[n].fold))
    ensures Stranded(roots, f, sid, before, h)
  {
    hide Marked;
    forall n: nat | Strands(roots, f, Held(before, sid), n)
      ensures RootAce(sid, roots[n].fold) in h.grants && !Marked(h.authority, RootAce(sid, roots[n].fold)) {
      assert RootAce(sid, roots[n].fold) in before;
      assert Touched(roots, f) == roots[..n];
    }
  }

  lemma RolledBackIf(roots: seq<RootPath>, f: ActivationFaults, sid: Sid, grants: set<Ace>, granted: nat)
    requires |f.roots| == |roots| && granted <= |roots| && (!f.aclFails ==> granted == GrantedRoots(roots, f.roots))
    requires forall i | 0 <= i < granted && Removes(f.roots[..granted][i].rollback, true) ::
               RootAce(sid, roots[..granted][i].fold) !in grants
    ensures RolledBack(roots, f, sid, grants)
  {
    hide Removes;
    assert forall i | 0 <= i < granted :: f.roots[..granted][i] == f.roots[i] && roots[..granted][i] == roots[i];
  }

  class Broker {
    const store: Store
    /** How the host derives an identity from a lease. */
    const sidOf: LeaseKey -> Sid
    /** The access lists of the runtime roots and of the Session-0 objects. */
    var grants: set<Ace>
    ghost const origin: HostState
    ghost var steps: seq<HostStep>

    ghost function Now(): HostState
      reads this, store
    {
      HostState(store.durable, grants, sidOf)
    }

    ghost predicate Valid()
      reads this, store
    {
      store.Valid() && Now() == RunHost(origin, steps)
    }

    /** Every step so far respected its guard. */
    ghost predicate Safe()
      reads this
    {
      AllGuarded(origin, steps)
    }

    constructor (store: Store, grants: set<Ace>, sidOf: LeaseKey -> Sid)
      requires store.Valid()
      ensures Valid() && Safe() && this.store == store && this.grants == grants && this.sidOf == sidOf && steps == []
      ensures origin == HostState(store.durable, grants, sidOf)
    {
      this.store, this.grants, this.sidOf := store, grants, sidOf;
      this.origin, this.steps := HostState(store.durable, grants, sidOf), [];
    }

    // ---------- single steps ----------

    method Strip(gone: set<Ace>)
      requires Valid()
      modifies this
      ensures Valid() && Safe() == old(Safe()) && grants == old(grants) - gone
      ensures steps == old(steps) + [HostStep.Strip(gone)]
    {
      hide Good, RunHost;
      Appended(origin, steps, HostStep.Strip(gone));
      grants := grants - gone;
      steps := steps + [HostStep.Strip(gone)];
    }

    method Install(ace: Ace)
      requires Valid() && Marked(store.durable, ace)
      modifies this
      ensures Valid() && Safe() == old(Safe()) && grants == old(grants) + {ace}
      ensures steps == old(steps) + [Grant(ace)]
    {
      hide Good, RunHost;
      Appended(origin, steps, Grant(ace));
      grants := grants + {ace};
      steps := steps + [Grant(ace)];
    }

    method ReserveRootMarker(id: ScopeId, generation: nat, sid: Sid, root: RootPath, f: StoreFault) returns (ok: bool)
      requires Valid()
      modifies this`steps, store
      ensures Valid() && Safe() == old(Safe()) && old(steps) <= steps
      ensures Seals(store.durable) == old(Seals(store.durable))
      ensures store.durable == if f.LostBefore? then old(store.durable)
                               else ReserveRoot(old(store.durable), id, generation, sid, root).0
      ensures ok <==> f.Fine? && root.text != "" && Writable(old(store.durable), id, generation, sid)
    {
      hide Good, RunHost, Apply, ReserveRoot, AllGuarded;
      if f.LostBefore? {
        return false;
      }
      ghost var op := DoReserveRoot(id, generation, sid, root);
      ReserveRootIff(store.durable, id, generation, sid, root);
      AppliesTo(store.durable, op);
      SealsStand(store.durable, op);
      UnconditionalAppended(origin, steps, Now(), op);
      var reply := store.ReserveRuntimeRead(id, generation, sid, root);
      steps := steps + [HostStep.Store(op)];
      ok := reply.Ok? && f.Fine?;
    }

    /** Clearing a marker breaks a guard exactly when the root still carries the SID, and then leaves a
        crash point uncovered. */
    method ClearRootMarker(id: ScopeId, generation: nat, sid: Sid, root: RootPath, f: StoreFault) returns (ok: bool)
      requires Valid()
      modifies this`steps, store
      ensures Valid() && old(steps) <= steps && Seals(store.durable) == old(Seals(store.durable))
      ensures Safe() <==> old(Safe()) && (f.LostBefore? || RootAce(sid, root.fold) !in grants)
      ensures store.durable == if f.LostBefore? then old(store.durable)
                               else ClearRoot(old(store.durable), id, generation, sid, root).0
      ensures ok <==> f.Fine? && root.text != "" && Unfinished(old(store.durable), id, generation, sid)
      ensures old(Safe()) && Sane(origin) && OwnIdentity(old(store.durable), id, sidOf) && RootAce(sid, root.fold) in grants
              && !f.LostBefore? && root.text != "" && Unfinished(old(store.durable), id, generation, sid) ==>
                Exposed(origin, steps) && !Marked(store.durable, RootAce(sid, root.fold))
    {
      hide Good, RunHost, Apply, ClearRoot, AllGuarded, Guarded, Sane, OwnIdentity, Exposed, Marked;
      if f.LostBefore? {
        return false;
      }
      ghost var op := DoClearRoot(id, generation, sid, root);
      ClearRootIff(store.durable, id, generation, sid, root);
      ghost var before := Now();
      AppliesTo(store.durable, op);
      SealsStand(store.durable, op);
      GuardOf(before, op);
      StoreAppended(origin, steps, before, op);
      if Safe() && Sane(origin) && OwnIdentity(store.durable, id, sidOf) && RootAce(sid, root.fold) in grants
        && Apply(store.durable, op).1.Ok? {
        ClearExposes(origin, steps, op);
        SaneClearUnmarks(before, op);
      }
      var reply := store.ClearRuntimeRead(id, generation, sid, root);
      steps := steps + [HostStep.Store(op)];
      ok := reply.Ok? && f.Fine?;
    }

    lemma SaneClearUnmarks(h: HostState, op: StoreOp)
      requires Valid() && h == Now() && Safe() && Sane(origin)
      requires op.DoClearRoot? && Apply(h.authority, op).1.Ok? && OwnIdentity(h.authority, op.id, sidOf)
      ensures !Marked(Apply(h.authority, op).0, RootAce(op.sid, op.root.fold))
    {
      hide AllGuarded, Apply, Marked, Good, Covered;
      GuardedIsNotExposed(origin, steps);
      ScopeIdsAgree(h.authority, op.id);
      ClearedIsUnmarked(h.authority, op, sidOf);
    }

    // ---------- runtime roots ----------

    method RemoveRuntimeRead(root: RootPath, sid: Sid, f: RemoveFault) returns (ok: bool)
      requires Valid()
      modifies this
      ensures Valid() && Safe() == old(Safe()) && old(steps) <= steps
      ensures ok <==> Removes(f, RootAce(sid, root.fold) in old(grants))
      ensures ok && !f.missing ==>
                !f.readFails && (RootAce(sid, root.fold) in old(grants) ==> f.applied && !f.toolFails && !f.readBackFails)
      ensures grants == if Takes(f, RootAce(sid, root.fold) in old(grants)) then old(grants) - {RootAce(sid, root.fold)}
                        else old(grants)
      ensures ok ==> RootAce(sid, root.fold) !in grants
    {
      hide Good, RunHost, AllGuarded;
      var ace := RootAce(sid, root.fold);
      if f.missing {
        Strip({ace});
        return true;
      }
      if f.readFails {
        return false;
      }
      if ace !in grants {
        return true;
      }
      if f.applied {
        Strip({ace});
      }
      ok := !f.toolFails && !f.readBackFails && ace !in grants;
    }

    /** A refusal before the tool changed nothing; a refusal after it has proved the entry absent. */
    method GrantRuntimeRead(root: RootPath, sid: Sid, f: GrantFault) returns (outcome: GrantOutcome)
      requires Valid() && Marked(store.durable, RootAce(sid, root.fold))
      modifies this
      ensures Valid() && Safe() == old(Safe()) && old(steps) <= steps
      ensures outcome == Granted <==> !f.refused && !f.toolFails
      ensures outcome == Residual <==>
                !f.refused && f.toolFails && !Removes(f.compensation, RootAce(sid, root.fold) in old(grants) || f.applied)
      ensures f.refused ==> grants == old(grants)
      ensures outcome == Granted ==> grants == old(grants) + {RootAce(sid, root.fold)}
      ensures outcome == Refused && !f.refused ==> grants == old(grants) - {RootAce(sid, root.fold)}
      ensures grants - {RootAce(sid, root.fold)} == old(grants) - {RootAce(sid, root.fold)}
    {
      hide Good, RunHost, AllGuarded, Removes, Takes;
      if f.refused {
        return Refused;
      }
      if !f.toolFails {
        Install(RootAce(sid, root.fold));
        return Granted;
      }
      if f.applied {
        Install(RootAce(sid, root.fold));
      }
      var closed := RemoveRuntimeRead(root, sid, f.compensation);
      outcome := if closed then Refused else Residual;
    }

    // ---------- activation ----------

    /** One root: its marker, then its grant, and its marker again if the grant is refused. */
    method GrantRoot(id: ScopeId, generation: nat, sid: Sid, root: RootPath, f: RootFaults) returns (ok: bool)
      requires Valid() && Ready(store.durable, id, generation, sid)
      modifies this, store
      ensures Valid() && old(steps) <= steps && Ready(store.durable, id, generation, sid)
      ensures Seals(store.durable) == old(Seals(store.durable))
      ensures Safe() <==> old(Safe()) && !LosesMarker(root, f, RootAce(sid, root.fold) in old(grants))
      ensures ok <==> Grantable(root, f)
      ensures ok ==> !f.missing && f.reserve.Fine? && !f.grant.refused && !f.grant.toolFails
      ensures ok ==> grants == old(grants) + {RootAce(sid, root.fold)}
      ensures OnlyTook(old(grants), grants, sid, if f.grant.refused then [] else [root])
      ensures old(Safe()) && Sane(origin) && OwnIdentity(old(store.durable), id, sidOf)
              && LosesMarker(root, f, RootAce(sid, root.fold) in old(grants)) ==>
                Exposed(origin, steps) && !Marked(store.durable, RootAce(sid, root.fold))
    {
      hide Good, RunHost, AllGuarded, Sane, OwnIdentity, Exposed, Marked, ReserveRoot, ClearRoot;
      if f.missing {
        return false;
      }
      ScopeIdsAgree(store.durable, id);
      ReservedRoot(store.durable, id, generation, sid, root);
      ghost var before := store.durable;
      var reserved := ReserveRootMarker(id, generation, sid, root, f.reserve);
      OwnIdentityStands(before, store.durable, id, sidOf);
      if !reserved {
        return false;
      }
      var outcome := GrantRuntimeRead(root, sid, f.grant);
      TookOne(old(grants), grants, sid, root);
      if outcome == Refused {
        ScopeIdsAgree(store.durable, id);
        ClearedRoot(store.durable, id, generation, sid, root);
        var _ := ClearRootMarker(id, generation, sid, root, f.clear);
      }
      ok := outcome == Granted;
    }

    /** `granted` counts the roots that the caller has to roll back. */
    method GrantRoots(id: ScopeId, generation: nat, sid: Sid, roots: seq<RootPath>, faults: seq<RootFaults>)
      returns (granted: nat, ok: bool)
      requires Valid() && |roots| == |faults| && Ready(store.durable, id, generation, sid)
      modifies this, store
      ensures Valid() && old(steps) <= steps && Ready(store.durable, id, generation, sid)
      ensures Seals(store.durable) == old(Seals(store.durable))
      ensures granted == GrantedRoots(roots, faults) && (ok <==> granted == |roots|)
      ensures Safe() <==> old(Safe()) && !Doomed(roots, faults, Held(old(grants), sid))
      ensures ok ==> forall root | root in roots :: RootAce(sid, root.fold) in grants
      ensures OnlyTook(old(grants), grants, sid,
                       if granted < |roots| && !faults[granted].grant.refused then [roots[granted]] else [])
      ensures old(Safe()) && Sane(origin) && OwnIdentity(old(store.durable), id, sidOf) ==>
                && (Doomed(roots, faults, Held(old(grants), sid)) ==> Exposed(origin, steps))
                && (granted < |roots| && LosesMarker(roots[granted], faults[granted], RootAce(sid, roots[granted].fold) in old(grants))
                    ==> !Marked(store.durable, RootAce(sid, roots[granted].fold)))
    {
      hide Good, RunHost, AllGuarded, Sane, OwnIdentity, Exposed, Marked, Ready, Held;
      granted := 0;
      while granted < |roots|
        invariant granted <= |roots| && Valid() && old(steps) <= steps && Safe() == old(Safe())
        invariant Ready(store.durable, id, generation, sid) && Seals(store.durable) == old(Seals(store.durable))
        invariant old(grants) <= grants
        invariant GrantedRoots(roots, faults) == granted + GrantedRoots(roots[granted..], faults[granted..])
        invariant forall root | root in roots[..granted] :: RootAce(sid, root.fold) in grants
        invariant Doomed(roots, faults, Held(old(grants), sid))
                  <==> Doomed(roots[granted..], faults[granted..], Held(grants, sid))
      {
        var root := roots[granted];
        DoomedUnrolled(roots, faults, granted, grants, sid);
        OwnIdentityStands(old(store.durable), store.durable, id, sidOf);
        ok := GrantRoot(id, generation, sid, root, faults[granted]);
        if !ok {
          return;
        }
        granted := granted + 1;
        assert roots[..granted] == roots[..granted - 1] + [root];
      }
      assert roots[..granted] == roots;
      ok := true;
    }

    /** One root of a rollback. */
    method TakeBack(id: ScopeId, generation: nat, sid: Sid, root: RootPath, f: RootFaults) returns (removed: bool)
      requires Valid() && Ready(store.durable, id, generation, sid)
      modifies this, store
      ensures Valid() && Safe() == old(Safe()) && old(steps) <= steps && Ready(store.durable, id, generation, sid)
      ensures Seals(store.durable) == old(Seals(store.durable))
      ensures OnlyTook(old(grants), grants, sid, [root]) && grants <= old(grants)
      ensures Removes(f.rollback, true) ==> RootAce(sid, root.fold) !in grants
      ensures forall ace :: Marked(store.durable, ace) ==> old(Marked(store.durable, ace))
      ensures store.durable.scopes[id].roots <= old(store.durable.scopes[id].roots)
      ensures removed ==> RootAce(sid, root.fold) !in grants && !store.durable.scopes[id].MarksRoot(root.fold)
      ensures Reclaimable(root, f) ==> removed
    {
      hide Good, RunHost, AllGuarded, Sane, OwnIdentity, Exposed, Marked;
      removed := RemoveRuntimeRead(root, sid, f.rollback);
      TookOne(old(grants), grants, sid, root);
      if removed {
        ScopeIdsAgree(store.durable, id);
        ClearedRoot(store.durable, id, generation, sid, root);
        ClearRootMarksLess(store.durable, id, generation, sid, root);
        removed := ClearRootMarker(id, generation, sid, root, f.rollbackClear);
      }
    }

    /** Removes, newest first, what this activation granted; a marker goes only after its removal. */
    method RollBack(id: ScopeId, generation: nat, sid: Sid, roots: seq<RootPath>, faults: seq<RootFaults>)
      returns (closed: bool)
      requires Valid() && |roots| == |faults| && Ready(store.durable, id, generation, sid)
      modifies this, store
      ensures Valid() && Safe() == old(Safe()) && old(steps) <= steps && Ready(store.durable, id, generation, sid)
      ensures Seals(store.durable) == old(Seals(store.durable))
      ensures OnlyTook(old(grants), grants, sid, roots) && grants <= old(grants)
      ensures forall i | 0 <= i < |roots| && Removes(faults[i].rollback, true) :: RootAce(sid, roots[i].fold) !in grants
      ensures forall ace :: Marked(store.durable, ace) ==> old(Marked(store.durable, ace))
      ensures closed ==> forall root | root in roots ::
                RootAce(sid, root.fold) !in grants && !store.durable.scopes[id].MarksRoot(root.fold)
      ensures (forall i | 0 <= i < |roots| :: Reclaimable(roots[i], faults[i])) ==> closed
    {
      hide Good, RunHost, AllGuarded, Sane, OwnIdentity, Exposed, Marked, Removes, Takes;
      closed := true;
      var i := |roots|;
      while i > 0
        invariant 0 <= i <= |roots| && Valid() && Safe() == old(Safe()) && old(steps) <= steps
        invariant Ready(store.durable, id, generation, sid) && Seals(store.durable) == old(Seals(store.durable))
        invariant OnlyTook(old(grants), grants, sid, roots[i..]) && grants <= old(grants)
        invariant forall k | i <= k < |roots| && Removes(faults[k].rollback, true) :: RootAce(sid, roots[k].fold) !in grants
        invariant forall ace :: Marked(store.durable, ace) ==> old(Marked(store.durable, ace))
        invariant closed ==> forall k | i <= k < |roots| ::
                    RootAce(sid, roots[k].fold) !in grants && !store.durable.scopes[id].MarksRoot(roots[k].fold)
        invariant (forall k | i <= k < |roots| :: Reclaimable(roots[k], faults[k])) ==> closed
      {
        i := i - 1;
        ghost var before := grants;
        var removed := TakeBack(id, generation, sid, roots[i], faults[i]);
        TookFrom(old(grants), before, grants, sid, roots[i + 1..], [roots[i]], roots[i..]);
        closed := closed && removed;
      }
      assert roots[0..] == roots;
    }

    /** The markers of a failed activation: write authority and admission go last. */
    method Abandon(id: ScopeId, generation: nat, sid: Sid, clearWrite: StoreFault, revoke: StoreFault)
      requires Valid() && Ready(store.durable, id, generation, sid)
      modifies this`steps, store
      ensures Valid() && Safe() == old(Safe()) && old(steps) <= steps
      ensures Seals(store.durable) == old(Seals(store.durable)) && id in store.durable.scopes
      ensures forall ace :: Marked(store.durable, ace) ==> old(Marked(store.durable, ace))
      ensures store.durable.scopes[id]
           == old(store.durable.scopes[id]).(write := clearWrite.LostBefore?,
                                             state := if revoke.LostBefore? then Active else Revoked)
    {
      hide Good, RunHost, AllGuarded, Marked;
      if !clearWrite.LostBefore? {
        ClearWriteMarker(id, generation, sid);
      }
      if !revoke.LostBefore? {
        RevokeAdmission(id, generation);
      }
    }

    method ClearWriteMarker(id: ScopeId, generation: nat, sid: Sid)
      requires Valid() && Ready(store.durable, id, generation, sid)
      modifies this`steps, store
      ensures Valid() && Safe() == old(Safe()) && old(steps) <= steps
      ensures Seals(store.durable) == old(Seals(store.durable)) && id in store.durable.scopes
      ensures store.durable.scopes[id] == old(store.durable.scopes[id]).(write := false)
      ensures forall ace :: Marked(store.durable, ace) ==> old(Marked(store.durable, ace))
    {
      hide Good, RunHost, AllGuarded, Apply, Marked;
      ghost var op := DoClearWrite(id, generation, sid);
      ghost var before := store.durable;
      ScopeIdsAgree(before, id);
      AppliesTo(before, op);
      SealsStand(before, op);
      UnconditionalAppended(origin, steps, Now(), op);
      var _ := store.ClearWriteAuthority(id, generation, sid);
      steps := steps + [HostStep.Store(op)];
      forall ace | Marked(store.durable, ace) ensures Marked(before, ace) {
        ClearsOnly(before, op, ace);
      }
    }

    method RevokeAdmission(id: ScopeId, generation: nat)
      requires Valid() && id in store.durable.scopes && store.durable.scopes[id].seal.generation == generation
      requires !store.durable.scopes[id].state.Terminal?
      modifies this`steps, store
      ensures Valid() && Safe() == old(Safe()) && old(steps) <= steps
      ensures Seals(store.durable) == old(Seals(store.durable)) && id in store.durable.scopes
      ensures store.durable.scopes[id] == old(store.durable.scopes[id]).(state := Revoked)
      ensures forall ace :: Marked(store.durable, ace) ==> old(Marked(store.durable, ace))
    {
      hide Good, RunHost, AllGuarded, Apply, Marked;
      ghost var op := DoRevoke(id, generation);
      ghost var before := store.durable;
      ScopeIdsAgree(before, id);
      AppliesTo(before, op);
      SealsStand(before, op);
      UnconditionalAppended(origin, steps, Now(), op);
      var _ := store.RevokeScope(id, generation);
      steps := steps + [HostStep.Store(op)];
      forall ace | Marked(store.durable, ace) ensures Marked(before, ace) {
        ClearsOnly(before, op, ace);
      }
    }

    method Revalidate(id: ScopeId, generation: nat, c: Claim) returns (reply: Reply)
      requires Valid()
      modifies this`steps, store
      ensures Valid() && Safe() == old(Safe()) && old(steps) <= steps
      ensures Seals(store.durable) == old(Seals(store.durable))
      ensures reply.Ok? <==> Admissible(old(store.durable), id, generation, c)
      ensures reply.Ok? ==> store.durable == old(store.durable) && Sound(store.durable, id)
                            && reply.value == store.durable.scopes[id]
    {
      hide Good, RunHost, AllGuarded, Apply, RevalidateScope, Admissible, Sound;
      ghost var op := DoRevalidate(id, generation, c, None);
      RevalidateIff(store.durable, id, generation, c);
      AppliesTo(store.durable, op);
      SealsStand(store.durable, op);
      UnconditionalAppended(origin, steps, Now(), op);
      AdmissibleNamesScope(store.durable, id, generation, c);
      reply := store.Revalidated(id, generation, c);
      steps := steps + [HostStep.Store(op)];
      if reply.Ok? {
        GoodIsSound(store.durable, id);
      }
    }

    lemma AdmissibleNamesScope(s: Authority, id: ScopeId, generation: nat, c: Claim)
      ensures Admissible(s, id, generation, c) ==> id in s.scopes
    {
    }

    method ReserveIdentityMarker(id: ScopeId, generation: nat, sid: Sid, f: StoreFault) returns (ok: bool)
      requires Valid() && Sound(store.durable, id) && store.durable.scopes[id].sid.None?
      requires sid == sidOf(store.durable.scopes[id].seal.lease) && store.durable.scopes[id].Current()
      requires store.durable.scopes[id].seal.generation == generation
      modifies this`steps, store
      ensures Valid() && Safe() == old(Safe()) && old(steps) <= steps
      ensures Seals(store.durable) == old(Seals(store.durable))
      ensures ok <==> f.Fine? && sid != ""
      ensures ok ==> Ready(store.durable, id, generation, sid)
    {
      hide Good, RunHost, AllGuarded, Apply, Guarded, ReserveIdentity, Ready, Sound;
      if f.LostBefore? {
        return false;
      }
      ghost var op := DoReserveIdentity(id, generation, sid);
      SoundIsPresent(store.durable, id);
      ReservedIdentity(store.durable, op);
      SealsStand(store.durable, op);
      GuardOf(Now(), op);
      StoreAppended(origin, steps, Now(), op);
      var reply := store.ReserveSandboxIdentity(id, generation, sid);
      steps := steps + [HostStep.Store(op)];
      ok := reply.Ok? && f.Fine?;
    }

    lemma SoundIsPresent(s: Authority, id: ScopeId)
      requires Sound(s, id)
      ensures id in s.scopes && s.scopes[id].seal.scopeId == id && ResidualOk(s.scopes[id])
    {
    }

    /** Revalidates, reserves the derived identity, and says whether grants may begin. */
    method Admit(id: ScopeId, generation: nat, c: Claim, f: ActivationFaults) returns (ready: bool, sid: Sid)
      requires Valid()
      modifies this`steps, store
      ensures Valid() && Safe() == old(Safe()) && old(steps) <= steps
      ensures Seals(store.durable) == old(Seals(store.durable))
      ensures ready <==> Activatable(old(store.durable), id, generation, c, sidOf, f)
      ensures ready ==> Admissible(old(store.durable), id, generation, c) && !f.admissionFails && !f.workspaceFails
      ensures ready ==> id in old(store.durable).scopes && sid == sidOf(old(store.durable).scopes[id].seal.lease)
                        && Ready(store.durable, id, generation, sid)
    {
      hide Good, RunHost, AllGuarded, Sound, Resolve;
      ready, sid := false, "";
      var reply := Revalidate(id, generation, c);
      if reply.Err? || f.admissionFails {
        return;
      }
      var current := reply.value;
      SoundIsPresent(store.durable, id);
      if current.jobs != {} || current.pids != {} || (current.sid.Some? && !current.write) || f.workspaceFails {
        return;
      }
      sid := sidOf(current.seal.lease);
      if current.sid.Some? && current.sid != Some(sid) {
        return;
      }
      ready := true;
      if current.sid.None? {
        ready := ReserveIdentityMarker(id, generation, sid, f.identity);
      }
    }

    /** What an admitted activation does: grant, and on any failure roll back and abandon. */
    method GrantOrAbandon(id: ScopeId, generation: nat, sid: Sid, roots: seq<RootPath>, f: ActivationFaults)
      returns (activated: bool)
      requires Valid() && |f.roots| == |roots| && Ready(store.durable, id, generation, sid)
      modifies this, store
      ensures Valid() && old(steps) <= steps && Seals(store.durable) == old(Seals(store.durable))
      ensures activated <==> Grants(roots, f)
      ensures Safe() <==> old(Safe()) && !Dooms(roots, f, Held(old(grants), sid))
      ensures activated ==>
                Ready(store.durable, id, generation, sid) && AllHeld(roots, sid, grants)
      ensures OnlyTook(old(grants), grants, sid, Touched(roots, f))
      ensures !activated ==> id in store.durable.scopes && Abandoned(store.durable.scopes[id], f)
      ensures !activated ==> RolledBack(roots, f, sid, grants)
      ensures old(Safe()) && Sane(origin) && OwnIdentity(old(store.durable), id, sidOf) ==>
                && (Dooms(roots, f, Held(old(grants), sid)) ==> Exposed(origin, steps))
                && Stranded(roots, f, sid, old(grants), Now())
    {
      hide Good, RunHost, AllGuarded, Sane, OwnIdentity, Exposed, Marked, Doomed, LosesMarker, Stranded, RolledBack, Held, Removes;
      hide OnlyTook, AllHeld, Reclaimable;
      hide Grantable;
      var granted := 0;
      activated := false;
      ghost var middle, before := grants, steps;
      if !f.aclFails {
        granted, activated := GrantRoots(id, generation, sid, roots, f.roots);
        middle, before := grants, steps;
        if activated && !f.finalCheckFails {
          AllHeldIf(roots, sid, grants);
          TookNothing(grants, sid);
          TookFrom(old(grants), grants, grants, sid, [], [], Touched(roots, f));
          StrandedIf(roots, f, sid, old(grants), Now());
          return;
        }
        activated := false;
      } else {
        TookNothing(grants, sid);
      }
      var _ := RollBack(id, generation, sid, roots[..granted], f.roots[..granted]);
      TookFrom(old(grants), middle, grants, sid,
               if !f.aclFails && granted < |roots| && !f.roots[granted].grant.refused then [roots[granted]] else [],
               roots[..granted], Touched(roots, f));
      RolledBackIf(roots, f, sid, grants, granted);
      Abandon(id, generation, sid, f.clearWrite, f.revoke);
      if old(Safe()) && Sane(origin) && OwnIdentity(old(store.durable), id, sidOf) {
        StrandedIf(roots, f, sid, old(grants), Now());
      }
      if Exposed(origin, before) {
        ExposedGrows(origin, before, steps);
      }
    }

    /** Either every root is granted under a marker, or what was granted is rolled back and the scope revoked.
        From a sane start some crash point is left uncovered exactly when the activation is doomed. */
    method Activate(id: ScopeId, generation: nat, c: Claim, roots: seq<RootPath>, f: ActivationFaults)
      returns (outcome: ActivationOutcome, sid: Sid)
      requires Valid() && |f.roots| == |roots|
      modifies this, store
      ensures Valid() && old(steps) <= steps && Seals(store.durable) == old(Seals(store.durable))
      ensures outcome == Rejected <==> !Activatable(old(store.durable), id, generation, c, sidOf, f)
      ensures outcome == Rejected ==> Safe() == old(Safe()) && grants == old(grants)
      ensures outcome != Rejected ==> id in old(store.durable).scopes && sid == sidOf(old(store.durable).scopes[id].seal.lease)
      ensures outcome != Rejected ==>
                && (outcome == Activated <==> Grants(roots, f))
                && (Safe() <==> old(Safe()) && !Dooms(roots, f, Held(old(grants), sid)))
                && OnlyTook(old(grants), grants, sid, Touched(roots, f))
      ensures outcome == Activated ==>
                Ready(store.durable, id, generation, sid) && AllHeld(roots, sid, grants)
      ensures outcome == Failed ==> id in store.durable.scopes && Abandoned(store.durable.scopes[id], f)
      ensures outcome == Failed ==> RolledBack(roots, f, sid, grants)
      ensures old(Safe()) && Sane(origin) && (outcome != Rejected ==> OwnIdentity(old(store.durable), id, sidOf)) ==>
                && (Exposed(origin, steps) <==> outcome != Rejected && Dooms(roots, f, Held(old(grants), sid)))
                && (outcome != Rejected ==> Stranded(roots, f, sid, old(grants), Now()))
    {
      hide Good, RunHost, AllGuarded, Sane, OwnIdentity, Exposed, Marked, Dooms, Strands, Activatable, Ready, Held, Removes;
      hide Stranded, RolledBack, AllHeld, Grants;
      outcome := Rejected;
      var ready;
      ready, sid := Admit(id, generation, c, f);
      if ready {
        OwnIdentityStands(old(store.durable), store.durable, id, sidOf);
        var activated := GrantOrAbandon(id, generation, sid, roots, f);
        outcome := if activated then Activated else Failed;
      }
      if Safe() && Sane(origin) {
        GuardedIsNotExposed(origin, steps);
      }
    }

    // ---------- Session-0 objects ----------

    method ReserveSessionMarker(id: ScopeId, generation: nat, sid: Sid, binding: SessionBinding, f: StoreFault) returns (ok: bool)
      requires Valid()
      modifies this`steps, store
      ensures Valid() && Safe() == old(Safe()) && old(steps) <= steps
      ensures store.durable == if f.LostBefore? then old(store.durable)
                               else ReserveSession(old(store.durable), id, generation, sid, binding).0
      ensures ok <==> f.Fine? && SessionReservable(old(store.durable), id, generation, sid, binding)
      ensures ok ==> Marked(store.durable, StationAce(sid)) && Marked(store.durable, DesktopAce(sid))
    {
      hide Good, RunHost, AllGuarded, Apply, ReserveSession, Marked;
      if f.LostBefore? {
        return false;
      }
      ghost var op := DoReserveSession(id, generation, sid, binding);
      ReserveSessionIff(store.durable, id, generation, sid, binding);
      ScopeIdsAgree(store.durable, id);
      ReservedSession(store.durable, op);
      UnconditionalAppended(origin, steps, Now(), op);
      var reply := store.ReserveSessionRead(id, generation, sid, binding);
      steps := steps + [HostStep.Store(op)];
      ok := reply.Ok? && f.Fine?;
    }

    method ClearSessionMarker(id: ScopeId, generation: nat, sid: Sid, binding: SessionBinding, f: StoreFault) returns (ok: bool)
      requires Valid() && StationAce(sid) !in grants && DesktopAce(sid) !in grants
      modifies this`steps, store
      ensures Valid() && Safe() == old(Safe()) && old(steps) <= steps
      ensures store.durable == if f.LostBefore? then old(store.durable)
                               else ClearSession(old(store.durable), id, generation, sid, binding).0
      ensures ok <==> f.Fine? && SessionClearable(old(store.durable), id, generation, sid, binding)
    {
      hide Good, RunHost, AllGuarded, Apply, ClearSession, Guarded;
      if f.LostBefore? {
        return false;
      }
      ghost var op := DoClearSession(id, generation, sid, binding);
      ClearSessionIff(store.durable, id, generation, sid, binding);
      AppliesTo(store.durable, op);
      GuardOf(Now(), op);
      StoreAppended(origin, steps, Now(), op);
      var reply := store.ClearSessionRead(id, generation, sid, binding);
      steps := steps + [HostStep.Store(op)];
      ok := reply.Ok? && f.Fine?;
    }

    /** `merged` says that compensation has to revoke the entry again. */
    method GrantObject(ace: Ace, f: ObjectFault) returns (merged: bool, ok: bool)
      requires Valid() && Marked(store.durable, ace)
      modifies this
      ensures Valid() && Safe() == old(Safe()) && old(steps) <= steps
      ensures ok <==> Installs(f, ace in old(grants))
      ensures ok ==> ace !in old(grants) && !f.readFails && !f.mergeFails && !f.readBackFails
      ensures grants == if Merges(f, ace in old(grants)) then old(grants) + {ace} else old(grants)
      ensures merged ==> ace !in old(grants)
    {
      hide Good, RunHost, AllGuarded;
      if f.readFails || ace in grants {
        return false, false;
      }
      if f.mergeFails {
        if f.mergeApplied {
          Install(ace);
        }
        return false, false;
      }
      Install(ace);
      merged, ok := true, !f.readBackFails;
    }

    method RemoveObject(ace: Ace, f: ObjectFault) returns (ok: bool)
      requires Valid()
      modifies this
      ensures Valid() && Safe() == old(Safe()) && old(steps) <= steps
      ensures ok <==> Revokes(f, ace in old(grants))
      ensures ok ==> !f.removeReadFails && !f.removeReadBackFails && (ace in old(grants) ==> f.revokeApplied && !f.revokeFails)
      ensures old(grants) - {ace} <= grants <= old(grants) && (ok ==> ace !in grants)
    {
      hide Good, RunHost, AllGuarded;
      if f.removeReadFails {
        return false;
      }
      if ace in grants {
        if f.revokeApplied {
          Strip({ace});
        }
        if f.revokeFails {
          return false;
        }
      }
      ok := !f.removeReadBackFails && ace !in grants;
    }

    /** The desktop first; success proves both entries absent. */
    method RemoveSession(sid: Sid, f: SessionFaults) returns (ok: bool)
      requires Valid()
      modifies this
      ensures Valid() && Safe() == old(Safe()) && old(steps) <= steps
      ensures ok <==> Revokes(f.desktop, DesktopAce(sid) in old(grants)) && Revokes(f.station, StationAce(sid) in old(grants))
      ensures old(grants) - {StationAce(sid), DesktopAce(sid)} <= grants <= old(grants)
      ensures ok ==> StationAce(sid) !in grants && DesktopAce(sid) !in grants
    {
      hide Good, RunHost, AllGuarded, Revokes;
      ok := RemoveObject(DesktopAce(sid), f.desktop);
      if ok {
        ok := RemoveObject(StationAce(sid), f.station);
      }
    }

    /** Grants the Session-0 objects under a binding reserved first. It succeeds exactly when the binding is
        accepted and both objects take the entry; otherwise what it granted is removed, and the binding is
        cleared only after a proved removal. */
    method EnableSession(id: ScopeId, generation: nat, sid: Sid, binding: SessionBinding, f: SessionFaults) returns (ok: bool)
      requires Valid()
      modifies this, store
      ensures Valid() && Safe() == old(Safe()) && old(steps) <= steps
      ensures var reserved := f.reserve.Fine? && SessionReservable(old(store.durable), id, generation, sid, binding);
              && (ok <==> reserved && Installs(f.station, StationAce(sid) in old(grants))
                          && Installs(f.desktop, DesktopAce(sid) in old(grants)))
              && (!reserved ==> grants == old(grants))
              && (reserved && !ok && RemovesSession(f) ==>
                    && StationAce(sid) !in grants && DesktopAce(sid) !in grants
                    && (f.clear.Fine? ==> id in store.durable.scopes && store.durable.scopes[id].session.None?))
      ensures ok ==> grants == old(grants) + {StationAce(sid), DesktopAce(sid)}
                     && id in store.durable.scopes && store.durable.scopes[id].session == Some(binding)
      ensures grants - {StationAce(sid), DesktopAce(sid)} == old(grants) - {StationAce(sid), DesktopAce(sid)}
    {
      hide Good, RunHost, AllGuarded, Marked, ReserveSession, Installs, Merges, RemovesSession;
      ScopeIdsAgree(store.durable, id);
      ReserveSessionIff(store.durable, id, generation, sid, binding);
      ok := ReserveSessionMarker(id, generation, sid, binding, f.reserve);
      if !ok {
        return;
      }
      var station, desktop := false, false;
      station, ok := GrantObject(StationAce(sid), f.station);
      if ok {
        desktop, ok := GrantObject(DesktopAce(sid), f.desktop);
      }
      InstallsMerge(f.station, StationAce(sid) in old(grants));
      InstallsMerge(f.desktop, DesktopAce(sid) in old(grants));
      if ok {
        return;
      }
      UndoSession(id, generation, sid, binding, f, station, desktop);
    }

    lemma RemovesWhateverIsHeld(f: SessionFaults, desktop: bool, station: bool)
      ensures RemovesSession(f) ==> Revokes(f.desktop, desktop) && Revokes(f.station, station)
    {
    }

    lemma InstallsMerge(f: ObjectFault, held: bool)
      ensures Installs(f, held) ==> Merges(f, held)
    {
    }

    /** After a failed grant: best-effort compensation, then a proved removal, then the marker. */
    method UndoSession(id: ScopeId, generation: nat, sid: Sid, binding: SessionBinding, f: SessionFaults, station: bool, desktop: bool)
      requires Valid() && id in store.durable.scopes && store.durable.scopes[id].seal.scopeId == id
      requires store.durable.scopes[id].seal.generation == generation && store.durable.scopes[id].state.Active?
      requires store.durable.scopes[id].sid == Some(sid) && store.durable.scopes[id].session == Some(binding)
      modifies this, store
      ensures Valid() && Safe() == old(Safe()) && old(steps) <= steps
      ensures old(grants) - {StationAce(sid), DesktopAce(sid)} <= grants <= old(grants)
      ensures RemovesSession(f) ==>
                && StationAce(sid) !in grants && DesktopAce(sid) !in grants
                && (f.clear.Fine? ==> id in store.durable.scopes && store.durable.scopes[id].session.None?)
    {
      hide Good, RunHost, AllGuarded, ClearSession, Revokes, RemovesSession;
      RemovesWhateverIsHeld(f, DesktopAce(sid) in grants, StationAce(sid) in grants);
      RemovesWhateverIsHeld(f, false, StationAce(sid) in grants);
      RemovesWhateverIsHeld(f, DesktopAce(sid) in grants, false);
      RemovesWhateverIsHeld(f, false, false);
      if desktop && f.desktop.compensated {
        Strip({DesktopAce(sid)});
      }
      if station && f.station.compensated {
        Strip({StationAce(sid)});
      }
      var removed := RemoveSession(sid, f);
      if removed {
        ClearSessionIff(store.durable, id, generation, sid, binding);
        var _ := ClearSessionMarker(id, generation, sid, binding, f.clear);
      }
    }

    // ---------- cleanup and terminalization ----------

    ghost predicate Holds(id: ScopeId)
      reads this, store
    {
      Valid() && id in store.durable.scopes && store.durable.scopes[id].seal.scopeId == id
    }

    method CleanupRoots(id: ScopeId, generation: nat, sid: Sid, roots: set<RootPath>, faults: RootPath -> RootFaults)
      returns (ok: bool)
      requires Holds(id)
      modifies this, store
      ensures Holds(id) && Safe() == old(Safe()) && old(steps) <= steps
      ensures OnlyCleared(old(store.durable.scopes[id]), store.durable.scopes[id])
      ensures store.durable.scopes[id].session == old(store.durable.scopes[id].session)
      ensures grants <= old(grants)
      ensures forall ace | ace in old(grants) && ace !in grants :: exists root | root in roots :: ace == RootAce(sid, root.fold)
      ensures ok ==> Cleared(roots, sid, grants, store.durable.scopes[id])
      ensures Clearable(old(store.durable.scopes[id]), generation, sid) && AllReclaimable(roots, faults) ==> ok
    {
      hide Good, RunHost, AllGuarded, Reclaimable, ClearRoot;
      ghost var r := store.durable.scopes[id];
      var remaining := roots;
      while remaining != {}
        invariant remaining <= roots && Holds(id) && Safe() == old(Safe()) && old(steps) <= steps
        invariant OnlyCleared(r, store.durable.scopes[id]) && store.durable.scopes[id].session == r.session
        invariant grants <= old(grants)
        invariant forall ace | ace in old(grants) && ace !in grants ::
                    exists root | root in roots :: ace == RootAce(sid, root.fold)
        invariant Cleared(roots - remaining, sid, grants, store.durable.scopes[id])
        decreases remaining
      {
        var root :| root in remaining;
        remaining := remaining - {root};
        ok := ReclaimRoot(id, generation, sid, root, faults(root));
        if !ok {
          return;
        }
        assert roots - remaining == (roots - (remaining + {root})) + {root};
      }
      assert roots - remaining == roots;
      ok := true;
    }

    /** One root of a cleanup. */
    method ReclaimRoot(id: ScopeId, generation: nat, sid: Sid, root: RootPath, f: RootFaults) returns (ok: bool)
      requires Holds(id)
      modifies this, store
      ensures Holds(id) && Safe() == old(Safe()) && old(steps) <= steps
      ensures OnlyCleared(old(store.durable.scopes[id]), store.durable.scopes[id])
      ensures store.durable.scopes[id].session == old(store.durable.scopes[id].session)
      ensures old(grants) - {RootAce(sid, root.fold)} <= grants <= old(grants)
      ensures ok ==> RootAce(sid, root.fold) !in grants && !store.durable.scopes[id].MarksRoot(root.fold)
      ensures Clearable(old(store.durable.scopes[id]), generation, sid) && Reclaimable(root, f) ==> ok
    {
      hide Good, RunHost, AllGuarded, Takes, ClearRoot;
      ok := RemoveRuntimeRead(root, sid, f.rollback);
      if ok {
        ClearRootIff(store.durable, id, generation, sid, root);
        ok := ClearRootMarker(id, generation, sid, root, f.rollbackClear);
      }
    }

    method RemovePolicyRoots(sid: Sid, roots: seq<RootPath>, faults: RootPath -> RootFaults) returns (ok: bool)
      requires Valid()
      modifies this
      ensures Valid() && Safe() == old(Safe()) && old(steps) <= steps
      ensures OnlyTook(old(grants), grants, sid, roots) && grants <= old(grants)
      ensures ok ==> forall root | root in roots :: RootAce(sid, root.fold) !in grants
      ensures (forall root | root in roots :: Removes(faults(root).rollback, true)) ==> ok
    {
      hide Good, RunHost, AllGuarded, Takes;
      for i := 0 to |roots|
        invariant Valid() && Safe() == old(Safe()) && old(steps) <= steps
        invariant OnlyTook(old(grants), grants, sid, roots[..i]) && grants <= old(grants)
        invariant forall k | 0 <= k < i :: RootAce(sid, roots[k].fold) !in grants
      {
        ghost var before := grants;
        ok := RemoveRuntimeRead(roots[i], sid, faults(roots[i]).rollback);
        TookOne(before, grants, sid, roots[i]);
        TookFrom(old(grants), before, grants, sid, roots[..i], [roots[i]], roots[..i + 1]);
        if !ok {
          TookFrom(old(grants), grants, grants, sid, roots[..i + 1], [], roots);
          return;
        }
      }
      assert roots[..|roots|] == roots;
      ok := true;
    }

    /** The operating-system cleanup of a record. A closure means that nothing the record stands for is left;
        it reports the markers that are. An undisturbed cleanup of the record as it stands succeeds. */
    method Cleanup(id: ScopeId, record: Record, policyRoots: seq<RootPath>, f: CleanupFaults) returns (r: Option<Closure>)
      requires Holds(id)
      modifies this, store
      ensures Holds(id) && Safe() == old(Safe()) && old(steps) <= steps
      ensures OnlyCleared(old(store.durable.scopes[id]), store.durable.scopes[id])
      ensures forall ace | ace in old(grants) && ace !in grants :: Reclaims(record, policyRoots, ace)
      ensures r.Some? ==>
                && r.value == Closure(record.sid, {}, {}, false, store.durable.scopes[id].roots, store.durable.scopes[id].session)
                && CleanedUp(record, policyRoots, grants, store.durable.scopes[id])
      ensures Undisturbed(f) && old(store.durable.scopes[id]) == record && !record.state.Terminal? ==>
                r == Some(Closure(record.sid, {}, {}, false, {}, None))
    {
      hide Good, RunHost, AllGuarded, Cleared, Revokes, Reclaimable, Removes;
      ghost var before := store.durable.scopes[id];
      GoodIsResidual(store.durable, id);
      if f.processesFail {
        return None;
      }
      if record.sid.Some? {
        var sid := record.sid.value;
        var ended := CleanupSession(id, record, f);
        if !ended || f.workspaceFails || f.verificationFails {
          return None;
        }
        var closed := CleanupRootsOf(id, record, policyRoots, f);
        if !closed {
          return None;
        }
        ClearedAll(record.roots, sid, grants, store.durable.scopes[id]);
      }
      var current := store.durable.scopes[id];
      r := Some(Closure(record.sid, {}, {}, false, current.roots, current.session));
    }

    /** The recorded roots with their markers, or the configured roots of a record that names none. */
    method CleanupRootsOf(id: ScopeId, record: Record, policyRoots: seq<RootPath>, f: CleanupFaults) returns (closed: bool)
      requires Holds(id) && record.sid.Some?
      modifies this, store
      ensures Holds(id) && Safe() == old(Safe()) && old(steps) <= steps
      ensures OnlyCleared(old(store.durable.scopes[id]), store.durable.scopes[id])
      ensures store.durable.scopes[id].session == old(store.durable.scopes[id].session)
      ensures grants <= old(grants)
      ensures forall ace | ace in old(grants) && ace !in grants ::
                exists root | root in RootsToClean(record, policyRoots) :: ace == RootAce(record.sid.value, root.fold)
      ensures closed ==>
                && (forall root | root in RootsToClean(record, policyRoots) :: RootAce(record.sid.value, root.fold) !in grants)
                && Cleared(record.roots, record.sid.value, grants, store.durable.scopes[id])
      ensures Undisturbed(f) && ResidualOk(record) && Clearable(old(store.durable.scopes[id]), record.seal.generation, record.sid.value)
              ==> closed
    {
      hide Good, RunHost, AllGuarded, Cleared, Reclaimable, Removes, Clearable;
      var sid := record.sid.value;
      if record.roots != {} {
        assert Undisturbed(f) && ResidualOk(record) ==> AllReclaimable(record.roots, f.root);
        closed := CleanupRoots(id, record.seal.generation, sid, record.roots, f.root);
        if closed { ClearedAll(record.roots, sid, grants, store.durable.scopes[id]); }
      } else {
        closed := RemovePolicyRoots(sid, policyRoots, f.root);
        NothingToClear(sid, grants, store.durable.scopes[id]);
      }
    }

    lemma GoodIsResidual(s: Authority, id: ScopeId)
      requires Good(s) && id in s.scopes
      ensures ResidualOk(s.scopes[id])
    {
    }

    lemma NothingToClear(sid: Sid, grants: set<Ace>, r: Record)
      ensures Cleared({}, sid, grants, r)
    {
    }

    lemma ClearedAll(roots: set<RootPath>, sid: Sid, grants: set<Ace>, r: Record)
      requires Cleared(roots, sid, grants, r)
      ensures r.roots <= roots ==> r.roots == {}
      ensures forall root | root in roots :: RootAce(sid, root.fold) !in grants
    {
      assert forall root | root in r.roots :: r.MarksRoot(root.fold);
    }

    /** The recorded Session-0 binding, if any: reacquire, remove, and only then clear. */
    method CleanupSession(id: ScopeId, record: Record, f: CleanupFaults) returns (ended: bool)
      requires Holds(id) && record.sid.Some?
      modifies this, store
      ensures Holds(id) && Safe() == old(Safe()) && old(steps) <= steps
      ensures OnlyCleared(old(store.durable.scopes[id]), store.durable.scopes[id])
      ensures store.durable.scopes[id].roots == old(store.durable.scopes[id].roots)
      ensures grants <= old(grants)
      ensures forall ace | ace in old(grants) && ace !in grants ::
                record.session.Some? && (ace == StationAce(record.sid.value) || ace == DesktopAce(record.sid.value))
      ensures ended && record.session.Some? ==>
                && StationAce(record.sid.value) !in grants && DesktopAce(record.sid.value) !in grants
                && store.durable.scopes[id].session.None?
      ensures Undisturbed(f) && old(store.durable.scopes[id]) == record && !record.state.Terminal? ==> ended
    {
      hide Good, RunHost, AllGuarded, Reclaimable, ClearSession, Removes;
      ended := true;
      if record.session.Some? {
        var sid := record.sid.value;
        if f.reacquireFails {
          return false;
        }
        ended := RemoveSession(sid, f.session);
        if ended {
          ClearSessionIff(store.durable, id, record.seal.generation, sid, record.session.value);
          ended := ClearSessionMarker(id, record.seal.generation, sid, record.session.value, f.session.clear);
        }
      }
    }

    /** Revokes, cleans up, and commits. Success is reported only for the durable terminal record; an
        undisturbed call succeeds exactly when its first phase is accepted; and a sane host then holds no
        entry whatever of the identity of that scope. */
    method Terminalize(id: ScopeId, generation: nat, c: Claim, policyRoots: seq<RootPath>, f: CleanupFaults) returns (reply: Reply)
      requires Valid()
      modifies this, store
      ensures Valid() && Safe() == old(Safe()) && old(steps) <= steps
      ensures reply.Ok? ==> id in store.durable.scopes && store.durable.scopes[id] == reply.value
                            && reply.value.state.Terminal? && !reply.value.HoldsAuthority()
                            && id in old(store.durable).scopes && reply.value.seal == old(store.durable).scopes[id].seal
      ensures Undisturbed(f) ==>
                (reply.Ok? <==> Terminalizable(old(store.durable), id, generation, c))
      ensures reply.Ok? && old(Safe()) && Sane(origin) && Injective(sidOf) ==>
                forall ace | ace in grants :: ace.sid != sidOf(reply.value.seal.lease)
      ensures forall ace | ace in old(grants) && ace !in grants ::
                id in old(store.durable).scopes && Reclaims(old(store.durable).scopes[id], policyRoots, ace)
    {
      hide Good, RunHost, AllGuarded, Sane, Injective, Undisturbed, TerminalizeBegin, TerminalizeCommit, CleanedUp;
      ghost var s := store.durable;
      BeginIff(s, id, generation, c, true);
      reply := Begin(id, generation, c);
      if reply.Ok? {
        if !reply.value.state.Terminal? {
          ScopeIdsAgree(s, id);
          ScopeIdsAgree(store.durable, id);
          reply := CleanAndCommit(id, generation, c, reply.value, policyRoots, f);
        }
        if reply.Ok? && Safe() && Sane(origin) && Injective(sidOf) {
          NothingIsLeft(id);
        }
      }
    }

    lemma NothingIsLeft(id: ScopeId)
      requires Valid() && Safe() && Sane(origin) && Injective(sidOf)
      requires id in store.durable.scopes && store.durable.scopes[id].state.Terminal?
      ensures forall ace | ace in grants :: ace.sid != sidOf(store.durable.scopes[id].seal.lease)
    {
      hide AllGuarded, Sane, Injective, Good;
      GuardedIsNotExposed(origin, steps);
      forall ace | ace in grants ensures ace.sid != sidOf(store.durable.scopes[id].seal.lease) {
        if ace.sid == sidOf(store.durable.scopes[id].seal.lease) {
          TerminalHoldsNothing(Now(), id, ace);
        }
      }
    }

    method Begin(id: ScopeId, generation: nat, c: Claim) returns (reply: Reply)
      requires Valid()
      modifies this`steps, store
      ensures Valid() && Safe() == old(Safe()) && old(steps) <= steps
      ensures (store.durable, reply) == TerminalizeBegin(old(store.durable), id, generation, c, true)
    {
      hide Good, RunHost, AllGuarded, Apply, TerminalizeBegin;
      ghost var op := DoTerminalizeBegin(id, generation, c, true);
      AppliesTo(store.durable, op);
      UnconditionalAppended(origin, steps, Now(), op);
      reply := store.BeginTerminalization(id, generation, c, true);
      steps := steps + [HostStep.Store(op)];
    }

    /** The cleanup of a scope just revoked, and the second phase. */
    method CleanAndCommit(id: ScopeId, generation: nat, c: Claim, cleanup: Record, policyRoots: seq<RootPath>, f: CleanupFaults)
      returns (reply: Reply)
      requires Holds(id) && store.durable.scopes[id] == cleanup && cleanup.state.Revoked?
      requires cleanup.seal.generation == generation
      requires cleanup.seal.placement.repository == c.repository && cleanup.seal.placement.lineage == c.lineage
      modifies this, store
      ensures Holds(id) && Safe() == old(Safe()) && old(steps) <= steps
      ensures reply.Ok? ==> store.durable.scopes[id] == reply.value && reply.value.seal == cleanup.seal
                            && reply.value.state.Terminal? && !reply.value.HoldsAuthority()
      ensures Undisturbed(f) ==> reply.Ok?
      ensures forall ace | ace in old(grants) && ace !in grants :: Reclaims(cleanup, policyRoots, ace)
    {
      hide Good, RunHost, AllGuarded, Undisturbed, TerminalizeCommit, CleanedUp, Reclaims;
      var closure := Cleanup(id, cleanup, policyRoots, f);
      if closure.None? {
        return Err(TerminalizationFailed);
      }
      ghost var s := store.durable;
      CommitIff(s, id, generation, c, cleanup, closure.value);
      reply := CommitCleaned(id, generation, c, cleanup, closure.value);
      ScopeIdsAgree(store.durable, id);
    }

    method CommitCleaned(id: ScopeId, generation: nat, c: Claim, cleanup: Record, closure: Closure) returns (reply: Reply)
      requires Holds(id)
      requires closure.roots == store.durable.scopes[id].roots && closure.session == store.durable.scopes[id].session
      modifies this`steps, store
      ensures Valid() && Safe() == old(Safe()) && old(steps) <= steps && id in store.durable.scopes
      ensures (store.durable, reply) == TerminalizeCommit(old(store.durable), id, generation, c, cleanup, closure)
    {
      hide Good, RunHost, AllGuarded, Apply, TerminalizeCommit, Guarded;
      ghost var op := DoTerminalizeCommit(id, generation, c, cleanup, closure);
      AppliesTo(store.durable, op);
      SealsStand(store.durable, op);
      CommitGuarded(Now(), op);
      StoreAppended(origin, steps, Now(), op);
      assert id in Seals(store.durable);
      reply := store.CommitTerminalization(id, generation, c, cleanup, closure);
      steps := steps + [HostStep.Store(op)];
      assert id in Seals(store.durable);
    }

    /** While every step was guarded, the present state and every state a crash could have left
        are covered. */
    lemma EveryCrashIsCovered(crash: nat)
      requires Valid() && Safe() && Sane(origin) && crash <= |steps|
      ensures Covered(RunHost(origin, steps[..crash])) && Sane(Now())
    {
      hide AllGuarded, Sane, Covered, Good;
      CoveredThroughout(origin, steps, crash);
      GuardedIsNotExposed(origin, steps);
    }
  }
}
