/** What may go wrong while a sandbox is activated, used and cleaned up, what each kind of fault means for
    the call it hits, and which activations lose a marker they still need. */
module SandboxFaults {
  import opened Wrappers
  import opened Placement
  import opened MutationScope
  import opened MutationScopeLaws
  import opened MutationScopeRuns
  import opened SandboxProtocol

  /** A store call may raise before or after its durable write. */
  datatype StoreFault = Fine | LostBefore | LostAfter

  datatype RemoveFault = RemoveFault(missing: bool, readFails: bool, toolFails: bool, applied: bool, readBackFails: bool)

  /** `refused` covers everything that raises before the access-list tool runs: the reparse and
      final-path checks, and a failure to launch the tool. */
  datatype GrantFault = GrantFault(refused: bool, toolFails: bool, applied: bool, compensation: RemoveFault)

  datatype RootFaults = RootFaults(
    missing: bool, reserve: StoreFault, grant: GrantFault, clear: StoreFault,
    rollback: RemoveFault, rollbackClear: StoreFault)

  datatype ActivationFaults = ActivationFaults(
    admissionFails: bool, workspaceFails: bool, identity: StoreFault,
    aclFails: bool, roots: seq<RootFaults>, finalCheckFails: bool,
    clearWrite: StoreFault, revoke: StoreFault)

  datatype ObjectFault = ObjectFault(
    readFails: bool, mergeFails: bool, mergeApplied: bool, readBackFails: bool, compensated: bool,
    removeReadFails: bool, revokeFails: bool, revokeApplied: bool, removeReadBackFails: bool)

  datatype SessionFaults = SessionFaults(reserve: StoreFault, station: ObjectFault, desktop: ObjectFault, clear: StoreFault)

  datatype CleanupFaults = CleanupFaults(
    processesFail: bool, reacquireFails: bool, session: SessionFaults, workspaceFails: bool,
    root: RootPath -> RootFaults, verificationFails: bool)

  // ---------- what one call makes of its faults ----------

  /** A removal proves the entry absent. */
  predicate Removes(f: RemoveFault, held: bool) {
    f.missing || (!f.readFails && (held ==> f.applied && !f.toolFails && !f.readBackFails))
  }

  /** A removal takes the entry away, whether or not it can prove it. */
  predicate Takes(f: RemoveFault, held: bool) {
    f.missing || (!f.readFails && held && f.applied)
  }

  predicate Grantable(root: RootPath, f: RootFaults) {
    !f.missing && f.reserve.Fine? && root.text != "" && !f.grant.refused && !f.grant.toolFails
  }

  /** How many roots an activation grants before it fails, or all of them. */
  function GrantedRoots(roots: seq<RootPath>, faults: seq<RootFaults>): (n: nat)
    requires |roots| == |faults|
    ensures n <= |roots|
    ensures n < |roots| ==> !Grantable(roots[n], faults[n])
    ensures forall i | 0 <= i < n :: Grantable(roots[i], faults[i])
  {
    if roots == [] || !Grantable(roots[0], faults[0]) then 0 else 1 + GrantedRoots(roots[1..], faults[1..])
  }

  predicate Installs(f: ObjectFault, held: bool) {
    !f.readFails && !held && !f.mergeFails && !f.readBackFails
  }

  predicate Revokes(f: ObjectFault, held: bool) {
    !f.removeReadFails && (held ==> f.revokeApplied && !f.revokeFails) && !f.removeReadBackFails
  }

  /** The merge takes effect, whether or not the grant is accepted. */
  predicate Merges(f: ObjectFault, held: bool) {
    !f.readFails && !held && (!f.mergeFails || f.mergeApplied)
  }

  predicate RemovesSession(f: SessionFaults) {
    Revokes(f.desktop, true) && Revokes(f.station, true)
  }

  /** A cleanup in which every call does what it is asked. */
  ghost predicate Undisturbed(f: CleanupFaults) {
    && !f.processesFail && !f.reacquireFails && !f.workspaceFails && !f.verificationFails
    && RemovesSession(f.session) && f.session.clear.Fine?
    && (forall root: RootPath | root.text != "" :: Reclaimable(root, f.root(root)))
    && (forall root: RootPath :: Removes(f.root(root).rollback, true))
  }

  /** The admission that lets an activation begin to grant. */
  ghost predicate Activatable(s: Authority, id: ScopeId, generation: nat, c: Claim, sidOf: LeaseKey -> Sid, f: ActivationFaults) {
    && Admissible(s, id, generation, c) && !f.admissionFails && !f.workspaceFails
    && var r := s.scopes[id];
       && r.jobs == {} && r.pids == {}
       && match r.sid
          case Some(sid) => r.write && sid == sidOf(r.seal.lease)
          case None => f.identity.Fine? && sidOf(r.seal.lease) != ""
  }

  // ---------- what a cleanup reclaims ----------

  /** The recorded roots, or the configured ones when none is recorded. */
  function RootsToClean(record: Record, policyRoots: seq<RootPath>): set<RootPath> {
    if record.roots != {} then record.roots else set root | root in policyRoots
  }

  /** The entries a cleanup of `record` may take away. */
  predicate Reclaims(record: Record, policyRoots: seq<RootPath>, ace: Ace) {
    && record.sid == Some(ace.sid)
    && match ace
       case RootAce(_, fold) => exists root | root in RootsToClean(record, policyRoots) :: root.fold == fold
       case StationAce(_) => record.session.Some?
       case DesktopAce(_) => record.session.Some?
  }

  /** No root of the set carries the identity or is still marked. */
  predicate Cleared(roots: set<RootPath>, sid: Sid, grants: set<Ace>, r: Record) {
    forall root | root in roots :: RootAce(sid, root.fold) !in grants && !r.MarksRoot(root.fold)
  }

  /** Nothing that `record` stands for is left, neither in an access list nor in the durable record `r`. */
  predicate CleanedUp(record: Record, policyRoots: seq<RootPath>, grants: set<Ace>, r: Record) {
    record.sid.Some? ==>
      && (forall root | root in RootsToClean(record, policyRoots) :: RootAce(record.sid.value, root.fold) !in grants)
      && Cleared(record.roots, record.sid.value, grants, r)
      && (record.session.Some? ==>
            StationAce(record.sid.value) !in grants && DesktopAce(record.sid.value) !in grants && r.session.None?)
  }

  /** After a cleanup of a record with an identity: no recorded root carries it or is still marked; when none was
      recorded no configured root carries it; and a recorded Session-0 binding and both its entries are gone. */
  lemma CleanedUpMeans(record: Record, policyRoots: seq<RootPath>, grants: set<Ace>, r: Record, sid: Sid)
    requires CleanedUp(record, policyRoots, grants, r) && record.sid == Some(sid)
    ensures forall root | root in record.roots :: RootAce(sid, root.fold) !in grants && !r.MarksRoot(root.fold)
    ensures record.roots == {} ==> forall root | root in policyRoots :: RootAce(sid, root.fold) !in grants
    ensures record.session.Some? ==> StationAce(sid) !in grants && DesktopAce(sid) !in grants && r.session.None?
  {
    if record.roots == {} {
      assert forall root | root in policyRoots :: root in RootsToClean(record, policyRoots);
    }
  }

  /** The store accepts clearing a marker of this record. */
  predicate Clearable(r: Record, generation: nat, sid: Sid) {
    r.sid == Some(sid) && !r.state.Terminal? && r.seal.generation == generation
  }

  predicate Reclaimable(root: RootPath, f: RootFaults) {
    root.text != "" && Removes(f.rollback, true) && f.rollbackClear.Fine?
  }

  predicate AllReclaimable(roots: set<RootPath>, faults: RootPath -> RootFaults) {
    forall root | root in roots :: Reclaimable(root, faults(root))
  }

  /** The same record with at most these markers cleared. */
  predicate OnlyCleared(r: Record, t: Record) {
    t == r.(roots := t.roots, session := t.session) && t.roots <= r.roots && (t.session.Some? ==> t.session == r.session)
  }

  // ---------- losing a marker ----------

  function Held(grants: set<Ace>, sid: Sid): set<string> {
    set ace | ace in grants && ace.RootAce? && ace.sid == sid :: ace.fold
  }

  /** The grant is refused before the tool runs, the root already carries the SID, and the marker
      is then cleared. */
  predicate LosesMarker(root: RootPath, f: RootFaults, held: bool) {
    !f.missing && f.reserve.Fine? && root.text != "" && f.grant.refused && held && !f.clear.LostBefore?
  }

  /** The activation that drops a needed marker: its first failing root is refused before the tool
      runs, that root already carries the SID, and the marker is then cleared. */
  predicate Doomed(roots: seq<RootPath>, faults: seq<RootFaults>, held: set<string>)
    requires |roots| == |faults|
  {
    roots != [] &&
    (LosesMarker(roots[0], faults[0], roots[0].fold in held)
     || (Grantable(roots[0], faults[0]) && Doomed(roots[1..], faults[1..], held + {roots[0].fold})))
  }

  predicate Dooms(roots: seq<RootPath>, f: ActivationFaults, held: set<string>)
    requires |f.roots| == |roots|
  {
    !f.aclFails && Doomed(roots, f.roots, held)
  }

  /** The roots whose entries an activation may take away again: those it rolls back, and the one whose
      failed grant it compensates. */
  function Touched(roots: seq<RootPath>, f: ActivationFaults): seq<RootPath>
    requires |f.roots| == |roots|
  {
    if f.aclFails then [] else
    var n := GrantedRoots(roots, f.roots);
    roots[..n] + if n < |roots| && !f.roots[n].grant.refused then [roots[n]] else []
  }

  /** The root at which an activation loses a marker for good: an entry from before it that none of its own
      grants shares. */
  predicate Strands(roots: seq<RootPath>, f: ActivationFaults, held: set<string>, n: nat)
    requires |f.roots| == |roots|
  {
    && !f.aclFails && n == GrantedRoots(roots, f.roots) < |roots|
    && LosesMarker(roots[n], f.roots[n], roots[n].fold in held)
    && forall i | 0 <= i < n :: roots[i].fold != roots[n].fold
  }

  predicate Grants(roots: seq<RootPath>, f: ActivationFaults)
    requires |f.roots| == |roots|
  {
    !f.aclFails && GrantedRoots(roots, f.roots) == |roots| && !f.finalCheckFails
  }

  predicate AllHeld(roots: seq<RootPath>, sid: Sid, grants: set<Ace>) {
    forall root | root in roots :: RootAce(sid, root.fold) in grants
  }

  /** Every granted root whose removal can be proved has been taken back. */
  predicate RolledBack(roots: seq<RootPath>, f: ActivationFaults, sid: Sid, grants: set<Ace>)
    requires |f.roots| == |roots|
  {
    !f.aclFails ==>
      forall i | 0 <= i < GrantedRoots(roots, f.roots) && Removes(f.roots[i].rollback, true) ::
        RootAce(sid, roots[i].fold) !in grants
  }

  /** The entry of a stranded root is there and unmarked. */
  ghost predicate Stranded(roots: seq<RootPath>, f: ActivationFaults, sid: Sid, before: set<Ace>, h: HostState)
    requires |f.roots| == |roots|
  {
    forall n: nat | Strands(roots, f, Held(before, sid), n) ::
      RootAce(sid, roots[n].fold) in h.grants && !Marked(h.authority, RootAce(sid, roots[n].fold))
  }

  lemma DoomedUnrolled(roots: seq<RootPath>, faults: seq<RootFaults>, i: nat, grants: set<Ace>, sid: Sid)
    requires |roots| == |faults| && i < |roots|
    ensures var ace := RootAce(sid, roots[i].fold);
            Doomed(roots[i..], faults[i..], Held(grants, sid))
            <==> LosesMarker(roots[i], faults[i], ace in grants)
                 || (Grantable(roots[i], faults[i])
                     && Doomed(roots[i + 1..], faults[i + 1..], Held(grants + {ace}, sid)))
    ensures GrantedRoots(roots[i..], faults[i..])
         == if Grantable(roots[i], faults[i]) then 1 + GrantedRoots(roots[i + 1..], faults[i + 1..]) else 0
  {
    assert roots[i..][1..] == roots[i + 1..] && faults[i..][1..] == faults[i + 1..];
    assert Held(grants + {RootAce(sid, roots[i].fold)}, sid) == Held(grants, sid) + {roots[i].fold};
    assert roots[i].fold in Held(grants, sid) <==> RootAce(sid, roots[i].fold) in grants;
  }

  // ---------- what a caller can check ----------

  predicate Distinct(roots: seq<RootPath>) {
    forall i, j | 0 <= i < j < |roots| :: roots[i].fold != roots[j].fold
  }

  const FLAWLESS_REMOVAL := RemoveFault(false, false, false, true, false)
  const FLAWLESS := RootFaults(false, Fine, GrantFault(false, false, false, FLAWLESS_REMOVAL), Fine, FLAWLESS_REMOVAL, Fine)

  /** The path check on the root raises before the access-list tool is launched. */
  const REFUSED := FLAWLESS.(grant := GrantFault(true, false, false, FLAWLESS_REMOVAL))

  /** The script that lets every root pass up to the first one that already carries the SID. */
  function Dooming(roots: seq<RootPath>, held: set<string>): (faults: seq<RootFaults>)
    ensures |faults| == |roots|
  {
    if roots == [] then []
    else (if roots[0].fold in held then [REFUSED] else [FLAWLESS]) + Dooming(roots[1..], held + {roots[0].fold})
  }

  lemma {:induction false} FreshRootsAreSafe(roots: seq<RootPath>, faults: seq<RootFaults>, held: set<string>)
    requires |roots| == |faults| && Distinct(roots) && forall i | 0 <= i < |roots| :: roots[i].fold !in held
    ensures !Doomed(roots, faults, held)
    decreases |roots|
  {
    if roots != [] {
      FreshRootsAreSafe(roots[1..], faults[1..], held + {roots[0].fold});
    }
  }

  lemma {:induction false} StaleRootsAreDoomed(roots: seq<RootPath>, held: set<string>)
    requires forall root | root in roots :: root.text != ""
    requires !(Distinct(roots) && forall i | 0 <= i < |roots| :: roots[i].fold !in held)
    ensures Doomed(roots, Dooming(roots, held), held)
    decreases |roots|
  {
    assert roots[0] in roots;
    var rest, faults := roots[1..], Dooming(roots, held);
    assert faults[1..] == Dooming(rest, held + {roots[0].fold});
    if roots[0].fold !in held {
      assert roots == [roots[0]] + rest;
      StaleRootsAreDoomed(rest, held + {roots[0].fold});
    }
  }

  /** No fault script whatever dooms an activation exactly when its roots differ from each other and none
      of them carries the identity yet. The text of a path is never empty. */
  lemma NeverDoomedIff(roots: seq<RootPath>, held: set<string>)
    requires forall root | root in roots :: root.text != ""
    ensures (forall faults: seq<RootFaults> | |faults| == |roots| :: !Doomed(roots, faults, held))
       <==> Distinct(roots) && forall i | 0 <= i < |roots| :: roots[i].fold !in held
  {
    if Distinct(roots) && forall i | 0 <= i < |roots| :: roots[i].fold !in held {
      forall faults: seq<RootFaults> | |faults| == |roots| ensures !Doomed(roots, faults, held) {
        FreshRootsAreSafe(roots, faults, held);
      }
    } else {
      StaleRootsAreDoomed(roots, held);
    }
  }
}
