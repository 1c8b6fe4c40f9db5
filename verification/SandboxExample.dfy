/** A concrete re-activation that leaves a sandbox SID on a runtime root after its scope is terminal. */
module SandboxExample {
  import opened Wrappers
  import opened Placement
  import opened MutationScope
  import opened MutationScopeLaws
  import opened MutationScopeExact
  import opened MutationScopeStore
  import opened SandboxProtocol
  import opened SandboxFaults
  import opened Sandbox

  const LINEAGE := Lineage("project", "task", "run", "attempt", "")
  const WORKSPACE: Path := ["C:", "work", "repo", "lineage"]
  const TOOLS := RootPath("C:/Tools", "c:/tools")

  function SamplePolicy(): Policy {
    Policy(true, true, Some(["C:", "work"]), [], [["C:", "Tools"]], false, 20, 3600)
  }

  function SampleHost(): Host {
    Host(p => p, r => "repo", l => "lineage", ["C:", "state"])
  }

  function SampleClaim(): Claim {
    Claim(SamplePolicy(), "git://host/repo", LINEAGE, [], SampleHost(), 10)
  }

  function SampleEvidence(): Evidence {
    Evidence(PlacementRef("repo", "lineage", 1), 1, SampleClaim().Digest(), WORKSPACE, "git://host/repo", LINEAGE,
             Inventory(SamplePolicy(), [], SampleHost()))
  }

  function SampleIdentity(): LeaseKey -> Sid {
    lease => "sid"
  }

  /** The scope as a first activation left it: active, marked, and granted on the tools root. */
  function SampleRecord(): Record {
    var lease := LeaseKeyFor("git://host/repo", LINEAGE, 1, WORKSPACE);
    var seal := Seal("workspace", "scope", 1, lease, AttemptKey("git://host/repo", LINEAGE), SampleEvidence(),
                     {"scoped_script"}, 0, 3600);
    Record(seal, Active, Some("sid"), {}, {}, true, {TOOLS}, None, None)
  }

  function SampleAuthority(): Authority {
    Publish(Observe(EMPTY_AUTHORITY, SampleClaim().Digest()), SampleRecord())
  }

  const TOOLS_ACE := RootAce("sid", TOOLS.fold)

  function SampleState(): HostState {
    HostState(SampleAuthority(), {TOOLS_ACE}, SampleIdentity())
  }

  /** The path check on the tools root raises before the access-list tool is launched; nothing else fails. */
  const SAMPLE_FAULTS := ActivationFaults(false, false, Fine, false, [REFUSED], false, Fine, Fine)

  const CALM_OBJECT := ObjectFault(false, false, true, false, true, false, false, true, false)

  function CalmCleanup(): CleanupFaults {
    CleanupFaults(false, false, SessionFaults(Fine, CALM_OBJECT, CALM_OBJECT, Fine), false, root => FLAWLESS, false)
  }

  lemma SampleIsSane()
    ensures Sane(SampleState()) && OwnIdentity(SampleAuthority(), "scope", SampleIdentity())
  {
    hide DigestOf, Inventory, Good;
    var before := Observe(EMPTY_AUTHORITY, SampleClaim().Digest());
    NoScopesAreGood(before);
    PublishKeeps(before, SampleRecord());
    assert TOOLS in SampleRecord().roots;
    assert Marks(SampleAuthority().scopes["scope"], TOOLS_ACE);
  }

  lemma NoScopesAreGood(s: Authority)
    requires s == Observe(EMPTY_AUTHORITY, SampleClaim().Digest())
    ensures Good(s)
  {
    hide DigestOf;
    assert Seals(s) == map[];
  }

  lemma SampleIsPlaced()
    ensures var c := SampleClaim();
            Resolve(c.policy, c.repository, c.lineage, Some(Generation(c.Digest(), 1)), c.providerRoots, c.host)
            == Ok(SampleEvidence())
  {
    hide DigestOf, Inventory;
    assert ["C:", "work"] + ["repo", "lineage"] == WORKSPACE;
  }

  lemma SampleIsActivatable()
    ensures Activatable(SampleAuthority(), "scope", 1, SampleClaim(), SampleIdentity(), SAMPLE_FAULTS)
    ensures Doomed([TOOLS], [REFUSED], Held({TOOLS_ACE}, "sid")) && GrantedRoots([TOOLS], [REFUSED]) == 0
    ensures Strands([TOOLS], SAMPLE_FAULTS, Held({TOOLS_ACE}, "sid"), 0)
  {
    hide DigestOf, Resolve;
    SampleIsPlaced();
    assert TOOLS_ACE in {TOOLS_ACE};
  }

  /** From a sane host a second activation fails on its refused root, a crash point is exposed, and an
      undisturbed terminalization then ends the scope while its identity still holds the root. */
  method ReactivationLeavesResidue() returns (broker: Broker, outcome: ActivationOutcome, reply: Reply)
    ensures broker.origin == SampleState() && Sane(SampleState()) && Doomed([TOOLS], [REFUSED], Held(SampleState().grants, "sid"))
    ensures outcome == Failed && Exposed(broker.origin, broker.steps)
    ensures reply.Ok? && reply.value.state.Terminal? && reply.value.seal == SampleRecord().seal
    ensures "scope" in broker.store.durable.scopes && broker.store.durable.scopes["scope"] == reply.value
    ensures TOOLS_ACE in broker.grants
  {
    hide Good, Sane, OwnIdentity, AllGuarded, Exposed, Activatable, Doomed, Held, Marked, Observe, Undisturbed;
    SampleIsSane();
    SampleIsActivatable();
    SaneIsGood(SampleState());
    var store := new Store.Load(SampleAuthority());
    broker := new Broker(store, {TOOLS_ACE}, SampleIdentity());
    ghost var seals := Seals(store.durable);
    SealOfSample();
    ghost var sid;
    outcome, sid := broker.Activate("scope", 1, SampleClaim(), [TOOLS], SAMPLE_FAULTS);
    ghost var failed, steps := store.durable, broker.steps;
    assert TOOLS_ACE in broker.grants && !Marked(failed, TOOLS_ACE);
    assert "scope" in Seals(failed) && failed.scopes["scope"].seal == SampleRecord().seal;
    CalmIsUndisturbed();
    reply := broker.Terminalize("scope", 1, SampleClaim(), [], CalmCleanup());
    UnmarkedIsNotReclaimed(failed, "scope", TOOLS_ACE);
    ExposedGrows(broker.origin, steps, broker.steps);
  }

  lemma CalmIsUndisturbed()
    ensures Undisturbed(CalmCleanup())
  {
  }

  lemma UnmarkedIsNotReclaimed(s: Authority, id: ScopeId, ace: Ace)
    requires id in s.scopes && !Marked(s, ace)
    ensures !Reclaims(s.scopes[id], [], ace)
  {
    assert !Marks(s.scopes[id], ace);
  }

  lemma SaneIsGood(h: HostState)
    requires Sane(h)
    ensures Good(h.authority)
  {
  }

  lemma SealOfSample()
    ensures "scope" in SampleAuthority().scopes && Seals(SampleAuthority())["scope"] == SampleRecord().seal
  {
  }
}
