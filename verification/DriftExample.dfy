/** Two reachable stores on which a call observes a new policy and forgets it. */
module DriftExample {
  import opened Wrappers
  import opened Placement
  import opened MutationScope
  import opened MutationScopeLaws
  import opened MutationScopeRuns

  const REPOSITORY := "git://host/repo"
  const WORKSPACE: Path := ["C:", "work", "repo", "lineage"]

  function Attempt(name: string): Lineage {
    Lineage("project", "task", "run", name, "")
  }

  /** The policies differ in one timeout. */
  function PolicyWith(aclTimeout: nat): Policy {
    Policy(true, true, Some(["C:", "work"]), [], [], false, aclTimeout, 3600)
  }

  /** A host whose shortened digests collide. */
  function Colliding(): Host {
    Host(p => p, r => "repo", l => "lineage", ["C:", "state"])
  }

  function ClaimOf(attempt: string, aclTimeout: nat): Claim {
    Claim(PolicyWith(aclTimeout), REPOSITORY, Attempt(attempt), [], Colliding(), 10)
  }

  /** The placement of any Attempt on this host: always the same workspace. */
  function PlacedAs(attempt: string, aclTimeout: nat, number: nat): Evidence {
    var c := ClaimOf(attempt, aclTimeout);
    Evidence(PlacementRef("repo", "lineage", number), number, c.Digest(), WORKSPACE, REPOSITORY, Attempt(attempt),
             Inventory(c.policy, [], c.host))
  }

  lemma Places(attempt: string, aclTimeout: nat, g: Generation)
    requires attempt != "" && g.policy == ClaimOf(attempt, aclTimeout).Digest()
    ensures var c := ClaimOf(attempt, aclTimeout);
            && Resolve(c.policy, c.repository, c.lineage, Some(g), c.providerRoots, c.host)
               == Ok(PlacedAs(attempt, aclTimeout, g.number))
            && !Overlaps(c.host.authorityRoot, WORKSPACE)
  {
    var c := ClaimOf(attempt, aclTimeout);
    hide Inventory, DigestOf;
    assert ["C:", "work"] + ["repo", "lineage"] == WORKSPACE;
    assert c.host.authorityRoot[1][0] != WORKSPACE[1][0];
  }

  lemma DigestsDiffer(one: string, other: string, t: nat, u: nat)
    requires t != u
    ensures ClaimOf(one, t).Digest() != ClaimOf(other, u).Digest()
  {
    assert ClaimOf(one, t).Digest().aclTimeout != ClaimOf(other, u).Digest().aclTimeout;
  }

  const MINT := DoProvision(ClaimOf("first", 20), {"scoped_script"}, "scope", "workspace")
  const END := DoTerminalizeBegin("scope", 1, ClaimOf("first", 20), false)

  function Minted(): Record {
    Mint(ClaimOf("first", 20), {"scoped_script"}, "scope", "workspace", PlacedAs("first", 20, 1))
  }

  function Fresh(): Authority {
    Observe(EMPTY_AUTHORITY, ClaimOf("first", 20).Digest())
  }

  lemma MintedIsPublished()
    ensures Apply(EMPTY_AUTHORITY, MINT) == (Publish(Fresh(), Minted()), Ok(Minted())) && Good(Publish(Fresh(), Minted()))
  {
    hide Resolve, DigestOf, Inventory, Good, IndexInv, IndexChecks;
    var c := ClaimOf("first", 20);
    Places("first", 20, Generation(c.Digest(), 1));
    MintedIsGood();
    GoodIsIndexed(Publish(Fresh(), Minted()));
    IndexChecksPass(Publish(Fresh(), Minted()), "scope");
    FirstOutcome(EMPTY_AUTHORITY, Fresh(), Minted());
  }

  lemma MintedIsGood()
    ensures Good(Publish(Fresh(), Minted()))
  {
    hide Resolve, DigestOf, Inventory;
    assert Seals(Fresh()) == map[];
    PublishKeeps(Fresh(), Minted());
  }

  lemma RunTwo(s: Authority, one: StoreOp, other: StoreOp)
    ensures Run(s, [one]) == Apply(s, one).0 && Run(s, [one, other]) == Apply(Apply(s, one).0, other).0
    ensures AllAllowed(s, [one]) <==> Allowed(s, one)
    ensures AllAllowed(s, [one, other]) <==> Allowed(s, one) && Allowed(Apply(s, one).0, other)
  {
    hide Apply, Allowed;
    assert [one][1..] == [] && [one, other][1..] == [other] && [other][1..] == [];
    var t := Apply(s, one).0;
    assert Run(t, [other]) == Run(Apply(t, other).0, []) && AllAllowed(t, [other]) == Allowed(t, other);
  }

  /** Another Attempt whose workspace collides is refused, and the policy it came under is not stored. */
  lemma ProvisionForgetsDrift()
    ensures var s := Run(EMPTY_AUTHORITY, [MINT]);
            var c := ClaimOf("second", 30);
            && AllAllowed(EMPTY_AUTHORITY, [MINT])
            && Provision(s, c, {"scoped_script"}, "other", "elsewhere") == (s, Err(WorkspaceSealed))
            && Observe(s, c.Digest()).generation != s.generation
  {
    hide Resolve, DigestOf, Inventory, Apply;
    MintedIsPublished();
    RunTwo(EMPTY_AUTHORITY, MINT, END);
    DigestsDiffer("first", "second", 20, 30);
    SecondIsRefused(Publish(Fresh(), Minted()));
  }

  lemma SecondIsRefused(s: Authority)
    requires s == Publish(Fresh(), Minted()) && ClaimOf("first", 20).Digest() != ClaimOf("second", 30).Digest()
    ensures var c := ClaimOf("second", 30);
            && Provision(s, c, {"scoped_script"}, "other", "elsewhere") == (s, Err(WorkspaceSealed))
            && Observe(s, c.Digest()).generation == Some(Generation(c.Digest(), 2)) != s.generation
  {
    hide Resolve, DigestOf, Inventory;
    var c := ClaimOf("second", 30);
    Places("second", 30, Generation(c.Digest(), 2));
    assert Attempt("first").attempt[0] != Attempt("second").attempt[0];
  }

  /** Terminalizing a terminal scope again is refused, and the policy it came under is not stored. */
  lemma TerminalizeForgetsDrift()
    ensures var s := Run(EMPTY_AUTHORITY, [MINT, END]);
            var c := ClaimOf("first", 30);
            && AllAllowed(EMPTY_AUTHORITY, [MINT, END])
            && s.scopes.Keys == {"scope"} && s.scopes["scope"].state.Terminal?
            && TerminalizeBegin(s, "scope", 1, c, true) == (s, Err(NotCurrent))
            && Observe(s, c.Digest()).generation != s.generation
  {
    hide Resolve, DigestOf, Inventory, Good, IndexChecks;
    MintedIsPublished();
    RunTwo(EMPTY_AUTHORITY, MINT, END);
    DigestsDiffer("first", "first", 20, 30);
    var first := Publish(Fresh(), Minted());
    GoodIsSealed(first, "scope");
    ObservedIsSound(first, "scope", ClaimOf("first", 20).Digest());
    SealedBindingIff(Observe(first, ClaimOf("first", 20).Digest()), "scope", REPOSITORY, Attempt("first"));
    assert first.scopes["scope"] == Minted();
  }
}
