/** Provider-owned placement: where a future workspace lies and which generation of the
    host policy it was derived under. A digest is modelled by the value it digests, except for
    the shortened digests that name workspace directories, which may collide. */
module Placement {
  import opened Wrappers

  /** An absolute path as its parts, anchor first. */
  type Path = seq<string>

  /** The stripped semantic identity; a missing slice is the empty string. */
  datatype Lineage = Lineage(project: string, task: string, run: string, attempt: string, slice: string) {
    predicate Complete() {
      project != "" && task != "" && run != "" && attempt != ""
    }
  }

  datatype Policy = Policy(
    configured: bool,
    scopedMutation: bool,
    workspaceRoot: Option<Path>,
    protectedRoots: seq<Path>,
    runtimeReadRoots: seq<Path>,
    sessionObjectRead: bool,
    aclTimeout: nat,
    scopeTtl: nat)

  /** What the host answers: link resolution, and the shortened digests used as directory names.
      Nothing is assumed of these functions; in particular none of them is injective. */
  datatype Host = Host(
    resolve: Path -> Path,
    shortRepository: string -> string,
    shortLineage: Lineage -> string,
    authorityRoot: Path)

  datatype PolicyDigest = PolicyDigest(
    workspaceRoot: Option<Path>,
    protectedRoots: multiset<Path>,
    runtimeReadRoots: multiset<Path>,
    sessionObjectRead: bool,
    aclTimeout: nat)

  datatype Generation = Generation(policy: PolicyDigest, number: nat) {
    function Evolve(current: PolicyDigest): (next: Generation)
      ensures next.policy == current
      ensures next.number == number <==> policy == current
      ensures number <= next.number <= number + 1
    {
      if policy == current then this else Generation(current, number + 1)
    }
  }

  datatype PlacementRef = PlacementRef(repository: string, lineage: string, generation: nat)

  datatype Evidence = Evidence(
    ref: PlacementRef,
    generation: nat,
    policy: PolicyDigest,
    workspace: Path,
    repository: string,
    lineage: Lineage,
    inventory: set<Path>)

  datatype PlacementError = Unavailable | Incomplete | Mismatch

  datatype LeaseKey = LeaseKey(
    repository: string, run: string, attempt: string, slice: string, generation: nat, workspace: Path)

  datatype AttemptKey = AttemptKey(repository: string, lineage: Lineage)

  function LeaseKeyFor(repository: string, lineage: Lineage, generation: nat, workspace: Path): LeaseKey {
    LeaseKey(repository, lineage.run, lineage.attempt, lineage.slice, generation, workspace)
  }

  /** A lease is one slice of one Attempt of a run on a repository, at one generation and workspace; neither
      the project nor the task tells two leases apart. */
  lemma SameLeaseIff(repository: string, lineage: Lineage, generation: nat, workspace: Path,
                     repository': string, lineage': Lineage, generation': nat, workspace': Path)
    ensures LeaseKeyFor(repository, lineage, generation, workspace)
         == LeaseKeyFor(repository', lineage', generation', workspace')
       <==> repository == repository' && generation == generation' && workspace == workspace'
            && lineage.(project := "", task := "") == lineage'.(project := "", task := "")
  {
  }

  function ResolveAll(paths: seq<Path>, host: Host): seq<Path> {
    seq(|paths|, i requires 0 <= i < |paths| => host.resolve(paths[i]))
  }

  function DigestOf(policy: Policy, host: Host): PolicyDigest {
    PolicyDigest(
      match policy.workspaceRoot case Some(root) => Some(host.resolve(root)) case None => None,
      multiset(ResolveAll(policy.protectedRoots, host)),
      multiset(ResolveAll(policy.runtimeReadRoots, host)),
      policy.sessionObjectRead,
      policy.aclTimeout)
  }

  /** The workspace root as the host resolves it, if the policy names one. */
  function RootUnder(policy: Policy, host: Host): Option<Path> {
    match policy.workspaceRoot case None => None case Some(raw) => Some(host.resolve(raw))
  }

  /** How many of these paths resolve to `p`. */
  function Occurrences(paths: seq<Path>, host: Host, p: Path): nat {
    if paths == [] then 0 else (if host.resolve(paths[0]) == p then 1 else 0) + Occurrences(paths[1..], host, p)
  }

  lemma {:induction false} OccurrencesAre(paths: seq<Path>, host: Host, p: Path)
    ensures multiset(ResolveAll(paths, host))[p] == Occurrences(paths, host, p)
    decreases |paths|
  {
    if paths != [] {
      OccurrencesAre(paths[1..], host, p);
      assert ResolveAll(paths, host) == [host.resolve(paths[0])] + ResolveAll(paths[1..], host);
    }
  }

  lemma SameOccurrencesIff(one: seq<Path>, oneHost: Host, other: seq<Path>, otherHost: Host)
    ensures multiset(ResolveAll(one, oneHost)) == multiset(ResolveAll(other, otherHost))
       <==> forall p :: Occurrences(one, oneHost, p) == Occurrences(other, otherHost, p)
  {
    var a, b := multiset(ResolveAll(one, oneHost)), multiset(ResolveAll(other, otherHost));
    if forall p :: Occurrences(one, oneHost, p) == Occurrences(other, otherHost, p) {
      forall p: Path ensures a[p] == b[p] {
        OccurrencesAre(one, oneHost, p);
        OccurrencesAre(other, otherHost, p);
      }
      assert a == b;
    } else {
      var p :| Occurrences(one, oneHost, p) != Occurrences(other, otherHost, p);
      OccurrencesAre(one, oneHost, p);
      OccurrencesAre(other, otherHost, p);
    }
  }

  /** Two policies have one digest exactly when they resolve to the same workspace root and to the same
      protected and runtime roots, in any order, and agree on the Session-0 and timeout settings. */
  lemma SameDigestIff(one: Policy, oneHost: Host, other: Policy, otherHost: Host)
    ensures DigestOf(one, oneHost) == DigestOf(other, otherHost)
       <==> && RootUnder(one, oneHost) == RootUnder(other, otherHost)
            && (forall p :: Occurrences(one.protectedRoots, oneHost, p) == Occurrences(other.protectedRoots, otherHost, p))
            && (forall p :: Occurrences(one.runtimeReadRoots, oneHost, p) == Occurrences(other.runtimeReadRoots, otherHost, p))
            && one.sessionObjectRead == other.sessionObjectRead && one.aclTimeout == other.aclTimeout
  {
    SameOccurrencesIff(one.protectedRoots, oneHost, other.protectedRoots, otherHost);
    SameOccurrencesIff(one.runtimeReadRoots, oneHost, other.runtimeReadRoots, otherHost);
  }

  function Parent(path: Path): Path {
    if |path| <= 1 then path else path[..|path| - 1]
  }

  function Inventory(policy: Policy, providerRoots: seq<Path>, host: Host): set<Path> {
    var declared := ResolveAll(policy.protectedRoots + providerRoots, host);
    (set p | p in declared) +
    match policy.workspaceRoot
    case None => {}
    case Some(raw) => var root := host.resolve(raw); {root, Parent(root)}
  }

  /** A path is protected exactly when a declared or provider root resolves to it, or when it is the
      workspace root or what that root can be deleted through. */
  lemma ProtectedIff(policy: Policy, providerRoots: seq<Path>, host: Host, p: Path)
    ensures p in Inventory(policy, providerRoots, host)
       <==> || (exists raw :: (raw in policy.protectedRoots || raw in providerRoots) && host.resolve(raw) == p)
            || (policy.workspaceRoot.Some? && var root := host.resolve(policy.workspaceRoot.value);
                p == root || (|root| > 1 && p == root[..|root| - 1]))
  {
    var declared := policy.protectedRoots + providerRoots;
    var resolved := ResolveAll(declared, host);
    if p in resolved {
      var i :| 0 <= i < |resolved| && resolved[i] == p;
      assert declared[i] in declared && host.resolve(declared[i]) == p;
    }
    if raw :| (raw in policy.protectedRoots || raw in providerRoots) && host.resolve(raw) == p {
      assert raw in declared;
      var i :| 0 <= i < |declared| && declared[i] == raw;
      assert resolved[i] == p;
    }
  }

  /** Where the derivation of a lineage leads, before it is known to stay under the workspace root. */
  function Destination(root: Path, repository: string, lineage: Lineage, host: Host): Path {
    host.resolve(host.resolve(root) + [host.shortRepository(repository), host.shortLineage(lineage)])
  }

  /** Derives the workspace of one lineage under the current policy. */
  function Resolve(policy: Policy, repository: string, lineage: Lineage, generation: Option<Generation>,
                   providerRoots: seq<Path>, host: Host): (r: Result<Evidence, PlacementError>)
    ensures r.Ok? ==> r.value.repository == repository && r.value.lineage == lineage && lineage.Complete()
    ensures r.Ok? <==> policy.configured && policy.scopedMutation && policy.workspaceRoot.Some?
                       && lineage.project != "" && lineage.task != "" && lineage.run != "" && lineage.attempt != ""
                       && host.resolve(policy.workspaceRoot.value)
                          < Destination(policy.workspaceRoot.value, repository, lineage, host)
    ensures r == Err(Unavailable) <==> !policy.configured || !policy.scopedMutation || policy.workspaceRoot.None?
    ensures r.Ok? ==> r.value.workspace == Destination(policy.workspaceRoot.value, repository, lineage, host)
    ensures r.Ok? ==>
              r.value.ref == PlacementRef(host.shortRepository(repository), host.shortLineage(lineage), r.value.generation)
    ensures r.Ok? ==> r.value.inventory == Inventory(policy, providerRoots, host)
    ensures r.Ok? && generation.None? ==> r.value.generation == 1
    ensures r.Ok? && generation.Some? ==> r.value.generation == generation.value.Evolve(DigestOf(policy, host)).number
    ensures r.Ok? ==> r.value.policy == DigestOf(policy, host)
    ensures r.Ok? ==> policy.workspaceRoot.Some? && host.resolve(policy.workspaceRoot.value) < r.value.workspace
  {
    if !policy.configured || !policy.scopedMutation || policy.workspaceRoot.None? then Err(Unavailable) else
    var digest := DigestOf(policy, host);
    var current := if generation.None? then Generation(digest, 1) else generation.value.Evolve(digest);
    if !lineage.Complete() then Err(Incomplete) else
    var root := host.resolve(policy.workspaceRoot.value);
    var workspace := host.resolve(root + [host.shortRepository(repository), host.shortLineage(lineage)]);
    if workspace == root || !(root <= workspace) then Err(Mismatch) else
    Ok(Evidence(
      PlacementRef(host.shortRepository(repository), host.shortLineage(lineage), current.number),
      current.number, digest, workspace, repository, lineage, Inventory(policy, providerRoots, host)))
  }

  /** Recomputes the placement that `expected` was sealed with and refuses any drift. */
  function Revalidate(expected: Evidence, policy: Policy, repository: string, lineage: Lineage,
                      providerRoots: seq<Path>, host: Host): (r: Result<Evidence, PlacementError>)
    ensures r.Ok? ==> r.value == expected && expected.policy == DigestOf(policy, host)
    ensures r.Ok? ==> expected.repository == repository && expected.lineage == lineage
  {
    var current := Resolve(policy, repository, lineage, Some(Generation(expected.policy, expected.generation)),
                           providerRoots, host);
    if current.Err? then current
    else if current.value != expected then Err(Mismatch)
    else current
  }
}
