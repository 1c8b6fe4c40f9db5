/** The recovery journal of provider-owned persistence: commits, candidate verification, which journal
    writes and pushes are legal, and what every legal history of them guarantees. */
module PersistenceJournal {
  import opened Wrappers

  /** A repository-relative path, split at its slashes. */
  type RepoPath = seq<string>

  datatype Mode = Plain | Executable | Symlink | Gitlink | Absent | Unsupported

  datatype Entry = Entry(mode: Mode, blob: string)

  type Tree = map<RepoPath, Entry>

  datatype CommitIdentity = CommitIdentity(
    name: string, email: string, seconds: nat, zone: string, messageDigest: string, serialization: nat)

  /** A commit is its own identifier, as if object hashing were injective. */
  datatype Commit = Commit(tree: Tree, parents: seq<Commit>, identity: CommitIdentity, message: string)

  datatype Lineage = Lineage(repository: string, task: string, run: string, attempt: string, slice: Option<string>)

  datatype Snapshot = Snapshot(digest: string, attributes: string)

  datatype Request = Request(lineage: Lineage, pr: int, branch: string, expected: Commit, snapshot: Option<Snapshot>)

  datatype State = Prepared | TreeReady | CandidateReady | LocalRefReady | PublishIntent | Published

  /** `digest` stands for the digest of the eligible paths: no branch depends on two digests differing. */
  datatype Journal = Journal(
    lineage: Lineage, pr: int, branch: string, expected: Commit, snapshot: string,
    identity: CommitIdentity, message: string, state: State,
    tree: Option<Tree>, digest: set<RepoPath>, count: nat, candidate: Option<Commit>)

  // ---------- deterministic parts ----------

  const FIXED_NAME := "SentinelX Direct Codex"
  const FIXED_EMAIL := "direct-codex@sentinelx.invalid"

  const HEADLINE := "SentinelX direct/Codex provider-owned implementation persistence\n"
  const FOOTER := "\nprovider: direct\nadapter: codex\n"

  function Field(name: string, value: string): string {
    name + ": " + value
  }

  function SliceText(l: Lineage): string {
    if l.slice.Some? then l.slice.value else ""
  }

  function CommitMessage(l: Lineage): string {
    HEADLINE + "\n" + (Field("task_id", l.task) + "\n") + (Field("run_id", l.run) + "\n")
    + (Field("attempt_id", l.attempt) + "\n") + (Field("slice_id", SliceText(l)) + "\n") + FOOTER
  }

  function NewIdentity(l: Lineage, now: nat): CommitIdentity {
    CommitIdentity(FIXED_NAME, FIXED_EMAIL, now, "+0000", CommitMessage(l), 1)
  }

  function Framed(before: string, line: string, after: string): string {
    before + "\n" + line + "\n" + after
  }

  /** The message carries this value on a line of its own, under this name. */
  ghost predicate NamesLine(message: string, name: string, value: string) {
    exists before, after :: message == Framed(before, name + ": " + value, after)
  }

  lemma FourLines(head: string, one: string, two: string, three: string, four: string, tail: string)
    ensures var m := head + "\n" + (one + "\n") + (two + "\n") + (three + "\n") + (four + "\n") + tail;
            && m == Framed(head, one, (two + "\n") + (three + "\n") + (four + "\n") + tail)
            && m == Framed(head + "\n" + one, two, (three + "\n") + (four + "\n") + tail)
            && m == Framed(head + "\n" + (one + "\n") + two, three, (four + "\n") + tail)
            && m == Framed(head + "\n" + (one + "\n") + (two + "\n") + three, four, tail)
  {
  }

  /** Every identity of the lineage stands in the message under its own name; a missing slice is empty. */
  lemma MessageNamesLineage(l: Lineage)
    ensures NamesLine(CommitMessage(l), "task_id", l.task) && NamesLine(CommitMessage(l), "run_id", l.run)
    ensures NamesLine(CommitMessage(l), "attempt_id", l.attempt)
    ensures NamesLine(CommitMessage(l), "slice_id", if l.slice.Some? then l.slice.value else "")
  {
    hide Framed;
    FourLines(HEADLINE, Field("task_id", l.task), Field("run_id", l.run), Field("attempt_id", l.attempt),
              Field("slice_id", SliceText(l)), FOOTER);
  }

  function MakeCommit(tree: Tree, parent: Commit, identity: CommitIdentity, message: string): Commit {
    Commit(tree, [parent], identity, message)
  }

  /** The paths on which two trees differ. */
  function Changed(from: Tree, to: Tree): set<RepoPath> {
    set p | p in from.Keys + to.Keys && !(p in from && p in to && from[p] == to[p])
  }

  predicate Agree(from: Tree, to: Tree, p: RepoPath) {
    if p in from then p in to && from[p] == to[p] else p !in to
  }

  /** The changed paths are the fewest outside which the trees agree: additions, changes and deletions. */
  lemma ChangedIsLeast(from: Tree, to: Tree, d: set<RepoPath>)
    ensures Changed(from, to) <= d <==> forall p | p !in d :: Agree(from, to, p)
  {
    if forall p | p !in d :: Agree(from, to, p) {
      forall p | p in Changed(from, to) ensures p in d {
        assert !Agree(from, to, p);
      }
    }
    if Changed(from, to) <= d {
      forall p | p !in d ensures Agree(from, to, p) {
        assert p !in Changed(from, to);
      }
    }
  }

  predicate IsAncestor(a: Commit, c: Commit) {
    a == c || exists i | 0 <= i < |c.parents| :: IsAncestor(a, c.parents[i])
  }

  /** Each commit of the chain is a parent of the one before it. */
  ghost predicate Chain(line: seq<Commit>) {
    line != [] && forall i | 0 <= i < |line| - 1 :: line[i + 1] in line[i].parents
  }

  /** An ancestor is what a chain of parents leads to. */
  lemma {:induction false} AncestorIff(a: Commit, c: Commit)
    ensures IsAncestor(a, c) <==> exists line :: Chain(line) && line[0] == c && line[|line| - 1] == a
    decreases c
  {
    if IsAncestor(a, c) {
      var line := AncestorChain(a, c);
    }
    if line :| Chain(line) && line[0] == c && line[|line| - 1] == a {
      ChainAncestor(line);
    }
  }

  lemma {:induction false} AncestorChain(a: Commit, c: Commit) returns (line: seq<Commit>)
    requires IsAncestor(a, c)
    ensures Chain(line) && line[0] == c && line[|line| - 1] == a
    decreases c
  {
    if a == c {
      line := [c];
    } else {
      var i :| 0 <= i < |c.parents| && IsAncestor(a, c.parents[i]);
      var rest := AncestorChain(a, c.parents[i]);
      line := [c] + rest;
    }
  }

  lemma {:induction false} ChainAncestor(line: seq<Commit>)
    requires Chain(line)
    ensures IsAncestor(line[|line| - 1], line[0])
    decreases |line|
  {
    if |line| > 1 {
      ChainAncestor(line[1..]);
      var i :| 0 <= i < |line[0].parents| && line[0].parents[i] == line[1];
      assert IsAncestor(line[|line| - 1], line[0].parents[i]);
    }
  }

  // ---------- the worktree inventory ----------

  datatype Tracked = Tracked(path: RepoPath, oldMode: Mode, newMode: Mode, typeChange: bool)

  datatype RawDiff = RawDiff(unmerged: bool, tracked: seq<Tracked>, untracked: seq<RepoPath>)

  predicate CleanPath(p: RepoPath) {
    p != [] && forall part | part in p :: part != "" && part != "." && part != ".." && part != ".git" && '\\' !in part
  }

  predicate ProviderOwned(p: RepoPath) {
    p != [] && (p[0] == ".devforge" || p[0] == ".devforge-state")
  }

  predicate AttributesFile(p: RepoPath) {
    p != [] && p[|p| - 1] == ".gitattributes"
  }

  predicate Supported(t: Tracked) {
    && !t.oldMode.Gitlink? && !t.newMode.Gitlink? && !t.typeChange && !t.oldMode.Unsupported? && !t.newMode.Unsupported?
  }

  /** The diff or the untracked listing names this path. */
  predicate Named(raw: RawDiff, p: RepoPath) {
    p in raw.untracked || exists t | t in raw.tracked :: t.path == p
  }

  predicate Eligible(raw: RawDiff, p: RepoPath) {
    Named(raw, p) && !ProviderOwned(p)
  }

  /** Nothing the checkout shows is refused: no unmerged entry, no unsupported mode, no unclean path, and no
      attributes file but a provider-owned one. */
  ghost predicate Inspectable(raw: RawDiff) {
    && !raw.unmerged && (forall t | t in raw.tracked :: Supported(t))
    && forall p | Named(raw, p) :: CleanPath(p) && (AttributesFile(p) ==> ProviderOwned(p))
  }

  /** No path is to be committed: all that has changed is provider-owned. */
  ghost predicate NothingEligible(raw: RawDiff) {
    forall p | Named(raw, p) :: ProviderOwned(p)
  }

  /** The eligible delta, or nothing when any path or mode is refused. */
  function Inventory(raw: RawDiff): (delta: Option<set<RepoPath>>)
    ensures delta.Some? <==> Inspectable(raw)
    ensures delta.Some? ==> forall p :: p in delta.value <==> Eligible(raw, p)
  {
    var paths := (set t | t in raw.tracked :: t.path) + (set p | p in raw.untracked);
    if raw.unmerged || exists t | t in raw.tracked :: !Supported(t) then None
    else if exists p | p in paths :: !CleanPath(p) || (!ProviderOwned(p) && AttributesFile(p)) then None
    else Some(set p | p in paths && !ProviderOwned(p))
  }

  /** What one untracked file comes to, by its path alone: refused, left aside, or the whole delta. */
  lemma OneFile(p: RepoPath)
    ensures var delta := Inventory(RawDiff(false, [], [p]));
            var clean := p != [] && forall part | part in p :: part !in {"", ".", "..", ".git"} && '\\' !in part;
            var owned := p != [] && p[0] in {".devforge", ".devforge-state"};
            var refused := !clean || (!owned && p[|p| - 1] == ".gitattributes");
            delta == if refused then None else if owned then Some({}) else Some({p})
  {
    var raw := RawDiff(false, [], [p]);
    assert Named(raw, p);
    if Inventory(raw).Some? {
      assert Inventory(raw).value == if ProviderOwned(p) then {} else {p};
    }
  }

  /** A tracked entry is refused for a submodule on either side, a mode of an unknown kind, or a type change;
      a deletion, a link and an executable are as good as any change. */
  lemma OneEntry(t: Tracked)
    requires Inventory(RawDiff(false, [], [t.path])).Some?
    ensures Inventory(RawDiff(false, [t], [])).Some?
       <==> {t.oldMode, t.newMode} <= {Plain, Executable, Symlink, Absent} && !t.typeChange
  {
    assert Named(RawDiff(false, [], [t.path]), t.path);
    assert t in [t];
  }

  lemma EmptyInventoryIff(raw: RawDiff)
    ensures Inventory(raw) == Some({}) <==> Inspectable(raw) && NothingEligible(raw)
  {
    var delta := Inventory(raw);
    if delta.Some? {
      assert forall p :: p in delta.value <==> Eligible(raw, p);
      if NothingEligible(raw) {
        assert forall p :: !Eligible(raw, p);
        assert delta.value == {};
      } else {
        var p :| Named(raw, p) && !ProviderOwned(p);
        assert Eligible(raw, p);
      }
    }
  }

  // ---------- what every journal satisfies ----------

  predicate Describes(j: Journal) {
    j.tree.Some? && j.digest == Changed(j.expected.tree, j.tree.value) && j.count == |j.digest|
  }

  predicate Sealed(j: Journal) {
    j.candidate.Some? && j.tree.Some?
    && j.candidate.value == MakeCommit(j.tree.value, j.expected, j.identity, j.message)
  }

  predicate Committed(j: Option<Journal>) {
    j.Some? && (j.value.state.PublishIntent? || j.value.state.Published?)
  }

  predicate JournalInv(j: Journal) {
    && (!j.state.Prepared? ==> Describes(j))
    && (j.candidate.Some? ==> j.candidate.value == MakeCommit(j.candidate.value.tree, j.expected, j.identity, j.message))
    && (!j.state.Prepared? && !j.state.TreeReady? ==> Sealed(j))
  }

  predicate SameBinding(j: Journal, k: Journal) {
    k == j.(state := k.state, tree := k.tree, digest := k.digest, count := k.count, candidate := k.candidate)
  }

  /** Which journal may replace which: the binding and the candidate are write-once, an intent may only
      become published, and a published journal is final. */
  predicate LegalWrite(before: Option<Journal>, j: Journal) {
    match before
    case None =>
      && j.state.Prepared? && j.candidate.None? && j.tree.None?
      && j.message == CommitMessage(j.lineage) && j.identity == NewIdentity(j.lineage, j.identity.seconds)
    case Some(prior) =>
      && SameBinding(prior, j)
      && (prior.candidate.Some? ==> j.candidate == prior.candidate)
      && !prior.state.Published?
      && (prior.state.PublishIntent? ==> j == prior.(state := Published))
      && (j.state.Published? ==> prior.state.PublishIntent?)
      && (j.candidate.Some? && prior.candidate.None? ==> j.tree == prior.tree && Sealed(j))
  }

  predicate Matches(j: Journal, r: Request) {
    j.lineage == r.lineage && j.pr == r.pr && j.branch == r.branch && j.expected == r.expected
  }

  /** A journal serves one request, whatever snapshot comes with it. */
  lemma OneRequest(j: Journal, r: Request, r': Request)
    requires Matches(j, r)
    ensures Matches(j, r') <==> r' == r.(snapshot := r'.snapshot)
  {
  }

  // ---------- histories ----------

  /** What the calls made under one provider state observed and did, oldest first. */
  datatype Effect =
    | Called(request: Request)
    | SawHead(head: Commit)
    | SawBranch(name: string)
    | ReadRemote(remote: Commit)
    | Inventoried(delta: set<RepoPath>)
    | Wrote(journal: Journal)
    | Made(made: Commit)
    | MovedRef(to: Commit)
    | Pushed(candidate: Commit)

  function LastJournal(effects: seq<Effect>): Option<Journal> {
    if effects == [] then None
    else match effects[|effects| - 1]
      case Wrote(j) => Some(j)
      case _ => LastJournal(effects[..|effects| - 1])
  }

  function LastCall(effects: seq<Effect>): Option<Request> {
    if effects == [] then None
    else match effects[|effects| - 1]
      case Called(r) => Some(r)
      case _ => LastCall(effects[..|effects| - 1])
  }

  /** The delta the running call has validated, if it has come that far. */
  function Validated(effects: seq<Effect>): Option<set<RepoPath>> {
    if effects == [] then None
    else match effects[|effects| - 1]
      case Called(_) => None
      case Inventoried(delta) => Some(delta)
      case _ => Validated(effects[..|effects| - 1])
  }

  predicate EndsWith(effects: seq<Effect>, tail: seq<Effect>) {
    |tail| <= |effects| && effects[|effects| - |tail|..] == tail
  }

  /** A delta is taken only from a checkout just seen on the admitted head and branch, while the remote
      was just seen at that head. */
  predicate LegalInventory(before: seq<Effect>) {
    && LastCall(before).Some?
    && var r := LastCall(before).value;
       EndsWith(before, [SawHead(r.expected), SawBranch(r.branch), ReadRemote(r.expected)])
  }

  /** `tree` differs from the admitted head exactly on the delta this call has validated. */
  predicate Carries(before: seq<Effect>, j: Journal, tree: Tree) {
    Validated(before) == Some(Changed(j.expected.tree, tree))
  }

  /** The remote was just read at `c`; the branch name may have been read since. */
  predicate ReadBack(before: seq<Effect>, c: Commit) {
    || (|before| >= 1 && before[|before| - 1] == ReadRemote(c))
    || (|before| >= 2 && before[|before| - 1].SawBranch? && before[|before| - 2] == ReadRemote(c))
  }

  predicate Witnessed(before: seq<Effect>, j: Journal) {
    match j.state
    case Prepared => Validated(before).Some? && (LastJournal(before).Some? ==> Validated(before).value == {})
    case TreeReady => j.tree.Some? && Carries(before, j, j.tree.value)
    case CandidateReady => Sealed(j) && EndsWith(before, [Made(j.candidate.value)])
    case LocalRefReady => Sealed(j) && EndsWith(before, [MovedRef(j.candidate.value)])
    case PublishIntent => Sealed(j) && Carries(before, j, j.tree.value) && EndsWith(before, [ReadRemote(j.expected)])
    case Published =>
      Sealed(j) && ReadBack(before, j.candidate.value)
  }

  predicate LegalJournal(before: seq<Effect>, j: Journal) {
    && LastCall(before).Some? && Matches(j, LastCall(before).value)
    && JournalInv(j) && LegalWrite(LastJournal(before), j) && Witnessed(before, j)
  }

  /** A push follows at once the journal write that announces it, which follows at once a remote read
      that still saw the admitted head. */
  predicate LegalPush(before: seq<Effect>, c: Commit) {
    && |before| >= 2 && before[|before| - 1].Wrote?
    && var j := before[|before| - 1].journal;
       && j.state.PublishIntent? && j.candidate == Some(c) && before[|before| - 2] == ReadRemote(j.expected)
       && Carries(before, j, c.tree)
  }

  predicate Legal(before: seq<Effect>, e: Effect) {
    match e
    case Called(_) | SawHead(_) | SawBranch(_) | ReadRemote(_) => true
    case Inventoried(_) => LegalInventory(before)
    case Wrote(j) => LegalJournal(before, j)
    case Made(c) =>
      && LastJournal(before).Some? && LastCall(before).Some?
      && var j := LastJournal(before).value;
         && Matches(j, LastCall(before).value) && j.tree.Some? && j.candidate.None?
         && c == MakeCommit(j.tree.value, j.expected, j.identity, j.message) && Carries(before, j, c.tree)
    case MovedRef(c) =>
      && LastJournal(before).Some? && !Committed(LastJournal(before))
      && LastJournal(before).value.candidate == Some(c) && Carries(before, LastJournal(before).value, c.tree)
    case Pushed(c) => LegalPush(before, c)
  }

  predicate Disciplined(effects: seq<Effect>) {
    effects != [] ==>
      && Disciplined(effects[..|effects| - 1])
      && Legal(effects[..|effects| - 1], effects[|effects| - 1])
  }

  lemma Appended(effects: seq<Effect>, e: Effect)
    ensures Disciplined(effects + [e]) <==> Disciplined(effects) && Legal(effects, e)
    ensures LastJournal(effects + [e]) == if e.Wrote? then Some(e.journal) else LastJournal(effects)
    ensures LastCall(effects + [e]) == if e.Called? then Some(e.request) else LastCall(effects)
    ensures Validated(effects + [e])
         == if e.Called? then None else if e.Inventoried? then Some(e.delta) else Validated(effects)
    ensures EndsWith(effects + [e], [e])
  {
    assert (effects + [e])[..|effects|] == effects;
  }

  function Pushes(effects: seq<Effect>): nat {
    if effects == [] then 0
    else Pushes(effects[..|effects| - 1]) + (if effects[|effects| - 1].Pushed? then 1 else 0)
  }

  predicate JustAnnounced(effects: seq<Effect>) {
    effects != [] && effects[|effects| - 1].Wrote? && effects[|effects| - 1].journal.state.PublishIntent?
  }

  /** A journal causes at most one push, over every history with crashes and restarts anywhere; none
      before the intent is durable, and none between that write and the push itself. */
  lemma {:induction false} AtMostOnePush(effects: seq<Effect>)
    requires Disciplined(effects)
    ensures Pushes(effects) <= 1
    ensures !Committed(LastJournal(effects)) ==> Pushes(effects) == 0
    ensures JustAnnounced(effects) ==> Pushes(effects) == 0
    decreases |effects|
  {
    if effects != [] {
      var front := effects[..|effects| - 1];
      AtMostOnePush(front);
      if effects[|effects| - 1].Pushed? {
        assert LastJournal(front) == Some(front[|front| - 1].journal);
      }
    }
  }

  /** Once a journal names a candidate, every later journal names the same one, and the binding that
      determines the commit never changes. */
  lemma {:induction false} CandidateWriteOnce(effects: seq<Effect>, k: nat)
    requires Disciplined(effects) && k <= |effects| && LastJournal(effects[..k]).Some?
    ensures var prior := LastJournal(effects[..k]).value;
            && LastJournal(effects).Some?
            && SameBinding(prior, LastJournal(effects).value)
            && (prior.candidate.Some? ==> LastJournal(effects).value.candidate == prior.candidate)
            && (prior.state.Published? ==> LastJournal(effects).value == prior)
            && (prior.state.PublishIntent? ==>
                  LastJournal(effects).value == prior || LastJournal(effects).value == prior.(state := Published))
    decreases |effects|
  {
    if k < |effects| {
      assert effects[..|effects| - 1][..k] == effects[..k];
      CandidateWriteOnce(effects[..|effects| - 1], k);
    } else {
      assert effects[..k] == effects;
    }
  }

  lemma {:induction false} JournalStands(effects: seq<Effect>, i: nat, k: nat)
    requires i <= k <= |effects| && forall m | i <= m < k :: !effects[m].Wrote?
    ensures LastJournal(effects[..k]) == LastJournal(effects[..i])
    decreases k
  {
    if i < k {
      assert effects[..k][..k - 1] == effects[..k - 1];
      JournalStands(effects, i, k - 1);
    }
  }

  /** However many crashes and calls follow the creation of a commit object, the first journal written
      after it names that very commit or none: the candidate is reproduced, not replaced. */
  lemma SameCandidateAfterCrash(effects: seq<Effect>, i: nat, k: nat)
    requires Disciplined(effects) && i < k < |effects| && effects[i].Made? && effects[k].Wrote?
    requires forall m | i <= m < k :: !effects[m].Wrote?
    ensures effects[k].journal.candidate.Some? ==> effects[k].journal.candidate == Some(effects[i].made)
    ensures forall m | i <= m < k && effects[m].Made? :: effects[m].made == effects[i].made
  {
    hide Disciplined, LastJournal, LastCall, Validated, Witnessed, JournalInv, Carries;
    forall m | i <= m <= k ensures Legal(effects[..m], effects[m]) && LastJournal(effects[..m]) == LastJournal(effects[..i]) {
      LegalAt(effects, m);
      JournalStands(effects, i, m);
    }
  }

  /** A delta counts as validated only in the call that took it, from a checkout and a remote that were
      both just seen at the admitted head. */
  lemma {:induction false} ValidatedMeans(effects: seq<Effect>) returns (i: nat)
    requires Disciplined(effects) && Validated(effects).Some?
    ensures LastCall(effects).Some? && 3 <= i < |effects|
    ensures var r := LastCall(effects).value;
            effects[i - 3..i] == [SawHead(r.expected), SawBranch(r.branch), ReadRemote(r.expected)]
    ensures effects[i] == Inventoried(Validated(effects).value)
    ensures forall k | i - 3 <= k < |effects| :: !effects[k].Called?
    decreases |effects|
  {
    hide Disciplined, Validated, LastCall, LastJournal, LegalInventory, LegalJournal, LegalPush, Carries;
    NothingValidated();
    var n := |effects| - 1;
    var front, e := effects[..n], effects[n];
    assert effects == front + [e];
    Appended(front, e);
    if e.Inventoried? {
      i := n;
      SeenInOrder(front);
      assert effects[i - 3..i] == front[i - 3..];
    } else {
      i := ValidatedMeans(front);
      assert effects[i - 3..i] == front[i - 3..i];
    }
    forall k | i - 3 <= k < |effects| ensures !effects[k].Called? {
      assert k < n ==> effects[k] == front[k];
    }
  }

  lemma NothingValidated()
    ensures Validated([]).None?
  {
  }

  lemma SeenInOrder(before: seq<Effect>)
    requires LegalInventory(before)
    ensures LastCall(before).Some?
    ensures var r := LastCall(before).value;
            |before| >= 3 && before[|before| - 3..] == [SawHead(r.expected), SawBranch(r.branch), ReadRemote(r.expected)]
    ensures forall k | |before| - 3 <= k < |before| :: !before[k].Called?
  {
    hide LastCall;
    var n := |before|;
    assert before[n - 3..][0] == before[n - 3] && before[n - 3..][1] == before[n - 2] && before[n - 3..][2] == before[n - 1];
  }

  /** What a push publishes: a child of the admitted head, changed exactly on the delta that this same
      call validated, announced in the journal just after the remote was seen at that head again. */
  lemma PushIsAnnounced(effects: seq<Effect>, i: nat) returns (r: Request)
    requires Disciplined(effects) && i < |effects| && effects[i].Pushed?
    ensures LastCall(effects[..i]) == Some(r)
    ensures i >= 2 && effects[i - 2] == ReadRemote(r.expected)
    ensures effects[i - 1].Wrote? && effects[i - 1].journal.state.PublishIntent? && Matches(effects[i - 1].journal, r)
    ensures effects[i].candidate.parents == [r.expected] && IsAncestor(r.expected, effects[i].candidate)
    ensures Validated(effects[..i]) == Some(Changed(r.expected.tree, effects[i].candidate.tree))
  {
    hide Disciplined, Validated, LastCall, LastJournal, JournalInv, LegalWrite;
    LegalAt(effects, i);
    var front := effects[..i];
    assert LegalPush(front, effects[i].candidate);
    LegalAt(effects, i - 1);
    var before, j := effects[..i - 1], effects[i - 1].journal;
    assert front == before + [Wrote(j)];
    Appended(before, Wrote(j));
    assert LegalJournal(before, j);
    r := LastCall(before).value;
    AnnouncedIsSealed(before, j);
    assert IsAncestor(r.expected, effects[i].candidate.parents[0]);
  }

  lemma AnnouncedIsSealed(before: seq<Effect>, j: Journal)
    requires LegalJournal(before, j) && j.state.PublishIntent?
    ensures j.tree.Some? && j.candidate == Some(MakeCommit(j.tree.value, j.expected, j.identity, j.message))
  {
    hide LastJournal, LastCall, Validated, JournalInv, LegalWrite;
  }

  /** A journal is marked published only after the remote was read back at its candidate, and only from the
      very intent that was announced. */
  lemma PublishedWasSeen(effects: seq<Effect>, i: nat)
    requires Disciplined(effects) && i < |effects| && effects[i].Wrote? && effects[i].journal.state.Published?
    ensures effects[i].journal.candidate.Some?
    ensures i >= 1
    ensures effects[i - 1] == ReadRemote(effects[i].journal.candidate.value)
         || (i >= 2 && effects[i - 2] == ReadRemote(effects[i].journal.candidate.value))
    ensures LastJournal(effects[..i]) == Some(effects[i].journal.(state := PublishIntent))
  {
    hide Disciplined, LastJournal, LegalWrite, Witnessed, JournalInv;
    LegalAt(effects, i);
    var before, j := effects[..i], effects[i].journal;
    assert LegalJournal(before, j);
    PublishedWriteSaw(before, j);
    PublishedFromIntent(before, j);
  }

  lemma PublishedFromIntent(before: seq<Effect>, j: Journal)
    requires j.state.Published? && LegalWrite(LastJournal(before), j)
    ensures LastJournal(before) == Some(j.(state := PublishIntent))
  {
    hide LastJournal;
  }

  lemma PublishedWriteSaw(before: seq<Effect>, j: Journal)
    requires j.state.Published? && Witnessed(before, j)
    ensures j.candidate.Some? && |before| >= 1
    ensures before[|before| - 1] == ReadRemote(j.candidate.value)
         || (|before| >= 2 && before[|before| - 2] == ReadRemote(j.candidate.value))
  {
  }

  lemma LegalAt(effects: seq<Effect>, i: nat)
    requires Disciplined(effects) && i < |effects|
    ensures Legal(effects[..i], effects[i])
  {
    hide Legal;
    DisciplinedPrefix(effects, i + 1);
    assert effects[..i + 1][..i] == effects[..i];
  }

  lemma {:induction false} DisciplinedPrefix(effects: seq<Effect>, k: nat)
    requires Disciplined(effects) && k <= |effects|
    ensures Disciplined(effects[..k])
    decreases |effects|
  {
    if k < |effects| {
      assert effects[..|effects| - 1][..k] == effects[..k];
      DisciplinedPrefix(effects[..|effects| - 1], k);
    } else {
      assert effects[..k] == effects;
    }
  }
}
