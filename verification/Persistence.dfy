/** Provider-owned persistence: the call that builds, announces and pushes one candidate, and the
    recovery that only reads the remote back. Others may move the remote, the local refs and the
    checkout before every step, any command may fail, and the process may die at any step. */
module Persistence {
  import opened Wrappers
  import opened PersistenceJournal

  datatype Checkout = OnBranch(name: string) | Detached(at: Commit)

  datatype World = World(remote: map<string, Commit>, refs: map<string, Commit>, checkout: Checkout)

  datatype Luck = Goes | Fails | Dies

  /** Everything about one run that the program does not decide. `built` is whatever tree the candidate
      index yields; `lands` and `reports` are the fate of the push and of its exit code. */
  datatype Script = Script(
    luck: nat -> Luck, moves: nat -> Option<World>, now: nat, canonical: bool,
    raw: RawDiff, built: Tree, lands: bool, reports: bool)

  datatype Status = Persisted | NoChange | PublicationFailed | PublicationUncertain | TransportDrift

  datatype Provenance = Provenance(identity: CommitIdentity, candidate: Commit, message: string, base: Commit)

  datatype Outcome = Outcome(
    status: Status, base: Commit, count: nat, digest: set<RepoPath>, candidate: Option<Commit>,
    provenance: Option<Provenance>, published: bool, readback: Commit, consistent: bool,
    actualBranch: string, localHead: Commit, snapshot: string, state: State, error: string)

  datatype Reply = Returned(outcome: Outcome) | Raised(code: string) | Crashed

  // ---------- what the checkout and the remote show ----------

  function HeadOf(w: World): Option<Commit> {
    match w.checkout
    case Detached(at) => Some(at)
    case OnBranch(name) => if name in w.refs then Some(w.refs[name]) else None
  }

  function BranchName(w: World): string {
    match w.checkout case OnBranch(name) => name case Detached(_) => "HEAD"
  }

  function Moved(move: Option<World>, w: World): World {
    match move case Some(other) => other case None => w
  }

  /** The remote accepts a push that creates the branch or fast-forwards it, and no other. */
  function Landed(w: World, branch: string, c: Commit): World {
    if branch !in w.remote || IsAncestor(w.remote[branch], c) then w.(remote := w.remote[branch := c]) else w
  }

  /** A push moves the branch exactly when that loses nothing there, and moves nothing else. */
  lemma LandedIff(w: World, branch: string, c: Commit)
    ensures var after := Landed(w, branch, c);
            && (Holds(after.remote, branch, c) <==> branch !in w.remote || IsAncestor(w.remote[branch], c))
            && (!Holds(after.remote, branch, c) ==> after == w)
            && after == w.(remote := after.remote) && after.remote - {branch} == w.remote - {branch}
  {
  }

  predicate Holds(refs: map<string, Commit>, branch: string, c: Commit) {
    branch in refs && refs[branch] == c
  }

  ghost predicate Calm(s: Script) {
    && (forall k :: s.luck(k).Goes?) && (forall k :: s.moves(k).None?)
    && s.canonical && s.lands && s.reports
  }

  predicate Admissible(r: Request, w: World) {
    HeadOf(w) == Some(r.expected) && BranchName(w) == r.branch && Holds(w.remote, r.branch, r.expected)
  }

  /** What admission asks of the checkout: the branch itself, at the admitted head. A detached checkout reads
      as a branch of the name HEAD. */
  lemma AdmissibleIff(r: Request, w: World)
    ensures Admissible(r, w)
       <==> && Holds(w.remote, r.branch, r.expected)
            && ((w.checkout == OnBranch(r.branch) && Holds(w.refs, r.branch, r.expected))
                || (w.checkout == Detached(r.expected) && r.branch == "HEAD"))
  {
  }

  // ---------- outcomes ----------

  function PersistedOutcome(j: Journal, name: string): Outcome
    requires j.candidate.Some?
  {
    var c := j.candidate.value;
    Outcome(Persisted, j.expected, j.count, j.digest, Some(c), Some(Provenance(j.identity, c, j.message, j.expected)),
            true, c, name == j.branch, name, c, j.snapshot, Published, "")
  }

  function UnpublishedOutcome(status: Status, j: Journal, readback: Commit, name: string, error: string): Outcome
    requires j.candidate.Some?
  {
    var c := j.candidate.value;
    Outcome(status, j.expected, j.count, j.digest, Some(c), Some(Provenance(j.identity, c, j.message, j.expected)),
            false, readback, false, name, c, j.snapshot, PublishIntent, error)
  }

  /** What reading the remote back says about a committed journal. */
  function Recovered(j: Journal, remote: Commit, name: string): Reply
    requires j.candidate.Some?
  {
    if remote == j.candidate.value then Returned(PersistedOutcome(j, name))
    else if j.state.PublishIntent? && remote == j.expected then
      Returned(UnpublishedOutcome(PublicationUncertain, j, remote, name, "direct_codex_publication_uncertain"))
    else Raised("direct_codex_transport_drift")
  }

  predicate Rebuilds(j: Journal) {
    j.state.Prepared? || j.tree.None?
  }

  /** The tree this call will commit. */
  function Candidate(j: Journal, s: Script): Tree {
    if Rebuilds(j) then s.built else j.tree.value
  }

  predicate Reusable(j: Journal, tree: Tree) {
    j.candidate.None? || j.candidate.value.tree == tree
  }

  lemma InventoryIsLegal(before: seq<Effect>, r: Request)
    requires LastCall(before) == Some(r)
    ensures LegalInventory(before + [SawHead(r.expected), SawBranch(r.branch)] + [ReadRemote(r.expected)])
  {
    var shown := [SawHead(r.expected), SawBranch(r.branch), ReadRemote(r.expected)];
    assert before + [SawHead(r.expected), SawBranch(r.branch)] + [ReadRemote(r.expected)]
        == before + [SawHead(r.expected)] + [SawBranch(r.branch)] + [ReadRemote(r.expected)];
    Appended(before, SawHead(r.expected));
    Appended(before + [SawHead(r.expected)], SawBranch(r.branch));
    Appended(before + [SawHead(r.expected)] + [SawBranch(r.branch)], ReadRemote(r.expected));
    assert before + shown == before + [SawHead(r.expected), SawBranch(r.branch)] + [ReadRemote(r.expected)];
    assert (before + shown)[|before|..] == shown;
  }

  /** The announcing write is legal at once after the remote read, and the push at once after it. */
  lemma IntentIsLegal(before: seq<Effect>, j: Journal, r: Request)
    requires LastCall(before) == Some(r) && Matches(j, r) && LastJournal(before) == Some(j)
    requires JournalInv(j) && j.state.LocalRefReady? && Carries(before, j, j.tree.value)
    ensures var read := before + [ReadRemote(r.expected)];
            var intent := j.(state := PublishIntent);
            LegalJournal(read, intent) && LegalPush(read + [Wrote(intent)], j.candidate.value)
  {
    var read := before + [ReadRemote(r.expected)];
    Appended(before, ReadRemote(r.expected));
    Appended(read, Wrote(j.(state := PublishIntent)));
  }

  predicate PersistedReply(reply: Reply) {
    reply.Returned? && reply.outcome.status.Persisted?
  }

  predicate Announced(j: Journal, r: Request, snapshot: string, delta: set<RepoPath>) {
    Matches(j, r) && JournalInv(j) && j.state.PublishIntent? && j.snapshot == snapshot && j.digest == delta
  }

  /** How a pushing call may answer for the journal it announced: published and persisted with the
      journal's own evidence, or unpublished with what was read back instead. */
  predicate Settles(was: Journal, j: Journal, reply: Reply, r: Request)
    requires JournalInv(was) && was.state.PublishIntent?
  {
    match reply
    case Crashed | Raised(_) => j == was || j == was.(state := Published)
    case Returned(o) =>
      match o.status
      case Persisted => j == was.(state := Published) && o == PersistedOutcome(j, r.branch)
      case PublicationFailed =>
        j == was && o == UnpublishedOutcome(o.status, j, r.expected, r.branch, "direct_codex_publish_failed")
      case PublicationUncertain =>
        j == was && o == UnpublishedOutcome(o.status, j, r.expected, r.branch, "direct_codex_publication_uncertain")
      case TransportDrift =>
        && j == was && o == UnpublishedOutcome(o.status, j, o.readback, r.branch, "direct_codex_publication_uncertain")
        && o.readback != r.expected && o.readback != j.candidate.value
      case NoChange => false
  }

  function Fallback(j: Journal): Journal {
    j.(state := Prepared, count := 0, digest := {})
  }

  function NoChangeOutcome(r: Request, snapshot: string): Outcome {
    Outcome(NoChange, r.expected, 0, {}, None, None, false, r.expected, false, r.branch, r.expected, snapshot, Prepared, "")
  }

  /** The outcome of a call that pushed agrees with the journal it leaves behind. */
  predicate Answers(j: Journal, reply: Reply, r: Request) {
    && JournalInv(j) && Matches(j, r)
    && (j.state.PublishIntent? || j.state.Published?)
    && Settles(j.(state := PublishIntent), j, reply, r)
  }

  /** What an opened call needs, besides an undisturbed run, for its candidate to be published. */
  predicate Publishable(j: Journal, r: Request, delta: set<RepoPath>, w: World, s: Script) {
    && Changed(r.expected.tree, Candidate(j, s)) == delta && Reusable(j, Candidate(j, s))
    && Holds(w.refs, r.branch, r.expected) && Holds(w.remote, r.branch, r.expected)
  }

  /** Recovery refines the uninterrupted run: after a crash on the announced journal, the recovered
      outcome is field by field the one the pushing call would have returned, exactly when the remote
      shows the candidate and the checkout is still on the branch. */
  lemma RecoveryRefines(intent: Journal, after: Journal, uninterrupted: Reply, r: Request, remote: Commit, name: string)
    requires JournalInv(intent) && intent.state.PublishIntent? && Matches(intent, r)
    requires Settles(intent, after, uninterrupted, r) && PersistedReply(uninterrupted)
    ensures Recovered(intent, remote, name) == uninterrupted
       <==> remote == intent.candidate.value && name == r.branch
  {
    var recovered := Recovered(intent, remote, name);
    if recovered == uninterrupted {
      assert recovered.outcome.status.Persisted? && recovered.outcome.actualBranch == name;
    }
  }

  function Blame(status: Status): string {
    if status.PublicationFailed? then "direct_codex_publish_failed" else "direct_codex_publication_uncertain"
  }

  /** How any returned outcome relates to the journal that is left. */
  predicate Concludes(j: Journal, r: Request, reply: Reply)
    requires reply.Returned?
  {
    var o := reply.outcome;
    && JournalInv(j) && Matches(j, r)
    && match o.status
       case NoChange => j.state.Prepared? && o == NoChangeOutcome(r, j.snapshot)
       case Persisted => j.state.Published? && o == PersistedOutcome(j, o.actualBranch)
       case _ =>
         && j.state.PublishIntent? && o.readback != j.candidate.value
         && (o.readback == r.expected <==> !o.status.TransportDrift?)
         && o == UnpublishedOutcome(o.status, j, o.readback, o.actualBranch, Blame(o.status))
  }

  /** The outcome of a call that inspected the checkout names exactly the eligible paths; it reports no
      change exactly when there is none. */
  ghost predicate Reports(o: Outcome, raw: RawDiff) {
    && Inspectable(raw) && (o.status.NoChange? <==> NothingEligible(raw))
    && forall p :: p in o.digest <==> Eligible(raw, p)
  }

  /** When an undisturbed call that has validated `delta` publishes its candidate. */
  predicate Ready(journal: Option<Journal>, snapshot: string, r: Request, delta: set<RepoPath>, w: World, s: Script) {
    && Holds(w.refs, r.branch, r.expected) && Holds(w.remote, r.branch, r.expected)
    && match journal
       case None => Changed(r.expected.tree, s.built) == delta
       case Some(j) =>
         && Matches(j, r) && j.snapshot == snapshot && j.message == j.identity.messageDigest
         && Changed(r.expected.tree, Candidate(j, s)) == delta && Reusable(j, Candidate(j, s))
  }

  /** What persisted evidence means: a child of the admitted head, changed exactly on the counted delta,
      read back from the remote. */
  lemma PersistedMeans(j: Journal, r: Request, reply: Reply)
    requires PersistedReply(reply) && Concludes(j, r, reply)
    ensures var o := reply.outcome;
            && o.base == r.expected && o.candidate == Some(o.readback) && o.localHead == o.readback
            && o.readback.parents == [r.expected] && IsAncestor(r.expected, o.readback)
            && o.digest == Changed(r.expected.tree, o.readback.tree) && o.count == |o.digest|
            && o.provenance == Some(Provenance(o.readback.identity, o.readback, o.readback.message, r.expected))
            && (o.consistent <==> o.actualBranch == r.branch)
  {
    SealedChild(j);
  }

  lemma AnswersConclude(j: Journal, r: Request, reply: Reply)
    requires reply.Returned? && Answers(j, reply, r)
    ensures Concludes(j, r, reply) && !reply.outcome.status.NoChange?
  {
    SealedChild(j);
  }

  predicate SameEvidence(a: Outcome, b: Outcome) {
    a.(actualBranch := "", consistent := false) == b.(actualBranch := "", consistent := false)
  }

  lemma PersistedIsPublished(j: Journal, r: Request, reply: Reply)
    requires PersistedReply(reply) && Concludes(j, r, reply)
    ensures j.state.Published?
  {
  }

  lemma SameJournalSameEvidence(j: Journal, r: Request, reply: Reply, r': Request, reply': Reply)
    requires PersistedReply(reply) && PersistedReply(reply') && Concludes(j, r, reply) && Concludes(j, r', reply')
    ensures SameEvidence(reply.outcome, reply'.outcome)
  {
  }

  lemma PublishedStays(before: seq<Effect>, last: seq<Effect>)
    requires before <= last && Disciplined(last)
    requires LastJournal(before).Some? && LastJournal(before).value.state.Published?
    ensures LastJournal(last) == LastJournal(before)
  {
    assert last[..|before|] == before;
    CandidateWriteOnce(last, |before|);
  }

  lemma SuffixGrows(before: seq<Effect>, middle: seq<Effect>, last: seq<Effect>, e: Effect)
    requires before <= middle <= last && e in last[|middle|..]
    ensures e in last[|before|..]
  {
    assert last[|before|..] == last[|before|..|middle|] + last[|middle|..];
  }

  lemma SealedChild(j: Journal)
    requires Sealed(j)
    ensures IsAncestor(j.expected, j.candidate.value) && j.candidate.value != j.expected
  {
    assert IsAncestor(j.expected, j.candidate.value.parents[0]);
  }

  lemma PublishedIsLegal(before: seq<Effect>, j: Journal, r: Request)
    requires LastCall(before) == Some(r) && Matches(j, r) && LastJournal(before) == Some(j)
    requires JournalInv(j) && j.state.PublishIntent?
    ensures LegalJournal(before + [ReadRemote(j.candidate.value)], j.(state := Published))
    ensures forall name :: LegalJournal(
              before + [ReadRemote(j.candidate.value)] + [SawBranch(name)], j.(state := Published))
  {
    var c := j.candidate.value;
    Appended(before, ReadRemote(c));
    forall name ensures LegalJournal(before + [ReadRemote(c)] + [SawBranch(name)], j.(state := Published)) {
      Appended(before + [ReadRemote(c)], SawBranch(name));
    }
  }

  // ---------- reading effects back ----------

  predicate OnlyReads(effects: seq<Effect>) {
    forall e | e in effects :: !e.Made? && !e.MovedRef? && !e.Pushed? && !e.Inventoried?
  }

  predicate Unfinished(reply: Reply) {
    !reply.Returned?
  }

  /** The reply is the one a remote head and a branch name read in `seen` lead to. */
  predicate Rereads(j: Journal, reply: Reply, seen: seq<Effect>)
    requires j.candidate.Some? && reply.Returned?
  {
    && reply == Recovered(j, reply.outcome.readback, reply.outcome.actualBranch)
    && ReadRemote(reply.outcome.readback) in seen && SawBranch(reply.outcome.actualBranch) in seen
  }

  /** What holds since the call began holds since before its marker. */
  lemma SuffixOf(before: seq<Effect>, e: Effect, last: seq<Effect>)
    requires before + [e] <= last && e.Called?
    ensures last[|before|..] == [e] + last[|before| + 1..]
    ensures OnlyReads(last[|before| + 1..]) ==> OnlyReads(last[|before|..])
  {
    assert last[|before|] == (before + [e])[|before|];
  }

  lemma SinceNothing(before: seq<Effect>)
    ensures OnlyReads(before[|before|..])
  {
  }

  lemma SinceRead(before: seq<Effect>, e: Effect)
    requires e.ReadRemote?
    ensures OnlyReads((before + [e])[|before|..])
  {
    assert (before + [e])[|before|..] == [e];
  }

  lemma Since(before: seq<Effect>, remote: Commit, name: string)
    ensures var seen := (before + [ReadRemote(remote)] + [SawBranch(name)])[|before|..];
            OnlyReads(seen) && ReadRemote(remote) in seen && SawBranch(name) in seen
  {
    assert (before + [ReadRemote(remote)] + [SawBranch(name)])[|before|..] == [ReadRemote(remote), SawBranch(name)];
  }

  lemma SinceWrote(before: seq<Effect>, remote: Commit, name: string, j: Journal)
    ensures var seen := (before + [ReadRemote(remote)] + [SawBranch(name)] + [Wrote(j)])[|before|..];
            OnlyReads(seen) && ReadRemote(remote) in seen && SawBranch(name) in seen
  {
    assert (before + [ReadRemote(remote)] + [SawBranch(name)] + [Wrote(j)])[|before|..]
        == [ReadRemote(remote), SawBranch(name), Wrote(j)];
  }

  function Readback(j: Journal, r: Request, w: World): Reply
    requires j.candidate.Some?
  {
    if r.branch in w.remote then Recovered(j, w.remote[r.branch], BranchName(w))
    else Raised("direct_codex_remote_branch_missing")
  }

  class DirectHost {
    var journal: Option<Journal>
    var world: World
    var step: nat
    ghost var effects: seq<Effect>

    ghost predicate Valid()
      reads this
    {
      && Disciplined(effects) && LastJournal(effects) == journal
      && (journal.Some? ==> JournalInv(journal.value))
    }

    /** This call has validated `delta`, and the journal is its own and not yet announced. */
    ghost predicate Working(r: Request, delta: set<RepoPath>)
      reads this
    {
      && Valid() && LastCall(effects) == Some(r) && Validated(effects) == Some(delta)
      && journal.Some? && Matches(journal.value, r) && !Committed(journal)
    }

    constructor (w: World)
      ensures Valid() && journal.None? && world == w && effects == []
    {
      journal, world, step, effects := None, w, 0, [];
    }

    ghost method Note(e: Effect)
      requires Valid() && !e.Wrote? && Legal(effects, e)
      modifies this`effects
      ensures Valid() && effects == old(effects) + [e]
      ensures LastCall(effects) == if e.Called? then Some(e.request) else LastCall(old(effects))
      ensures Validated(effects)
           == if e.Called? then None else if e.Inventoried? then Some(e.delta) else Validated(old(effects))
    {
      Appended(effects, e);
      effects := effects + [e];
    }

    method Tick(s: Script) returns (luck: Luck)
      modifies this`world, this`step
      ensures world == Moved(s.moves(old(step)), old(world))
      ensures luck == s.luck(old(step))
      ensures Calm(s) ==> luck.Goes? && world == old(world)
    {
      luck, world, step := s.luck(step), Moved(s.moves(step), world), step + 1;
    }

    /** One command that changes nothing here. */
    method Command(s: Script, code: string) returns (stop: Option<Reply>)
      modifies this`world, this`step
      ensures stop.Some? ==> Unfinished(stop.value)
      ensures Calm(s) ==> stop.None? && world == old(world)
    {
      var luck := Tick(s);
      stop := match luck case Goes => None case Fails => Some(Raised(code)) case Dies => Some(Crashed);
    }

    method SeeRemote(s: Script, branch: string) returns (stop: Option<Reply>, head: Option<Commit>)
      requires Valid()
      modifies this
      ensures Valid() && journal == old(journal)
      ensures LastCall(effects) == LastCall(old(effects)) && Validated(effects) == Validated(old(effects))
      ensures stop.Some? ==> Unfinished(stop.value) && effects == old(effects)
      ensures stop.None? ==> head.Some? && Holds(world.remote, branch, head.value)
                             && effects == old(effects) + [ReadRemote(head.value)]
      ensures Calm(s) ==> world == old(world) && (stop.None? <==> branch in world.remote)
      ensures Calm(s) && stop.Some? ==> stop.value == Raised("direct_codex_remote_branch_missing")
    {
      head := None;
      stop := Command(s, "direct_codex_remote_read_failed");
      if stop.None? {
        if branch in world.remote {
          head := Some(world.remote[branch]);
          Note(ReadRemote(head.value));
        } else {
          stop := Some(Raised("direct_codex_remote_branch_missing"));
        }
      }
    }

    /** A failing branch lookup reads as the empty name. */
    method SeeBranch(s: Script) returns (stop: Option<Reply>, name: string)
      requires Valid()
      modifies this
      ensures Valid() && journal == old(journal)
      ensures LastCall(effects) == LastCall(old(effects)) && Validated(effects) == Validated(old(effects))
      ensures stop.Some? ==> Unfinished(stop.value) && effects == old(effects)
      ensures stop.None? ==> effects == old(effects) + [SawBranch(name)] && (name == BranchName(world) || name == "")
      ensures Calm(s) ==> world == old(world) && stop.None? && name == BranchName(world)
    {
      name := "";
      stop := None;
      var luck := Tick(s);
      if luck.Dies? {
        stop := Some(Crashed);
      } else {
        name := if luck.Goes? then BranchName(world) else "";
        Note(SawBranch(name));
      }
    }

    /** The write is one atomic replacement, read back at once; the call may still end before or after it. */
    method WriteJournal(j: Journal, s: Script) returns (stop: Option<Reply>)
      requires Valid() && LegalJournal(effects, j)
      modifies this
      ensures Valid()
      ensures LastCall(effects) == LastCall(old(effects)) && Validated(effects) == Validated(old(effects))
      ensures stop.None? ==> journal == Some(j) && effects == old(effects) + [Wrote(j)]
      ensures stop.Some? ==> Unfinished(stop.value)
      ensures (journal == old(journal) && effects == old(effects))
           || (journal == Some(j) && effects == old(effects) + [Wrote(j)])
      ensures Calm(s) ==> stop.None? && world == old(world)
    {
      stop := Command(s, "direct_codex_recovery_journal_invalid");
      if stop.None? {
        Appended(effects, Wrote(j));
        journal := Some(j);
        effects := effects + [Wrote(j)];
        stop := Command(s, "direct_codex_recovery_journal_readback_mismatch");
      }
    }

    // ---------- the phases of one call ----------

    method SeeCheckout(r: Request, s: Script) returns (stop: Option<Reply>)
      requires Valid()
      modifies this
      ensures Valid() && journal == old(journal) && LastCall(effects) == LastCall(old(effects))
      ensures old(effects) <= effects
      ensures stop.Some? ==> Unfinished(stop.value)
      ensures stop.None? ==> effects == old(effects) + [SawHead(r.expected), SawBranch(r.branch)]
      ensures Calm(s) ==> world == old(world)
      ensures Calm(s) ==> (stop.None? <==> HeadOf(world) == Some(r.expected) && BranchName(world) == r.branch)
    {
      stop := Command(s, "direct_codex_revision_unavailable");
      if stop.Some? { return; }
      var head := HeadOf(world);
      if head.None? { stop := Some(Raised("direct_codex_revision_unavailable")); return; }
      Note(SawHead(head.value));
      if head.value != r.expected { stop := Some(Raised("direct_codex_local_head_unexpected")); return; }
      var name;
      stop, name := SeeBranch(s);
      if stop.Some? { return; }
      if name != r.branch { stop := Some(Raised("direct_codex_actual_branch_drift")); return; }
      assert effects == old(effects) + [SawHead(r.expected), SawBranch(r.branch)];
    }

    /** Head, branch, attributes, remote and inventory, in this order. */
    method Admit(r: Request, s: Script) returns (stop: Option<Reply>, delta: set<RepoPath>)
      requires Valid() && LastCall(effects) == Some(r)
      modifies this
      ensures Valid() && journal == old(journal) && LastCall(effects) == Some(r) && old(effects) <= effects
      ensures stop.Some? ==> Unfinished(stop.value)
      ensures stop.None? ==> Inspectable(s.raw) && (forall p :: p in delta <==> Eligible(s.raw, p))
      ensures stop.None? ==> Inventory(s.raw) == Some(delta) && Validated(effects) == Some(delta)
      ensures Calm(s) ==> world == old(world)
      ensures Calm(s) ==> (stop.None? <==> Admissible(r, world) && Inspectable(s.raw))
    {
      hide Disciplined, LastJournal, LastCall, Validated, JournalInv, Inventory, LegalInventory, Inspectable, Eligible;
      delta := {};
      stop := SeeCheckout(r, s);
      if stop.Some? { return; }
      stop := Command(s, "direct_codex_canonicalization_failed");
      if stop.Some? { return; }
      if !s.canonical { stop := Some(Raised("direct_codex_canonicalization_drift")); return; }
      var remote;
      stop, remote := SeeRemote(s, r.branch);
      if stop.Some? { return; }
      if remote.value != r.expected { stop := Some(Raised("direct_codex_transport_drift")); return; }
      stop := Command(s, "direct_codex_inventory_failed");
      if stop.Some? { return; }
      var eligible := Inventory(s.raw);
      if eligible.None? { stop := Some(Raised("direct_codex_inventory_refused")); return; }
      delta := eligible.value;
      InventoryIsLegal(old(effects), r);
      Note(Inventoried(delta));
    }

    /** A first call seals the commit inputs; a later one must run under the same attribute snapshot. */
    method Open(r: Request, snapshot: string, delta: set<RepoPath>, s: Script) returns (stop: Option<Reply>)
      requires Valid() && LastCall(effects) == Some(r) && Validated(effects) == Some(delta)
      requires journal.Some? ==> Matches(journal.value, r) && !Committed(journal)
      modifies this
      ensures Valid() && old(effects) <= effects
      ensures stop.Some? ==> Unfinished(stop.value)
      ensures stop.None? ==> Working(r, delta) && journal.value.snapshot == snapshot
      ensures old(journal).Some? ==> journal == old(journal) && effects == old(effects)
      ensures stop.None? && old(journal).None? ==>
                && journal.value.state.Prepared? && journal.value.candidate.None? && journal.value.digest == delta
                && journal.value.message == CommitMessage(r.lineage)
                && journal.value.identity == CommitIdentity("SentinelX Direct Codex", "direct-codex@sentinelx.invalid",
                                                            s.now, "+0000", CommitMessage(r.lineage), 1)
      ensures Calm(s) ==> world == old(world)
      ensures Calm(s) ==> (stop.None? <==> old(journal).None? || (journal.value.snapshot == snapshot
                                           && journal.value.message == journal.value.identity.messageDigest))
    {
      stop := None;
      if journal.None? {
        var j := Journal(r.lineage, r.pr, r.branch, r.expected, snapshot, NewIdentity(r.lineage, s.now),
                         CommitMessage(r.lineage), Prepared, None, delta, |delta|, None);
        stop := WriteJournal(j, s);
        if stop.Some? { return; }
      } else if journal.value.snapshot != snapshot {
        stop := Some(Raised("direct_codex_snapshot_drift"));
        return;
      }
      if journal.value.message != journal.value.identity.messageDigest {
        stop := Some(Raised("direct_codex_recovery_journal_invalid"));
      }
    }

    /** Build the candidate tree, or keep the journal's; either way it must carry exactly the delta. */
    method BuildTree(r: Request, delta: set<RepoPath>, s: Script) returns (stop: Option<Reply>)
      requires Working(r, delta)
      modifies this
      ensures Valid() && old(effects) <= effects
      ensures stop.Some? ==> Unfinished(stop.value)
      ensures stop.None? ==> Working(r, delta) && !journal.value.state.Prepared? && journal.value.tree.Some?
      ensures stop.None? ==> Changed(r.expected.tree, journal.value.tree.value) == delta
      ensures stop.None? ==> SameBinding(old(journal).value, journal.value)
      ensures stop.None? ==> journal.value.candidate == old(journal).value.candidate
      ensures Calm(s) ==> world == old(world)
      ensures Calm(s) ==> (stop.None? <==> Changed(r.expected.tree, Candidate(old(journal).value, s)) == delta)
      ensures stop.None? ==> journal.value.tree == Some(Candidate(old(journal).value, s))
    {
      var j := journal.value;
      if Rebuilds(j) {
        stop := Command(s, "direct_codex_candidate_tree_failed");
        if stop.Some? { return; }
        if Changed(r.expected.tree, s.built) != delta {
          stop := Some(Raised("direct_codex_candidate_tree_mismatch"));
          return;
        }
        stop := WriteJournal(
          j.(tree := Some(s.built), digest := delta, count := |delta|, state := TreeReady), s);
      } else {
        stop := Command(s, "direct_codex_candidate_verification_failed");
        if stop.Some? { return; }
        if Changed(r.expected.tree, j.tree.value) != delta {
          stop := Some(Raised("direct_codex_candidate_tree_mismatch"));
        }
      }
    }

    /** Create the candidate commit once; a recorded one must still hold exactly the tree just verified. */
    method MakeCandidate(r: Request, delta: set<RepoPath>, s: Script) returns (stop: Option<Reply>)
      requires Working(r, delta) && !journal.value.state.Prepared? && journal.value.tree.Some?
      requires Changed(r.expected.tree, journal.value.tree.value) == delta
      modifies this
      ensures Valid() && old(effects) <= effects
      ensures stop.Some? ==> Unfinished(stop.value)
      ensures stop.None? ==> Working(r, delta) && Sealed(journal.value) && Describes(journal.value)
      ensures stop.None? ==> SameBinding(old(journal).value, journal.value)
      ensures stop.None? ==> journal.value.tree == old(journal).value.tree
      ensures Calm(s) ==> world == old(world)
      ensures Calm(s) ==> (stop.None? <==> Reusable(old(journal).value, old(journal).value.tree.value))
    {
      hide Disciplined, LastJournal;
      var j := journal.value;
      if j.candidate.None? {
        stop := Command(s, "direct_codex_commit_failed");
        if stop.Some? { return; }
        var c := MakeCommit(j.tree.value, r.expected, j.identity, j.message);
        Note(Made(c));
        stop := Command(s, "direct_codex_candidate_object_mismatch");
        if stop.Some? { return; }
        Appended(old(effects), Made(c));
        stop := WriteJournal(j.(candidate := Some(c), state := CandidateReady), s);
      } else {
        stop := Command(s, "direct_codex_candidate_object_mismatch");
        if stop.Some? { return; }
        if j.candidate.value.tree != j.tree.value || j.candidate.value.parents != [r.expected] {
          stop := Some(Raised("direct_codex_candidate_object_mismatch"));
        }
      }
    }

    /** Compare-and-swap the local branch from the admitted head to the candidate. */
    method MoveRef(r: Request, delta: set<RepoPath>, s: Script) returns (stop: Option<Reply>)
      requires Working(r, delta) && Sealed(journal.value) && Describes(journal.value)
      requires Changed(r.expected.tree, journal.value.tree.value) == delta
      modifies this
      ensures Valid() && old(effects) <= effects
      ensures stop.Some? ==> Unfinished(stop.value)
      ensures stop.None? ==> Working(r, delta) && journal == Some(old(journal).value.(state := LocalRefReady))
      ensures Calm(s) ==> (stop.None? <==> Holds(old(world).refs, r.branch, r.expected))
      ensures Calm(s) ==> world.remote == old(world).remote
      ensures Calm(s) && stop.None? ==>
                world == old(world).(refs := old(world).refs[r.branch := journal.value.candidate.value])
    {
      var j := journal.value;
      stop := Command(s, "direct_codex_local_ref_failed");
      if stop.Some? { return; }
      if !Holds(world.refs, r.branch, r.expected) {
        stop := Some(Raised("direct_codex_local_ref_failed"));
        return;
      }
      world := world.(refs := world.refs[r.branch := j.candidate.value]);
      Note(MovedRef(j.candidate.value));
      Appended(old(effects), MovedRef(j.candidate.value));
      stop := WriteJournal(j.(state := LocalRefReady), s);
    }

    /** Make the intent durable, only while the remote still shows the admitted head. */
    method Announce(r: Request, delta: set<RepoPath>, s: Script) returns (stop: Option<Reply>)
      requires Working(r, delta) && journal.value.state.LocalRefReady?
      requires Changed(r.expected.tree, journal.value.tree.value) == delta
      modifies this
      ensures Valid() && old(effects) <= effects
      ensures stop.Some? ==> Unfinished(stop.value)
      ensures stop.None? ==> journal == Some(old(journal).value.(state := PublishIntent))
      ensures stop.None? ==> effects == old(effects) + [ReadRemote(r.expected)] + [Wrote(journal.value)]
      ensures stop.None? ==> LegalPush(effects, journal.value.candidate.value)
      ensures Calm(s) ==> world == old(world)
      ensures Calm(s) ==> (stop.None? <==> Holds(world.remote, r.branch, r.expected))
    {
      ghost var before := effects;
      ghost var was := journal.value;
      var intent := journal.value.(state := PublishIntent);
      var remote;
      stop, remote := SeeRemote(s, r.branch);
      if stop.Some? { return; }
      if remote.value != r.expected { stop := Some(Raised("direct_codex_transport_drift")); return; }
      IntentIsLegal(before, was, r);
      stop := WriteJournal(intent, s);
    }

    /** The one push. The remote only ever moves forward, and a success code means it landed. */
    method Push(r: Request, s: Script) returns (stop: Option<Reply>, accepted: bool)
      requires Valid() && journal.Some? && journal.value.candidate.Some?
      requires LegalPush(effects, journal.value.candidate.value)
      modifies this
      ensures Valid() && journal == old(journal) && LastCall(effects) == LastCall(old(effects))
      ensures stop.Some? ==> Unfinished(stop.value) && effects == old(effects)
      ensures stop.None? ==> effects == old(effects) + [Pushed(journal.value.candidate.value)]
      ensures var w := Moved(s.moves(old(step)), old(world));
              world == w || (stop.None? && world == Landed(w, r.branch, journal.value.candidate.value))
      ensures accepted ==> stop.None? && Holds(world.remote, r.branch, journal.value.candidate.value)
      ensures Calm(s) ==> stop.None? && world == Landed(old(world), r.branch, journal.value.candidate.value)
      ensures Calm(s) ==> (accepted <==> Holds(world.remote, r.branch, journal.value.candidate.value))
    {
      accepted := false;
      var c := journal.value.candidate.value;
      var luck := Tick(s);
      stop := if luck.Dies? then Some(Crashed) else None;
      if stop.None? {
        Note(Pushed(c));
        if luck.Goes? {
          world := if s.lands then Landed(world, r.branch, c) else world;
          accepted := s.reports && Holds(world.remote, r.branch, c);
        }
      }
    }

    /** Read the remote back after an accepted push, and only then call it published. Every outcome is
        built from the values of this run. */
    method Confirm(r: Request, snapshot: string, delta: set<RepoPath>, s: Script) returns (reply: Reply)
      requires Valid() && LastCall(effects) == Some(r)
      requires journal.Some? && Announced(journal.value, r, snapshot, delta)
      modifies this
      ensures Valid() && old(effects) <= effects && journal.Some?
      ensures Settles(old(journal).value, journal.value, reply, r)
      ensures PersistedReply(reply) ==> ReadRemote(journal.value.candidate.value) in effects[|old(effects)|..]
      ensures reply.Returned? ==> !reply.outcome.status.PublicationFailed?
      ensures Calm(s) ==> world == old(world)
      ensures Calm(s) && Holds(world.remote, r.branch, old(journal).value.candidate.value) ==> PersistedReply(reply)
    {
      var j := journal.value;
      var c := j.candidate.value;
      var provenance := Some(Provenance(j.identity, c, j.message, r.expected));
      PublishedIsLegal(effects, j, r);
      SealedChild(j);
      var stop, remote := SeeRemote(s, r.branch);
      if stop.Some? { return stop.value; }
      if remote.value != c {
        var status := if remote.value == r.expected then PublicationUncertain else TransportDrift;
        return Returned(Outcome(status, r.expected, |delta|, delta, Some(c), provenance, false, remote.value,
                                false, r.branch, c, snapshot, PublishIntent, "direct_codex_publication_uncertain"));
      }
      stop := WriteJournal(j.(state := Published), s);
      if stop.Some? { return stop.value; }
      assert effects[|old(effects)|] == ReadRemote(c);
      reply := Returned(Outcome(Persisted, r.expected, |delta|, delta, Some(c), provenance, true, remote.value,
                                true, r.branch, c, snapshot, Published, ""));
    }

    /** Push the announced candidate once, then confirm. */
    method Publish(r: Request, snapshot: string, delta: set<RepoPath>, s: Script) returns (reply: Reply)
      requires Valid() && LastCall(effects) == Some(r)
      requires journal.Some? && Announced(journal.value, r, snapshot, delta)
      requires LegalPush(effects, journal.value.candidate.value)
      modifies this
      ensures Valid() && old(effects) <= effects && journal.Some?
      ensures Settles(old(journal).value, journal.value, reply, r)
      ensures PersistedReply(reply) ==> ReadRemote(journal.value.candidate.value) in effects[|old(effects)|..]
      ensures Calm(s) && Holds(old(world).remote, r.branch, r.expected) ==>
                PersistedReply(reply) && Holds(world.remote, r.branch, journal.value.candidate.value)
    {
      var j := journal.value;
      var c := j.candidate.value;
      SealedChild(j);
      var stop, accepted := Push(r, s);
      if stop.Some? { return stop.value; }
      if accepted {
        reply := Confirm(r, snapshot, delta, s);
      } else {
        var provenance := Some(Provenance(j.identity, c, j.message, r.expected));
        reply := Returned(Outcome(PublicationFailed, r.expected, |delta|, delta, Some(c), provenance, false, r.expected,
                                  false, r.branch, c, snapshot, PublishIntent, "direct_codex_publish_failed"));
      }
    }

    /** Tree, candidate and local ref. */
    method Build(r: Request, delta: set<RepoPath>, s: Script) returns (stop: Option<Reply>)
      requires Working(r, delta)
      modifies this
      ensures Valid() && old(effects) <= effects
      ensures stop.Some? ==> Unfinished(stop.value)
      ensures stop.None? ==> Working(r, delta) && journal.value.state.LocalRefReady?
      ensures stop.None? ==> SameBinding(old(journal).value, journal.value) && Describes(journal.value)
      ensures stop.None? ==> journal.value.tree == Some(Candidate(old(journal).value, s)) && journal.value.digest == delta
      ensures Calm(s) ==> world.remote == old(world).remote
      ensures Calm(s) && Publishable(old(journal).value, r, delta, old(world), s) ==> stop.None?
    {
      stop := BuildTree(r, delta, s);
      if stop.Some? { return; }
      stop := MakeCandidate(r, delta, s);
      if stop.Some? { return; }
      stop := MoveRef(r, delta, s);
    }

    /** From an opened journal with a non-empty delta to the end of the call. */
    method Proceed(r: Request, snapshot: string, delta: set<RepoPath>, s: Script) returns (reply: Reply)
      requires Working(r, delta) && journal.value.snapshot == snapshot
      modifies this
      ensures Valid() && old(effects) <= effects
      ensures reply.Returned? ==> journal.Some? && Concludes(journal.value, r, reply)
      ensures reply.Returned? ==> !reply.outcome.status.NoChange? && reply.outcome.digest == delta
      ensures PersistedReply(reply) ==> ReadRemote(journal.value.candidate.value) in effects[|old(effects)|..]
      ensures Calm(s) && Publishable(old(journal).value, r, delta, old(world), s) ==>
                PersistedReply(reply) && Holds(world.remote, r.branch, journal.value.candidate.value)
                && journal.value.candidate.value.tree == Candidate(old(journal).value, s)
    {
      var stop := Build(r, delta, s);
      if stop.Some? { return stop.value; }
      stop := Announce(r, delta, s);
      if stop.Some? { return stop.value; }
      reply := Publish(r, snapshot, delta, s);
      if reply.Returned? { AnswersConclude(journal.value, r, reply); }
    }

    /** A validated empty delta is reported as such, and never becomes a commit. */
    method ReportNoChange(r: Request, s: Script) returns (reply: Reply)
      requires Working(r, {})
      modifies this
      ensures Valid() && old(effects) <= effects && OnlyReads(effects[|old(effects)|..])
      ensures reply.Returned? ==> reply == Returned(NoChangeOutcome(r, old(journal).value.snapshot))
      ensures reply.Returned? ==> journal == Some(Fallback(old(journal).value))
      ensures reply.Returned? ==> SameBinding(old(journal).value, journal.value) && journal.value.state.Prepared?
                                  && journal.value.digest == {} && journal.value.count == 0
                                  && journal.value.candidate == old(journal).value.candidate
      ensures Calm(s) ==> reply.Returned? && world == old(world)
    {
      var snapshot := journal.value.snapshot;
      var stop := WriteJournal(Fallback(journal.value), s);
      reply := if stop.Some? then stop.value
               else Returned(Outcome(NoChange, r.expected, 0, {}, None, None, false, r.expected, false, r.branch,
                                     r.expected, snapshot, Prepared, ""));
    }

    /** An already published journal: the remote must still show its candidate. */
    method RecoverPublished(r: Request, s: Script) returns (reply: Reply)
      requires Valid() && journal.Some? && journal.value.state.Published? && Matches(journal.value, r)
      modifies this
      ensures Valid() && old(effects) <= effects && journal == old(journal)
      ensures OnlyReads(effects[|old(effects)|..])
      ensures reply.Returned? ==> Rereads(journal.value, reply, effects[|old(effects)|..])
      ensures Calm(s) ==> world == old(world) && reply == Readback(journal.value, r, world)
    {
      var c := journal.value.candidate.value;
      SealedChild(journal.value);
      ghost var before := effects;
      SinceNothing(before);
      var stop, remote := SeeRemote(s, r.branch);
      if stop.Some? { return stop.value; }
      SinceRead(before, ReadRemote(remote.value));
      if remote.value != c { return Raised("direct_codex_transport_drift"); }
      var name;
      stop, name := SeeBranch(s);
      if stop.Some? { return stop.value; }
      Since(before, c, name);
      reply := Returned(PersistedOutcome(journal.value, name));
    }

    method SeeRemoteAndBranch(s: Script, branch: string) returns (stop: Option<Reply>, remote: Commit, name: string)
      requires Valid() && journal.Some? && journal.value.candidate.Some?
      modifies this
      ensures Valid() && journal == old(journal) && LastCall(effects) == LastCall(old(effects))
      ensures old(effects) <= effects && OnlyReads(effects[|old(effects)|..])
      ensures stop.Some? ==> Unfinished(stop.value)
      ensures stop.None? ==> effects == old(effects) + [ReadRemote(remote)] + [SawBranch(name)]
      ensures stop.None? ==> ReadRemote(remote) in effects[|old(effects)|..] && SawBranch(name) in effects[|old(effects)|..]
      ensures Calm(s) ==> world == old(world) && (stop.None? <==> branch in world.remote)
      ensures Calm(s) && stop.None? ==> remote == world.remote[branch] && name == BranchName(world)
      ensures Calm(s) && stop.Some? ==> stop.value == Raised("direct_codex_remote_branch_missing")
    {
      ghost var before := effects;
      SinceNothing(before);
      remote, name := journal.value.expected, "";
      var head;
      stop, head := SeeRemote(s, branch);
      if stop.Some? { return; }
      remote := head.value;
      SinceRead(before, ReadRemote(remote));
      stop, name := SeeBranch(s);
      if stop.Some? { return; }
      Since(before, remote, name);
    }

    /** An uncertain push: reading the remote back decides. */
    method RecoverIntent(r: Request, s: Script) returns (reply: Reply)
      requires Valid() && LastCall(effects) == Some(r)
      requires journal.Some? && journal.value.state.PublishIntent? && Matches(journal.value, r)
      modifies this
      ensures Valid() && old(effects) <= effects
      ensures OnlyReads(effects[|old(effects)|..])
      ensures journal == old(journal) || journal == Some(old(journal).value.(state := Published))
      ensures reply.Returned? ==> (PersistedReply(reply) <==> journal.value.state.Published?)
      ensures reply.Returned? ==> Rereads(old(journal).value, reply, effects[|old(effects)|..])
      ensures Calm(s) ==> world == old(world) && reply == Readback(old(journal).value, r, world)
    {
      var j := journal.value;
      PublishedIsLegal(effects, j, r);
      SealedChild(j);
      var stop, remote, name := SeeRemoteAndBranch(s, r.branch);
      if stop.Some? { return stop.value; }
      if remote == j.candidate.value {
        SinceWrote(old(effects), remote, name, j.(state := Published));
        stop := WriteJournal(j.(state := Published), s);
        reply := if stop.Some? then stop.value else Returned(PersistedOutcome(j, name));
      } else if remote == r.expected {
        reply := Returned(UnpublishedOutcome(PublicationUncertain, j, remote, name, "direct_codex_publication_uncertain"));
      } else {
        reply := Raised("direct_codex_transport_drift");
      }
    }

    /** Open the journal for a validated delta, then either report no change or publish. */
    method OpenAndRun(r: Request, snapshot: string, delta: set<RepoPath>, s: Script) returns (reply: Reply)
      requires Valid() && LastCall(effects) == Some(r) && Validated(effects) == Some(delta)
      requires journal.Some? ==> Matches(journal.value, r) && !Committed(journal)
      modifies this
      ensures Valid() && old(effects) <= effects
      ensures reply.Returned? ==> journal.Some? && Concludes(journal.value, r, reply)
      ensures reply.Returned? ==> (reply.outcome.status.NoChange? <==> delta == {}) && reply.outcome.digest == delta
      ensures PersistedReply(reply) ==> ReadRemote(journal.value.candidate.value) in effects[|old(effects)|..]
      ensures Calm(s) && delta != {} && Ready(old(journal), snapshot, r, delta, old(world), s) ==>
                PersistedReply(reply) && Holds(world.remote, r.branch, journal.value.candidate.value)
    {
      hide Disciplined, LastJournal, LastCall, Validated;
      var stop := Open(r, snapshot, delta, s);
      if stop.Some? { return stop.value; }
      if delta == {} {
        reply := ReportNoChange(r, s);
      } else {
        ghost var middle := effects;
        reply := Proceed(r, snapshot, delta, s);
        if PersistedReply(reply) {
          SuffixGrows(old(effects), middle, effects, ReadRemote(journal.value.candidate.value));
        }
      }
    }

    /** A call on a journal not yet announced. */
    method Execute(r: Request, snapshot: string, s: Script) returns (reply: Reply)
      requires Valid() && LastCall(effects) == Some(r) && !Committed(journal)
      requires journal.Some? ==> Matches(journal.value, r)
      modifies this
      ensures Valid() && old(effects) <= effects
      ensures reply.Returned? ==> journal.Some? && Concludes(journal.value, r, reply)
      ensures reply.Returned? ==> Reports(reply.outcome, s.raw)
      ensures PersistedReply(reply) ==> ReadRemote(journal.value.candidate.value) in effects[|old(effects)|..]
      ensures Calm(s) && Admissible(r, old(world)) && Inspectable(s.raw) && !NothingEligible(s.raw)
              && Ready(old(journal), snapshot, r, Inventory(s.raw).value, old(world), s) ==>
                PersistedReply(reply) && Holds(world.remote, r.branch, journal.value.candidate.value)
    {
      hide Disciplined, LastJournal, LastCall, Validated, Ready, Inventory, Inspectable, NothingEligible, Eligible;
      EmptyInventoryIff(s.raw);
      var stop, delta := Admit(r, s);
      if stop.Some? { return stop.value; }
      ghost var middle := effects;
      reply := OpenAndRun(r, snapshot, delta, s);
      if PersistedReply(reply) {
        SuffixGrows(old(effects), middle, effects, ReadRemote(journal.value.candidate.value));
      }
    }

    /** A call on a journal already announced. */
    method Recover(r: Request, s: Script) returns (reply: Reply)
      requires Valid() && LastCall(effects) == Some(r) && Committed(journal) && Matches(journal.value, r)
      modifies this
      ensures Valid() && old(effects) <= effects && OnlyReads(effects[|old(effects)|..])
      ensures reply.Returned? ==> journal.Some? && Concludes(journal.value, r, reply)
      ensures reply.Returned? ==> Rereads(old(journal).value, reply, effects[|old(effects)|..])
      ensures Calm(s) ==> reply == Readback(old(journal).value, r, old(world))
    {
      if journal.value.state.Published? {
        reply := RecoverPublished(r, s);
      } else {
        reply := RecoverIntent(r, s);
      }
    }

    /** One call, from a fresh process, on whatever journal earlier calls and crashes have left. */
    method Persist(r: Request, s: Script) returns (reply: Reply)
      requires Valid()
      modifies this
      ensures Valid() && old(effects) <= effects
      ensures r.snapshot.None? ==> reply == Raised("direct_codex_snapshot_missing") && journal == old(journal)
      ensures r.snapshot.Some? && old(journal).Some? && !Matches(old(journal).value, r) ==>
                reply == Raised("direct_codex_recovery_journal_identity_mismatch") && journal == old(journal)
      ensures reply.Returned? ==> journal.Some? && Concludes(journal.value, r, reply)
      ensures reply.Returned? && !Committed(old(journal)) ==> Reports(reply.outcome, s.raw)
      ensures PersistedReply(reply) ==> ReadRemote(journal.value.candidate.value) in effects[|old(effects)|..]
      ensures Committed(old(journal)) ==> OnlyReads(effects[|old(effects)|..])
      ensures reply.Returned? && Committed(old(journal)) ==> Rereads(old(journal).value, reply, effects[|old(effects)|..])
      ensures Calm(s) && r.snapshot.Some? && Committed(old(journal)) && Matches(old(journal).value, r) ==>
                reply == Readback(old(journal).value, r, old(world))
      ensures Calm(s) && r.snapshot.Some? && !Committed(old(journal)) && Admissible(r, old(world))
              && Inspectable(s.raw) && !NothingEligible(s.raw)
              && Ready(old(journal), r.snapshot.value.digest, r, Inventory(s.raw).value, old(world), s) ==>
                PersistedReply(reply) && Holds(world.remote, r.branch, journal.value.candidate.value)
    {
      hide Inventory, Inspectable, NothingEligible;
      ghost var before := effects;
      Note(Called(r));
      SuffixOf(before, Called(r), effects);
      if r.snapshot.None? { return Raised("direct_codex_snapshot_missing"); }
      if journal.Some? && !Matches(journal.value, r) {
        return Raised("direct_codex_recovery_journal_identity_mismatch");
      }
      if Committed(journal) {
        reply := Recover(r, s);
      } else {
        reply := Execute(r, r.snapshot.value.digest, s);
      }
      SuffixOf(before, Called(r), effects);
    }

    /** Any number of calls, each with its own request and its own misfortunes. At most one of them ever
        pushes, and all that report persisted report the same evidence but for the checkout they found. */
    method PersistAll(calls: seq<(Request, Script)>) returns (replies: seq<Reply>)
      requires Valid() && effects == []
      modifies this
      ensures Valid() && Pushes(effects) <= 1 && |replies| == |calls|
      ensures forall i | 0 <= i < |replies| && PersistedReply(replies[i]) ::
                journal.Some? && Concludes(journal.value, calls[i].0, replies[i])
      ensures forall i, k | 0 <= i < k < |replies| && PersistedReply(replies[i]) && PersistedReply(replies[k]) ::
                SameEvidence(replies[i].outcome, replies[k].outcome)
    {
      hide Reports, Concludes, SameEvidence, Disciplined, LastJournal, Ready, Inspectable, NothingEligible, JournalInv, Rereads;
      replies := [];
      for n := 0 to |calls|
        invariant Valid() && |replies| == n
        invariant forall i | 0 <= i < n && PersistedReply(replies[i]) ::
                    journal.Some? && Concludes(journal.value, calls[i].0, replies[i])
      {
        ghost var before, was := effects, journal;
        var reply := Persist(calls[n].0, calls[n].1);
        replies := replies + [reply];
        if i: nat :| i < n && PersistedReply(replies[i]) {
          PersistedIsPublished(was.value, calls[i].0, replies[i]);
          PublishedStays(before, effects);
        }
      }
      AtMostOnePush(effects);
      forall i, k | 0 <= i < k < |replies| && PersistedReply(replies[i]) && PersistedReply(replies[k])
        ensures SameEvidence(replies[i].outcome, replies[k].outcome) {
        SameJournalSameEvidence(journal.value, calls[i].0, replies[i], calls[k].0, replies[k]);
      }
    }
  }
}
