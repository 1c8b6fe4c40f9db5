/** Write-ahead spawning: START, lease binding, SPAWNED, and only then the first instruction of the
    child. Every operating-system, store and journal call may fail. */
module SpawnAudit {
  import opened Wrappers
  import opened MutationScope
  import opened MutationScopeLaws
  import opened MutationScopeExact
  import opened MutationScopeStore
  import opened SandboxFaults

  datatype Binding = Binding(request: string, scopeId: ScopeId, generation: nat)

  /** The executable and working directory, case-folded, the requested identities, and the digests of the
      scope and of the protected inventory the operation was admitted under. */
  datatype Intent = Intent(
    executable: string, cwd: string, user: Sid, sandbox: Sid, scopeDigest: string, inventoryDigest: string)

  /** What `begin` returned. The sealed copies stand for the digests taken at START. */
  datatype Start = Start(
    operation: string, binding: Binding, sealedBinding: Binding,
    intent: Intent, sealedIntent: Intent, script: string, sealedScript: string)

  datatype Evidence = Evidence(
    pid: nat, ppid: nat, executable: string, cwd: string, user: Sid, sandbox: Sid, isAppContainer: bool,
    job: string, contained: bool, breakaway: bool)

  /** What the caller read back once the operation was over. */
  datatype FinishClosure = FinishClosure(
    terminal: bool, scopeDigest: string, inventoryDigest: string, jobHandleClosed: bool, activeInJob: nat,
    jobs: set<string>, pids: set<nat>, write: bool, quiescent: bool, terminalizedAt: string)

  const FINISH_STATES := {"succeeded", "failed", "timeout", "cancelled"}

  datatype Line =
    | StartedLine(operation: string, binding: Binding, intent: Intent, script: string)
    | SpawnedLine(operation: string, binding: Binding, evidence: Evidence)
    | FinishedLine(operation: string, binding: Binding, status: string, closure: FinishClosure)

  /** Everything the broker does that matters to the order, durable or not. */
  datatype Effect =
    | Wrote(line: Line)
    | Created(job: string, pid: nat)
    | Bound(job: string, pid: nat)
    | TerminateTried(job: string)
    | JobClosed(job: string)
    | Released(job: string, pid: nat)
    | Resumed(job: string, pid: nat)

  function Lines(effects: seq<Effect>): seq<Line> {
    if effects == [] then [] else
    Lines(effects[..|effects| - 1]) + match effects[|effects| - 1] case Wrote(line) => [line] case _ => []
  }

  // ---------- the order that has to hold ----------

  /** At its resume a child is bound to the lease, unreleased, and its SPAWNED line follows a START
      line of the same operation and binding whose sealed intent it meets. */
  ghost predicate Justified(before: seq<Effect>, job: string, pid: nat) {
    && (exists b :: 0 <= b < |before| && before[b] == Bound(job, pid)
                    && forall k | b < k < |before| :: before[k] != Released(job, pid))
    && (exists i, j :: 0 <= i < j < |before| && before[i].Wrote? && before[j].Wrote?
                       && Announces(before[i].line, before[j].line, job, pid))
  }

  ghost predicate Announces(started: Line, spawned: Line, job: string, pid: nat) {
    && started.StartedLine? && spawned.SpawnedLine?
    && spawned.operation == started.operation && spawned.binding == started.binding
    && spawned.evidence.job == job && spawned.evidence.pid == pid
    && Meets(spawned.evidence, started.intent)
  }

  predicate Meets(e: Evidence, intent: Intent) {
    && e.contained && !e.breakaway && e.isAppContainer
    && e.executable == intent.executable && e.cwd == intent.cwd
    && e.user == intent.user && e.sandbox == intent.sandbox
  }

  /** The scope is terminal, it is the admitted one, and nothing of the operation is left running. */
  predicate Accounts(c: FinishClosure, intent: Intent) {
    && c.terminal && c.scopeDigest == intent.scopeDigest && c.inventoryDigest == intent.inventoryDigest
    && c.jobHandleClosed && c.activeInJob == 0 && c.jobs == {} && c.pids == {} && !c.write && c.quiescent
    && c.terminalizedAt != ""
  }

  /** A FINISHED line follows the START line of its operation and binding and accounts for its intent. */
  ghost predicate Concluded(before: seq<Effect>, finished: Line) {
    finished.FinishedLine? ==>
      exists i :: 0 <= i < |before| && before[i].Wrote? && Finishes(before[i].line, finished)
  }

  ghost predicate Finishes(started: Line, finished: Line) {
    && started.StartedLine? && finished.FinishedLine?
    && finished.operation == started.operation && finished.binding == started.binding
    && Accounts(finished.closure, started.intent)
  }

  ghost predicate Permitted(before: seq<Effect>, e: Effect) {
    match e
    case Resumed(job, pid) => Justified(before, job, pid)
    case Released(job, _) => JobClosed(job) in before
    case Wrote(line) => Concluded(before, line)
    case _ => true
  }

  ghost predicate Ordered(effects: seq<Effect>) {
    effects != [] ==>
      && Ordered(effects[..|effects| - 1])
      && Permitted(effects[..|effects| - 1], effects[|effects| - 1])
  }

  /** In an ordered log everything was permitted by what came before it, and a crash, which leaves a
      prefix, leaves an ordered log. */
  lemma {:induction false} EveryCrashIsOrdered(effects: seq<Effect>, i: nat)
    requires Ordered(effects) && i <= |effects|
    ensures Ordered(effects[..i])
    ensures i < |effects| ==> Permitted(effects[..i], effects[i])
    decreases |effects|
  {
    if i == |effects| {
      assert effects[..i] == effects;
    } else {
      var front := effects[..|effects| - 1];
      EveryCrashIsOrdered(front, i);
      assert front[..i] == effects[..i];
    }
  }

  /** Evidence that meets an intent agrees with it in everything the intent names, inside the sandbox and the
      job; only the job and the process numbers are its own. */
  lemma MeetsIff(e: Evidence, intent: Intent)
    ensures Meets(e, intent)
       <==> e == Evidence(e.pid, e.ppid, intent.executable, intent.cwd, intent.user, intent.sandbox, true, e.job, true, false)
  {
  }

  /** A closure that accounts for an intent leaves nothing open; only the time of its end is its own. */
  lemma AccountsIff(c: FinishClosure, intent: Intent)
    ensures Accounts(c, intent)
       <==> c.terminalizedAt != ""
            && c == FinishClosure(true, intent.scopeDigest, intent.inventoryDigest, true, 0, {}, {}, false, true,
                                  c.terminalizedAt)
  {
  }

  /** Behind every resume, in this order: the START line of its operation, a SPAWNED line of the same operation
      and binding for this very job and process, as the START line intends it; and a lease binding that was not
      released since. */
  lemma ResumedWasAnnounced(effects: seq<Effect>, k: nat) returns (i: nat, j: nat, b: nat)
    requires Ordered(effects) && k < |effects| && effects[k].Resumed?
    ensures i < j < k && effects[i].Wrote? && effects[i].line.StartedLine?
    ensures effects[j].Wrote? && effects[j].line.SpawnedLine?
    ensures var started, spawned := effects[i].line, effects[j].line;
            && spawned == SpawnedLine(started.operation, started.binding, spawned.evidence)
            && spawned.evidence.job == effects[k].job && spawned.evidence.pid == effects[k].pid
            && Meets(spawned.evidence, started.intent)
    ensures b < k && effects[b] == Bound(effects[k].job, effects[k].pid)
    ensures forall m | b < m < k :: effects[m] != Released(effects[k].job, effects[k].pid)
  {
    hide Ordered, Meets;
    var job, pid := effects[k].job, effects[k].pid;
    EveryCrashIsOrdered(effects, k);
    assert Justified(effects[..k], job, pid);
    i, j :| 0 <= i < j < k && effects[..k][i].Wrote? && effects[..k][j].Wrote?
            && Announces(effects[..k][i].line, effects[..k][j].line, job, pid);
    b :| 0 <= b < k && effects[..k][b] == Bound(job, pid)
         && forall m | b < m < k :: effects[..k][m] != Released(job, pid);
    assert forall m | b < m < k :: effects[m] == effects[..k][m];
  }

  /** Behind every release a closed job, and behind every FINISHED line the START line of its operation and
      binding, whose intent its closure accounts for. */
  lemma EndedInOrder(effects: seq<Effect>, k: nat)
    requires Ordered(effects) && k < |effects|
    ensures effects[k].Released? ==> exists i :: 0 <= i < k && effects[i] == JobClosed(effects[k].job)
    ensures effects[k].Wrote? && effects[k].line.FinishedLine? ==>
              exists i :: 0 <= i < k && effects[i].Wrote? && effects[i].line.StartedLine?
                && effects[i].line.operation == effects[k].line.operation
                && effects[i].line.binding == effects[k].line.binding
                && Accounts(effects[k].line.closure, effects[i].line.intent)
  {
    hide Ordered, Accounts;
    EveryCrashIsOrdered(effects, k);
    assert Permitted(effects[..k], effects[k]);
    if effects[k].Wrote? && effects[k].line.FinishedLine? {
      var i :| 0 <= i < k && effects[..k][i].Wrote? && Finishes(effects[..k][i].line, effects[k].line);
      assert effects[i] == effects[..k][i];
    }
    if effects[k].Released? {
      var i :| 0 <= i < k && effects[..k][i] == JobClosed(effects[k].job);
      assert effects[i] == effects[..k][i];
    }
  }

  /** No child was resumed between the two logs. */
  ghost predicate Quiet(before: seq<Effect>, after: seq<Effect>) {
    before <= after && forall k | |before| <= k < |after| :: !after[k].Resumed?
  }

  /** An attempt to end the child of `job`: a termination, or closing its kill-on-close job. */
  ghost predicate Ended(before: seq<Effect>, after: seq<Effect>, job: string) {
    exists k :: |before| <= k < |after| && (after[k] == TerminateTried(job) || after[k] == JobClosed(job))
  }

  /** Directly after the recording, written or not, comes an attempt to terminate the child. */
  ghost predicate EndsAtOnce(before: seq<Effect>, after: seq<Effect>, line: Line, job: string) {
    before + [TerminateTried(job)] <= after || before + [Wrote(line), TerminateTried(job)] <= after
  }

  lemma EndedGrows(start: seq<Effect>, before: seq<Effect>, middle: seq<Effect>, after: seq<Effect>, job: string)
    requires start <= before <= middle <= after && (Ended(before, middle, job) || Ended(middle, after, job))
    ensures Ended(start, after, job)
  {
    var k :| |before| <= k < |after| && (after[k] == TerminateTried(job) || after[k] == JobClosed(job));
  }

  lemma OrderedAppended(effects: seq<Effect>, e: Effect)
    requires Ordered(effects) && Permitted(effects, e)
    ensures Ordered(effects + [e])
  {
    assert (effects + [e])[..|effects|] == effects;
  }

  lemma LinesAppended(effects: seq<Effect>, e: Effect)
    ensures Lines(effects + [e]) == Lines(effects) + match e case Wrote(line) => [line] case _ => []
  {
    assert (effects + [e])[..|effects|] == effects;
  }

  lemma {:induction false} LineWasWritten(effects: seq<Effect>, line: Line)
    requires line in Lines(effects)
    ensures Wrote(line) in effects
  {
    var n := |effects| - 1;
    if line in Lines(effects[..n]) {
      LineWasWritten(effects[..n], line);
    }
  }

  // ---------- the broker ----------

  datatype EndFaults = EndFaults(terminateFails: bool, queryFails: bool, closeTerminateFails: bool, release: StoreFault)

  datatype SpawnFaults = SpawnFaults(
    admissionFails: bool, probeFails: bool, notContained: bool, bind: StoreFault, evidenceFails: bool,
    append: StoreFault, scriptNow: string, resumeFails: bool, firstEnd: EndFaults, secondEnd: EndFaults)

  datatype SpawnOutcome = NotCreated | Aborted | Running

  // ---------- what each call makes of its faults ----------

  /** START evidence is unchanged, and the suspended child meets the intent sealed in it. */
  predicate Acceptable(start: Start, e: Evidence, scriptNow: string) {
    && start.binding == start.sealedBinding && scriptNow == start.sealedScript && start.intent == start.sealedIntent
    && e.pid != 0 && e.ppid != 0 && e.job != "" && Meets(e, start.sealedIntent)
  }

  predicate Closes(active: bool, f: EndFaults) {
    !f.queryFails && (active ==> !f.closeTerminateFails)
  }

  /** The recording half succeeds and the child's first instruction may run. */
  predicate Commits(start: Start, e: Evidence, f: SpawnFaults) {
    f.append.Fine? && Acceptable(start, e, f.scriptNow) && !f.resumeFails
  }

  /** Exactly the spawns whose child runs. */
  predicate Runs(s: Authority, id: ScopeId, generation: nat, sid: Sid, start: Start, e: Evidence, f: SpawnFaults) {
    && !f.admissionFails && !f.probeFails && !f.notContained
    && f.bind.Fine? && Bindable(s, id, generation, sid, e.job, e.pid)
    && !f.evidenceFails && Commits(start, e, f)
  }

  /** Neither the job nor the pid is recorded any more. */
  predicate Unbound(s: Authority, id: ScopeId, job: string, pid: nat) {
    id in s.scopes && job !in s.scopes[id].jobs && pid !in s.scopes[id].pids
  }

  class ManagedProcess {
    const job: string
    const pid: nat
    var closed: bool
    var released: bool

    constructor (job: string, pid: nat)
      ensures this.job == job && this.pid == pid && !closed && !released
    {
      this.job, this.pid, closed, released := job, pid, false, false;
    }
  }

  class SpawnBroker {
    const store: Store
    var journal: seq<Line>
    ghost var effects: seq<Effect>

    ghost predicate Valid()
      reads this, store
    {
      store.Valid() && Lines(effects) == journal && Ordered(effects)
    }

    ghost predicate Owns(p: ManagedProcess)
      reads this, p
    {
      (p.closed ==> JobClosed(p.job) in effects) && (p.released ==> p.closed)
    }

    constructor (store: Store)
      requires store.Valid()
      ensures Valid() && journal == [] && effects == [] && this.store == store
    {
      this.store, journal, effects := store, [], [];
    }

    ghost method Note(e: Effect)
      requires Valid() && !e.Wrote? && Permitted(effects, e)
      modifies this`effects
      ensures Valid() && effects == old(effects) + [e]
    {
      OrderedAppended(effects, e);
      LinesAppended(effects, e);
      effects := effects + [e];
    }

    /** A journal line is durable once it is written, even if the append then raises. */
    method Append(line: Line, f: StoreFault) returns (ok: bool)
      requires Valid() && Concluded(effects, line)
      modifies this`journal, this`effects
      ensures Valid() && (ok <==> f.Fine?)
      ensures f.LostBefore? ==> journal == old(journal) && effects == old(effects)
      ensures !f.LostBefore? ==> journal == old(journal) + [line] && effects == old(effects) + [Wrote(line)]
    {
      if f.LostBefore? {
        return false;
      }
      OrderedAppended(effects, Wrote(line));
      LinesAppended(effects, Wrote(line));
      journal := journal + [line];
      effects := effects + [Wrote(line)];
      ok := f.Fine?;
    }

    method Begin(operation: string, binding: Binding, intent: Intent, script: string, f: StoreFault) returns (start: Option<Start>)
      requires Valid()
      modifies this`journal, this`effects
      ensures Valid() && (start.Some? <==> f.Fine?)
      ensures effects == old(effects) + if f.LostBefore? then [] else [Wrote(StartedLine(operation, binding, intent, script))]
      ensures start.Some? ==> StartedLine(operation, binding, intent, script) in journal
                              && start.value == Start(operation, binding, binding, intent, intent, script, script)
    {
      var ok := Append(StartedLine(operation, binding, intent, script), f);
      start := if ok then Some(Start(operation, binding, binding, intent, intent, script, script)) else None;
    }

    /** The SPAWNED line is written only for evidence that meets the sealed START. */
    method RecordSpawn(start: Start, e: Evidence, scriptNow: string, f: StoreFault) returns (ok: bool)
      requires Valid()
      modifies this`journal, this`effects
      ensures Valid()
      ensures ok <==> f.Fine? && Acceptable(start, e, scriptNow)
      ensures ok ==> start.binding == start.sealedBinding && start.intent == start.sealedIntent
                     && scriptNow == start.sealedScript && e.pid != 0 && e.ppid != 0 && e.job != ""
      ensures effects == old(effects) + if Acceptable(start, e, scriptNow) && !f.LostBefore?
                                        then [Wrote(SpawnedLine(start.operation, start.sealedBinding, e))] else []
    {
      if start.binding != start.sealedBinding || scriptNow != start.sealedScript || start.intent != start.sealedIntent {
        return false;
      }
      if e.pid == 0 || e.ppid == 0 || e.job == "" || !Meets(e, start.intent) {
        return false;
      }
      ok := Append(SpawnedLine(start.operation, start.sealedBinding, e), f);
    }

    /** The FINISHED line is written only for a closure that accounts for the sealed START. */
    method Finish(start: Start, status: string, closure: FinishClosure, scriptNow: string, f: StoreFault) returns (ok: bool)
      requires Valid()
      requires StartedLine(start.operation, start.sealedBinding, start.sealedIntent, start.sealedScript) in journal
      modifies this`journal, this`effects
      ensures Valid()
      ensures ok ==> effects == old(effects) + [Wrote(FinishedLine(start.operation, start.sealedBinding, status, closure))]
      ensures ok <==> f.Fine? && scriptNow == start.sealedScript && start.binding == start.sealedBinding
                      && start.intent == start.sealedIntent && status in FINISH_STATES && Accounts(closure, start.sealedIntent)
      ensures !Accounts(closure, start.intent) || scriptNow != start.sealedScript ==> journal == old(journal)
    {
      if start.binding != start.sealedBinding || scriptNow != start.sealedScript || start.intent != start.sealedIntent {
        return false;
      }
      if status !in FINISH_STATES || !Accounts(closure, start.intent) {
        return false;
      }
      FinishIsConcluded(effects, start, status, closure);
      ok := Append(FinishedLine(start.operation, start.sealedBinding, status, closure), f);
    }

    // ---------- ending a process ----------

    method Close(p: ManagedProcess, active: bool, f: EndFaults) returns (ok: bool)
      requires Valid() && Owns(p)
      modifies this`effects, p
      ensures Valid() && Owns(p) && p.closed && p.released == old(p.released)
      ensures ok <==> old(p.closed) || Closes(active, f)
      ensures ok && !old(p.closed) ==> !f.queryFails && (active ==> !f.closeTerminateFails)
      ensures Quiet(old(effects), effects) && (!old(p.closed) ==> Ended(old(effects), effects, p.job))
    {
      if p.closed {
        return true;
      }
      ok := true;
      if f.queryFails {
        ok := false;
      } else if active {
        Note(TerminateTried(p.job));
        ok := !f.closeTerminateFails;
      }
      Note(JobClosed(p.job));
      p.closed := true;
    }

    /** The lease binding is released only once the job is closed. */
    method Release(id: ScopeId, generation: nat, p: ManagedProcess, active: bool, f: EndFaults) returns (ok: bool)
      requires Valid() && Owns(p)
      modifies this`effects, p, store
      ensures Valid() && Owns(p) && Quiet(old(effects), effects)
      ensures !old(p.released) ==> p.closed
      ensures var closes := old(p.closed) || Closes(active, f);
              && store.durable == (if !old(p.released) && closes && !f.release.LostBefore?
                                   then ReleaseProcess(old(store.durable), id, generation, p.job, p.pid).0
                                   else old(store.durable))
              && (ok <==> old(p.released) || (closes && f.release.Fine? && Names(old(store.durable), id, generation)))
      ensures p.released <==> ok
      ensures ok && !old(p.released) ==> Unbound(store.durable, id, p.job, p.pid)
    {
      hide Good, Ordered, ReleaseProcess, Closes;
      if p.released {
        return true;
      }
      ok := Close(p, active, f);
      if !ok {
        return;
      }
      if f.release.LostBefore? {
        return false;
      }
      ReleaseIff(store.durable, id, generation, p.job, p.pid);
      var reply := store.ReleaseRuntimeProcess(id, generation, p.job, p.pid);
      if reply.Ok? {
        Note(Released(p.job, p.pid));
      }
      ok := reply.Ok? && f.release.Fine?;
      p.released := ok;
    }

    /** Terminates a suspended or running child and then releases it. */
    method TerminateAndRelease(id: ScopeId, generation: nat, p: ManagedProcess, f: EndFaults) returns (ok: bool)
      requires Valid() && Owns(p)
      modifies this`effects, p, store
      ensures Valid() && Owns(p) && Quiet(old(effects), effects)
      ensures !old(p.closed) ==> Ended(old(effects), effects, p.job)
      ensures !old(p.closed) ==> |old(effects)| < |effects| && effects[|old(effects)|] == TerminateTried(p.job)
      ensures ok <==> (old(p.closed) || !f.terminateFails)
                      && (old(p.released)
                          || (f.release.Fine? && (old(p.closed) || Closes(false, f))
                              && Names(old(store.durable), id, generation)))
      ensures ok && !old(p.released) ==> Unbound(store.durable, id, p.job, p.pid)
    {
      if !p.closed {
        Note(TerminateTried(p.job));
        if f.terminateFails {
          return false;
        }
      }
      ok := Release(id, generation, p, false, f);
    }

    /** A finished or terminated child gives its binding back. */
    method Wait(id: ScopeId, generation: nat, p: ManagedProcess, done: bool, f: EndFaults) returns (released: bool)
      requires Valid() && Owns(p)
      modifies this`effects, p, store
      ensures Valid() && Owns(p) && old(effects) <= effects
      ensures released <==>
                done && (old(p.released)
                         || (f.release.Fine? && (old(p.closed) || Closes(false, f))
                             && Names(old(store.durable), id, generation)))
      ensures released && !old(p.released) ==> Unbound(store.durable, id, p.job, p.pid)
    {
      hide Good, Ordered, ReleaseProcess, Closes;
      released := false;
      if done {
        released := Release(id, generation, p, false, f);
      }
    }

    // ---------- spawning ----------

    /** Records SPAWNED and only then resumes; a recording failure ends the child first. */
    method CommitSpawnBeforeResume(id: ScopeId, generation: nat, start: Start, e: Evidence, p: ManagedProcess, f: SpawnFaults)
      returns (ok: bool)
      requires Valid() && Owns(p) && !p.closed && e.job == p.job && e.pid == p.pid
      requires StartedLine(start.operation, start.sealedBinding, start.sealedIntent, start.sealedScript) in journal
      requires effects != [] && effects[|effects| - 1] == Bound(p.job, p.pid)
      modifies this`journal, this`effects, p, store
      ensures Valid() && Owns(p)
      ensures ok ==> effects == old(effects) + [Wrote(SpawnedLine(start.operation, start.sealedBinding, e)),
                                                Resumed(p.job, p.pid)]
      ensures ok ==> store.durable == old(store.durable)
      ensures ok <==> Commits(start, e, f)
      ensures ok ==> f.append.Fine? && !f.resumeFails
      ensures !ok ==> Quiet(old(effects), effects) && (!p.closed || Ended(old(effects), effects, p.job))
      ensures !f.append.Fine? || !Acceptable(start, e, f.scriptNow) ==>
                EndsAtOnce(old(effects), effects, SpawnedLine(start.operation, start.sealedBinding, e), p.job)
    {
      hide Good, Ordered, ReleaseProcess, Closes, Unbound, Meets;
      ghost var before := effects;
      LineWasWritten(before, StartedLine(start.operation, start.sealedBinding, start.sealedIntent, start.sealedScript));
      ok := RecordSpawn(start, e, f.scriptNow, f.append);
      if !ok {
        var _ := TerminateAndRelease(id, generation, p, f.firstEnd);
        return;
      }
      if f.resumeFails {
        return false;
      }
      ResumeIsJustified(before, start, e);
      Note(Resumed(p.job, p.pid));
    }

    method Bind(id: ScopeId, generation: nat, sid: Sid, p: ManagedProcess, f: StoreFault) returns (ok: bool)
      requires Valid()
      modifies this`effects, store
      ensures Valid() && Quiet(old(effects), effects)
      ensures ok <==> f.Fine? && Bindable(old(store.durable), id, generation, sid, p.job, p.pid)
      ensures ok ==> effects == old(effects) + [Bound(p.job, p.pid)] && id in store.durable.scopes
                     && p.job in store.durable.scopes[id].jobs && p.pid in store.durable.scopes[id].pids
    {
      hide Good, Ordered, BindProcess;
      if f.LostBefore? {
        return false;
      }
      BindIff(store.durable, id, generation, sid, p.job, p.pid);
      var reply := store.BindRuntimeProcess(id, generation, sid, p.job, p.pid);
      if reply.Ok? {
        Note(Bound(p.job, p.pid));
      }
      ok := reply.Ok? && f.Fine?;
    }

    /** Creates suspended, binds, records, resumes. A failure after creation and before the resume is
        followed by an attempt to end the child exactly unless the containment probe itself raised. */
    method Spawn(id: ScopeId, generation: nat, sid: Sid, start: Start, e: Evidence, f: SpawnFaults)
      returns (outcome: SpawnOutcome, p: ManagedProcess?)
      requires Valid()
      requires StartedLine(start.operation, start.sealedBinding, start.sealedIntent, start.sealedScript) in journal
      modifies this`journal, this`effects, store
      ensures Valid()
      ensures outcome == NotCreated <==> f.admissionFails
      ensures outcome == Running <==> Runs(old(store.durable), id, generation, sid, start, e, f)
      ensures outcome == NotCreated ==> p == null && effects == old(effects)
      ensures outcome != NotCreated ==> p != null && Owns(p) && old(effects) + [Created(e.job, e.pid)] <= effects
      ensures outcome == Running ==>
                && effects == old(effects) + [Created(e.job, e.pid), Bound(e.job, e.pid),
                                              Wrote(SpawnedLine(start.operation, start.sealedBinding, e)),
                                              Resumed(e.job, e.pid)]
                && id in store.durable.scopes
                && e.job in store.durable.scopes[id].jobs && e.pid in store.durable.scopes[id].pids
      ensures f.probeFails && !f.admissionFails ==> outcome == Aborted
      ensures outcome == Aborted ==> Quiet(old(effects), effects)
      ensures outcome == Aborted ==> (Ended(old(effects), effects, e.job) <==> !f.probeFails)
    {
      hide Good, Ordered, BindProcess, Commits, Acceptable;
      p := null;
      if f.admissionFails {
        return NotCreated, null;
      }
      var child := new ManagedProcess(e.job, e.pid);
      Note(Created(e.job, e.pid));
      if f.probeFails {
        return Aborted, child;
      }
      if f.notContained {
        var _ := Close(child, true, f.firstEnd);
        return Aborted, child;
      }
      var resumed := BindAndCommit(id, generation, sid, start, e, child, f);
      return if resumed then Running else Aborted, child;
    }

    /** A contained child is resumed under its durable binding, or its end is attempted. */
    method BindAndCommit(id: ScopeId, generation: nat, sid: Sid, start: Start, e: Evidence, p: ManagedProcess, f: SpawnFaults)
      returns (resumed: bool)
      requires Valid() && Owns(p) && !p.closed && e.job == p.job && e.pid == p.pid
      requires StartedLine(start.operation, start.sealedBinding, start.sealedIntent, start.sealedScript) in journal
      modifies this`journal, this`effects, p, store
      ensures Valid() && Owns(p)
      ensures resumed ==>
                && effects == old(effects) + [Bound(p.job, p.pid),
                                              Wrote(SpawnedLine(start.operation, start.sealedBinding, e)),
                                              Resumed(p.job, p.pid)]
                && id in store.durable.scopes
                && p.job in store.durable.scopes[id].jobs && p.pid in store.durable.scopes[id].pids
      ensures resumed <==> f.bind.Fine? && Bindable(old(store.durable), id, generation, sid, p.job, p.pid)
                           && !f.evidenceFails && Commits(start, e, f)
      ensures !resumed ==> Quiet(old(effects), effects) && Ended(old(effects), effects, p.job)
    {
      hide Good, Ordered, BindProcess, ReleaseProcess, Commits, Closes, Acceptable;
      var bound := Bind(id, generation, sid, p, f.bind);
      if !bound {
        var _ := Close(p, true, f.firstEnd);
        return false;
      }
      ghost var before := effects;
      if !f.evidenceFails {
        resumed := CommitSpawnBeforeResume(id, generation, start, e, p, f);
        if resumed {
          return;
        }
      }
      ghost var middle := effects;
      if !p.released {
        var _ := TerminateAndRelease(id, generation, p, f.secondEnd);
      }
      EndedGrows(old(effects), before, middle, effects, p.job);
      resumed := false;
    }
  }

  lemma FinishIsConcluded(before: seq<Effect>, start: Start, status: string, closure: FinishClosure)
    requires StartedLine(start.operation, start.sealedBinding, start.sealedIntent, start.sealedScript) in Lines(before)
    requires Accounts(closure, start.sealedIntent)
    ensures Concluded(before, FinishedLine(start.operation, start.sealedBinding, status, closure))
  {
    var started := StartedLine(start.operation, start.sealedBinding, start.sealedIntent, start.sealedScript);
    LineWasWritten(before, started);
    var i :| 0 <= i < |before| && before[i] == Wrote(started);
    assert Finishes(before[i].line, FinishedLine(start.operation, start.sealedBinding, status, closure));
  }

  lemma ResumeIsJustified(before: seq<Effect>, start: Start, e: Evidence)
    requires before != [] && before[|before| - 1] == Bound(e.job, e.pid) && Meets(e, start.sealedIntent)
    requires Wrote(StartedLine(start.operation, start.sealedBinding, start.sealedIntent, start.sealedScript)) in before
    ensures Justified(before + [Wrote(SpawnedLine(start.operation, start.sealedBinding, e))], e.job, e.pid)
  {
    var after := before + [Wrote(SpawnedLine(start.operation, start.sealedBinding, e))];
    var b := |before| - 1;
    assert after[b] == Bound(e.job, e.pid);
    var started := Wrote(StartedLine(start.operation, start.sealedBinding, start.sealedIntent, start.sealedScript));
    var i :| 0 <= i < |before| && before[i] == started;
    assert after[i] == started && Announces(after[i].line, after[b + 1].line, e.job, e.pid);
  }
}
