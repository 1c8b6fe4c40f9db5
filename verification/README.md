# SentinelX core: verified models of its crash-prone protocols

This project models the parts of the SentinelX agent that have to stay right while processes die,
operating-system calls fail half way and other parties move things underneath:

- **The mutation-scope lease protocol.** `Placement` derives where a future workspace lies and under which
  generation of the host policy. `MutationScope` states every locked load-mutate-write transaction of the
  scope store as a function on its durable state, `MutationScopeStore` is the store object whose methods
  carry those transactions out; `MutationScopeLaws`, `MutationScopeRuns`, `MutationScopeExact` and
  `MutationScopeUndo` prove what each of them keeps, what holds over every run, exactly which calls are
  accepted and what those change, and what one call undoes.
- **Sandbox grants.** `SandboxProtocol` is the step relation between durable markers and access-list
  entries of sandbox identities, which derive from leases; `SandboxFaults` says what each fault means for the
  call it hits; `Sandbox` is the broker object that activates, grants, rolls back and cleans up, with a fault
  script deciding which call fails and where; `SandboxExample` is one concrete run.
- **Write-ahead spawning.** `SpawnAudit` orders START, lease binding, SPAWNED, resume, release and FINISHED.
- **Direct-Codex persistence.** `PersistenceJournal` says which effect may follow which and what every such
  history guarantees; `Persistence` is the object that performs one call after another while others move
  the remote, the local refs and the checkout before any step, any command fails, or the process dies.
- **Four smaller pieces.** `LocalAudit` (trimmed log and backward block reader), `SegmentCheck` (quote-aware
  splitter), `FileExport` (chunks and an in-order digest), `OperationRegistry` (effect inventories against
  payload classifiers).

A digest is modelled by the value it digests, so equal digests mean equal values; the exceptions are the
16-character prefixes that name workspace directories, which are arbitrary functions and may collide. A git
commit is its own identifier. Clocks, random tokens, host answers and every failure are parameters.

## Where the code does not keep what it sets out to keep

- *Runtime-root markers.* A grant can be refused before the access-list tool runs (path checks, or a tool
  that cannot be launched; `windows_mutation_sandbox.py:788-818`), and `activate` then clears the root's
  marker without a removal read-back (`windows_mutation_sandbox.py:1476-1495`). If the root already carries
  the identity, from an earlier activation or because two configured roots differ only in case, the entry
  stays with no marker. `Sandbox.Broker.Activate` proves that this is the only way: from a sane start every
  crash point is covered exactly unless the activation is `Doomed`. `SandboxFaults.NeverDoomedIff` says what a
  caller can check beforehand: no fault whatever dooms an activation exactly when its roots are distinct and
  none of them carries the identity yet. `SandboxExample.ReactivationLeavesResidue` is a run that ends with a
  terminal scope whose identity still holds a root.
- *Failure before resume.* If reading the containment of a new suspended child raises
  (`windows_mutation_sandbox.py:1747`, outside any handler), nothing tries to end the child.
  `SpawnAudit.SpawnBroker.Spawn` proves that an aborted spawn is followed by an attempt to end the child if
  and only if that read did not raise; `SpawnExample.ProbeFailureLeavesChild` is such a spawn.
- *Policy drift.* Two transactions observe a new policy and forget it when they are then refused: a
  provisioning call whose workspace is sealed to another lease (`mutation_scope.py:663-673`) or whose placement
  fails, and a terminalizing call whose sealed binding is not accepted, for example because the scope is
  already terminal (`mutation_scope.py:1172-1179`). `MutationScopeRuns.DriftRecordedIff` and
  `MutationScopeRuns.TerminalizeRecordsDriftIff` give the exact conditions, `DriftExample` a reachable store
  for each.
- *Provisioning again* is idempotent only until the scope expires (`MutationScopeUndo.ProvisionRepeatsIff`),
  and releasing a process undoes its binding only if neither its job nor its pid was bound before
  (`MutationScopeUndo.ReleaseUndoesBindIff`).
- *Effect registry.* Readiness says nothing about a built-in action that a provider resolves to an uncontained
  mutation but does not list; `OperationRegistry.ReadySurfaceIsSafe` shows that nothing else escapes, and
  `OperationRegistry.UnlistedMutationExists` that this does.

## Model

| member | source | states |
|---|---|---|
| Placement.Generation.Evolve | src/sentinelx_core/mutation_placement.py:103-109 | the stored policy is replaced by the observed one and the number grows by one exactly when they differ |
| Placement.Resolve | src/sentinelx_core/mutation_placement.py:164-208 | a placement is derived exactly under an enabled policy with a workspace root, for a complete lineage whose destination stays strictly under that root; it carries that destination, both directory names, the observed policy, the evolved generation and the protected inventory |
| Placement.SameDigestIff | src/sentinelx_core/mutation_placement.py:135-145 | two policies have one digest exactly when they resolve to the same workspace root and, in any order, the same protected and runtime roots, and agree on both runtime settings |
| Placement.ProtectedIff | src/sentinelx_core/mutation_placement.py:148-161 | the inventory holds exactly the declared and provider roots, the workspace root and its parent |
| Placement.SameLeaseIff | src/sentinelx_core/mutation_placement.py:242-274 | two leases are one exactly for the same repository, run, Attempt, slice, generation and workspace |
| Placement.Revalidate | src/sentinelx_core/mutation_placement.py:211-239 | only the sealed placement itself can come out, and only under its own policy, repository and lineage |
| MutationScopeLaws.StepKeeps | src/sentinelx_core/mutation_scope.py:564-1274 | every transaction keeps the one-to-one indexes, the generation bound and the residual-authority invariant, moves records only forward, keeps markers unless it clears them, and raises no index or competing-scope assertion |
| MutationScopeLaws.ReachableGood | src/sentinelx_core/mutation_scope.py:350-414 | every state reachable from the empty store satisfies the whole invariant |
| MutationScopeLaws.OneHolder | src/sentinelx_core/mutation_scope.py:448-477 | two scopes that share a lease, a workspace or an Attempt are the same scope, even when derived workspaces collide |
| MutationScopeLaws.IndexChecksPass | src/sentinelx_core/mutation_scope.py:448-477 | under the invariant the index binding and competing-scope assertions never raise |
| MutationScopeLaws.IndexedOnce | src/sentinelx_core/mutation_scope.py:448-463 | in any state whatever, no lease, Attempt or workspace passes the index assertion for two different scopes |
| MutationScopeLaws.RunKeeps | src/sentinelx_core/mutation_scope.py:341-1274 | over every run the invariant survives, every record moves forward and the generation never falls |
| MutationScopeRuns.ReachableOneHolder | src/sentinelx_core/mutation_scope.py:609-717 | in every reachable state at most one scope holds any lease, workspace or Attempt |
| MutationScopeRuns.RevalidateIff | src/sentinelx_core/mutation_scope.py:485-562 | revalidation succeeds exactly for a live, unexpired scope whose placement derives again under the stored generation, and then changes nothing |
| MutationScopeRuns.GenerationNeverReturns | src/sentinelx_core/mutation_scope.py:422-446 | once the generation has moved past a scope, no later revalidation succeeds, whatever policy returns |
| MutationScopeRuns.StoredGenerationRises | src/sentinelx_core/mutation_scope.py:422-446 | the stored generation never decreases and keeps its policy while it stands still |
| MutationScopeRuns.DriftRecordedIff | src/sentinelx_core/mutation_scope.py:609-717 | exactly when a provisioning call records a policy drift it has observed |
| MutationScopeRuns.TerminalizeRecordsDriftIff | src/sentinelx_core/mutation_scope.py:1110-1179 | exactly when a terminalizing call records a policy drift it has observed |
| DriftExample.ProvisionForgetsDrift | src/sentinelx_core/mutation_scope.py:663-673 | a reachable store on which a provisioning call is refused for a sealed workspace and forgets the new policy |
| DriftExample.TerminalizeForgetsDrift | src/sentinelx_core/mutation_scope.py:1172-1179 | a reachable store on which terminalizing a terminal scope is refused and forgets the new policy |
| MutationScopeRuns.AttemptMintsOnce | src/sentinelx_core/mutation_scope.py:609-652 | over every run one Attempt mints at most one scope, and none once it has one |
| MutationScopeRuns.RecordsMoveForward | src/sentinelx_core/mutation_scope.py:207-236 | over every run the lifecycle rank never falls, the sealed payload and a set identity never change, terminal records are final |
| MutationScopeRuns.RevokedOnlyShrinks | src/sentinelx_core/mutation_scope.py:791-1085 | once a scope is expired, revoked or terminal, no run adds authority to it |
| MutationScopeRuns.CleanupSawEverything | src/sentinelx_core/mutation_scope.py:1142-1274 | whatever interleaves between the two locked phases, the record that commits holds no authority beyond the one handed to cleanup, and the commit is terminal and empty |
| MutationScopeRuns.TerminalOnce | src/sentinelx_core/mutation_scope.py:1142-1274 | however many terminalizations interleave, at most one ever commits terminal |
| MutationScopeExact.ProvisionIff | src/sentinelx_core/mutation_scope.py:564-723 | exactly when a scope is given out, and what for: the Attempt's own scope unchanged, or a new idle one, sealed to its placement and expiring after the policy's time to live, entered into the scopes and all three indexes |
| MutationScopeExact.RefusedProvisionWrites | src/sentinelx_core/mutation_scope.py:609-673 | a refused provisioning writes at most the policy it observed and the expiry of the Attempt's own scope |
| MutationScopeExact.OverlapsIff | src/sentinelx_core/mutation_scope.py:598-608 | the authority store and a workspace overlap exactly when some path lies under both |
| MutationScopeExact.OperationIff | src/sentinelx_core/mutation_scope.py:760-789 | an operation class is admitted exactly for an admissible claim on a scope minted for that class, and nothing changes |
| MutationScopeExact.RevalidateWrites | src/sentinelx_core/mutation_scope.py:485-562 | a revalidation writes the expiry of a scope whose time is over, the observed policy of a live one, and nothing else |
| MutationScopeExact.ReserveIdentityIff | src/sentinelx_core/mutation_scope.py:791-831 | an identity is recorded with write authority exactly on a live scope that has no other identity |
| MutationScopeExact.BindIff | src/sentinelx_core/mutation_scope.py:833-862 | a process is bound exactly on a live, writable scope of exactly that identity, and adds its job and pid |
| MutationScopeExact.ReleaseIff | src/sentinelx_core/mutation_scope.py:864-885 | a process is released exactly from a scope of that name, whatever its state |
| MutationScopeExact.ReserveRootIff | src/sentinelx_core/mutation_scope.py:887-931 | a root is marked exactly on an active, writable scope of that identity, once, whatever its case |
| MutationScopeExact.ClearRootIff | src/sentinelx_core/mutation_scope.py:933-973 | exactly the spellings of one root are cleared, on a scope of that identity that is not terminal |
| MutationScopeExact.ReserveSessionIff | src/sentinelx_core/mutation_scope.py:975-1011 | a Session-0 binding is recorded exactly on an active, writable scope that holds no other one |
| MutationScopeExact.ClearSessionIff | src/sentinelx_core/mutation_scope.py:1013-1048 | exactly the recorded binding is cleared, on a scope of that identity that is not terminal |
| MutationScopeExact.ClearWriteIff | src/sentinelx_core/mutation_scope.py:1050-1071 | write authority is cleared exactly by its identity once no job or pid is left |
| MutationScopeExact.RevokeIff | src/sentinelx_core/mutation_scope.py:1073-1085 | every named scope that is not terminal becomes revoked, and a terminal one is handed out as it is |
| MutationScopeExact.BeginIff | src/sentinelx_core/mutation_scope.py:1142-1195 | the first phase accepts exactly an unfinished scope under its own binding: terminal at once without authority, else revoked for cleanup, else refused with the record left as it was |
| MutationScopeExact.CommitIff | src/sentinelx_core/mutation_scope.py:1196-1274 | the second phase ends exactly a scope that is still revoked under the seal handed to cleanup, on an empty closure for its identity |
| MutationScopeUndo.ReleaseUndoesBindIff | src/sentinelx_core/mutation_scope.py:833-885 | releasing a process restores the state before its binding exactly when its job and pid were both new |
| MutationScopeUndo.ClearUndoesReserveRootIff | src/sentinelx_core/mutation_scope.py:887-973 | clearing a root restores the state before its reservation exactly when no spelling of it was marked |
| MutationScopeUndo.ClearUndoesReserveSessionIff | src/sentinelx_core/mutation_scope.py:975-1048 | clearing a Session-0 binding restores the state before its reservation exactly when none was recorded |
| MutationScopeUndo.OthersUntouched | src/sentinelx_core/mutation_scope.py:725-1274 | a transaction on one scope leaves every other scope and all three indexes as they were |
| MutationScopeUndo.ProvisionRepeatsIff | src/sentinelx_core/mutation_scope.py:609-652 | repeating a successful provisioning returns the same scope and changes nothing, exactly until it expires |
| MutationScopeStore.Store.ProvisionScope | src/sentinelx_core/mutation_scope.py:564-723 | new durable state and reply of a provisioning, accepted exactly when a scope may be given out, invariant kept |
| MutationScopeStore.Store.Revalidated | src/sentinelx_core/mutation_scope.py:725-758 | new durable state and reply of a revalidation, including the expiry and drift writes, accepted exactly for an admissible claim |
| MutationScopeStore.Store.RevalidatedForOperation | src/sentinelx_core/mutation_scope.py:760-789 | the same for one operation class, accepted exactly when the claim is admissible and the scope was minted for that class |
| MutationScopeStore.Store.ReserveSandboxIdentity | src/sentinelx_core/mutation_scope.py:791-831 | the identity is recorded with write authority before any grant |
| MutationScopeStore.Store.BindRuntimeProcess | src/sentinelx_core/mutation_scope.py:833-862 | a job and pid are bound exactly on a live scope of that very identity with write authority |
| MutationScopeStore.Store.ReleaseRuntimeProcess | src/sentinelx_core/mutation_scope.py:864-885 | exactly that job and pid are released, from any named scope |
| MutationScopeStore.Store.ReserveRuntimeRead | src/sentinelx_core/mutation_scope.py:887-931 | a root marker is added once, whatever its case |
| MutationScopeStore.Store.ClearRuntimeRead | src/sentinelx_core/mutation_scope.py:933-973 | every spelling of the root is cleared |
| MutationScopeStore.Store.ReserveSessionRead | src/sentinelx_core/mutation_scope.py:975-1011 | one Session-0 binding is recorded and a different one refused |
| MutationScopeStore.Store.ClearSessionRead | src/sentinelx_core/mutation_scope.py:1013-1048 | only the recorded binding can be cleared |
| MutationScopeStore.Store.ClearWriteAuthority | src/sentinelx_core/mutation_scope.py:1050-1071 | write authority goes only without jobs and pids |
| MutationScopeStore.Store.RevokeScope | src/sentinelx_core/mutation_scope.py:1073-1085 | every scope that is not terminal becomes revoked |
| MutationScopeStore.Store.BeginTerminalization | src/sentinelx_core/mutation_scope.py:1142-1195 | the first locked phase, accepted exactly for an unfinished scope under its own binding that has a cleanup or holds no authority: terminal at once without authority, else revoked and handed to cleanup |
| MutationScopeStore.Store.CommitTerminalization | src/sentinelx_core/mutation_scope.py:1196-1274 | the second locked phase, accepted exactly for a revoked scope under the handed-over seal and an empty closure |
| SandboxProtocol.CoveredThroughout | src/sentinelx_core/windows_mutation_sandbox.py:1464-1521 | any interleaving of guarded steps, cut off anywhere, leaves the store invariant, every root and Session-0 entry covered by a durable marker, and every recorded identity the derived one |
| SandboxProtocol.StepSane | src/sentinelx_core/windows_mutation_sandbox.py:1464-1521 | one guarded step keeps the store invariant, the coverage and the derived identities |
| SandboxProtocol.StoreStepDerives | src/sentinelx_core/windows_mutation_sandbox.py:1437-1466 | no guarded transaction records an identity other than the one derived from the lease of its scope |
| SandboxProtocol.InjectiveMeansOwn | src/sentinelx_core/windows_mutation_sandbox.py:491-527 | leases being unique, an injective derivation gives every scope an identity of its own |
| SandboxProtocol.TerminalHoldsNothing | src/sentinelx_core/windows_mutation_sandbox.py:1883-1967 | a host that kept every guard holds no entry of the identity derived for a terminal scope |
| SandboxProtocol.ClearRootCoveredIff | src/sentinelx_core/windows_mutation_sandbox.py:1476-1495 | clearing a root marker keeps coverage exactly when the root no longer carries the identity |
| SandboxProtocol.ClearExposes | src/sentinelx_core/windows_mutation_sandbox.py:1476-1495 | after a run that kept every guard, clearing the marker of a root that still carries the identity leaves a crash point uncovered |
| SandboxFaults.NeverDoomedIff | src/sentinelx_core/windows_mutation_sandbox.py:1464-1495 | no pattern of faults dooms an activation exactly when its roots are distinct and none carries the identity yet |
| SandboxFaults.CleanedUpMeans | src/sentinelx_core/windows_mutation_sandbox.py:1883-1967 | what a closure stands for: recorded roots free of the identity and unmarked, configured roots when none was recorded, and no Session-0 binding or entry |
| Sandbox.Broker.GrantRuntimeRead | src/sentinelx_core/windows_mutation_sandbox.py:788-818 | a refusal after the tool ran has proved the entry absent; a refusal before it changed nothing |
| Sandbox.Broker.RemoveRuntimeRead | src/sentinelx_core/windows_mutation_sandbox.py:821-856 | success means the entry is absent, and nothing else is touched |
| Sandbox.Broker.GrantRoot | src/sentinelx_core/windows_mutation_sandbox.py:1464-1495 | marker before grant; it succeeds exactly when nothing about the root fails, and breaks a guard, exposing a crash point, exactly when a held root loses its marker |
| Sandbox.Broker.ClearRootMarker | src/sentinelx_core/windows_mutation_sandbox.py:1479-1495 | the store call made, and the guard it breaks exactly when the root still carries the identity |
| Sandbox.Broker.RollBack | src/sentinelx_core/windows_mutation_sandbox.py:1503-1521 | every provable removal is made and nothing else is taken; success means that no root is held or marked, and follows when every removal and clear succeeds |
| Sandbox.Broker.Admit | src/sentinelx_core/windows_mutation_sandbox.py:1408-1466 | grants may begin exactly for an admissible claim on an idle scope whose identity is, or can be recorded as, the derived one |
| Sandbox.Broker.Activate | src/sentinelx_core/windows_mutation_sandbox.py:1402-1546 | exactly when it is rejected and when it succeeds, what a failure takes back and revokes, and that from a sane start some crash point is left uncovered exactly when the activation is doomed |
| Sandbox.Broker.EnableSession | src/sentinelx_core/windows_mutation_sandbox.py:1548-1583 | it succeeds exactly when the scope is writable and holds no other binding, the call is not lost, and both objects take the entry; otherwise a proved removal leaves neither entry, and only then the binding is cleared |
| Sandbox.Broker.Cleanup | src/sentinelx_core/windows_mutation_sandbox.py:1883-1967 | a closure means that no recorded root or Session-0 entry is held or marked; an undisturbed cleanup of the record as it stands returns the empty closure; no other entry is taken |
| Sandbox.Broker.Terminalize | src/sentinelx_core/windows_mutation_sandbox.py:1969-1978 | success is the durable terminal record without authority, and an undisturbed call succeeds exactly for an unfinished scope under its own binding; after a run that kept every guard no entry of that identity is left |
| Sandbox.Broker.EveryCrashIsCovered | src/sentinelx_core/windows_mutation_sandbox.py:1402-1616 | every state a crash could have left behind is covered |
| SandboxExample.ReactivationLeavesResidue | src/sentinelx_core/windows_mutation_sandbox.py:1402-1546 | from a concrete sane host a doomed second activation fails and exposes a crash point, and an undisturbed terminalization then ends the scope while its identity still holds the root |
| SpawnAudit.EveryCrashIsOrdered | src/sentinelx_core/mutation_audit.py:502-564 | in an ordered log every resume, release and FINISHED line was permitted by what came before, at every crash point |
| SpawnAudit.ResumedWasAnnounced | src/sentinelx_core/mutation_audit.py:628-643 | behind every resume stand the START line of its operation, a SPAWNED line of the same operation and binding for this job and process that meets the sealed intent, and an unreleased lease binding |
| SpawnAudit.EndedInOrder | src/sentinelx_core/mutation_audit.py:645-689 | behind every release stands a closed job, and behind every FINISHED line the START line whose intent its closure accounts for |
| SpawnAudit.MeetsIff | src/sentinelx_core/mutation_audit.py:581-626 | evidence is accepted exactly when it agrees with the intent in all it names, contained, in the sandbox, without breakaway |
| SpawnAudit.AccountsIff | src/sentinelx_core/mutation_audit.py:645-689 | a closure accounts exactly when it leaves nothing open of the admitted scope |
| SpawnAudit.SpawnBroker.Begin | src/sentinelx_core/mutation_audit.py:514-564 | a START is returned exactly when its line is durable and the append did not raise |
| SpawnAudit.SpawnBroker.RecordSpawn | src/sentinelx_core/mutation_audit.py:566-626 | a SPAWNED line is accepted exactly for unchanged START evidence and a contained child that meets the sealed intent |
| SpawnAudit.SpawnBroker.CommitSpawnBeforeResume | src/sentinelx_core/mutation_audit.py:628-643 | it resumes exactly when the recording is accepted and durable and the resume does not fail, directly after the SPAWNED line; a failed recording is followed at once by an attempt to terminate |
| SpawnAudit.SpawnBroker.Finish | src/sentinelx_core/mutation_audit.py:645-689 | a FINISHED line is accepted exactly for unchanged START evidence and a closure that accounts for the admitted scope |
| SpawnAudit.SpawnBroker.Release | src/sentinelx_core/windows_mutation_sandbox.py:1318-1329 | the lease binding is released only after the job is closed; it succeeds exactly when the job closes, the store call is not lost and the scope is named, and leaves neither job nor pid in the durable record |
| SpawnAudit.SpawnBroker.TerminateAndRelease | src/sentinelx_core/windows_mutation_sandbox.py:1769-1771 | an open child sees a termination attempt first; exactly when the release that follows succeeds |
| SpawnAudit.SpawnBroker.BindAndCommit | src/sentinelx_core/windows_mutation_sandbox.py:1754-1812 | a contained child is resumed exactly when it may be bound (a live, writable scope of its very identity), no call is lost and its recording is accepted; otherwise its end is attempted |
| SpawnAudit.SpawnBroker.Spawn | src/sentinelx_core/windows_mutation_sandbox.py:1686-1812 | the child runs exactly when it is admitted and contained, may be bound to a live, writable scope of its very identity, and its recording is accepted; through binding, SPAWNED and resume in this order; an aborted spawn is followed by an attempt to end the child exactly unless the containment probe raised |
| SpawnExample.ProbeFailureLeavesChild | src/sentinelx_core/windows_mutation_sandbox.py:1741-1752 | a concrete spawn whose suspended child is left with no attempt to end it |
| PersistenceJournal.Inventory | src/sentinelx_core/direct_codex_persistence.py:325-427 | a delta is taken exactly from a checkout without unmerged entries, unsupported modes, unclean paths or a changed attributes file, and holds exactly the tracked and untracked paths that are not provider-owned |
| PersistenceJournal.OneFile | src/sentinelx_core/direct_codex_transport.py:310-325 | which single path is refused, left aside or committed, spelled out part by part |
| PersistenceJournal.OneEntry | src/sentinelx_core/direct_codex_persistence.py:254-269 | which modes of a tracked entry are refused |
| PersistenceJournal.MessageNamesLineage | src/sentinelx_core/direct_codex_persistence.py:272-287 | every lineage identity stands on a line of its own in the commit message, under its own name |
| PersistenceJournal.ChangedIsLeast | src/sentinelx_core/direct_codex_persistence.py:325-427 | the changed paths are the fewest outside which two trees agree, deletions included |
| PersistenceJournal.AncestorIff | src/sentinelx_core/direct_codex_persistence.py:822-857 | an ancestor is exactly what a chain of parents leads to |
| PersistenceJournal.AtMostOnePush | src/sentinelx_core/direct_codex_persistence.py:670-679 | every history of calls, crashes and restarts under one journal holds at most one push, and none before the intent is durable |
| PersistenceJournal.CandidateWriteOnce | src/sentinelx_core/direct_codex_persistence.py:779-802 | once a journal names a candidate every later one does; the binding never changes; published is final and intent can only become published |
| PersistenceJournal.SameCandidateAfterCrash | src/sentinelx_core/direct_codex_persistence.py:779-802 | however many crashes follow the creation of a commit, the first journal written after it names that commit or none |
| PersistenceJournal.ValidatedMeans | src/sentinelx_core/direct_codex_persistence.py:681-710 | a delta counts as validated only in the call that took it, right after head, branch and remote were seen as admitted |
| PersistenceJournal.PushIsAnnounced | src/sentinelx_core/direct_codex_persistence.py:822-857 | what is pushed is a child of the admitted head, changed exactly on the delta this call validated, announced right after the remote was seen at that head again |
| PersistenceJournal.PublishedWasSeen | src/sentinelx_core/direct_codex_persistence.py:867-899 | a journal is marked published only after the remote was read back at its candidate, and only from the very intent that was announced |
| Persistence.RecoveryRefines | src/sentinelx_core/direct_codex_persistence.py:898-1003 | a recovered outcome equals the uninterrupted one field by field exactly when the remote shows the candidate and the checkout is still on the branch |
| Persistence.AdmissibleIff | src/sentinelx_core/direct_codex_persistence.py:681-710 | admission asks for the branch itself at the admitted head, on the checkout and on the remote |
| Persistence.LandedIff | src/sentinelx_core/direct_codex_persistence.py:835-847 | a push moves the branch exactly when that loses nothing there, and nothing else |
| Persistence.PersistedMeans | src/sentinelx_core/direct_codex_persistence.py:898-917 | persisted evidence names a child of the admitted head, read back from the remote, whose changed paths are the counted and digested ones |
| Persistence.DirectHost.WriteJournal | src/sentinelx_core/direct_codex_persistence.py:303-313 | the journal is replaced as a whole or not at all, wherever the call ends |
| Persistence.DirectHost.Admit | src/sentinelx_core/direct_codex_persistence.py:681-710 | a call that is left alone is admitted exactly on the admitted head, branch and remote with an inventory that refuses nothing, and its delta is exactly the eligible paths |
| Persistence.DirectHost.BuildTree | src/sentinelx_core/direct_codex_persistence.py:778-789 | the tree to commit, rebuilt or kept, differs from the admitted head exactly on the delta |
| Persistence.DirectHost.MakeCandidate | src/sentinelx_core/direct_codex_persistence.py:791-802 | the journal names one sealed candidate of that tree on the admitted head |
| Persistence.DirectHost.MoveRef | src/sentinelx_core/direct_codex_persistence.py:804-819 | the local branch moves from the admitted head to the candidate or not at all |
| Persistence.DirectHost.Announce | src/sentinelx_core/direct_codex_persistence.py:822-833 | the intent becomes durable directly after the remote was seen at the admitted head |
| Persistence.DirectHost.Push | src/sentinelx_core/direct_codex_persistence.py:835-847 | the remote moves only by fast-forward to the candidate, and a success code means it is there |
| Persistence.DirectHost.Publish | src/sentinelx_core/direct_codex_persistence.py:838-917 | every outcome of the publishing half agrees with the journal it leaves; persisted only after the read-back |
| Persistence.DirectHost.ReportNoChange | src/sentinelx_core/direct_codex_persistence.py:756-776 | an empty delta falls back to a prepared journal with the same binding and candidate and an empty digest, and makes no commit |
| Persistence.DirectHost.RecoverPublished | src/sentinelx_core/direct_codex_persistence.py:920-963 | a published journal is answered by reading alone |
| Persistence.DirectHost.RecoverIntent | src/sentinelx_core/direct_codex_persistence.py:966-1031 | an uncertain push is decided by one remote read, and nothing is built, moved or pushed |
| Persistence.DirectHost.Persist | src/sentinelx_core/direct_codex_persistence.py:632-917 | one call on whatever earlier calls left: refusals, recovery and publication with their journals; a call that inspects the checkout names exactly the eligible paths and reports no change exactly when there is none; an undisturbed call on a ready checkout publishes |
| Persistence.DirectHost.PersistAll | src/sentinelx_core/direct_codex_persistence.py:632-917 | any sequence of calls pushes at most once, and all that report persisted report the same evidence |
| LocalAudit.SplitBehindFeed | src/sentinelx_core/local_audit.py:202-223 | cutting a text behind a line feed cuts its lines, whatever precedes the line feed |
| LocalAudit.TailHoldsLastLines | src/sentinelx_core/local_audit.py:202-223 | a tail with more than `limit` line feeds holds the last `limit` lines whole, even when it starts inside a record or a CRLF pair |
| LocalAudit.ReadTailLines | src/sentinelx_core/local_audit.py:202-223 | the backward block reader returns the last `limit` lines of every content, for every block size |
| LocalAudit.EncodeRoundTrip | src/sentinelx_core/local_audit.py:127-131 | written rows split back into themselves, with either line terminator |
| LocalAudit.RetainedTrim | src/sentinelx_core/local_audit.py:170-199 | trimming keeps every row anyone may ask for |
| LocalAudit.ParsedIsNewestFirst | src/sentinelx_core/local_audit.py:226-253 | the entries are the parses of exactly the rows that parse, each of an older row than the one before it |
| LocalAudit.AuditLog.ShouldCheckRetention | src/sentinelx_core/local_audit.py:139-159 | the retention check is due on the first write of a process and every hundredth after it |
| LocalAudit.AuditLog.MaybeTrim | src/sentinelx_core/local_audit.py:170-199 | an overgrown file is cut to its newest rows or left whole |
| LocalAudit.AuditLog.Record | src/sentinelx_core/local_audit.py:93-136 | one row is appended to the history, and the file is bounded unless the last trim failed |
| LocalAudit.AuditLog.ReadRecent | src/sentinelx_core/local_audit.py:226-253 | every read equals the read of the never-trimmed history: the parseable rows of the last `limit`, each once, newest first, malformed rows skipped and not backfilled |
| SegmentCheck.Rebuild | src/sentinelx_core/segment_check.py:52-100 | pieces and dropped separators rebuild the command |
| SegmentCheck.PiecesAreWhole | src/sentinelx_core/segment_check.py:52-100 | no piece holds a separator outside quotes |
| SegmentCheck.SplitIsPartition | src/sentinelx_core/segment_check.py:52-100 | every cut is at the leftmost separator outside quotes, taken whole |
| SegmentCheck.OnlyPartition | src/sentinelx_core/segment_check.py:52-100 | there is no other such partition of a command |
| SegmentCheck.QuoteRule | src/sentinelx_core/segment_check.py:66-85 | the quote rule, state by state |
| SegmentCheck.QuotedIsWhole | src/sentinelx_core/segment_check.py:52-86 | a quoted text is data: no separator in it counts, and the scanner stands outside quotes behind it |
| SegmentCheck.SeparatorIff | src/sentinelx_core/segment_check.py:86-95 | which separators there are and how long they are |
| SegmentCheck.KeptSelects | src/sentinelx_core/segment_check.py:99-100 | the segments are the stripped pieces that are not blank: each of them once, in their order, no other |
| SegmentCheck.StripIs | src/sentinelx_core/segment_check.py:100-100 | stripping takes whitespace from both ends, all of it, and nothing else |
| SegmentCheck.FirstWordIs | src/sentinelx_core/segment_check.py:103-105 | the first word is what stands between leading whitespace and the next |
| SegmentCheck.SegmentsSplitToThemselves | src/sentinelx_core/segment_check.py:52-100 | each returned segment is on its own exactly one segment |
| SegmentCheck.SplitTopLevel | src/sentinelx_core/segment_check.py:52-100 | the index loop computes the partition of the character automaton and returns its non-blank pieces, stripped, each once and in order |
| SegmentCheck.UnauthorisedSegment | src/sentinelx_core/segment_check.py:159-174 | exactly the first piece of the command that is not blank and that the allowlist and the two concessions leave uncovered; none means that every piece is covered |
| FileExport.ChunkCount | src/sentinelx_core/handlers/file_export.py:120-120 | at least one chunk, also for the empty file |
| FileExport.ChunksCover | src/sentinelx_core/handlers/file_export.py:120-120 | the chunks cover the size and one fewer would not |
| FileExport.ChunksAreTheFile | src/sentinelx_core/handlers/file_export.py:120-120 | all chunks concatenated are the file, the empty one included |
| FileExport.ProgressIsOrder | src/sentinelx_core/handlers/file_export.py:167-169 | the digest has got exactly as far as the requests contain the chunk numbers in order |
| FileExport.ExportSession.ReadAndHash | src/sentinelx_core/handlers/file_export.py:162-170 | a chunk is read where its number says and feeds the digest only in order |
| FileExport.ExportSession.ConsumedPrefix | src/sentinelx_core/handlers/file_export.py:167-169 | for an unchanged file the digest has consumed exactly the first min(size, next * chunk) bytes |
| FileExport.Exporter.Init | src/sentinelx_core/handlers/file_export.py:91-138 | a transfer is opened afresh with the requested chunk size, or the protocol's own when that is out of range, and sessions past their time go |
| FileExport.Exporter.ReadChunk | src/sentinelx_core/handlers/file_export.py:141-180 | chunks are served in any order and repetition, and errors change nothing |
| FileExport.Exporter.Complete | src/sentinelx_core/handlers/file_export.py:183-199 | a digest is reported exactly when all chunks were asked for in order, and is then that of the whole unchanged file |
| OperationRegistry.NoReasonsIff | src/sentinelx_core/operation_registry.py:157-186 | readiness holds exactly when every registration is ready |
| OperationRegistry.ReasonsIff | src/sentinelx_core/operation_registry.py:157-186 | the reasons are those of every registration, and no others |
| OperationRegistry.EntryReasonsIff | src/sentinelx_core/operation_registry.py:167-181 | no inventory entry that is not ready goes unreported, and none that is ready is reported |
| OperationRegistry.ScriptRunMeans | src/sentinelx_core/operation_registry.py:189-259 | a script counts as contained exactly when it asks for the scoped profile and the policy offers it, as an uncontained process exactly when it runs unprofiled or unrestricted, and never as harmless |
| OperationRegistry.ClassifyGit | src/sentinelx_core/operation_registry.py:314-354 | which git operations change the checkout through contained code, which only look at it, and that anything else is unknown |
| OperationRegistry.ConfiguredEffect | src/sentinelx_core/operation_registry.py:361-391 | nothing an operator configures counts as contained, a relayed endpoint is an uncontained process whatever its metadata says, and an action is ready exactly when it is declared harmless |
| OperationRegistry.BuiltinEffect | src/sentinelx_core/operation_registry.py:394-431 | a built-in action resolves to what its provider says, and to an unknown effect when it says nothing |
| OperationRegistry.LocalApiReadyIff | src/sentinelx_core/operation_registry.py:475-513 | the local_api inventory is ready exactly when everything configured is declared harmless and everything built in is listed and vouched for |
| OperationRegistry.ScriptRunCovered | src/sentinelx_core/operation_registry.py:189-311 | the script_run inventory lists every mutation any payload can resolve to |
| OperationRegistry.GitCovered | src/sentinelx_core/operation_registry.py:314-358 | the git inventory lists every mutation any payload can resolve to, and is ready |
| OperationRegistry.LocalApiSafeIff | src/sentinelx_core/operation_registry.py:361-513 | under a ready local_api inventory a payload resolves safely exactly unless it calls an unlisted built-in mutation |
| OperationRegistry.ReadySurfaceIsSafe | src/sentinelx_core/operation_registry.py:82-90 | under readiness every payload of every model-facing operation resolves safely, with that one exception |
| OperationRegistry.NeverReady | src/sentinelx_core/operation_registry.py:596-645 | generic execution, unprofiled or unrestricted script_run, a local_api with a relay or an action not declared harmless, and undescribed operations exclude readiness |
| OperationRegistry.ReadyIff | src/sentinelx_core/operation_registry.py:516-645 | an operation is ready exactly when it is one of the admitted ones |
| OperationRegistry.ResolvesAsIs | src/sentinelx_core/operation_registry.py:136-154 | nothing that changes a repository passes as harmless and nothing uncontained as contained: for every operation and payload, which calls resolve to a mutation, to a harmless effect and to proven containment |
| OperationRegistry.UnlistedMutationExists | src/sentinelx_core/operation_registry.py:394-513 | a policy whose local_api is ready and a call that resolves to an uncontained mutation |
| OperationRegistry.Registry.Register | src/sentinelx_core/operation_registry.py:100-121 | a mixed operation without a classifier is refused; a re-registered name keeps its place |
| OperationRegistry.Registry.SetItem | src/sentinelx_core/operation_registry.py:123-127 | a handler stored without semantics makes the registry unready |
| OperationRegistry.Registry.DeleteItem | src/sentinelx_core/operation_registry.py:129-131 | exactly that name goes, what stands before and behind it stays in order |
| OperationRegistry.Registry.ResolveEffect | src/sentinelx_core/operation_registry.py:136-154 | the effect of a payload, unknown for an unregistered name |
| OperationRegistry.Registry.FirewallReadiness | src/sentinelx_core/operation_registry.py:157-186 | the loop accumulates exactly the reasons, and readiness means every registration is ready |
| OperationRegistry.BuildEffectRegistry | src/sentinelx_core/operation_registry.py:516-645 | every dispatched operation and no other is registered, with the semantics of its name |
| OperationRegistry.ResolveWhenReady | src/sentinelx_core/operation_registry.py:136-186 | on any dispatch surface and policy: readiness is reported exactly when every operation is an admitted one, every payload resolves to what its call is, and under readiness it resolves safely exactly unless it calls an unlisted built-in mutation |

## Left out

- Win32 and icacls calls, tokens, jobs and mandatory labels: each is one step that may fail, with the read-back its caller relies on; an object that no longer exists carries no entry.
- JSON encoding, record digests, fsync and file locks: a durable write is one atomic replacement and a locked section is one transaction; a corrupt or tampered state file is not modelled.
- Identity strings are taken as already stripped, and a repository identity as its canonical text; random tokens never repeat.
- The workspace access list and its write marker, and the workspace-traverse and verification grants: the first needs its own reset to have succeeded, the others have no durable marker by design.
- Activation and termination of the same scope racing with each other: object calls on one scope are sequential; interleaving of store calls and of scopes is covered by the step relation.
- MutationScopeStore.Store.CommitTerminalization: its cleanup closure is a parameter; that cleanup really stopped every process is an operating-system fact.
- SandboxProtocol.TerminalHoldsNothing: takes the derivation of an identity from a lease to be injective; it goes through a shortened digest and the operating system (`windows_mutation_sandbox.py:491-527`).
- Sandbox.Broker.Activate: where it speaks of crash points it takes the derived identity to be the scope's own, which an injective derivation implies (`SandboxProtocol.InjectiveMeansOwn`).
- Verification materialization (`materialize_verification`, `enable_verification_descendants`) and the evidence store of the audit journal: file copying and retention.
- Persistence.DirectHost.Persist: safety and the undisturbed run only; a retry after the local branch moved fails closed on its head check (`direct_codex_persistence.py:682-688`), so recovery before the intent is not promised.
- Persistence.DirectHost.Admit: the parsing of git output is not modelled, and the several ways an inventory is refused share one error.
- Attribute and configuration inspection of `direct_codex_transport.py`: one yes-or-no answer of the run.
- LocalAudit.AuditLog.Record: an append happens whole or not at all, in one thread; concurrent writers and outside rotation are not modelled.
- SegmentCheck.SplitTopLevel: verified against its own quote rule, which is not that of a shell; `has_substitution` is a separate scan of the same kind.
- FileExport.Exporter.Init: transfer identifiers are taken as validated, and the read policy and file-type checks are one answer; the largest chunk size comes from the transfer protocol package, which is not part of this model.
- OperationRegistry.LocalApiSafeIff: providers answer the same question the same way each time.
- Hub client, reconnect timing, credentials, local API sockets, help and capability texts, release tooling, configuration parsing: input and output plumbing or one-branch claims.
