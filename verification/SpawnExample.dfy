/** One spawn whose suspended child nobody tries to end. */
module SpawnExample {
  import opened Wrappers
  import opened MutationScopeLaws
  import opened MutationScopeStore
  import opened SandboxExample
  import opened SandboxFaults
  import opened SandboxProtocol
  import opened SpawnAudit

  const BINDING := Binding("request", "scope", 1)
  const INTENT := Intent("c:/tools/run.exe", "c:/work", "user", "sid", "digest", "inventory")
  const EVIDENCE := Evidence(7, 1, "c:/tools/run.exe", "c:/work", "user", "sid", true, "job", true, false)
  const CALM_END := EndFaults(false, false, false, Fine)

  /** Only reading the containment of the new child raises. */
  const PROBE_FAILS := SpawnFaults(false, true, false, Fine, false, Fine, "script", false, CALM_END, CALM_END)

  /** In the active scope of the sandbox example, after a durable START, the child is created and left: it
      never runs, and no termination and no close of its job is ever attempted. */
  method ProbeFailureLeavesChild() returns (broker: SpawnBroker, outcome: SpawnOutcome)
    ensures outcome == Aborted && Created("job", 7) in broker.effects
    ensures forall e | e in broker.effects :: e != TerminateTried("job") && e != JobClosed("job") && !e.Resumed?
  {
    hide Good, Sane, OwnIdentity, Ordered, Runs, SampleAuthority, SampleState, Lines;
    SampleIsSane();
    SaneSample();
    var store := new Store.Load(SampleAuthority());
    broker := new SpawnBroker(store);
    var start := broker.Begin("operation", BINDING, INTENT, "script", Fine);
    ghost var before := broker.effects;
    var child;
    outcome, child := broker.Spawn("scope", 1, "sid", start.value, EVIDENCE, PROBE_FAILS);
    assert broker.effects[..|before|] == before && broker.effects[|before|] == (before + [Created("job", 7)])[|before|];
  }

  lemma SaneSample()
    requires Sane(SampleState())
    ensures Good(SampleAuthority())
  {
    hide Good, SampleAuthority;
    SaneIsGood(SampleState());
  }
}
