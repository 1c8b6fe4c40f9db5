/** Repository effects of dispatched operations: a readiness decision over finite inventories that has to
    hold for every payload the classifiers may ever see. */
module OperationRegistry {
  import opened Wrappers

  datatype Effect = ReadOnly | NonRepositoryMutation | StructuredMutation | ProcessMutation | Mixed | Unknown

  datatype Coverage = NotRequired | Proven | Unproven

  datatype Resolution = Resolution(effect: Effect, coverage: Coverage, selector: string, reason: Option<string>)

  datatype Exposure = ModelFacing | Internal

  /** The text of an execution profile, or a value that is none. */
  datatype Profile = Text(raw: string) | NotText

  datatype Payload = Payload(
    operation: string, dryRun: bool, endpoint: string, action: string,
    nested: Option<Profile>, direct: Option<Profile>)

  type Handler = string

  datatype Registration = Registration(
    handler: Handler, exposure: Exposure, effect: Effect, coverage: Coverage,
    classifier: Option<Payload -> Resolution>, inventory: Option<seq<Resolution>>)

  /** `metadata` of an action is absent when the operator gave none that names an effect. */
  datatype Endpoint = Endpoint(runAs: bool, actions: map<string, Option<Effect>>)

  /** A provider without a callable resolver or action list has none; a resolver that raises, or returns
      anything else than a resolution, resolves to nothing. */
  datatype Provider = Provider(resolver: Option<string -> Option<Resolution>>, available: Option<seq<string>>)

  datatype Policy = Policy(
    configured: bool, scopedEnabled: bool, unrestrictedEnabled: bool,
    localApis: map<string, Endpoint>, builtins: map<string, Provider>,
    apiOrder: seq<(string, string)>, builtinOrder: seq<string>, strip: string -> string)

  // ---------- what is safe and what is ready ----------

  predicate Mutates(e: Effect) {
    e.StructuredMutation? || e.ProcessMutation?
  }

  predicate Safe(r: Resolution) {
    Mutates(r.effect) ==> r.coverage.Proven?
  }

  predicate ResolutionReady(r: Resolution) {
    if r.effect.Unknown? || r.effect.Mixed? then false
    else if Mutates(r.effect) then r.coverage.Proven?
    else true
  }

  function EffectName(e: Effect): string {
    match e
    case ReadOnly => "read_only"
    case NonRepositoryMutation => "non_repository_mutation"
    case StructuredMutation => "structured_mutation"
    case ProcessMutation => "process_mutation"
    case Mixed => "mixed"
    case Unknown => "unknown"
  }

  function Resolve(registrations: map<string, Registration>, name: string, payload: Payload): Resolution
    requires name in registrations && registrations[name].effect.Mixed? ==> registrations[name].classifier.Some?
  {
    if name !in registrations then Resolution(Unknown, Unproven, name, Some("operation_not_registered"))
    else
      var reg := registrations[name];
      if !reg.effect.Mixed? then Resolution(reg.effect, reg.coverage, name, None)
      else reg.classifier.value(payload)
  }

  // ---------- reasons ----------

  function ReasonText(name: string, r: Resolution): string {
    name + "/" + (if r.selector == "" then "unknown" else r.selector) + ":"
    + (if r.reason.Some? && r.reason.value != "" then r.reason.value else EffectName(r.effect))
  }

  function EntryReason(name: string, r: Resolution): seq<string> {
    if ResolutionReady(r) then [] else [ReasonText(name, r)]
  }

  function EntryReasons(name: string, entries: seq<Resolution>): seq<string> {
    if entries == [] then []
    else EntryReasons(name, entries[..|entries| - 1]) + EntryReason(name, entries[|entries| - 1])
  }

  function ReasonsOf(name: string, reg: Registration): seq<string> {
    if reg.exposure.Internal? then []
    else if reg.effect.Mixed? then
      if reg.inventory.None? then [name + ":mixed_effect_inventory_missing"]
      else if reg.inventory.value == [] then [name + ":mixed_effect_inventory_empty"]
      else EntryReasons(name, reg.inventory.value)
    else if ResolutionReady(Resolution(reg.effect, reg.coverage, name, None)) then []
    else [name + ":" + EffectName(reg.effect)]
  }

  function Reasons(order: seq<string>, registrations: map<string, Registration>): seq<string>
    requires forall name | name in order :: name in registrations
  {
    if order == [] then []
    else Reasons(order[..|order| - 1], registrations)
         + ReasonsOf(order[|order| - 1], registrations[order[|order| - 1]])
  }

  /** What readiness asks of one registration. */
  predicate RegistrationReady(reg: Registration) {
    || reg.exposure.Internal?
    || (if reg.effect.Mixed? then
          reg.inventory.Some? && reg.inventory.value != []
          && forall r | r in reg.inventory.value :: ResolutionReady(r)
        else !reg.effect.Unknown? && (Mutates(reg.effect) ==> reg.coverage.Proven?))
  }

  lemma {:induction false} NoEntryReasons(name: string, entries: seq<Resolution>)
    ensures EntryReasons(name, entries) == [] <==> forall r | r in entries :: ResolutionReady(r)
    decreases |entries|
  {
    if entries != [] {
      var front, last := entries[..|entries| - 1], entries[|entries| - 1];
      NoEntryReasons(name, front);
      assert entries == front + [last];
      assert EntryReason(name, last) == [] <==> ResolutionReady(last);
    }
  }

  /** No entry that is not ready goes unreported, and none that is ready is reported. */
  lemma {:induction false} EntryReasonsIff(name: string, entries: seq<Resolution>, text: string)
    ensures text in EntryReasons(name, entries)
       <==> exists r :: r in entries && !ResolutionReady(r) && text == ReasonText(name, r)
    decreases |entries|
  {
    hide ReasonText, ResolutionReady;
    if entries != [] {
      var front, last := entries[..|entries| - 1], entries[|entries| - 1];
      EntryReasonsIff(name, front, text);
      assert entries == front + [last];
      assert forall r :: r in entries <==> r in front || r == last;
      assert text in EntryReason(name, last) <==> !ResolutionReady(last) && text == ReasonText(name, last);
    }
  }

  /** The reasons are those of every registration, and no others. */
  lemma {:induction false} ReasonsIff(order: seq<string>, registrations: map<string, Registration>, text: string)
    requires forall name | name in order :: name in registrations
    ensures text in Reasons(order, registrations)
       <==> exists name :: name in order && text in ReasonsOf(name, registrations[name])
    decreases |order|
  {
    hide ReasonsOf;
    if order != [] {
      var front, last := order[..|order| - 1], order[|order| - 1];
      ReasonsIff(front, registrations, text);
      assert order == front + [last];
      assert forall name :: name in order <==> name in front || name == last;
    }
  }

  lemma NoReasonsOf(name: string, reg: Registration)
    ensures ReasonsOf(name, reg) == [] <==> RegistrationReady(reg)
  {
    if reg.inventory.Some? { NoEntryReasons(name, reg.inventory.value); }
  }

  /** The registry is ready exactly when every registration is. */
  lemma {:induction false} NoReasonsIff(order: seq<string>, registrations: map<string, Registration>)
    requires forall name | name in order :: name in registrations
    ensures Reasons(order, registrations) == [] <==> forall name | name in order :: RegistrationReady(registrations[name])
    decreases |order|
  {
    if order != [] {
      hide ReasonsOf, RegistrationReady;
      var front, last := order[..|order| - 1], order[|order| - 1];
      NoReasonsIff(front, registrations);
      NoReasonsOf(last, registrations[last]);
      assert order == front + [last];
      assert forall name :: name in order <==> name in front || name == last;
    }
  }

  // ---------- an inventory that covers its classifier ----------

  predicate SameKind(a: Resolution, b: Resolution) {
    a.effect == b.effect && a.coverage == b.coverage
  }

  /** Whatever a payload makes of the operation, if it mutates it is of a kind the inventory lists. */
  ghost predicate Covers(inventory: seq<Resolution>, classifier: Payload -> Resolution) {
    forall p: Payload :: Mutates(classifier(p).effect) ==>
      exists k | 0 <= k < |inventory| :: SameKind(inventory[k], classifier(p))
  }

  /** A registration whose readiness says something about every payload. */
  ghost predicate Sound(reg: Registration) {
    reg.exposure.ModelFacing? && reg.effect.Mixed? ==>
      reg.classifier.Some? && (reg.inventory.Some? ==> Covers(reg.inventory.value, reg.classifier.value))
  }

  lemma ReadyResolvesSafely(registrations: map<string, Registration>, name: string, payload: Payload)
    requires name in registrations && Sound(registrations[name])
    requires registrations[name].exposure.ModelFacing? && RegistrationReady(registrations[name])
    ensures Safe(Resolve(registrations, name, payload))
  {
    var reg := registrations[name];
    if reg.effect.Mixed? && Mutates(reg.classifier.value(payload).effect) {
      var k :| 0 <= k < |reg.inventory.value| && SameKind(reg.inventory.value[k], reg.classifier.value(payload));
      assert ResolutionReady(reg.inventory.value[k]);
    }
  }

  // ---------- script_run ----------

  function ScriptProfile(p: Payload, strip: string -> string): Result<Option<string>, string> {
    if p.nested.Some? && p.direct.Some? && p.nested != p.direct then Err("conflicting_execution_profile")
    else match (if p.nested.Some? then p.nested else p.direct)
      case None => Ok(None)
      case Some(NotText) => Err("invalid_execution_profile")
      case Some(Text(raw)) => if strip(raw) == "" then Err("invalid_execution_profile") else Ok(Some(strip(raw)))
  }

  const LEGACY := Resolution(ProcessMutation, Unproven, "legacy_unprofiled", Some("legacy_unprofiled_process_uncontained"))
  const SCOPED := Resolution(ProcessMutation, Proven, "scoped_mutation", None)
  const UNRESTRICTED :=
    Resolution(ProcessMutation, Unproven, "operator_unrestricted", Some("operator_unrestricted_process_uncontained"))

  function Unclear(selector: string, reason: string): Resolution {
    Resolution(Unknown, Unproven, selector, Some(reason))
  }

  function ClassifyScriptRun(policy: Policy, p: Payload): Resolution {
    match ScriptProfile(p, policy.strip)
    case Err(error) => Unclear("script_run/profile", error)
    case Ok(None) => if policy.configured then Unclear("missing", "execution_profile_required") else LEGACY
    case Ok(Some(profile)) =>
      if profile == "scoped_mutation" then
        if policy.configured && policy.scopedEnabled then SCOPED
        else Unclear("scoped_mutation", "scoped_mutation_profile_unavailable")
      else if profile == "operator_unrestricted" then
        if policy.configured && policy.unrestrictedEnabled then UNRESTRICTED
        else Unclear("operator_unrestricted", "operator_unrestricted_disabled")
      else Unclear(profile, "unknown_script_run_execution_profile")
  }

  function ScriptRunInventory(policy: Policy): seq<Resolution> {
    if !policy.configured then [LEGACY]
    else
      var effects := (if policy.scopedEnabled then [SCOPED] else [])
                     + (if policy.unrestrictedEnabled then [UNRESTRICTED] else []);
      if effects == [] then [Unclear("no_effective_profile", "script_run_process_profile_unavailable")] else effects
  }

  /** The payload names this profile, in one place or in both alike. */
  ghost predicate Asks(p: Payload, strip: string -> string, profile: string) {
    && profile != "" && (p.nested.None? || p.direct.None? || p.nested == p.direct)
    && exists raw :: (p.nested == Some(Text(raw)) || (p.nested.None? && p.direct == Some(Text(raw)))) && strip(raw) == profile
  }

  predicate Unprofiled(p: Payload) {
    p.nested.None? && p.direct.None?
  }

  lemma AsksIff(p: Payload, strip: string -> string, profile: string)
    ensures ScriptProfile(p, strip) == Ok(Some(profile)) <==> Asks(p, strip, profile)
    ensures ScriptProfile(p, strip) == Ok(None) <==> Unprofiled(p)
  {
  }

  /** The payload makes script_run start a process, in the sandbox or not. */
  ghost predicate RunsScoped(policy: Policy, p: Payload) {
    policy.configured && policy.scopedEnabled && Asks(p, policy.strip, "scoped_mutation")
  }

  ghost predicate RunsFree(policy: Policy, p: Payload) {
    if policy.configured then policy.unrestrictedEnabled && Asks(p, policy.strip, "operator_unrestricted")
    else Unprofiled(p)
  }

  /** A script is contained exactly when it asks for the scoped profile and the policy offers it; it runs
      uncontained exactly when it is unprofiled on a host without a policy, or asks for the unrestricted
      profile and the policy offers that; whatever else it asks for is unknown. It never counts as harmless. */
  lemma ScriptRunMeans(policy: Policy, p: Payload)
    ensures var r := ClassifyScriptRun(policy, p);
            && r.coverage == (if RunsScoped(policy, p) then Proven else Unproven)
            && r.effect == (if RunsScoped(policy, p) || RunsFree(policy, p) then ProcessMutation else Unknown)
  {
    AsksIff(p, policy.strip, "scoped_mutation");
    AsksIff(p, policy.strip, "operator_unrestricted");
  }

  lemma ScriptRunCovered(policy: Policy)
    ensures Covers(ScriptRunInventory(policy), p => ClassifyScriptRun(policy, p))
  {
    forall p: Payload | Mutates(ClassifyScriptRun(policy, p).effect)
      ensures exists k | 0 <= k < |ScriptRunInventory(policy)| ::
                SameKind(ScriptRunInventory(policy)[k], ClassifyScriptRun(policy, p))
    {
      var r := ClassifyScriptRun(policy, p);
      assert r == LEGACY || r == SCOPED || r == UNRESTRICTED;
      assert r in ScriptRunInventory(policy) by {
        if r == SCOPED { assert ScriptRunInventory(policy)[0] == SCOPED; }
        if r == UNRESTRICTED {
          assert ScriptRunInventory(policy)[|ScriptRunInventory(policy)| - 1] == UNRESTRICTED;
        }
      }
    }
  }

  // ---------- git ----------

  const GIT_EFFECTS: map<string, Resolution> := map[
    "diff" := Resolution(ReadOnly, NotRequired, "diff", None),
    "ls_remote" := Resolution(ReadOnly, NotRequired, "ls_remote", None),
    "apply_patch" := Resolution(StructuredMutation, Proven, "apply_patch", None),
    "fetch" := Resolution(StructuredMutation, Proven, "fetch", None),
    "clone" := Resolution(StructuredMutation, Proven, "clone", None),
    "push" := Resolution(NonRepositoryMutation, NotRequired, "push", None)]

  /** An operation that changes the checkout, and one that only looks at it. */
  predicate GitWrites(operation: string, dryRun: bool) {
    operation == "fetch" || operation == "clone" || (operation == "apply_patch" && !dryRun)
  }

  predicate GitLooks(operation: string, dryRun: bool) {
    operation == "diff" || operation == "ls_remote" || (operation == "apply_patch" && dryRun)
  }

  /** Patches, fetches and clones change the checkout through contained code; a dry run and the two queries
      only read, a push changes no checkout, and anything else is unknown. */
  function ClassifyGit(strip: string -> string, p: Payload): (r: Resolution)
    ensures r.effect.StructuredMutation? <==> GitWrites(strip(p.operation), p.dryRun)
    ensures r.effect.ReadOnly? <==> GitLooks(strip(p.operation), p.dryRun)
    ensures r.effect.NonRepositoryMutation? <==> strip(p.operation) == "push"
    ensures r.coverage == if r.effect.StructuredMutation? then Proven else if r.effect.Unknown? then Unproven else NotRequired
    ensures !r.effect.ProcessMutation? && !r.effect.Mixed?
  {
    var operation := strip(p.operation);
    if operation == "apply_patch" && p.dryRun then Resolution(ReadOnly, NotRequired, "apply_patch:dry_run", None)
    else if operation in GIT_EFFECTS then GIT_EFFECTS[operation]
    else Unclear(if operation == "" then "missing" else operation, "unknown_git_selector")
  }

  function GitInventory(): seq<Resolution> {
    [GIT_EFFECTS["apply_patch"], GIT_EFFECTS["clone"], GIT_EFFECTS["diff"], GIT_EFFECTS["fetch"],
     GIT_EFFECTS["ls_remote"], GIT_EFFECTS["push"]]
  }

  lemma GitCovered(strip: string -> string)
    ensures Covers(GitInventory(), p => ClassifyGit(strip, p))
    ensures forall k | 0 <= k < |GitInventory()| :: ResolutionReady(GitInventory()[k])
  {
    forall p: Payload | Mutates(ClassifyGit(strip, p).effect)
      ensures exists k | 0 <= k < |GitInventory()| :: SameKind(GitInventory()[k], ClassifyGit(strip, p))
    {
      assert SameKind(GitInventory()[0], ClassifyGit(strip, p));
    }
  }

  // ---------- local_api ----------

  /** The operator declared this action to change no checkout, on an endpoint that starts no process. */
  predicate DeclaredHarmless(endpoint: Endpoint, action: string) {
    && !endpoint.runAs && action in endpoint.actions
    && (endpoint.actions[action] == Some(ReadOnly) || endpoint.actions[action] == Some(NonRepositoryMutation))
  }

  /** Operator metadata may describe an effect but never vouches for containment: nothing configured is
      proven, a relayed endpoint is an uncontained process whatever it says, elsewhere the declared effect
      stands, and an action is ready exactly when it is declared harmless. */
  function ConfiguredEffect(endpoint: Endpoint, action: string, selector: string): (r: Resolution)
    requires action in endpoint.actions
    ensures !r.coverage.Proven? && (r.coverage.NotRequired? <==> DeclaredHarmless(endpoint, action))
    ensures endpoint.runAs ==> r.effect.ProcessMutation?
    ensures !endpoint.runAs && endpoint.actions[action].Some? ==> Some(r.effect) == endpoint.actions[action]
    ensures !endpoint.runAs && endpoint.actions[action].None? ==> r.effect.Unknown?
    ensures ResolutionReady(r) <==> DeclaredHarmless(endpoint, action)
  {
    if endpoint.runAs then Resolution(ProcessMutation, Unproven, selector, Some("external_local_api_run_as_unproven"))
    else
      var effect := match endpoint.actions[action] case Some(e) => e case None => Unknown;
      Resolution(effect, if effect.ReadOnly? || effect.NonRepositoryMutation? then NotRequired else Unproven, selector,
                 if effect.Unknown? then Some("external_local_api_effect_unknown") else None)
  }

  /** What the provider says of an action, if it says anything. */
  function Said(provider: Provider, action: string): Option<Resolution> {
    if provider.resolver.None? then None else provider.resolver.value(action)
  }

  predicate SaidReady(provider: Provider, action: string) {
    Said(provider, action).Some? && ResolutionReady(Said(provider, action).value)
  }

  /** A built-in action resolves to what its provider says, effect and coverage alike, and to an unknown
      effect when the provider says nothing. */
  function BuiltinEffect(provider: Provider, action: string, selector: string): (r: Resolution)
    ensures Said(provider, action).Some? ==> SameKind(r, Said(provider, action).value)
    ensures Said(provider, action).None? ==> r.effect.Unknown? && r.coverage.Unproven?
    ensures ResolutionReady(r) <==> SaidReady(provider, action)
  {
    if provider.resolver.None? then Unclear(selector, "builtin_effect_metadata_unavailable")
    else match provider.resolver.value(action)
      case None => Unclear(selector, "builtin_effect_metadata_invalid")
      case Some(raw) => Resolution(raw.effect, raw.coverage, selector, raw.reason)
  }

  function OrMissing(s: string): string {
    if s == "" then "missing" else s
  }

  function ClassifyLocalApi(policy: Policy, p: Payload): Resolution {
    var operation, endpoint, action := policy.strip(p.operation), policy.strip(p.endpoint), policy.strip(p.action);
    var selector := OrMissing(endpoint) + "/" + OrMissing(action);
    if operation == "list" || operation == "describe" then Resolution(ReadOnly, NotRequired, operation, None)
    else if operation != "call" then Unclear(OrMissing(operation), "unknown_local_api_operation")
    else if endpoint in policy.localApis then
      if action !in policy.localApis[endpoint].actions then Unclear(selector, "configured_local_api_action_unknown")
      else ConfiguredEffect(policy.localApis[endpoint], action, selector)
    else if endpoint in policy.builtins then BuiltinEffect(policy.builtins[endpoint], action, selector)
    else Unclear(selector, "local_api_endpoint_unknown")
  }

  /** The configured endpoints and actions, sorted. */
  function ConfiguredEntries(policy: Policy, order: seq<(string, string)>): seq<Resolution> {
    if order == [] then []
    else
      var (endpoint, action) := order[0];
      (if endpoint in policy.localApis && action in policy.localApis[endpoint].actions
       then [ConfiguredEffect(policy.localApis[endpoint], action, endpoint + "/" + action)] else [])
      + ConfiguredEntries(policy, order[1..])
  }

  function ListedEntries(provider: Provider, endpoint: string, actions: seq<string>): seq<Resolution> {
    seq(|actions|, k requires 0 <= k < |actions| => BuiltinEffect(provider, actions[k], endpoint + "/" + actions[k]))
  }

  /** The built-in endpoints that no configured one shadows. */
  function BuiltinEntries(policy: Policy, order: seq<string>): seq<Resolution> {
    if order == [] then []
    else
      var endpoint := order[0];
      (if endpoint in policy.localApis || endpoint !in policy.builtins then []
       else match policy.builtins[endpoint].available
         case None => [Unclear(endpoint + "/unknown", "builtin_action_inventory_unavailable")]
         case Some(actions) => ListedEntries(policy.builtins[endpoint], endpoint, actions))
      + BuiltinEntries(policy, order[1..])
  }

  function LocalApiInventory(policy: Policy): seq<Resolution> {
    [Resolution(ReadOnly, NotRequired, "list", None), Resolution(ReadOnly, NotRequired, "describe", None)]
    + ConfiguredEntries(policy, policy.apiOrder) + BuiltinEntries(policy, policy.builtinOrder)
  }

  /** The two orders enumerate exactly what is configured and built in. */
  ghost predicate Enumerated(policy: Policy) {
    && (forall e, a | e in policy.localApis && a in policy.localApis[e].actions :: (e, a) in policy.apiOrder)
    && (forall e | e in policy.builtins :: e in policy.builtinOrder)
  }

  /** The payload calls a built-in action that its provider does not list and yet resolves to a mutation
      nobody proved contained. */
  predicate UnlistedMutation(policy: Policy, p: Payload) {
    var endpoint, action := policy.strip(p.endpoint), policy.strip(p.action);
    && policy.strip(p.operation) == "call"
    && endpoint !in policy.localApis && endpoint in policy.builtins
    && var provider := policy.builtins[endpoint];
       provider.available.Some? && action !in provider.available.value && !Safe(BuiltinEffect(provider, action, ""))
  }

  lemma {:induction false} ConfiguredListed(policy: Policy, order: seq<(string, string)>, e: string, a: string)
    requires e in policy.localApis && a in policy.localApis[e].actions && (e, a) in order
    ensures ConfiguredEffect(policy.localApis[e], a, e + "/" + a) in ConfiguredEntries(policy, order)
    decreases |order|
  {
    if order[0] != (e, a) {
      ConfiguredListed(policy, order[1..], e, a);
    }
  }

  lemma {:induction false} BuiltinListed(policy: Policy, order: seq<string>, e: string, a: string)
    requires e in policy.builtins && e !in policy.localApis && e in order
    ensures match policy.builtins[e].available
            case None => Unclear(e + "/unknown", "builtin_action_inventory_unavailable") in BuiltinEntries(policy, order)
            case Some(actions) =>
              a in actions ==> BuiltinEffect(policy.builtins[e], a, e + "/" + a) in BuiltinEntries(policy, order)
    decreases |order|
  {
    if order[0] != e {
      BuiltinListed(policy, order[1..], e, a);
    } else if policy.builtins[e].available.Some? && a in policy.builtins[e].available.value {
      var actions := policy.builtins[e].available.value;
      var k :| 0 <= k < |actions| && actions[k] == a;
      assert ListedEntries(policy.builtins[e], e, actions)[k] == BuiltinEffect(policy.builtins[e], a, e + "/" + a);
    }
  }

  lemma InventoryHolds(policy: Policy)
    ensures forall r | r in ConfiguredEntries(policy, policy.apiOrder) :: r in LocalApiInventory(policy)
    ensures forall r | r in BuiltinEntries(policy, policy.builtinOrder) :: r in LocalApiInventory(policy)
  {
  }

  lemma ConfiguredReady(policy: Policy, e: string, a: string)
    requires Enumerated(policy) && forall r | r in LocalApiInventory(policy) :: ResolutionReady(r)
    requires e in policy.localApis && a in policy.localApis[e].actions
    ensures ResolutionReady(ConfiguredEffect(policy.localApis[e], a, e + "/" + a))
  {
    ConfiguredListed(policy, policy.apiOrder, e, a);
    InventoryHolds(policy);
  }

  lemma BuiltinReady(policy: Policy, e: string, a: string)
    requires Enumerated(policy) && forall r | r in LocalApiInventory(policy) :: ResolutionReady(r)
    requires e in policy.builtins && e !in policy.localApis
    ensures policy.builtins[e].available.Some?
    ensures a in policy.builtins[e].available.value ==>
              ResolutionReady(BuiltinEffect(policy.builtins[e], a, e + "/" + a))
  {
    BuiltinListed(policy, policy.builtinOrder, e, a);
    InventoryHolds(policy);
    assert policy.builtins[e].available.None? ==>
        Unclear(e + "/unknown", "builtin_action_inventory_unavailable") in LocalApiInventory(policy);
  }

  /** When its inventory is ready, local_api resolves a payload safely exactly when the payload is no call
      of an unlisted built-in mutation. */
  lemma LocalApiSafeIff(policy: Policy, p: Payload)
    requires Enumerated(policy)
    requires forall r | r in LocalApiInventory(policy) :: ResolutionReady(r)
    ensures Safe(ClassifyLocalApi(policy, p)) <==> !UnlistedMutation(policy, p)
  {
    var endpoint, action := policy.strip(p.endpoint), policy.strip(p.action);
    if endpoint in policy.localApis {
      if action in policy.localApis[endpoint].actions { ConfiguredReady(policy, endpoint, action); }
    } else if endpoint in policy.builtins {
      BuiltinReady(policy, endpoint, action);
    }
  }

  /** Every configured action is declared harmless, and every built-in endpoint that no configured one
      shadows lists its actions and says of each that it is harmless or contained. */
  ghost predicate LocalApiContained(policy: Policy) {
    && (forall e, a | e in policy.localApis && a in policy.localApis[e].actions ::
          DeclaredHarmless(policy.localApis[e], a))
    && (forall e | e in policy.builtins && e !in policy.localApis ::
          policy.builtins[e].available.Some?
          && forall a | a in policy.builtins[e].available.value :: SaidReady(policy.builtins[e], a))
  }

  lemma {:induction false} ConfiguredEntriesReady(policy: Policy, order: seq<(string, string)>)
    requires LocalApiContained(policy)
    ensures forall r | r in ConfiguredEntries(policy, order) :: ResolutionReady(r)
    decreases |order|
  {
    if order != [] {
      ConfiguredEntriesReady(policy, order[1..]);
    }
  }

  lemma {:induction false} BuiltinEntriesReady(policy: Policy, order: seq<string>)
    requires LocalApiContained(policy)
    ensures forall r | r in BuiltinEntries(policy, order) :: ResolutionReady(r)
    decreases |order|
  {
    if order != [] {
      BuiltinEntriesReady(policy, order[1..]);
    }
  }

  /** The local_api inventory is ready exactly when everything an operator configured is harmless and
      everything built in is listed and vouched for by its provider. */
  lemma LocalApiReadyIff(policy: Policy)
    requires Enumerated(policy)
    ensures (forall r | r in LocalApiInventory(policy) :: ResolutionReady(r)) <==> LocalApiContained(policy)
  {
    if forall r | r in LocalApiInventory(policy) :: ResolutionReady(r) {
      forall e, a | e in policy.localApis && a in policy.localApis[e].actions
        ensures DeclaredHarmless(policy.localApis[e], a) {
        ConfiguredReady(policy, e, a);
      }
      forall e | e in policy.builtins && e !in policy.localApis
        ensures policy.builtins[e].available.Some?
        ensures forall a | a in policy.builtins[e].available.value :: SaidReady(policy.builtins[e], a) {
        BuiltinReady(policy, e, "");
        forall a | a in policy.builtins[e].available.value ensures SaidReady(policy.builtins[e], a) {
          BuiltinReady(policy, e, a);
        }
      }
    }
    if LocalApiContained(policy) {
      ConfiguredEntriesReady(policy, policy.apiOrder);
      BuiltinEntriesReady(policy, policy.builtinOrder);
    }
  }

  // ---------- the effective surface ----------

  const EXPORTS := {"file_export_init", "file_export_chunk", "file_export_complete"}
  const READERS := {"ping", "capabilities", "help", "state", "read", "list", "search", "project_snapshot", "read_audit"}
  const WRITERS := {
    "edit", "edit_upload_init", "edit_upload_file", "edit_upload_complete", "move", "copy", "delete", "chmod", "chown",
    "upload_file", "upload_init", "upload_chunk", "upload_complete"
  }

  function Describe(name: string, handler: Handler, policy: Policy): (reg: Registration)
    ensures reg.handler == handler && (reg.exposure.Internal? <==> name in EXPORTS)
  {
    if name in EXPORTS then Registration(handler, Internal, ReadOnly, NotRequired, None, None)
    else if name in READERS then Registration(handler, ModelFacing, ReadOnly, NotRequired, None, None)
    else if name == "mutation_scope" || name == "service" || name == "restart" then
      Registration(handler, ModelFacing, NonRepositoryMutation, NotRequired, None, None)
    else if name in WRITERS then Registration(handler, ModelFacing, StructuredMutation, Proven, None, None)
    else if name == "exec" then Registration(handler, ModelFacing, ProcessMutation, Unproven, None, None)
    else if name == "script_run" then
      Registration(handler, ModelFacing, Mixed, Unproven,
                   Some(p => ClassifyScriptRun(policy, p)), Some(ScriptRunInventory(policy)))
    else if name == "git" then
      Registration(handler, ModelFacing, Mixed, Unproven, Some(p => ClassifyGit(policy.strip, p)), Some(GitInventory()))
    else if name == "local_api" then
      Registration(handler, ModelFacing, Mixed, Unproven,
                   Some(p => ClassifyLocalApi(policy, p)), Some(LocalApiInventory(policy)))
    else Registration(handler, ModelFacing, Unknown, Unproven, None, None)
  }

  /** The firewall guarantee, exactly: under a ready registration of the effective surface a payload
      resolves to an uncontained mutation only as a call of an unlisted built-in mutation. */
  lemma ReadySurfaceIsSafe(registrations: map<string, Registration>, name: string, handler: Handler, policy: Policy,
                           payload: Payload)
    requires name in registrations && registrations[name] == Describe(name, handler, policy)
    requires name !in EXPORTS && RegistrationReady(registrations[name])
    requires Enumerated(policy)
    ensures Safe(Resolve(registrations, name, payload)) <==> !(name == "local_api" && UnlistedMutation(policy, payload))
  {
    if name == "local_api" {
      LocalApiSafeIff(policy, payload);
    } else {
      if name == "script_run" { ScriptRunCovered(policy); }
      if name == "git" { GitCovered(policy.strip); }
      ReadyResolvesSafely(registrations, name, payload);
    }
  }

  /** The operations that readiness admits, by name and by what the policy says of them. */
  ghost predicate Admitted(name: string, policy: Policy) {
    || name in EXPORTS || name in READERS || name in WRITERS
    || name in {"mutation_scope", "service", "restart", "git"}
    || (name == "script_run" && policy.configured && policy.scopedEnabled && !policy.unrestrictedEnabled)
    || (name == "local_api" && LocalApiContained(policy))
  }

  /** An operation is ready exactly when it is an admitted one. */
  lemma ReadyIff(name: string, handler: Handler, policy: Policy)
    requires Enumerated(policy)
    ensures RegistrationReady(Describe(name, handler, policy)) <==> Admitted(name, policy)
  {
    hide EXPORTS, READERS, WRITERS, LocalApiInventory, LocalApiContained, ClassifyGit, ClassifyScriptRun, ClassifyLocalApi;
    NamesDiffer(name);
    if name == "script_run" {
      ScriptRunReadyIff(policy);
    } else if name == "local_api" {
      LocalApiReadyIff(policy);
      assert LocalApiInventory(policy) != [] by { InventoryIsNotEmpty(policy); }
    } else if name == "git" {
      GitCovered(policy.strip);
    }
  }

  lemma InventoryIsNotEmpty(policy: Policy)
    ensures LocalApiInventory(policy) != []
  {
  }

  lemma ScriptRunReadyIff(policy: Policy)
    ensures ScriptRunInventory(policy) != []
    ensures (forall r | r in ScriptRunInventory(policy) :: ResolutionReady(r))
       <==> policy.configured && policy.scopedEnabled && !policy.unrestrictedEnabled
  {
    var inventory := ScriptRunInventory(policy);
    assert inventory[|inventory| - 1] in inventory;
  }

  /** Generic execution, an unprofiled or unrestricted script_run, a local_api on which an operator configured
      a relay or an action not declared harmless, and every operation nobody described keep readiness from
      being declared. */
  lemma NeverReady(name: string, handler: Handler, policy: Policy)
    requires Enumerated(policy)
    requires || name == "exec"
             || (name == "script_run" && (!policy.configured || policy.unrestrictedEnabled))
             || (name == "local_api" && exists e, a | e in policy.localApis && a in policy.localApis[e].actions ::
                   !DeclaredHarmless(policy.localApis[e], a))
             || Describe(name, handler, policy).effect.Unknown?
    ensures !RegistrationReady(Describe(name, handler, policy))
  {
    hide EXPORTS, READERS, WRITERS, LocalApiInventory, ClassifyGit, ClassifyScriptRun, ClassifyLocalApi, RegistrationReady;
    NamesDiffer(name);
    ReadyIff(name, handler, policy);
  }

  // ---------- what a payload comes to ----------

  /** What local_api comes to when it is asked to call something: an operator's metadata or a provider's word. */
  predicate CallsInto(policy: Policy, p: Payload, effects: set<Effect>) {
    var endpoint, action := policy.strip(p.endpoint), policy.strip(p.action);
    && policy.strip(p.operation) == "call"
    && if endpoint in policy.localApis then
         && action in policy.localApis[endpoint].actions
         && if policy.localApis[endpoint].runAs then ProcessMutation in effects
            else policy.localApis[endpoint].actions[action].Some?
                 && policy.localApis[endpoint].actions[action].value in effects
       else
         && endpoint in policy.builtins && Said(policy.builtins[endpoint], action).Some?
         && Said(policy.builtins[endpoint], action).value.effect in effects
  }

  /** The call changes a repository, or may: it writes a file, changes a checkout, or starts a process. */
  ghost predicate Changes(name: string, policy: Policy, p: Payload) {
    || name in WRITERS || name == "exec"
    || (name == "script_run" && (RunsScoped(policy, p) || RunsFree(policy, p)))
    || (name == "git" && GitWrites(policy.strip(p.operation), p.dryRun))
    || (name == "local_api" && CallsInto(policy, p, {StructuredMutation, ProcessMutation}))
  }

  /** The call changes no repository: it only reads, or it changes something else. */
  ghost predicate Harmless(name: string, policy: Policy, p: Payload) {
    || name in EXPORTS || name in READERS || name in {"mutation_scope", "service", "restart"}
    || (name == "git" && (GitLooks(policy.strip(p.operation), p.dryRun) || policy.strip(p.operation) == "push"))
    || (name == "local_api"
        && (policy.strip(p.operation) in {"list", "describe"}
            || CallsInto(policy, p, {ReadOnly, NonRepositoryMutation})))
  }

  /** The call is contained by this program itself; for a built-in action that is its provider's word. */
  ghost predicate Contained(name: string, policy: Policy, p: Payload) {
    || name in WRITERS || (name == "script_run" && RunsScoped(policy, p))
    || (name == "git" && GitWrites(policy.strip(p.operation), p.dryRun))
    || (name == "local_api" && policy.strip(p.operation) == "call"
        && policy.strip(p.endpoint) !in policy.localApis && policy.strip(p.endpoint) in policy.builtins
        && var said := Said(policy.builtins[policy.strip(p.endpoint)], policy.strip(p.action));
           said.Some? && said.value.coverage.Proven?)
  }

  /** The resolution is what its call is: a mutation exactly when the call changes a repository, harmless
      exactly when it does not, and contained exactly when the call is. */
  ghost predicate Meant(r: Resolution, name: string, policy: Policy, p: Payload) {
    && (Mutates(r.effect) <==> Changes(name, policy, p))
    && (r.effect.ReadOnly? || r.effect.NonRepositoryMutation? <==> Harmless(name, policy, p))
    && (r.coverage.Proven? <==> Contained(name, policy, p))
  }

  lemma NamesDiffer(name: string)
    ensures name in EXPORTS ==> name !in READERS && name !in WRITERS
    ensures name in READERS ==> name !in WRITERS
    ensures name in {"mutation_scope", "service", "restart", "exec", "script_run", "git", "local_api"} ==>
              name !in EXPORTS && name !in READERS && name !in WRITERS
  {
  }

  lemma LocalApiMeans(policy: Policy, p: Payload)
    ensures Meant(ClassifyLocalApi(policy, p), "local_api", policy, p)
  {
    hide ConfiguredEffect, BuiltinEffect, GitWrites, GitLooks, RunsScoped, RunsFree;
    hide EXPORTS, READERS, WRITERS;
    NamesDiffer("local_api");
  }

  /** Nothing that changes a repository passes as harmless, and nothing uncontained as contained, whatever
      operation and payload. */
  lemma ResolvesAsIs(registrations: map<string, Registration>, name: string, handler: Handler, policy: Policy,
                     payload: Payload)
    requires name in registrations && registrations[name] == Describe(name, handler, policy)
    ensures Meant(Resolve(registrations, name, payload), name, policy, payload)
  {
    hide ClassifyScriptRun, ClassifyGit, ClassifyLocalApi, CallsInto, GitWrites, GitLooks, RunsScoped, RunsFree;
    hide EXPORTS, READERS, WRITERS;
    NamesDiffer(name);
    if name == "local_api" {
      LocalApiMeans(policy, payload);
    } else if name == "script_run" {
      ScriptRunMeans(policy, payload);
    }
  }

  class Registry {
    var registrations: map<string, Registration>
    /** The names in the order of their first registration. */
    var order: seq<string>

    ghost predicate Valid()
      reads this
    {
      && (forall name :: name in registrations <==> name in order)
      && (forall i, k | 0 <= i < k < |order| :: order[i] != order[k])
      && (forall name | name in registrations ::
            registrations[name].effect.Mixed? ==> registrations[name].classifier.Some?)
    }

    constructor ()
      ensures Valid() && registrations == map[] && order == []
    {
      registrations, order := map[], [];
    }

    /** A mixed operation without a classifier is refused; a re-registered name keeps its place. */
    method Register(name: string, reg: Registration) returns (accepted: bool)
      requires Valid()
      modifies this
      ensures Valid()
      ensures accepted <==> !(reg.effect.Mixed? && reg.classifier.None?)
      ensures registrations == if accepted then old(registrations)[name := reg] else old(registrations)
      ensures order == if accepted && name !in old(registrations) then old(order) + [name] else old(order)
    {
      accepted := !(reg.effect.Mixed? && reg.classifier.None?);
      if accepted {
        if name !in registrations { order := order + [name]; }
        registrations := registrations[name := reg];
      }
    }

    /** A handler stored without semantics is unknown to readiness. */
    method SetItem(name: string, handler: Handler)
      requires Valid()
      modifies this
      ensures Valid() && name in registrations && !RegistrationReady(registrations[name])
      ensures registrations == old(registrations)[name := Registration(handler, ModelFacing, Unknown, Unproven, None, None)]
    {
      var accepted := Register(name, Registration(handler, ModelFacing, Unknown, Unproven, None, None));
    }

    method DeleteItem(name: string) returns (found: bool)
      requires Valid()
      modifies this
      ensures Valid() && (found <==> name in old(registrations))
      ensures registrations == old(registrations) - {name}
      ensures order == Without(old(order), name)
      ensures found ==> exists i | 0 <= i < |old(order)| ::
                old(order)[i] == name && order == old(order)[..i] + old(order)[i + 1..]
      ensures !found ==> order == old(order)
    {
      if name in order {
        ghost var i := WithoutCuts(order, name);
      } else {
        WithoutNothing(order, name);
      }
      found := name in registrations;
      WithoutKeepsOrder(order, name);
      registrations := registrations - {name};
      order := Without(order, name);
    }

    method ResolveEffect(name: string, payload: Payload) returns (r: Resolution)
      requires Valid()
      ensures r == Resolve(registrations, name, payload)
      ensures name !in registrations ==> !ResolutionReady(r)
    {
      if name !in registrations {
        return Resolution(Unknown, Unproven, name, Some("operation_not_registered"));
      }
      var reg := registrations[name];
      if !reg.effect.Mixed? {
        return Resolution(reg.effect, reg.coverage, name, None);
      }
      r := reg.classifier.value(payload);
    }

    /** Accumulate the reasons, operation by operation and entry by entry. */
    method FirewallReadiness() returns (ready: bool, reasons: seq<string>)
      requires Valid()
      ensures reasons == Reasons(order, registrations)
      ensures ready <==> forall name | name in registrations :: RegistrationReady(registrations[name])
    {
      reasons := [];
      var i := 0;
      while i < |order|
        invariant 0 <= i <= |order|
        invariant reasons == Reasons(order[..i], registrations)
      {
        var name := order[i];
        assert order[..i + 1][..i] == order[..i];
        i := i + 1;
        var reg := registrations[name];
        if reg.exposure.Internal? { continue; }
        if reg.effect.Mixed? {
          if reg.inventory.None? {
            reasons := reasons + [name + ":mixed_effect_inventory_missing"];
            continue;
          }
          if reg.inventory.value == [] {
            reasons := reasons + [name + ":mixed_effect_inventory_empty"];
            continue;
          }
          var found := CollectReasons(name, reg.inventory.value);
          reasons := reasons + found;
          continue;
        }
        if !ResolutionReady(Resolution(reg.effect, reg.coverage, name, None)) {
          reasons := reasons + [name + ":" + EffectName(reg.effect)];
        }
      }
      assert order[..i] == order;
      NoReasonsIff(order, registrations);
      ready := reasons == [];
    }
  }

  method CollectReasons(name: string, entries: seq<Resolution>) returns (reasons: seq<string>)
    ensures reasons == EntryReasons(name, entries)
  {
    reasons := [];
    for k := 0 to |entries|
      invariant reasons == EntryReasons(name, entries[..k])
    {
      assert entries[..k + 1][..k] == entries[..k];
      reasons := reasons + EntryReason(name, entries[k]);
    }
    assert entries[..|entries|] == entries;
  }

  function Without(order: seq<string>, name: string): seq<string> {
    if order == [] then []
    else (if order[0] == name then [] else [order[0]]) + Without(order[1..], name)
  }

  lemma {:induction false} WithoutNothing(order: seq<string>, name: string)
    requires name !in order
    ensures Without(order, name) == order
    decreases |order|
  {
    if order != [] {
      WithoutNothing(order[1..], name);
    }
  }

  /** The one place of the name is cut out; what is before and behind it stays as it was. */
  lemma {:induction false} WithoutCuts(order: seq<string>, name: string) returns (i: nat)
    requires name in order && forall i, k | 0 <= i < k < |order| :: order[i] != order[k]
    ensures i < |order| && order[i] == name && Without(order, name) == order[..i] + order[i + 1..]
    decreases |order|
  {
    if order[0] == name {
      i := 0;
      WithoutNothing(order[1..], name);
    } else {
      i := WithoutCuts(order[1..], name);
      i := i + 1;
      assert order[..i] == [order[0]] + order[1..][..i - 1] && order[1..][i..] == order[i + 1..];
    }
  }

  lemma {:induction false} WithoutKeepsOrder(order: seq<string>, name: string)
    requires forall i, k | 0 <= i < k < |order| :: order[i] != order[k]
    ensures forall i, k | 0 <= i < k < |Without(order, name)| :: Without(order, name)[i] != Without(order, name)[k]
    ensures forall other :: other in Without(order, name) <==> other in order && other != name
    decreases |order|
  {
    if order != [] {
      assert order == [order[0]] + order[1..];
      WithoutKeepsOrder(order[1..], name);
      var rest := Without(order[1..], name);
      assert order[0] !in order[1..];
      assert forall k | 0 <= k < |rest| :: rest[k] in rest;
    }
  }

  /** The registrations are those of the first `n` dispatch entries, and no others. */
  ghost predicate Bound(dispatch: seq<(string, Handler)>, n: nat, policy: Policy, registrations: map<string, Registration>)
    requires n <= |dispatch|
  {
    && (forall i | 0 <= i < n ::
          dispatch[i].0 in registrations
          && registrations[dispatch[i].0] == Describe(dispatch[i].0, dispatch[i].1, policy))
    && (forall name | name in registrations :: exists i | 0 <= i < n :: dispatch[i].0 == name)
  }

  lemma DescribesItsMixedOnes(name: string, handler: Handler, policy: Policy)
    ensures var reg := Describe(name, handler, policy); reg.effect.Mixed? ==> reg.classifier.Some?
  {
  }

  lemma BoundGrows(dispatch: seq<(string, Handler)>, n: nat, policy: Policy, registrations: map<string, Registration>,
                   reg: Registration)
    requires n < |dispatch| && forall i, k | 0 <= i < k < |dispatch| :: dispatch[i].0 != dispatch[k].0
    requires Bound(dispatch, n, policy, registrations) && reg == Describe(dispatch[n].0, dispatch[n].1, policy)
    ensures Bound(dispatch, n + 1, policy, registrations[dispatch[n].0 := reg])
  {
    forall name | name in registrations ensures exists i | 0 <= i < n + 1 :: dispatch[i].0 == name {
      var i :| 0 <= i < n && dispatch[i].0 == name;
      assert 0 <= i < n + 1;
    }
  }

  /** Bind effect semantics to every entry of the dispatch surface. */
  method BuildEffectRegistry(dispatch: seq<(string, Handler)>, policy: Policy) returns (registry: Registry)
    requires forall i, k | 0 <= i < k < |dispatch| :: dispatch[i].0 != dispatch[k].0
    ensures fresh(registry) && registry.Valid()
    ensures Bound(dispatch, |dispatch|, policy, registry.registrations)
  {
    registry := new Registry();
    for n := 0 to |dispatch|
      invariant fresh(registry) && registry.Valid()
      invariant Bound(dispatch, n, policy, registry.registrations)
    {
      var (name, handler) := dispatch[n];
      var reg := Describe(name, handler, policy);
      DescribesItsMixedOnes(name, handler, policy);
      BoundGrows(dispatch, n, policy, registry.registrations, reg);
      var accepted := registry.Register(name, reg);
    }
  }

  /** The whole firewall: build, decide readiness, resolve any payload of any model-facing operation. */
  method ResolveWhenReady(dispatch: seq<(string, Handler)>, policy: Policy, name: string, payload: Payload)
    returns (ready: bool, r: Resolution)
    requires forall i, k | 0 <= i < k < |dispatch| :: dispatch[i].0 != dispatch[k].0
    requires Enumerated(policy)
    ensures ready && (exists i | 0 <= i < |dispatch| :: dispatch[i].0 == name) && name !in EXPORTS ==>
              ((Mutates(r.effect) ==> r.coverage.Proven?)
               <==> !(name == "local_api" && UnlistedMutation(policy, payload)))
    ensures ready <==> forall i | 0 <= i < |dispatch| :: Admitted(dispatch[i].0, policy)
    ensures (exists i | 0 <= i < |dispatch| :: dispatch[i].0 == name) ==>
              Meant(r, name, policy, payload)
  {
    hide Describe, Meant, Admitted, UnlistedMutation, Resolve, Enumerated, RegistrationReady;
    var registry := BuildEffectRegistry(dispatch, policy);
    var reasons;
    ready, reasons := registry.FirewallReadiness();
    r := registry.ResolveEffect(name, payload);
    forall i | 0 <= i < |dispatch|
      ensures RegistrationReady(registry.registrations[dispatch[i].0]) <==> Admitted(dispatch[i].0, policy) {
      ReadyIff(dispatch[i].0, dispatch[i].1, policy);
    }
    if name in registry.registrations {
      ghost var i :| 0 <= i < |dispatch| && dispatch[i].0 == name;
      ResolvesAsIs(registry.registrations, name, dispatch[i].1, policy, payload);
      if ready && name !in EXPORTS {
        ReadySurfaceIsSafe(registry.registrations, name, dispatch[i].1, policy, payload);
      }
    }
  }

  /** A provider that lists no action and resolves every one to an uncontained process. */
  function SilentPolicy(): Policy {
    Policy(true, true, false, map[],
           map["tool" := Provider(Some(action => Some(Resolution(ProcessMutation, Unproven, "", None))), Some([]))],
           [], ["tool"], text => text)
  }

  /** The exception is real: with this policy local_api is ready, and one call resolves to an uncontained
      mutation. */
  lemma UnlistedMutationExists()
    ensures Enumerated(SilentPolicy()) && RegistrationReady(Describe("local_api", "handler", SilentPolicy()))
    ensures var p := Payload("call", false, "tool", "run", None, None);
            UnlistedMutation(SilentPolicy(), p) && !Safe(ClassifyLocalApi(SilentPolicy(), p))
  {
    var policy := SilentPolicy();
    assert BuiltinEntries(policy, ["tool"][1..]) == [] && BuiltinEntries(policy, ["tool"]) == [];
    assert LocalApiInventory(policy)
        == [Resolution(ReadOnly, NotRequired, "list", None), Resolution(ReadOnly, NotRequired, "describe", None)];
    var p := Payload("call", false, "tool", "run", None, None);
    assert BuiltinEffect(policy.builtins["tool"], "run", "") == Resolution(ProcessMutation, Unproven, "", None);
    ReadyLocalApi(policy);
    LocalApiSafeIff(policy, p);
  }

  lemma ReadyLocalApi(policy: Policy)
    requires forall r | r in LocalApiInventory(policy) :: ResolutionReady(r)
    ensures RegistrationReady(Describe("local_api", "handler", policy))
  {
  }
}
