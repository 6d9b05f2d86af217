/** Safety of the operator over whole runs, and what one undisturbed
    reconciliation achieves. */
module ReconcilerLaws {
  import opened Wrappers
  import opened AlertmanagerTypes
  import opened Subroutes
  import opened Compiler
  import opened Closure
  import opened Validation
  import opened Readiness
  import opened ReadinessLaws
  import opened Namespaces
  import opened Metrics
  import opened Reconciler
  import opened Routing

  // ---------- Runs ----------

  /** A reconciliation with any answers, any change of the stored objects, or a new
      process, which forgets the engine and the gauges. */
  datatype Action =
    | Reconcile(request: Request, resp: Responses)
    | ChangeCluster(store: Store)
    | Restart

  function Perform(libs: Libraries, fedramp: bool, w: World, action: Action): World {
    match action
    case Reconcile(request, resp) => Reconciled(libs, fedramp, w, request, resp).0
    case ChangeCluster(store) => w.(store := store, trace := w.trace + [ClusterChanged])
    case Restart => w.(engine := FRESH_ENGINE, gauges := UNSET_GAUGES, trace := w.trace + [Restarted])
  }

  function Run(libs: Libraries, fedramp: bool, w: World, actions: seq<Action>): World
    decreases actions
  {
    hide Perform;
    if actions == [] then w else Run(libs, fedramp, Perform(libs, fedramp, w, actions[0]), actions[1..])
  }

  predicate IsStart(w: World) {
    w.engine == FRESH_ENGINE && w.gauges == UNSET_GAUGES && w.trace == []
  }

  // ---------- What the history says ----------

  const PAGING := {"pagerduty", "make-it-warning", "make-it-error", "make-it-critical", "cad-pagerduty",
                   "goalert", "goalert-high", "goalert-heartbeat"}

  predicate Pages(cfg: Config) {
    exists i :: 0 <= i < |cfg.receivers| && cfg.receivers[i].name in PAGING
  }

  /** Settled operators, or a known age beyond the limit. */
  predicate Evidence(probe: Probe, created: int) {
    AllWell(probe.operators) || (created != ZERO_TIME && BeyondAge(created, probe.maxAge, probe.now))
  }

  /** Readiness was declared, on evidence, since the process last started. */
  predicate ReadySinceStart(trace: seq<Event>) {
    trace != [] &&
    var last := trace[|trace| - 1];
    match last
    case DeclaredReady(probe, created) => Evidence(probe, created)
    case Restarted => false
    case _ => ReadySinceStart(trace[..|trace| - 1])
  }

  predicate GoodEvent(libs: Libraries, before: seq<Event>, event: Event) {
    event.Wrote? ==>
      && Validated(libs, event.cfg) == Some(event.text)
      && (Pages(event.cfg) ==> ReadySinceStart(before))
  }

  predicate GoodTrace(libs: Libraries, trace: seq<Event>) {
    forall i :: 0 <= i < |trace| ==> GoodEvent(libs, trace[..i], trace[i])
  }

  /** The validation gauge that the history calls for. */
  function Verdict(trace: seq<Event>): Option<int> {
    if trace == [] then None
    else match trace[|trace| - 1]
      case Restarted => None
      case Wrote(_, _) => Some(0)
      case AttemptFailed => Some(1)
      case _ => Verdict(trace[..|trace| - 1])
  }

  /** The text `alertmanager-main` must hold, when the operator touched it last. */
  function LastWritten(trace: seq<Event>): Option<string> {
    if trace == [] then None
    else match trace[|trace| - 1]
      case ClusterChanged => None
      case Wrote(_, text) => Some(text)
      case _ => LastWritten(trace[..|trace| - 1])
  }

  function Main(store: Store): Option<string> {
    if "alertmanager-main" in store.secrets && "alertmanager.yaml" in store.secrets["alertmanager-main"]
    then Some(store.secrets["alertmanager-main"]["alertmanager.yaml"]) else None
  }

  predicate Good(libs: Libraries, w: World) {
    && GoodTrace(libs, w.trace)
    && Consistent(w.engine)
    && (w.engine.ready ==> ReadySinceStart(w.trace))
    && w.gauges.validationFailed == Verdict(w.trace)
    && (LastWritten(w.trace).Some? ==> Main(w.store) == LastWritten(w.trace))
  }

  // ---------- Each step keeps it ----------

  lemma ExtendTrace(libs: Libraries, trace: seq<Event>, event: Event)
    requires GoodTrace(libs, trace) && GoodEvent(libs, trace, event)
    ensures GoodTrace(libs, trace + [event])
  {
    var longer := trace + [event];
    forall i | 0 <= i < |longer|
      ensures GoodEvent(libs, longer[..i], longer[i])
    {
      assert longer[..i] == trace[..i];
      assert i == |trace| ==> trace[..i] == trace;
    }
  }

  lemma LastOf(trace: seq<Event>, event: Event)
    ensures (trace + [event])[..|trace + [event]| - 1] == trace
  {
  }

  /** A paging receiver is compiled in only from a key that readiness let through. */
  lemma PagesOnlyWhenReady(libs: Libraries, resp: Responses, ready: bool, fedramp: bool)
    ensures Pages(Compiled(InputsFrom(libs, resp, ready), fedramp)) ==> ready
  {
    hide Compiled, NamespaceList, NameSet;
    var inp := InputsFrom(libs, resp, ready);
    var cfg := Compiled(inp, fedramp);
    ConfigClosed(inp, fedramp);
    if Pages(cfg) {
      var i :| 0 <= i < |cfg.receivers| && cfg.receivers[i].name in PAGING;
      NameDefined(cfg.receivers, i);
      assert cfg.receivers[i].name in ConfiguredNames(inp);
    }
  }

  lemma NameDefined(receivers: seq<Receiver>, i: nat)
    requires i < |receivers|
    ensures receivers[i].name in NameSet(receivers)
  {
  }

  lemma ProbeKeepsGood(libs: Libraries, w: World, probe: Probe)
    requires Good(libs, w)
    ensures Good(libs, AfterProbe(w, probe))
  {
    var after := AfterProbe(w, probe);
    if after.engine.ready && !w.engine.ready {
      var event := DeclaredReady(probe, after.engine.created);
      ReadyOnEvidence(w.engine, probe);
      ExtendTrace(libs, w.trace, event);
      LastOf(w.trace, event);
    }
  }

  lemma WriteKeepsGood(libs: Libraries, w: World, cfg: Config, resp: Responses)
    requires Good(libs, w) && (Pages(cfg) ==> w.engine.ready)
    ensures Good(libs, AfterWrite(libs, w, cfg, resp))
  {
    hide Pages, Consistent;
    var after := AfterWrite(libs, w, cfg, resp);
    var event := after.trace[|w.trace|];
    assert after.trace == w.trace + [event];
    ExtendTrace(libs, w.trace, event);
    LastOf(w.trace, event);
  }

  lemma ReconcileKeepsGood(libs: Libraries, fedramp: bool, w: World, request: Request, resp: Responses)
    requires Good(libs, w)
    ensures Good(libs, Reconciled(libs, fedramp, w, request, resp).0)
  {
    hide Compiled, InputsFrom, AfterWrite, AfterProbe, Pages;
    if Proceeds(request) {
      var probed, answer := AfterProbe(w, resp.probe), Step(w.engine, resp.probe).1;
      ProbeKeepsGood(libs, w, resp.probe);
      if answer != Failed {
        var cfg := Compiled(InputsFrom(libs, resp, answer == Ready), fedramp);
        PagesOnlyWhenReady(libs, resp, answer == Ready, fedramp);
        ProbedEngine(w, resp.probe);
        WriteKeepsGood(libs, probed, cfg, resp);
      }
    }
  }

  lemma ProbedEngine(w: World, probe: Probe)
    ensures AfterProbe(w, probe).engine == Step(w.engine, probe).0
    ensures Consistent(w.engine) && Step(w.engine, probe).1 == Ready ==> AfterProbe(w, probe).engine.ready
  {
  }

  lemma PerformKeepsGood(libs: Libraries, fedramp: bool, w: World, action: Action)
    requires Good(libs, w)
    ensures Good(libs, Perform(libs, fedramp, w, action))
  {
    hide Reconciled;
    match action {
      case Reconcile(request, resp) => ReconcileKeepsGood(libs, fedramp, w, request, resp);
      case ChangeCluster(_) =>
        ExtendTrace(libs, w.trace, ClusterChanged);
        LastOf(w.trace, ClusterChanged);
      case Restart =>
        ExtendTrace(libs, w.trace, Restarted);
        LastOf(w.trace, Restarted);
    }
  }

  lemma {:induction false} RunKeepsGood(libs: Libraries, fedramp: bool, w: World, actions: seq<Action>)
    requires Good(libs, w)
    ensures Good(libs, Run(libs, fedramp, w, actions))
    decreases actions
  {
    hide Perform, Good;
    if actions != [] {
      PerformKeepsGood(libs, fedramp, w, actions[0]);
      RunKeepsGood(libs, fedramp, Perform(libs, fedramp, w, actions[0]), actions[1..]);
    }
  }

  lemma StartIsGood(libs: Libraries, w: World)
    requires IsStart(w)
    ensures Good(libs, w)
  {
  }

  // ---------- Theorems over whole runs ----------

  /** Every value the operator ever put into `alertmanager-main` marshalled and passed
      Alertmanager's check, and until the cluster is changed by others the secret
      holds the latest such value. */
  lemma LastKnownGood(libs: Libraries, fedramp: bool, start: World, actions: seq<Action>)
    requires IsStart(start)
    ensures
      var w := Run(libs, fedramp, start, actions);
      && (forall i :: 0 <= i < |w.trace| && w.trace[i].Wrote? ==>
            libs.marshal(w.trace[i].cfg) == Some(w.trace[i].text) && libs.load(w.trace[i].text))
      && (LastWritten(w.trace).Some? ==> Main(w.store) == LastWritten(w.trace))
  {
    hide Perform, ReadySinceStart;
    StartIsGood(libs, start);
    RunKeepsGood(libs, fedramp, start, actions);
    var w := Run(libs, fedramp, start, actions);
    assert forall i :: 0 <= i < |w.trace| ==> GoodEvent(libs, w.trace[..i], w.trace[i]);
  }

  /** After any run the validation gauge tells the outcome of the latest write attempt
      of this process: 0 exactly when it both validated and wrote. */
  lemma GaugeTellsLastAttempt(libs: Libraries, fedramp: bool, start: World, actions: seq<Action>)
    requires IsStart(start)
    ensures
      var w := Run(libs, fedramp, start, actions);
      w.gauges.validationFailed == Verdict(w.trace)
  {
    hide Perform;
    StartIsGood(libs, start);
    RunKeepsGood(libs, fedramp, start, actions);
  }

  /** Where readiness was declared. */
  lemma {:induction false} DeclarationFound(trace: seq<Event>) returns (j: nat)
    requires ReadySinceStart(trace)
    ensures j < |trace| && trace[j].DeclaredReady? && Evidence(trace[j].probe, trace[j].created)
    ensures forall k :: j < k < |trace| ==> !trace[k].Restarted?
  {
    if trace[|trace| - 1].DeclaredReady? {
      j := |trace| - 1;
    } else {
      var front := trace[..|trace| - 1];
      j := DeclarationFound(front);
      assert forall k :: j < k < |front| ==> trace[k] == front[k];
    }
  }

  /** Whenever the operator wrote a configuration that can page, its process had
      declared readiness before, on settled operators or on a known age. */
  lemma PagingIsGated(libs: Libraries, fedramp: bool, start: World, actions: seq<Action>, i: nat) returns (j: nat)
    requires IsStart(start)
    requires i < |Run(libs, fedramp, start, actions).trace|
    requires Run(libs, fedramp, start, actions).trace[i].Wrote?
        && Pages(Run(libs, fedramp, start, actions).trace[i].cfg)
    ensures
      var trace := Run(libs, fedramp, start, actions).trace;
      && j < i && trace[j].DeclaredReady? && Evidence(trace[j].probe, trace[j].created)
      && forall k :: j < k < i ==> !trace[k].Restarted?
  {
    hide Perform, Pages;
    StartIsGood(libs, start);
    RunKeepsGood(libs, fedramp, start, actions);
    var trace := Run(libs, fedramp, start, actions).trace;
    assert GoodEvent(libs, trace[..i], trace[i]);
    j := DeclarationFound(trace[..i]);
    assert forall k :: j < k < i ==> trace[..i][k] == trace[k];
  }

  /** The objects with this one text in `alertmanager-main`. */
  function Storing(store: Store, text: string): Store {
    store.(secrets := store.secrets["alertmanager-main" := map["alertmanager.yaml" := text]])
  }

  /** The step ended in a validated write, and replaced `alertmanager-main` by it. */
  predicate EndedInWrite(libs: Libraries, before: World, after: World) {
    && after.trace != [] && after.trace[|after.trace| - 1].Wrote?
    && var event := after.trace[|after.trace| - 1];
       Validated(libs, event.cfg) == Some(event.text) && after.store == Storing(before.store, event.text)
  }

  /** Only a write that validated and succeeded touches the stored objects, and only
      `alertmanager-main`: an irrelevant request, a readiness error, a failed
      validation and a failed call all leave the last known good value. */
  lemma OnlyWritesChangeStore(libs: Libraries, fedramp: bool, w: World, request: Request, resp: Responses)
    ensures
      var (after, outcome) := Reconciled(libs, fedramp, w, request, resp);
      && (!Proceeds(request) ==> after == w && outcome == Outcome(NO_REQUEUE, false))
      && (Step(w.engine, resp.probe).1 == Failed || outcome.failed ==> after.store == w.store)
      && (after.store != w.store || (Proceeds(request) && !outcome.failed) ==> EndedInWrite(libs, w, after))
  {
    hide Compiled, InputsFrom;
  }

  /** ClusterVersion is cluster-scoped, so its events carry no namespace: although the
      name switch lists it, they never get past the namespace guard. */
  lemma ClusterVersionEventsAreSkipped(libs: Libraries, fedramp: bool, w: World, resp: Responses)
    ensures Reconciled(libs, fedramp, w, Request("", "version"), resp) == (w, Outcome(NO_REQUEUE, false))
  {
    hide Compiled, InputsFrom;
    assert Request("", "version").namespace != OPERATOR_NAMESPACE;
  }

  predicate IsAttempt(event: Event) {
    event.Wrote? || event.AttemptFailed?
  }

  /** The step adds a write attempt to the history. */
  ghost predicate Attempts(libs: Libraries, fedramp: bool, w: World, request: Request, resp: Responses) {
    var after := Reconciled(libs, fedramp, w, request, resp).0;
    w.trace <= after.trace && exists i :: |w.trace| <= i < |after.trace| && IsAttempt(after.trace[i])
  }

  lemma WatchedNames(name: string)
    ensures IsWatched(name) <==>
      name in {"goalert-secret", "pd-secret", "cad-pd-secret", "dms-secret", "alertmanager-main",
               "ocm-agent", "managed-namespaces", "ocp-namespaces", "version"}
  {
  }

  lemma ProceedsAttempt(libs: Libraries, fedramp: bool, w: World, request: Request, resp: Responses)
    ensures w.trace <= Reconciled(libs, fedramp, w, request, resp).0.trace
    ensures Attempts(libs, fedramp, w, request, resp) <==> Proceeds(request) && !AgeLimitMissing(w.engine, resp.probe)
  {
    hide Compiled, InputsFrom, WriteSucceeds, Proceeds, AgeLimitMissing;
    CallFailsExactlyWhen(w.engine, resp.probe);
    var after := Reconciled(libs, fedramp, w, request, resp).0;
    if Proceeds(request) && Step(w.engine, resp.probe).1 != Failed {
      assert IsAttempt(after.trace[|after.trace| - 1]);
    }
  }

  /** A write is attempted exactly for one of nine names in the operator's namespace, unless
      readiness cannot be determined for want of an age limit. */
  lemma AttemptsExactlyWhen(libs: Libraries, fedramp: bool, w: World, request: Request, resp: Responses)
    ensures w.trace <= Reconciled(libs, fedramp, w, request, resp).0.trace
    ensures Attempts(libs, fedramp, w, request, resp) <==>
      && request.namespace == "openshift-monitoring"
      && request.name in {"goalert-secret", "pd-secret", "cad-pd-secret", "dms-secret", "alertmanager-main",
                          "ocm-agent", "managed-namespaces", "ocp-namespaces", "version"}
      && !AgeLimitMissing(w.engine, resp.probe)
  {
    hide Attempts, Reconciled, IsWatched, AgeLimitMissing;
    ProceedsAttempt(libs, fedramp, w, request, resp);
    WatchedNames(request.name);
  }

  /** Alertmanager's loader accepts the text of a configuration exactly when the
      structural check accepts the configuration. */
  ghost predicate LoadsByStructure(libs: Libraries, checks: Checks) {
    forall cfg | libs.marshal(cfg).Some? :: libs.load(libs.marshal(cfg).value) <==> Accepts(checks, cfg)
  }

  /** Under such a loader, a reconciliation that could tell readiness and whose
      configuration marshals fails exactly over a call to the API server or over a URL or
      pattern that was supplied, never over what the compiler built. */
  lemma RunFailsExactlyWhen(
      libs: Libraries, checks: Checks, fedramp: bool, w: World, request: Request, resp: Responses)
    requires Proceeds(request) && LoadsByStructure(libs, checks) && ConstantsPass(checks)
    ensures
      var answer := Step(w.engine, resp.probe).1;
      var inp := InputsFrom(libs, resp, answer == Ready);
      answer != Failed && libs.marshal(Compiled(inp, fedramp)).Some? ==>
      (Reconciled(libs, fedramp, w, request, resp).1.failed <==>
        || !SuppliedPass(checks, inp)
        || resp.updateFails || (SECRET_ALERTMANAGER !in w.store.secrets && resp.createFails))
  {
    hide Compiled, InputsFrom, ConstantsPass, SuppliedPass, Accepts, AfterSecrets, AfterConfigMaps;
    var inp := InputsFrom(libs, resp, Step(w.engine, resp.probe).1 == Ready);
    AcceptedExactlyWhen(checks, inp, fedramp);
  }

  /** A reconciliation that succeeds while the cluster is not ready asks to be run
      again, in a second or half a minute; one that succeeds when it is ready does not. */
  lemma PollsUntilReady(libs: Libraries, fedramp: bool, w: World, request: Request, resp: Responses)
    requires Consistent(w.engine) && Proceeds(request)
    ensures
      var (after, outcome) := Reconciled(libs, fedramp, w, request, resp);
      outcome.failed || if after.engine.ready then outcome.requeue == Requeue(false, 0)
      else outcome.requeue in {Requeue(true, 1_000_000_000), Requeue(true, 30_000_000_000)}
  {
    hide Compiled, InputsFrom, WriteSucceeds;
    RequeueFollowsAnswer(w.engine, resp.probe);
  }

  // ---------- An undisturbed reconciliation ----------

  function Read(objects: Objects, name: string, key: string): string {
    if name in objects && key in objects[name] then objects[name][key] else ""
  }

  ghost predicate Lists(listed: seq<string>, objects: Objects) {
    forall n :: n in listed <==> n in objects
  }

  /** The answers are those of `store`, read without failure or interference. */
  ghost predicate Honest(store: Store, resp: Responses) {
    && Lists(resp.secrets.listed, store.secrets)
    && resp.secrets.pagerdutyKey == Read(store.secrets, "pd-secret", "PAGERDUTY_KEY")
    && resp.secrets.cadKey == Read(store.secrets, "cad-pd-secret", "CAD_PAGERDUTY_KEY")
    && resp.secrets.snitchURL == Read(store.secrets, "dms-secret", "SNITCH_URL")
    && resp.secrets.goalertLow == Read(store.secrets, "goalert-secret", "GOALERT_URL_LOW")
    && resp.secrets.goalertHigh == Read(store.secrets, "goalert-secret", "GOALERT_URL_HIGH")
    && resp.secrets.goalertHeartbeat == Read(store.secrets, "goalert-secret", "GOALERT_HEARTBEAT")
    && Lists(resp.configMaps.listed, store.configMaps)
    && resp.configMaps.managedText == Read(store.configMaps, "managed-namespaces", "managed_namespaces.yaml")
    && resp.configMaps.ocpText == Read(store.configMaps, "ocp-namespaces", "managed_namespaces.yaml")
    && resp.configMaps.managementText == Read(store.configMaps, "managed-namespaces", "managed_namespaces.yaml")
    && resp.configMaps.facts == ClusterFacts(store.infraName, store.annotation)
    && resp.ocmText == Read(store.configMaps, "ocm-agent", "serviceURL")
    && resp.clusterID == store.clusterID && resp.clusterProxy == store.clusterProxy
    && resp.clusterRegion == store.clusterRegion
    && !resp.updateFails && !resp.createFails
  }

  /** The namespace patterns the stored objects call for. */
  function StoredNamespaces(libs: Libraries, store: Store): seq<string> {
    var text := Read(store.configMaps, "managed-namespaces", "managed_namespaces.yaml");
    var managed := BaseNamespaces("managed-namespaces" in store.configMaps, text, libs.decode);
    var ocp := BaseNamespaces("ocp-namespaces" in store.configMaps,
                              Read(store.configMaps, "ocp-namespaces", "managed_namespaces.yaml"), libs.decode);
    if managed == [] || ocp == [] then DEFAULT_NAMESPACES
    else managed + ocp
         + if ReadsManagement(ClusterFacts(store.infraName, store.annotation))
           then ManagementNamespaces("managed-namespaces" in store.configMaps, text, libs.decode) else []
  }

  /** The inputs the stored objects call for. */
  function Snapshot(libs: Libraries, store: Store, ready: bool): Inputs {
    var paging := (name: string, key: string) => if ready then Read(store.secrets, name, key) else "";
    var ocm := Read(store.configMaps, "ocm-agent", "serviceURL");
    Inputs(
      paging("pd-secret", "PAGERDUTY_KEY"), paging("cad-pd-secret", "CAD_PAGERDUTY_KEY"),
      paging("goalert-secret", "GOALERT_URL_LOW"), paging("goalert-secret", "GOALERT_URL_HIGH"),
      paging("goalert-secret", "GOALERT_HEARTBEAT"),
      Read(store.secrets, "dms-secret", "SNITCH_URL"),
      if "ocm-agent" in store.configMaps && libs.parseURI(ocm) then ocm else "",
      store.clusterID, store.clusterRegion, store.clusterProxy, StoredNamespaces(libs, store))
  }

  lemma HonestInputs(libs: Libraries, store: Store, resp: Responses, ready: bool)
    requires Honest(store, resp)
    ensures InputsFrom(libs, resp, ready) == Snapshot(libs, store, ready)
  {
  }

  /** The stores agree on everything but `alertmanager-main`. */
  ghost predicate SameButMain(a: Store, b: Store) {
    a.(secrets := a.secrets - {"alertmanager-main"}) == b.(secrets := b.secrets - {"alertmanager-main"})
  }

  lemma MainIsNotAnInput(libs: Libraries, a: Store, b: Store, ready: bool)
    requires SameButMain(a, b)
    ensures Snapshot(libs, a, ready) == Snapshot(libs, b, ready)
  {
    SameRead(a, b, SECRET_PD, "PAGERDUTY_KEY");
    SameRead(a, b, SECRET_CADPD, "CAD_PAGERDUTY_KEY");
    SameRead(a, b, SECRET_GOALERT, "GOALERT_URL_LOW");
    SameRead(a, b, SECRET_GOALERT, "GOALERT_URL_HIGH");
    SameRead(a, b, SECRET_GOALERT, "GOALERT_HEARTBEAT");
    SameRead(a, b, SECRET_DMS, "SNITCH_URL");
  }

  // ---------- The watch list ----------

  /** A request for this object, in the operator's namespace, can lead to a write attempt. */
  ghost predicate Heard(libs: Libraries, fedramp: bool, name: string) {
    exists w, resp :: Attempts(libs, fedramp, w, Request("openshift-monitoring", name), resp)
  }

  /** The secret and the configmap of this name are the same in both stores. */
  predicate SameObjects(a: Store, b: Store, name: string) {
    && (name in a.secrets <==> name in b.secrets) && (name in a.configMaps <==> name in b.configMaps)
    && (name in a.secrets ==> a.secrets[name] == b.secrets[name])
    && (name in a.configMaps ==> a.configMaps[name] == b.configMaps[name])
  }

  lemma HeardExactlyWhen(libs: Libraries, fedramp: bool, name: string)
    ensures Heard(libs, fedramp, name) <==>
      name in {"goalert-secret", "pd-secret", "cad-pd-secret", "dms-secret", "alertmanager-main",
               "ocm-agent", "managed-namespaces", "ocp-namespaces", "version"}
  {
    hide Attempts, Reconciled, Honest, IsWatched;
    var request := Request("openshift-monitoring", name);
    forall w, resp
      ensures Attempts(libs, fedramp, w, request, resp) ==> IsWatched(name)
    {
      ProceedsAttempt(libs, fedramp, w, request, resp);
    }
    var w := World(Store(map[], map[], None, None, "", "", ""), FRESH_ENGINE, UNSET_GAUGES, []);
    var resp := HonestAnswers(w.store, Probe(None, None, Unset, 0));
    ProceedsAttempt(libs, fedramp, w, request, resp);
    WatchedNames(name);
  }

  /** The watch list is complete: what the stored objects call for changes only with the
      cluster's own facts or with an object whose change is heard of. */
  lemma WatchListIsComplete(libs: Libraries, fedramp: bool, a: Store, b: Store, ready: bool)
    requires a.infraName == b.infraName && a.annotation == b.annotation
    requires a.clusterID == b.clusterID && a.clusterProxy == b.clusterProxy && a.clusterRegion == b.clusterRegion
    requires forall name :: Heard(libs, fedramp, name) ==> SameObjects(a, b, name)
    ensures Snapshot(libs, a, ready) == Snapshot(libs, b, ready)
  {
    hide Heard, Snapshot, SameObjects;
    HeardExactlyWhen(libs, fedramp, "goalert-secret");
    HeardExactlyWhen(libs, fedramp, "pd-secret");
    HeardExactlyWhen(libs, fedramp, "cad-pd-secret");
    HeardExactlyWhen(libs, fedramp, "dms-secret");
    HeardExactlyWhen(libs, fedramp, "ocm-agent");
    HeardExactlyWhen(libs, fedramp, "managed-namespaces");
    HeardExactlyWhen(libs, fedramp, "ocp-namespaces");
    SameInputs(libs, a, b, ready);
  }

  /** Those seven objects and the cluster's facts are all that the compiler reads. */
  lemma SameInputs(libs: Libraries, a: Store, b: Store, ready: bool)
    requires a.infraName == b.infraName && a.annotation == b.annotation
    requires a.clusterID == b.clusterID && a.clusterProxy == b.clusterProxy && a.clusterRegion == b.clusterRegion
    requires SameObjects(a, b, "goalert-secret") && SameObjects(a, b, "pd-secret")
    requires SameObjects(a, b, "cad-pd-secret") && SameObjects(a, b, "dms-secret")
    requires SameObjects(a, b, "ocm-agent")
    requires SameObjects(a, b, "managed-namespaces") && SameObjects(a, b, "ocp-namespaces")
    ensures Snapshot(libs, a, ready) == Snapshot(libs, b, ready)
  {
    hide StoredNamespaces;
    SamePatterns(libs, a, b);
  }

  lemma SamePatterns(libs: Libraries, a: Store, b: Store)
    requires a.infraName == b.infraName && a.annotation == b.annotation
    requires SameObjects(a, b, "managed-namespaces") && SameObjects(a, b, "ocp-namespaces")
    ensures StoredNamespaces(libs, a) == StoredNamespaces(libs, b)
  {
    hide BaseNamespaces, ManagementNamespaces, ReadsManagement;
  }

  lemma SameRead(a: Store, b: Store, name: string, key: string)
    requires SameButMain(a, b) && name != SECRET_ALERTMANAGER
    ensures Read(a.secrets, name, key) == Read(b.secrets, name, key)
  {
    var x, y := a.secrets - {SECRET_ALERTMANAGER}, b.secrets - {SECRET_ALERTMANAGER};
    assert name in a.secrets <==> name in x;
    assert name in b.secrets <==> name in y;
  }

  /** The text that the stored objects call for, given the readiness answer. */
  function Desired(libs: Libraries, fedramp: bool, store: Store, answer: Answer): Option<string> {
    Validated(libs, Compiled(Snapshot(libs, store, answer == Ready), fedramp))
  }

  /** Whatever `alertmanager-main` held, if anything, one undisturbed run with a valid
      outcome leaves exactly the configuration compiled from the stored objects. */
  lemma SelfHealing(libs: Libraries, fedramp: bool, w: World, request: Request, resp: Responses)
    requires Proceeds(request) && Honest(w.store, resp)
    ensures
      var (after, outcome) := Reconciled(libs, fedramp, w, request, resp);
      var answer := Step(w.engine, resp.probe).1;
      var desired := Desired(libs, fedramp, w.store, answer);
      answer != Failed && desired.Some? ==> after.store == Storing(w.store, desired.value) && !outcome.failed
  {
    hide Compiled, InputsFrom, Snapshot, Honest;
    HonestInputs(libs, w.store, resp, Step(w.engine, resp.probe).1 == Ready);
    HonestWrites(w.store, resp);
  }

  lemma HonestWrites(store: Store, resp: Responses)
    requires Honest(store, resp)
    ensures !resp.updateFails && !resp.createFails
  {
  }

  /** A second undisturbed run with the same readiness answer stores the same value. */
  lemma Idempotent(libs: Libraries, fedramp: bool, w: World, request: Request, first: Responses, second: Responses)
    requires Proceeds(request) && Honest(w.store, first)
    ensures
      var once := Reconciled(libs, fedramp, w, request, first).0;
      var (twice, outcome) := Reconciled(libs, fedramp, once, request, second);
      var answer := Step(w.engine, first.probe).1;
      && answer != Failed && Desired(libs, fedramp, w.store, answer).Some?
      && Honest(once.store, second) && Step(once.engine, second.probe).1 == answer
      ==> twice.store == once.store && !outcome.failed
  {
    hide Compiled, Snapshot, Honest, Reconciled;
    var once, answer := Reconciled(libs, fedramp, w, request, first).0, Step(w.engine, first.probe).1;
    SelfHealing(libs, fedramp, w, request, first);
    var desired := Desired(libs, fedramp, w.store, answer);
    if answer != Failed && desired.Some? && Honest(once.store, second) && Step(once.engine, second.probe).1 == answer {
      OnlyMainDiffers(w.store, desired.value);
      MainIsNotAnInput(libs, w.store, once.store, answer == Ready);
      SelfHealing(libs, fedramp, once, request, second);
      assert Storing(Storing(w.store, desired.value), desired.value) == Storing(w.store, desired.value);
    }
  }

  lemma OnlyMainDiffers(store: Store, text: string)
    ensures SameButMain(store, Storing(store, text))
  {
    var changed := Storing(store, text);
    assert store.secrets - {SECRET_ALERTMANAGER} == changed.secrets - {SECRET_ALERTMANAGER};
  }

  /** History is forgotten: two operators with any past, over objects that differ only
      in `alertmanager-main`, end with the same value in it. */
  lemma HistoryIndependent(
      libs: Libraries, fedramp: bool, a: World, b: World, request: Request, toA: Responses, toB: Responses)
    requires Proceeds(request) && SameButMain(a.store, b.store) && Honest(a.store, toA) && Honest(b.store, toB)
    requires Step(a.engine, toA.probe).1 == Step(b.engine, toB.probe).1 != Failed
    ensures Desired(libs, fedramp, a.store, Step(a.engine, toA.probe).1).Some? ==>
      Reconciled(libs, fedramp, a, request, toA).0.store == Reconciled(libs, fedramp, b, request, toB).0.store
  {
    hide Compiled, Snapshot, Honest, Reconciled, SameButMain;
    var desired := Desired(libs, fedramp, a.store, Step(a.engine, toA.probe).1);
    MainIsNotAnInput(libs, a.store, b.store, Step(a.engine, toA.probe).1 == Ready);
    SelfHealing(libs, fedramp, a, request, toA);
    SelfHealing(libs, fedramp, b, request, toB);
    if desired.Some? {
      SameOnceWritten(a.store, b.store, desired.value);
    }
  }

  lemma SameOnceWritten(a: Store, b: Store, text: string)
    requires SameButMain(a, b)
    ensures Storing(a, text) == Storing(b, text)
  {
    var x, y := Storing(a, text).secrets, Storing(b, text).secrets;
    var a', b' := a.secrets - {SECRET_ALERTMANAGER}, b.secrets - {SECRET_ALERTMANAGER};
    assert a' == b';
    assert x == a'[SECRET_ALERTMANAGER := map[ALERTMANAGER_KEY := text]];
    assert y == b'[SECRET_ALERTMANAGER := map[ALERTMANAGER_KEY := text]];
    assert a.(secrets := a') == b.(secrets := b');
  }

  // ---------- Paging is switched on ----------

  datatype Call = Call(request: Request, resp: Responses)

  function AsActions(calls: seq<Call>): seq<Action> {
    seq(|calls|, i requires 0 <= i < |calls| => Reconcile(calls[i].request, calls[i].resp))
  }

  function ProbesOf(calls: seq<Call>): seq<Probe> {
    seq(|calls|, i requires 0 <= i < |calls| => calls[i].resp.probe)
  }

  /** Watched requests, each answered as the objects then stored call for. */
  ghost predicate Undisturbed(libs: Libraries, fedramp: bool, w: World, calls: seq<Call>)
    decreases calls
  {
    calls != [] ==>
      && Proceeds(calls[0].request) && Honest(w.store, calls[0].resp)
      && Undisturbed(libs, fedramp, Reconciled(libs, fedramp, w, calls[0].request, calls[0].resp).0, calls[1..])
  }

  lemma EngineFollowsProbe(libs: Libraries, fedramp: bool, w: World, request: Request, resp: Responses)
    requires Proceeds(request)
    ensures Reconciled(libs, fedramp, w, request, resp).0.engine == Step(w.engine, resp.probe).0
    ensures SameButMain(w.store, Reconciled(libs, fedramp, w, request, resp).0.store)
  {
    hide Compiled, InputsFrom, WriteSucceeds, Step;
    var after := Reconciled(libs, fedramp, w, request, resp).0;
    if after.store != w.store {
      OnlyWritesChangeStore(libs, fedramp, w, request, resp);
      OnlyMainDiffers(w.store, after.trace[|after.trace| - 1].text);
    }
  }

  /** A cluster polled as often as its setting can leave unready is too old. */
  lemma ReadyInTheEnd(s: EngineState, probe: Probe, minutes: int, done: nat)
    requires s.created != ZERO_TIME && MaxAge(probe.maxAge) == Some(minutes)
    requires probe.now >= s.created + 30 * SECOND * done
    ensures Step(s, probe).1 != Failed && Step(s, probe).0.created == s.created
    ensures s.ready || UnreadyPolls(minutes) <= done ==> Step(s, probe).1 == Ready
    ensures Step(s, probe).1 == Ready ==> Step(s, probe).0.ready
  {
    hide MinusAge;
  }

  /** What one undisturbed call leaves for the next. */
  lemma OneCall(libs: Libraries, fedramp: bool, w: World, call: Call, minutes: int, done: nat)
    requires Proceeds(call.request) && Honest(w.store, call.resp) && Desired(libs, fedramp, w.store, Ready).Some?
    requires w.engine.created != ZERO_TIME && MaxAge(call.resp.probe.maxAge) == Some(minutes)
    requires call.resp.probe.now >= w.engine.created + 30 * SECOND * done
    ensures
      var next := Reconciled(libs, fedramp, w, call.request, call.resp).0;
      && next.engine.created == w.engine.created
      && Desired(libs, fedramp, next.store, Ready) == Desired(libs, fedramp, w.store, Ready)
      && (forall text :: Storing(next.store, text) == Storing(w.store, text))
      && (w.engine.ready || UnreadyPolls(minutes) <= done ==>
            next.engine.ready && next.store == Storing(w.store, Desired(libs, fedramp, w.store, Ready).value))
  {
    hide Compiled, Snapshot, Honest, Reconciled, Validated, Step, SameButMain, UnreadyPolls, Storing, MaxAge;
    var next := Reconciled(libs, fedramp, w, call.request, call.resp).0;
    EngineFollowsProbe(libs, fedramp, w, call.request, call.resp);
    ReadyInTheEnd(w.engine, call.resp.probe, minutes, done);
    MainIsNotAnInput(libs, w.store, next.store, true);
    forall text
      ensures Storing(next.store, text) == Storing(w.store, text)
    {
      SameOnceWritten(w.store, next.store, text);
    }
    SelfHealing(libs, fedramp, w, call.request, call.resp);
  }

  lemma {:induction false} PagingFrom(
      libs: Libraries, fedramp: bool, w: World, calls: seq<Call>, minutes: int, done: nat)
    requires calls != [] && Undisturbed(libs, fedramp, w, calls) && w.engine.created != ZERO_TIME
    requires Polls(ProbesOf(calls), w.engine.created + 30 * SECOND * done, minutes)
    requires w.engine.ready || done + |calls| > UnreadyPolls(minutes)
    requires Desired(libs, fedramp, w.store, Ready).Some?
    ensures
      var after := Run(libs, fedramp, w, AsActions(calls));
      after.engine.ready && after.store == Storing(w.store, Desired(libs, fedramp, w.store, Ready).value)
    decreases calls
  {
    hide Desired, Honest, Reconciled, UnreadyPolls, Storing, MaxAge, Proceeds;
    var call, rest := calls[0], calls[1..];
    assert ProbesOf(calls)[0] == call.resp.probe && AsActions(calls)[1..] == AsActions(rest);
    OneCall(libs, fedramp, w, call, minutes, done);
    if rest == [] {
      assert AsActions(rest) == [];
    } else {
      RestPolls(calls, w.engine.created + 30 * SECOND * done, minutes);
      PagingFrom(libs, fedramp, Reconciled(libs, fedramp, w, call.request, call.resp).0, rest, minutes, done + 1);
    }
  }

  lemma RestPolls(calls: seq<Call>, first: int, minutes: int)
    requires calls != [] && Polls(ProbesOf(calls), first, minutes)
    ensures Polls(ProbesOf(calls[1..]), first + 30 * SECOND, minutes)
  {
    var probes, rest := ProbesOf(calls), ProbesOf(calls[1..]);
    assert forall i :: 0 <= i < |rest| ==> rest[i] == probes[i + 1];
    assert rest != [] ==> probes[0].now + 30 * SECOND <= probes[1].now;
  }

  /** Which configurations can page: those for inputs that configure a paging integration. */
  lemma PagesExactlyWhen(inp: Inputs, fedramp: bool)
    ensures Pages(Compiled(inp, fedramp))
       <==> inp.HasPagerduty() || inp.HasCad() || inp.HasGoalert() || inp.HasHeartbeat()
  {
    hide Compiled, NameSet;
    var receivers := Compiled(inp, fedramp).receivers;
    ConfigClosed(inp, fedramp);
    if i :| 0 <= i < |receivers| && receivers[i].name in PAGING {
      NameDefined(receivers, i);
    }
    if name :| name in ConfiguredNames(inp) && name in PAGING {
      var i := NamePlace(receivers, name);
    }
  }

  lemma NamePlace(receivers: seq<Receiver>, name: string) returns (i: nat)
    requires name in NameSet(receivers)
    ensures i < |receivers| && receivers[i].name == name
  {
    i :| 0 <= i < |receivers| && receivers[i].name == name;
  }

  /** Once the creation time is known, undisturbed reconciliations at least 30 s apart
      switch paging on: after more of them than the setting can leave unready,
      `alertmanager-main` holds what the stored objects call for on a ready cluster. */
  lemma PagingIsSwitchedOn(libs: Libraries, fedramp: bool, w: World, calls: seq<Call>, minutes: int)
    requires Undisturbed(libs, fedramp, w, calls) && w.engine.created != ZERO_TIME
    requires Polls(ProbesOf(calls), w.engine.created, minutes) && |calls| > UnreadyPolls(minutes)
    requires Desired(libs, fedramp, w.store, Ready).Some?
    ensures
      var after := Run(libs, fedramp, w, AsActions(calls));
      after.engine.ready && after.store == Storing(w.store, Desired(libs, fedramp, w.store, Ready).value)
  {
    hide Compiled, Snapshot, Honest, Reconciled, Validated, UnreadyPolls;
    PagingFrom(libs, fedramp, w, calls, minutes, 0);
  }

  lemma {:induction false} Listing(names: set<string>) returns (listed: seq<string>)
    ensures forall n :: n in listed <==> n in names
  {
    if names == {} {
      listed := [];
    } else {
      var name :| name in names;
      var others := Listing(names - {name});
      listed := [name] + others;
    }
  }

  lemma HonestAnswers(store: Store, probe: Probe) returns (resp: Responses)
    ensures Honest(store, resp) && resp.probe == probe
  {
    var secrets, configMaps := store.secrets, store.configMaps;
    var secretNames := Listing(secrets.Keys);
    var configMapNames := Listing(configMaps.Keys);
    var managed := Read(configMaps, CM_MANAGED, "managed_namespaces.yaml");
    resp := Responses(
      probe,
      SecretView(
        secretNames, Read(secrets, SECRET_PD, "PAGERDUTY_KEY"), Read(secrets, SECRET_CADPD, "CAD_PAGERDUTY_KEY"),
        Read(secrets, SECRET_DMS, "SNITCH_URL"), Read(secrets, SECRET_GOALERT, "GOALERT_URL_LOW"),
        Read(secrets, SECRET_GOALERT, "GOALERT_URL_HIGH"), Read(secrets, SECRET_GOALERT, "GOALERT_HEARTBEAT")),
      ConfigMapView(
        configMapNames, managed, Read(configMaps, CM_OCP, "managed_namespaces.yaml"),
        managed, ClusterFacts(store.infraName, store.annotation)),
      Read(configMaps, CM_OCM_AGENT, "serviceURL"),
      store.clusterID, store.clusterRegion, store.clusterProxy, false, false);
  }

  /** Such calls are possible from any world, as many as wanted. */
  lemma {:induction false} UndisturbedCallsExist(
      libs: Libraries, fedramp: bool, w: World, minutes: int, first: int, count: nat)
    returns (calls: seq<Call>)
    ensures |calls| == count && Undisturbed(libs, fedramp, w, calls) && Polls(ProbesOf(calls), first, minutes)
    decreases count
  {
    hide Honest, Reconciled;
    if count == 0 {
      calls := [];
    } else {
      var probe := Probe(None, None, Minutes(minutes), first);
      var resp := HonestAnswers(w.store, probe);
      var call := Call(Request(OPERATOR_NAMESPACE, SECRET_ALERTMANAGER), resp);
      var next := Reconciled(libs, fedramp, w, call.request, resp).0;
      var rest := UndisturbedCallsExist(libs, fedramp, next, minutes, first + 30 * SECOND, count - 1);
      calls := [call] + rest;
      assert calls[1..] == rest;
      EarlierPoll(call, rest, first, minutes);
    }
  }

  lemma EarlierPoll(call: Call, rest: seq<Call>, first: int, minutes: int)
    requires Polls(ProbesOf(rest), first + 30 * SECOND, minutes)
    requires call.resp.probe.now == first && call.resp.probe.maxAge == Minutes(minutes)
    ensures Polls(ProbesOf([call] + rest), first, minutes)
  {
    var later, probes := ProbesOf(rest), ProbesOf([call] + rest);
    assert forall i :: 0 <= i < |later| ==> probes[i + 1] == later[i];
    forall i | 0 <= i < |probes| - 1
      ensures probes[i].now + 30 * SECOND <= probes[i + 1].now
    {
      if i > 0 {
        assert later[i - 1].now + 30 * SECOND <= later[i].now;
      }
    }
    forall i | 0 <= i < |probes|
      ensures MaxAge(probes[i].maxAge) == Some(minutes)
    {
      if i > 0 {
        assert MaxAge(later[i - 1].maxAge) == Some(minutes);
      }
    }
  }

  // ---------- Gauges ----------

  /** An "exists" and a "contains" gauge after a successful reconciliation. */
  ghost predicate GaugesTell(
      existing: Option<int>, containing: Option<int>, secretListed: bool, mainListed: bool, compiledIn: bool)
  {
    && existing == Flag(secretListed)
    && containing == Flag(mainListed && compiledIn)
    && containing.value <= existing.value
    && (existing.value + containing.value == 1 <==> secretListed && !(compiledIn && mainListed))
  }

  lemma HasReceiverByName(inp: Inputs, fedramp: bool, name: string)
    ensures HasReceiver(Compiled(inp, fedramp).receivers, name) <==> name in ConfiguredNames(inp)
  {
    hide Compiled, ConfiguredNames;
    ConfigClosed(inp, fedramp);
  }

  lemma IntegrationReceivers(inp: Inputs, fedramp: bool)
    ensures HasReceiver(Compiled(inp, fedramp).receivers, "pagerduty") <==> inp.HasPagerduty()
    ensures HasReceiver(Compiled(inp, fedramp).receivers, "goalert") <==> inp.HasGoalert()
    ensures HasReceiver(Compiled(inp, fedramp).receivers, "watchdog") <==> inp.HasWatchdog()
  {
    hide Compiled;
    HasReceiverByName(inp, fedramp, "pagerduty");
    HasReceiverByName(inp, fedramp, "goalert");
    HasReceiverByName(inp, fedramp, "watchdog");
  }

  /** After a successful reconciliation the gauges say what was compiled in: each
      mismatch alert's sum is 1 exactly when the secret was listed but not compiled in,
      or `alertmanager-main` was not listed. */
  lemma GaugesAgreeWithCompiler(libs: Libraries, fedramp: bool, w: World, request: Request, resp: Responses)
    requires Proceeds(request)
    ensures
      var (after, outcome) := Reconciled(libs, fedramp, w, request, resp);
      var g := after.gauges;
      var inp := InputsFrom(libs, resp, Step(w.engine, resp.probe).1 == Ready);
      var listed := resp.secrets.listed;
      var main := "alertmanager-main" in listed;
      !outcome.failed ==>
      && GaugesTell(g.pdExists, g.containsPD, "pd-secret" in listed, main, inp.pagerdutyKey != "")
      && GaugesTell(g.gaExists, g.containsGA, "goalert-secret" in listed, main,
                    inp.goalertLow != "" && inp.goalertHigh != "")
      && GaugesTell(g.dmsExists, g.containsDMS, "dms-secret" in listed, main, inp.watchdogURL != "")
      && g.amExists == Flag(main) && g.validationFailed == Some(0)
      && g.managedExists == Flag("managed-namespaces" in resp.configMaps.listed)
      && g.ocpExists == Flag("ocp-namespaces" in resp.configMaps.listed)
  {
    hide Compiled, WriteSucceeds, HasReceiver, NamespaceList;
    IntegrationReceivers(InputsFrom(libs, resp, Step(w.engine, resp.probe).1 == Ready), fedramp);
  }

  // ---------- What an unready cluster can notify ----------

  /** Compiled before readiness, the tree hands no alert to any paging receiver. */
  lemma UnreadyNeverPages(libs: Libraries, resp: Responses, fedramp: bool, re: Regexp, alert: Alert)
    ensures
      var route := Compiled(InputsFrom(libs, resp, false), fedramp).route.value;
      forall r :: r in Notify(re, route, alert) ==> r in {"watchdog", "ocmagent", "null"}
  {
    hide NameSet, Notify, Referenced, NamespaceList, RootRoutes, ReceiverList;
    var inp := InputsFrom(libs, resp, false);
    ConfigClosed(inp, fedramp);
    NotifiedAreReferenced(re, Compiled(inp, fedramp).route.value, alert);
    assert ConfiguredNames(inp) <= {WATCHDOG, OCM_AGENT, NULL};
  }
}
