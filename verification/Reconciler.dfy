/** `Reconcile` and what it calls in controllers/secret_controller.go, over an API
    server whose every answer is an input. */
module Reconciler {
  import opened Wrappers
  import opened AlertmanagerTypes
  import opened Compiler
  import opened Readiness
  import opened Namespaces
  import opened Metrics

  const OPERATOR_NAMESPACE := "openshift-monitoring"
  const SECRET_CADPD := "cad-pd-secret"
  const CM_OCM_AGENT := "ocm-agent"
  const CLUSTER_VERSION := "version"
  const ALERTMANAGER_KEY := "alertmanager.yaml"

  /** Library code that the operator calls: yaml.v2, net/url and Alertmanager's `Load`. */
  datatype Libraries = Libraries(
    decode: Decoder,
    parseURI: string -> bool,
    marshal: Config -> Option<string>,
    load: string -> bool)

  datatype Request = Request(namespace: string, name: string)

  type Objects = map<string, map<string, string>>

  /** The API server's objects, as far as the operator reads or writes them. */
  datatype Store = Store(
    secrets: Objects,
    configMaps: Objects,
    infraName: Option<string>,
    annotation: Option<Option<string>>,
    clusterID: string,
    clusterProxy: string,
    clusterRegion: string)

  /** The secrets one reconciliation sees: the listed names, none if listing failed,
      and the text of each read, "" when it failed or the key is missing. */
  datatype SecretView = SecretView(
    listed: seq<string>,
    pagerdutyKey: string,
    cadKey: string,
    snitchURL: string,
    goalertLow: string,
    goalertHigh: string,
    goalertHeartbeat: string)

  /** Every outside answer of one reconciliation. Nothing ties them to one another, so
      objects may change and calls may fail between any two. */
  datatype Responses = Responses(
    probe: Probe,
    secrets: SecretView,
    configMaps: ConfigMapView,
    ocmText: string,
    clusterID: string,
    clusterRegion: string,
    clusterProxy: string,
    updateFails: bool,
    createFails: bool)

  datatype Event =
    | DeclaredReady(probe: Probe, created: int)
    | Wrote(cfg: Config, text: string)
    | AttemptFailed
    | Restarted
    | ClusterChanged

  /** Stored objects, the memory of the process, and the history of events. */
  datatype World = World(store: Store, engine: EngineState, gauges: GaugeState, trace: seq<Event>)

  datatype Outcome = Outcome(requeue: Requeue, failed: bool)

  // ---------- Specification ----------

  predicate IsWatched(name: string) {
    name in {SECRET_GOALERT, SECRET_PD, SECRET_CADPD, SECRET_DMS, SECRET_ALERTMANAGER,
             CM_OCM_AGENT, CM_MANAGED, CM_OCP, CLUSTER_VERSION}
  }

  /** The namespace guard first, then the name switch. */
  predicate Proceeds(request: Request) {
    request.namespace == OPERATOR_NAMESPACE && IsWatched(request.name)
  }

  /** What `parseSecrets` and the configmaps contribute: paging keys only when ready. */
  function InputsFrom(libs: Libraries, resp: Responses, ready: bool): Inputs {
    var s := resp.secrets;
    Inputs(
      When(SECRET_PD in s.listed && ready, s.pagerdutyKey),
      When(SECRET_CADPD in s.listed && ready, s.cadKey),
      When(SECRET_GOALERT in s.listed && ready, s.goalertLow),
      When(SECRET_GOALERT in s.listed && ready, s.goalertHigh),
      When(SECRET_GOALERT in s.listed && ready, s.goalertHeartbeat),
      When(SECRET_DMS in s.listed, s.snitchURL),
      When(CM_OCM_AGENT in resp.configMaps.listed && libs.parseURI(resp.ocmText), resp.ocmText),
      resp.clusterID, resp.clusterRegion, resp.clusterProxy,
      NamespaceList(resp.configMaps, libs.decode))
  }

  /** The text to store, if the configuration marshals and loads. */
  function Validated(libs: Libraries, cfg: Config): Option<string> {
    match libs.marshal(cfg)
    case None => None
    case Some(text) => if libs.load(text) then Some(text) else None
  }

  predicate WriteSucceeds(libs: Libraries, store: Store, cfg: Config, resp: Responses) {
    && Validated(libs, cfg).Some?
    && !resp.updateFails
    && (SECRET_ALERTMANAGER !in store.secrets ==> !resp.createFails)
  }

  function WithMain(store: Store, text: string): Store {
    store.(secrets := store.secrets[SECRET_ALERTMANAGER := map[ALERTMANAGER_KEY := text]])
  }

  function AfterWrite(libs: Libraries, w: World, cfg: Config, resp: Responses): World {
    if WriteSucceeds(libs, w.store, cfg, resp) then
      var text := Validated(libs, cfg).value;
      w.(store := WithMain(w.store, text),
         gauges := w.gauges.(validationFailed := Some(0)),
         trace := w.trace + [Wrote(cfg, text)])
    else
      w.(gauges := w.gauges.(validationFailed := Some(1)), trace := w.trace + [AttemptFailed])
  }

  function AfterProbe(w: World, probe: Probe): World {
    var (engine, answer) := Step(w.engine, probe);
    w.(engine := engine,
       trace := if engine.ready && !w.engine.ready then w.trace + [DeclaredReady(probe, engine.created)] else w.trace)
  }

  /** One reconciliation, as a function of the world and of the outside answers. */
  function Reconciled(libs: Libraries, fedramp: bool, w: World, request: Request, resp: Responses): (World, Outcome) {
    if !Proceeds(request) then (w, Outcome(NO_REQUEUE, false))
    else
      var probed, answer := AfterProbe(w, resp.probe), Step(w.engine, resp.probe).1;
      if answer == Failed then (probed, Outcome(probed.engine.result, true))
      else
        var cfg := Compiled(InputsFrom(libs, resp, answer == Ready), fedramp);
        var written := AfterWrite(libs, probed, cfg, resp);
        if !WriteSucceeds(libs, w.store, cfg, resp) then (written, Outcome(NO_REQUEUE, true))
        else
          var gauges := AfterConfigMaps(AfterSecrets(written.gauges, resp.secrets.listed, cfg.receivers),
                                        resp.configMaps.listed);
          (written.(gauges := gauges), Outcome(written.engine.result, false))
  }

  // ---------- Implementation ----------

  class SecretReconciler {
    const libs: Libraries
    const fedramp: bool
    const readiness: Impl
    const gauges: Gauges
    var store: Store
    ghost var trace: seq<Event>

    constructor (libs: Libraries, fedramp: bool, store: Store)
      ensures this.libs == libs && this.fedramp == fedramp && this.store == store
      ensures fresh(readiness) && fresh(gauges)
      ensures Current() == World(store, FRESH_ENGINE, UNSET_GAUGES, [])
    {
      this.libs, this.fedramp, this.store, this.trace := libs, fedramp, store, [];
      readiness := new Impl();
      gauges := new Gauges();
    }

    ghost function Current(): World
      reads this, readiness, gauges
    {
      World(store, readiness.State(), gauges.State(), trace)
    }

    method ParseSecrets(secrets: SecretView, clusterReady: bool)
      returns (pd: string, cad: string, watchdogURL: string, low: string, high: string, heartbeat: string)
      ensures pd == When(SECRET_PD in secrets.listed && clusterReady, secrets.pagerdutyKey)
      ensures cad == When(SECRET_CADPD in secrets.listed && clusterReady, secrets.cadKey)
      ensures watchdogURL == When(SECRET_DMS in secrets.listed, secrets.snitchURL)
      ensures low == When(SECRET_GOALERT in secrets.listed && clusterReady, secrets.goalertLow)
      ensures high == When(SECRET_GOALERT in secrets.listed && clusterReady, secrets.goalertHigh)
      ensures heartbeat == When(SECRET_GOALERT in secrets.listed && clusterReady, secrets.goalertHeartbeat)
    {
      pd, cad, watchdogURL, low, high, heartbeat := "", "", "", "", "", "";
      if SECRET_PD in secrets.listed {
        if clusterReady {
          pd := secrets.pagerdutyKey;
        }
      }
      if SECRET_CADPD in secrets.listed {
        if clusterReady {
          cad := secrets.cadKey;
        }
      }
      if SECRET_DMS in secrets.listed {
        watchdogURL := secrets.snitchURL;
      }
      if SECRET_GOALERT in secrets.listed {
        if clusterReady {
          low := secrets.goalertLow;
          high := secrets.goalertHigh;
          heartbeat := secrets.goalertHeartbeat;
        }
      }
    }

    method ReadOCMAgentURL(listed: seq<string>, text: string) returns (url: string)
      ensures url == When(CM_OCM_AGENT in listed && libs.parseURI(text), text)
    {
      if CM_OCM_AGENT !in listed {
        return "";
      }
      if !libs.parseURI(text) {
        return "";
      }
      return text;
    }

    method ValidateAlertManagerConfig(cfg: Config) returns (valid: bool)
      ensures valid <==> Validated(libs, cfg).Some?
    {
      var text := libs.marshal(cfg);
      if text.None? {
        return false;
      }
      valid := libs.load(text.value);
    }

    method WriteAlertManagerConfig(cfg: Config, resp: Responses) returns (ok: bool)
      modifies this`store, this`trace, gauges
      ensures Current() == AfterWrite(libs, old(Current()), cfg, resp)
      ensures ok <==> WriteSucceeds(libs, old(store), cfg, resp)
    {
      var valid := ValidateAlertManagerConfig(cfg);
      if !valid {
        gauges.UpdateValidationMetric(false);
        trace := trace + [AttemptFailed];
        return false;
      }
      var text := libs.marshal(cfg);
      var written := false;
      if !resp.updateFails {
        if SECRET_ALERTMANAGER in store.secrets {
          store := WithMain(store, text.value);
          written := true;
        } else if !resp.createFails {
          store := WithMain(store, text.value);
          written := true;
        }
      }
      if !written {
        gauges.UpdateValidationMetric(false);
        trace := trace + [AttemptFailed];
        return false;
      }
      gauges.UpdateValidationMetric(true);
      trace := trace + [Wrote(cfg, text.value)];
      return true;
    }

    method Reconcile(request: Request, resp: Responses) returns (outcome: Outcome)
      modifies this`store, this`trace, readiness, gauges
      ensures (Current(), outcome) == Reconciled(libs, fedramp, old(Current()), request, resp)
    {
      hide Compiled, NamespaceList, AfterSecrets, AfterConfigMaps, AfterWrite, WriteSucceeds, When, Step, IsWatched;
      if request.namespace != OPERATOR_NAMESPACE {
        return Outcome(NO_REQUEUE, false);
      }
      if !IsWatched(request.name) {
        return Outcome(NO_REQUEUE, false);
      }
      ghost var before := readiness.ready;
      var answer := readiness.IsReady(resp.probe);
      if readiness.ready && !before {
        trace := trace + [DeclaredReady(resp.probe, readiness.clusterCreationTime)];
      }
      assert Current() == AfterProbe(old(Current()), resp.probe);
      if answer == Failed {
        return Outcome(readiness.Result(), true);
      }
      var pd, cad, watchdogURL, low, high, heartbeat := ParseSecrets(resp.secrets, answer == Ready);
      var namespaces := ParseConfigMaps(resp.configMaps, libs.decode);
      var ocmAgentURL := ReadOCMAgentURL(resp.configMaps.listed, resp.ocmText);
      var inp := Inputs(pd, cad, low, high, heartbeat, watchdogURL, ocmAgentURL,
                        resp.clusterID, resp.clusterRegion, resp.clusterProxy, namespaces);
      assert inp == InputsFrom(libs, resp, answer == Ready);
      var cfg := CreateAlertManagerConfig(inp, fedramp);
      var ok := WriteAlertManagerConfig(cfg, resp);
      if !ok {
        return Outcome(NO_REQUEUE, true);
      }
      gauges.UpdateSecretsMetrics(resp.secrets.listed, cfg.receivers);
      gauges.UpdateConfigMapMetrics(resp.configMaps.listed);
      return Outcome(readiness.Result(), false);
    }
  }
}
