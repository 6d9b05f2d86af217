/** The receivers and the configuration built by controllers/secret_controller.go. */
module Compiler {
  import opened Wrappers
  import opened AlertmanagerTypes
  import opened Routing
  import opened Subroutes
  import Inhibition

  const WATCHDOG := "watchdog"
  const OCM_AGENT := "ocmagent"
  const CAD_PAGERDUTY := "cad-pagerduty"
  const GOALERT_HEARTBEAT := "goalert-heartbeat"

  /** What the cluster's secrets, configmaps and facts contribute; "" means absent. */
  datatype Inputs = Inputs(
    pagerdutyKey: string,
    cadKey: string,
    goalertLow: string,
    goalertHigh: string,
    goalertHeartbeat: string,
    watchdogURL: string,
    ocmAgentURL: string,
    clusterID: string,
    clusterRegion: string,
    clusterProxy: string,
    namespaces: seq<string>)
  {
    predicate HasWatchdog() { watchdogURL != "" }
    predicate HasOcmAgent() { ocmAgentURL != "" }
    predicate HasCad() { cadKey != "" }
    predicate HasPagerduty() { pagerdutyKey != "" }
    predicate HasGoalert() { goalertLow != "" && goalertHigh != "" }
    predicate HasHeartbeat() { goalertHeartbeat != "" }
  }

  // ---------- Routes ----------

  function OcmAgentRoute(): Route {
    Route(OCM_AGENT, [], map["send_managed_notification" := "true"], map[], false, [], "", "", "10m")
  }

  function WatchdogRoute(): Route {
    Route(WATCHDOG, [], map["alertname" := "Watchdog"], map[], true, [], "", "", "5m")
  }

  function HeartbeatRoute(): Route {
    Route(GOALERT_HEARTBEAT, [], map["alertname" := "Watchdog"], map[], true, [], "", "", "5m")
  }

  function CadRoute(): Route {
    Leaf(CAD_PAGERDUTY, map["route_to_cad" := "true"], map[])
  }

  // ---------- Receivers ----------

  function HttpFor(clusterProxy: string): HttpConfig {
    HttpConfig(clusterProxy)
  }

  const CONSOLE_URL := "https://console.redhat.com/openshift/details/"

  /** The notification details that do not depend on the cluster. */
  const DETAIL_TEMPLATES: map<string, Text> := map[
    "alert_name" := Rendered(AlertNameTemplate),
    "link" := Rendered(LinkTemplate),
    "num_firing" := Rendered(NumFiringTemplate),
    "num_resolved" := Rendered(NumResolvedTemplate)]

  /** The details that identify the cluster, blank under FedRAMP. */
  function ClusterDetails(clusterID: string, clusterRegion: string, fedramp: bool): map<string, Text> {
    if fedramp then
      map["ocm_link" := Fixed(""), "resolved" := Fixed(""), "cluster_id" := Fixed(""), "region" := Fixed(""),
          "firing" := Fixed("")]
    else
      map["ocm_link" := Fixed(CONSOLE_URL + clusterID),
          "resolved" := Rendered(ResolvedTemplate),
          "cluster_id" := Fixed(clusterID),
          "region" := Fixed(clusterRegion)]
  }

  function PagerdutyConfigFor(key: string, severity: Text, inp: Inputs, fedramp: bool): PagerdutyConfig {
    PagerdutyConfig(true, key, "", severity, if fedramp then Fixed("ROSA") else Rendered(ClientURLTemplate),
                    Rendered(DescriptionTemplate),
                    DETAIL_TEMPLATES + ClusterDetails(inp.clusterID, inp.clusterRegion, fedramp),
                    HttpFor(inp.clusterProxy))
  }

  lemma BlankedDetails(base: map<string, Text>, link: Text, resolved: Text, id: Text, region: Text)
    ensures (base + map["ocm_link" := link, "resolved" := resolved, "cluster_id" := id, "region" := region])
              ["ocm_link" := Fixed("")]["resolved" := Fixed("")]["cluster_id" := Fixed("")]["region" := Fixed("")]
              ["firing" := Fixed("")]
         == base + ClusterDetails("", "", true)
  {
  }

  /** Fills the details map, then under FedRAMP overwrites what identifies the cluster. */
  method CreatePagerdutyConfig(key: string, inp: Inputs, fedramp: bool) returns (pd: PagerdutyConfig)
    ensures pd == PagerdutyConfigFor(key, Rendered(SeverityTemplate), inp, fedramp)
  {
    var details := DETAIL_TEMPLATES + map[
      "ocm_link" := Fixed(CONSOLE_URL + inp.clusterID),
      "resolved" := Rendered(ResolvedTemplate),
      "cluster_id" := Fixed(inp.clusterID),
      "region" := Fixed(inp.clusterRegion)];
    var clientURL := Rendered(ClientURLTemplate);
    if fedramp {
      BlankedDetails(DETAIL_TEMPLATES, Fixed(CONSOLE_URL + inp.clusterID), Rendered(ResolvedTemplate),
                     Fixed(inp.clusterID), Fixed(inp.clusterRegion));
      details := details["ocm_link" := Fixed("")]["resolved" := Fixed("")];
      details := details["cluster_id" := Fixed("")]["region" := Fixed("")];
      details := details["firing" := Fixed("")];
      clientURL := Fixed("ROSA");
    }
    pd := PagerdutyConfig(true, key, "", Rendered(SeverityTemplate), clientURL, Rendered(DescriptionTemplate), details,
                          HttpFor(inp.clusterProxy));
  }

  function PagerdutyReceiver(name: string, severity: Text, inp: Inputs, fedramp: bool): Receiver {
    Receiver(name, [PagerdutyConfigFor(inp.pagerdutyKey, severity, inp, fedramp)], [])
  }

  function PagerdutyReceivers(inp: Inputs, fedramp: bool): seq<Receiver> {
    if inp.pagerdutyKey == "" then []
    else [PagerdutyReceiver(PAGERDUTY, Rendered(SeverityTemplate), inp, fedramp),
          PagerdutyReceiver(MAKE_IT_WARNING, Fixed("warning"), inp, fedramp),
          PagerdutyReceiver(MAKE_IT_ERROR, Fixed("error"), inp, fedramp),
          PagerdutyReceiver(MAKE_IT_CRITICAL, Fixed("critical"), inp, fedramp)]
  }

  /** One receiver as is, and three that override the severity of a fresh config. */
  method CreatePagerdutyReceivers(inp: Inputs, fedramp: bool) returns (receivers: seq<Receiver>)
    ensures receivers == PagerdutyReceivers(inp, fedramp)
  {
    if inp.pagerdutyKey == "" {
      return [];
    }
    var pd := CreatePagerdutyConfig(inp.pagerdutyKey, inp, fedramp);
    receivers := [Receiver(PAGERDUTY, [pd], [])];
    pd := CreatePagerdutyConfig(inp.pagerdutyKey, inp, fedramp);
    pd := pd.(severity := Fixed("warning"));
    receivers := receivers + [Receiver(MAKE_IT_WARNING, [pd], [])];
    pd := CreatePagerdutyConfig(inp.pagerdutyKey, inp, fedramp);
    pd := pd.(severity := Fixed("error"));
    receivers := receivers + [Receiver(MAKE_IT_ERROR, [pd], [])];
    pd := CreatePagerdutyConfig(inp.pagerdutyKey, inp, fedramp);
    pd := pd.(severity := Fixed("critical"));
    receivers := receivers + [Receiver(MAKE_IT_CRITICAL, [pd], [])];
  }

  function CadReceivers(inp: Inputs, fedramp: bool): seq<Receiver> {
    if inp.cadKey == "" then []
    else [Receiver(CAD_PAGERDUTY, [PagerdutyConfigFor(inp.cadKey, Rendered(SeverityTemplate), inp, fedramp)], [])]
  }

  function WebhookReceiver(name: string, url: string, http: HttpConfig): seq<Receiver> {
    if url == "" then [] else [Receiver(name, [], [WebhookConfig(true, url, http)])]
  }

  function GoalertReceivers(inp: Inputs): seq<Receiver> {
    WebhookReceiver(GOALERT_LOW, inp.goalertLow, HttpFor(inp.clusterProxy))
    + WebhookReceiver(GOALERT_HIGH, inp.goalertHigh, HttpFor(inp.clusterProxy))
  }

  // ---------- The configuration ----------

  /** Appends under a condition, as each if-statement of the source does. */
  function Added<T>(items: seq<T>, condition: bool, more: seq<T>): seq<T> {
    if condition then items + more else items
  }

  /** The children of the root, in source order. */
  function RootRoutes(inp: Inputs, fedramp: bool): seq<Route> {
    var routes := Added([], inp.HasWatchdog(), [WatchdogRoute()]);
    var routes := Added(routes, inp.HasOcmAgent(), [OcmAgentRoute()]);
    var routes := Added(routes, inp.HasCad(), [CadRoute()]);
    var routes := Added(routes, inp.HasPagerduty(), [Subtree(Pagerduty, inp.namespaces, fedramp)]);
    var routes := Added(routes, inp.HasGoalert(), [Subtree(GoAlert, inp.namespaces, fedramp)]);
    Added(routes, inp.HasHeartbeat(), [HeartbeatRoute()])
  }

  function ReceiverList(inp: Inputs, fedramp: bool): seq<Receiver> {
    var http := HttpFor(inp.clusterProxy);
    var receivers := Added([], inp.HasWatchdog(), WebhookReceiver(WATCHDOG, inp.watchdogURL, http));
    var receivers := Added(receivers, inp.HasOcmAgent(), WebhookReceiver(OCM_AGENT, inp.ocmAgentURL, HttpConfig("")));
    var receivers := Added(receivers, inp.HasCad(), CadReceivers(inp, fedramp));
    var receivers := Added(receivers, inp.HasPagerduty(), PagerdutyReceivers(inp, fedramp));
    var receivers := Added(receivers, inp.HasGoalert(), GoalertReceivers(inp));
    Added(receivers, inp.HasHeartbeat(), WebhookReceiver(GOALERT_HEARTBEAT, inp.goalertHeartbeat, http))
    + [Receiver(NULL, [], [])]
  }

  function RootRoute(routes: seq<Route>): Route {
    Route(NULL, ["job"], map[], map[], false, routes, "30s", "5m", "12h")
  }

  function ConfigOf(routes: seq<Route>, receivers: seq<Receiver>): Config {
    Config(Some(GlobalConfig("5m", DEFAULT_PAGERDUTY_URL)), Some(RootRoute(routes)), receivers, [],
           Inhibition.InhibitRules())
  }

  function Compiled(inp: Inputs, fedramp: bool): Config {
    ConfigOf(RootRoutes(inp, fedramp), ReceiverList(inp, fedramp))
  }

  lemma PairAppended(receivers: seq<Receiver>, low: seq<Receiver>, high: seq<Receiver>)
    ensures receivers + (low + high) == receivers + low + high
  {
  }

  method CreateAlertManagerConfig(inp: Inputs, fedramp: bool) returns (cfg: Config)
    ensures cfg == Compiled(inp, fedramp)
  {
    hide Subtree, WebhookReceiver, CadReceivers, PagerdutyReceivers, Inhibition.InhibitRules;
    var routes: seq<Route>, receivers: seq<Receiver> := [], [];
    var http := HttpFor(inp.clusterProxy);

    if inp.watchdogURL != "" {
      routes := routes + [WatchdogRoute()];
      receivers := receivers + WebhookReceiver(WATCHDOG, inp.watchdogURL, http);
    }
    if inp.ocmAgentURL != "" {
      routes := routes + [OcmAgentRoute()];
      receivers := receivers + WebhookReceiver(OCM_AGENT, inp.ocmAgentURL, HttpConfig(""));
    }
    if inp.cadKey != "" {
      routes := routes + [CadRoute()];
      receivers := receivers + CadReceivers(inp, fedramp);
    }
    if inp.pagerdutyKey != "" {
      var subtree := CreateSubroutes(inp.namespaces, Pagerduty, fedramp);
      routes := routes + [subtree];
      var added := CreatePagerdutyReceivers(inp, fedramp);
      receivers := receivers + added;
    }
    if inp.goalertLow != "" && inp.goalertHigh != "" {
      var subtree := CreateSubroutes(inp.namespaces, GoAlert, fedramp);
      routes := routes + [subtree];
      PairAppended(receivers, WebhookReceiver(GOALERT_LOW, inp.goalertLow, http),
                   WebhookReceiver(GOALERT_HIGH, inp.goalertHigh, http));
      receivers := receivers + WebhookReceiver(GOALERT_LOW, inp.goalertLow, http);
      receivers := receivers + WebhookReceiver(GOALERT_HIGH, inp.goalertHigh, http);
    }
    if inp.goalertHeartbeat != "" {
      routes := routes + [HeartbeatRoute()];
      receivers := receivers + WebhookReceiver(GOALERT_HEARTBEAT, inp.goalertHeartbeat, http);
    }
    receivers := receivers + [Receiver(NULL, [], [])];
    cfg := ConfigOf(routes, receivers);
  }

  lemma AddedThen<T>(items: seq<T>, condition: bool, more: seq<T>, rest: seq<T>)
    ensures Added(items, condition, more) + rest == items + (When(condition, more) + rest)
  {
  }

  /** Conditional appends from the left, read from the front. */
  lemma NestedParts<T>(b0: bool, x0: seq<T>, b1: bool, x1: seq<T>, b2: bool, x2: seq<T>,
                       b3: bool, x3: seq<T>, b4: bool, x4: seq<T>, b5: bool, x5: seq<T>)
    ensures Added(Added(Added(Added(Added(Added([], b0, x0), b1, x1), b2, x2), b3, x3), b4, x4), b5, x5)
         == When(b0, x0) + (When(b1, x1) + (When(b2, x2) + (When(b3, x3) + (When(b4, x4) + When(b5, x5)))))
  {
    hide Added, When;
    var r0 := Added([], b0, x0);
    var r1 := Added(r0, b1, x1);
    var r2 := Added(r1, b2, x2);
    var r3 := Added(r2, b3, x3);
    var r4 := Added(r3, b4, x4);
    AddedThen(r4, b5, x5, []);
    assert Added(r4, b5, x5) + [] == Added(r4, b5, x5) && When(b5, x5) + [] == When(b5, x5);
    var w4 := When(b4, x4) + When(b5, x5);
    AddedThen(r3, b4, x4, When(b5, x5));
    var w3 := When(b3, x3) + w4;
    AddedThen(r2, b3, x3, w4);
    var w2 := When(b2, x2) + w3;
    AddedThen(r1, b2, x2, w3);
    AddedThen(r0, b1, x1, w2);
    AddedThen([], b0, x0, When(b1, x1) + w2);
    assert forall s: seq<T> :: [] + s == s;
  }

  /** Under FedRAMP nothing compiled depends on the cluster's identity or region. */
  lemma FedrampHidesCluster(inp: Inputs, otherID: string, otherRegion: string)
    ensures Compiled(inp.(clusterID := otherID, clusterRegion := otherRegion), true) == Compiled(inp, true)
  {
    hide Subtree, Added, WebhookReceiver, Inhibition.InhibitRules;
    var other := inp.(clusterID := otherID, clusterRegion := otherRegion);
    assert PagerdutyReceivers(other, true) == PagerdutyReceivers(inp, true);
    assert CadReceivers(other, true) == CadReceivers(inp, true);
    assert RootRoutes(other, true) == RootRoutes(inp, true);
  }
}
