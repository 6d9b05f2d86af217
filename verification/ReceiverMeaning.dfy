/** Where alerts end up: which URL or routing key each receiver holds, and which of them an
    alert's labels lead to. */
module ReceiverMeaning {
  import opened Wrappers
  import opened AlertmanagerTypes
  import opened Routing
  import opened RouteTable
  import opened Subroutes
  import opened SubrouteMeaning
  import opened TableMeaning
  import opened Compiler
  import opened Delivery
  import opened Validation
  import opened Closure
  import opened Alternations
  import Inhibition

  // ---------- What a receiver holds ----------

  /** One webhook, resolved alerts included, to this URL through this proxy. */
  predicate Posts(receiver: Receiver, url: string, proxy: string) {
    && receiver.pagerduty == [] && |receiver.webhooks| == 1
    && receiver.webhooks[0].url == url && receiver.webhooks[0].sendResolved
    && receiver.webhooks[0].http.proxyURL == proxy
  }

  /** The details of a PagerDuty notification; blank under FedRAMP where they would tell
      the cluster. */
  predicate Details(details: map<string, Text>, inp: Inputs, fedramp: bool) {
    && details.Keys == {"alert_name", "link", "ocm_link", "num_firing", "num_resolved", "resolved", "cluster_id",
                        "region"} + (if fedramp then {"firing"} else {})
    && details["alert_name"] == Rendered(AlertNameTemplate) && details["link"] == Rendered(LinkTemplate)
    && details["num_firing"] == Rendered(NumFiringTemplate)
    && details["num_resolved"] == Rendered(NumResolvedTemplate)
    && details["resolved"] == (if fedramp then Fixed("") else Rendered(ResolvedTemplate))
    && details["cluster_id"] == Fixed(if fedramp then "" else inp.clusterID)
    && details["region"] == Fixed(if fedramp then "" else inp.clusterRegion)
    && details["ocm_link"]
       == Fixed(if fedramp then "" else "https://console.redhat.com/openshift/details/" + inp.clusterID)
    && (fedramp ==> details["firing"] == Fixed(""))
  }

  /** One PagerDuty integration with this key and severity. */
  predicate Calls(receiver: Receiver, key: string, severity: Text, inp: Inputs, fedramp: bool) {
    && receiver.webhooks == [] && |receiver.pagerduty| == 1
    && receiver.pagerduty[0].routingKey == key && receiver.pagerduty[0].severity == severity
    && receiver.pagerduty[0].sendResolved && receiver.pagerduty[0].url == ""
    && receiver.pagerduty[0].http.proxyURL == inp.clusterProxy
    && receiver.pagerduty[0].description == Rendered(DescriptionTemplate)
    && receiver.pagerduty[0].clientURL == (if fedramp then Fixed("ROSA") else Rendered(ClientURLTemplate))
    && Details(receiver.pagerduty[0].details, inp, fedramp)
  }

  /** What a receiver of each name holds. */
  predicate Described(receiver: Receiver, inp: Inputs, fedramp: bool) {
    match receiver.name
    case "null" => receiver.pagerduty == [] && receiver.webhooks == []
    case "watchdog" => Posts(receiver, inp.watchdogURL, inp.clusterProxy)
    case "ocmagent" => Posts(receiver, inp.ocmAgentURL, "")
    case "goalert" => Posts(receiver, inp.goalertLow, inp.clusterProxy)
    case "goalert-high" => Posts(receiver, inp.goalertHigh, inp.clusterProxy)
    case "goalert-heartbeat" => Posts(receiver, inp.goalertHeartbeat, inp.clusterProxy)
    case "cad-pagerduty" => Calls(receiver, inp.cadKey, Rendered(SeverityTemplate), inp, fedramp)
    case "pagerduty" => Calls(receiver, inp.pagerdutyKey, Rendered(SeverityTemplate), inp, fedramp)
    case "make-it-warning" => Calls(receiver, inp.pagerdutyKey, Fixed("warning"), inp, fedramp)
    case "make-it-error" => Calls(receiver, inp.pagerdutyKey, Fixed("error"), inp, fedramp)
    case "make-it-critical" => Calls(receiver, inp.pagerdutyKey, Fixed("critical"), inp, fedramp)
    case _ => false
  }

  predicate AllDescribed(receivers: seq<Receiver>, inp: Inputs, fedramp: bool) {
    forall i :: 0 <= i < |receivers| ==> Described(receivers[i], inp, fedramp)
  }

  lemma DetailsFilled(inp: Inputs, fedramp: bool)
    ensures Details(DETAIL_TEMPLATES + ClusterDetails(inp.clusterID, inp.clusterRegion, fedramp), inp, fedramp)
  {
  }

  lemma ConfigCalls(name: string, key: string, severity: Text, inp: Inputs, fedramp: bool)
    ensures Calls(Receiver(name, [PagerdutyConfigFor(key, severity, inp, fedramp)], []), key, severity, inp, fedramp)
  {
    hide Details, ClusterDetails, DETAIL_TEMPLATES;
    DetailsFilled(inp, fedramp);
  }

  lemma PagerdutyDescribed(inp: Inputs, fedramp: bool)
    ensures AllDescribed(PagerdutyReceivers(inp, fedramp), inp, fedramp)
    ensures AllDescribed(CadReceivers(inp, fedramp), inp, fedramp)
  {
    hide PagerdutyConfigFor, Calls;
    ConfigCalls("pagerduty", inp.pagerdutyKey, Rendered(SeverityTemplate), inp, fedramp);
    ConfigCalls("make-it-warning", inp.pagerdutyKey, Fixed("warning"), inp, fedramp);
    ConfigCalls("make-it-error", inp.pagerdutyKey, Fixed("error"), inp, fedramp);
    ConfigCalls("make-it-critical", inp.pagerdutyKey, Fixed("critical"), inp, fedramp);
    ConfigCalls("cad-pagerduty", inp.cadKey, Rendered(SeverityTemplate), inp, fedramp);
  }

  lemma WebhooksDescribed(inp: Inputs, fedramp: bool)
    ensures
      var http := HttpFor(inp.clusterProxy);
      && AllDescribed(WebhookReceiver(WATCHDOG, inp.watchdogURL, http), inp, fedramp)
      && AllDescribed(WebhookReceiver(OCM_AGENT, inp.ocmAgentURL, HttpConfig("")), inp, fedramp)
      && AllDescribed(WebhookReceiver(GOALERT_HEARTBEAT, inp.goalertHeartbeat, http), inp, fedramp)
      && AllDescribed([Receiver(NULL, [], [])], inp, fedramp)
  {
  }

  lemma GoalertDescribed(inp: Inputs, fedramp: bool)
    ensures AllDescribed(GoalertReceivers(inp), inp, fedramp)
  {
  }

  lemma AddedDescribed(receivers: seq<Receiver>, condition: bool, more: seq<Receiver>, inp: Inputs, fedramp: bool)
    requires AllDescribed(receivers, inp, fedramp) && AllDescribed(more, inp, fedramp)
    ensures AllDescribed(Added(receivers, condition, more), inp, fedramp)
    ensures AllDescribed(receivers + more, inp, fedramp)
  {
  }

  /** Every receiver of a compiled configuration holds what its name says. */
  lemma ReceiversDescribed(inp: Inputs, fedramp: bool)
    ensures forall r :: r in Compiled(inp, fedramp).receivers ==> Described(r, inp, fedramp)
  {
    hide Added, WebhookReceiver, CadReceivers, PagerdutyReceivers, GoalertReceivers, Described, RootRoutes;
    var http := HttpFor(inp.clusterProxy);
    PagerdutyDescribed(inp, fedramp);
    WebhooksDescribed(inp, fedramp);
    GoalertDescribed(inp, fedramp);
    AddedDescribed([], inp.HasWatchdog(), WebhookReceiver(WATCHDOG, inp.watchdogURL, http), inp, fedramp);
    var list := Added([], inp.HasWatchdog(), WebhookReceiver(WATCHDOG, inp.watchdogURL, http));
    AddedDescribed(list, inp.HasOcmAgent(), WebhookReceiver(OCM_AGENT, inp.ocmAgentURL, HttpConfig("")), inp, fedramp);
    list := Added(list, inp.HasOcmAgent(), WebhookReceiver(OCM_AGENT, inp.ocmAgentURL, HttpConfig("")));
    AddedDescribed(list, inp.HasCad(), CadReceivers(inp, fedramp), inp, fedramp);
    list := Added(list, inp.HasCad(), CadReceivers(inp, fedramp));
    AddedDescribed(list, inp.HasPagerduty(), PagerdutyReceivers(inp, fedramp), inp, fedramp);
    list := Added(list, inp.HasPagerduty(), PagerdutyReceivers(inp, fedramp));
    AddedDescribed(list, inp.HasGoalert(), GoalertReceivers(inp), inp, fedramp);
    list := Added(list, inp.HasGoalert(), GoalertReceivers(inp));
    AddedDescribed(list, inp.HasHeartbeat(), WebhookReceiver(GOALERT_HEARTBEAT, inp.goalertHeartbeat, http), inp,
                   fedramp);
    list := Added(list, inp.HasHeartbeat(), WebhookReceiver(GOALERT_HEARTBEAT, inp.goalertHeartbeat, http));
    AddedDescribed(list, true, [Receiver(NULL, [], [])], inp, fedramp);
    assert Compiled(inp, fedramp).receivers == list + [Receiver(NULL, [], [])];
  }

  // ---------- Who gets an alert ----------

  /** The receivers of an alert, in order, given what the two paging subtrees answer. */
  function DeliveredAs(inp: Inputs, alert: Alert, pagerduty: string, goalert: string): seq<string> {
    var heartbeat := Label(alert, "alertname") == "Watchdog";
    var snitch := if inp.watchdogURL != "" && heartbeat then ["watchdog"] else [];
    if inp.ocmAgentURL != "" && Label(alert, "send_managed_notification") == "true" then snitch + ["ocmagent"]
    else if inp.cadKey != "" && Label(alert, "route_to_cad") == "true" then snitch + ["cad-pagerduty"]
    else
      var paged :=
        (if inp.pagerdutyKey != "" then [pagerduty] else [])
        + ((if inp.goalertLow != "" && inp.goalertHigh != "" then [goalert] else [])
           + (if inp.goalertHeartbeat != "" && heartbeat then ["goalert-heartbeat"] else []));
      if snitch + paged == [] then ["null"] else snitch + paged
  }

  /** By literal names and labels throughout. */
  function DeliveredTo(inp: Inputs, fedramp: bool, re: Regexp, alert: Alert): seq<string> {
    DeliveredAs(inp, alert, PagerdutyFor(re, inp.namespaces, fedramp, alert),
                GoAlertFor(re, inp.namespaces, fedramp, alert))
  }

  lemma SubtreeNames(inp: Inputs, fedramp: bool, re: Regexp, alert: Alert)
    ensures Paged(Pagerduty, inp, fedramp, re, alert) == PagerdutyFor(re, inp.namespaces, fedramp, alert)
    ensures Paged(GoAlert, inp, fedramp, re, alert) == GoAlertFor(re, inp.namespaces, fedramp, alert)
  {
    hide Notify, PagerdutyFor, GoAlertFor, SubtreeReceiver, StaticRows, SubtreeOver;
    SubtreesDeliver(re, inp.namespaces, fedramp, alert);
    SubtreeDelivery(Pagerduty, re, StaticRows(fedramp), inp.namespaces, alert);
    SubtreeDelivery(GoAlert, re, StaticRows(fedramp), inp.namespaces, alert);
  }

  lemma SameOrder(inp: Inputs, alert: Alert, pagerduty: string, goalert: string)
    ensures DeliveredWith(inp, alert, pagerduty, goalert) == DeliveredAs(inp, alert, pagerduty, goalert)
  {
  }

  /** The compiled tree hands each alert to those. */
  lemma TreeDelivers(inp: Inputs, fedramp: bool, re: Regexp, alert: Alert)
    ensures Notify(re, Compiled(inp, fedramp).route.value, alert) == DeliveredTo(inp, fedramp, re, alert)
  {
    hide Compiled, Notify, PagerdutyFor, GoAlertFor, Paged, DeliveredWith, DeliveredAs;
    ConfigDelivery(inp, fedramp, re, alert);
    SubtreeNames(inp, fedramp, re, alert);
    SameOrder(inp, alert, PagerdutyFor(re, inp.namespaces, fedramp, alert),
              GoAlertFor(re, inp.namespaces, fedramp, alert));
  }

  /** Each receiver an alert is handed to is defined, once, and holds what its name says: the
      labels determine the URL or the key that is used. */
  lemma LabelsDetermineEndpoint(inp: Inputs, fedramp: bool, re: Regexp, alert: Alert, name: string)
    returns (receiver: Receiver)
    requires name in DeliveredTo(inp, fedramp, re, alert)
    ensures receiver in Compiled(inp, fedramp).receivers && receiver.name == name && Described(receiver, inp, fedramp)
    ensures forall other :: other in Compiled(inp, fedramp).receivers && other.name == name ==> other == receiver
  {
    hide RootRoutes, ReceiverList, Notify, DeliveredTo, Described, ConfiguredNames, Referenced;
    var cfg := Compiled(inp, fedramp);
    TreeDelivers(inp, fedramp, re, alert);
    NotifiedAreReferenced(re, cfg.route.value, alert);
    ConfigClosed(inp, fedramp);
    ReceiversDescribed(inp, fedramp);
    var i :| 0 <= i < |cfg.receivers| && cfg.receivers[i].name == name;
    receiver := cfg.receivers[i];
    OnlyOne(cfg.receivers, i);
  }

  lemma OnlyOne(receivers: seq<Receiver>, i: nat)
    requires i < |receivers| && NoRepeats(ReceiverNames(receivers))
    ensures forall other :: other in receivers && other.name == receivers[i].name ==> other == receivers[i]
  {
    forall other | other in receivers && other.name == receivers[i].name
      ensures other == receivers[i]
    {
      var k :| 0 <= k < |receivers| && receivers[k] == other;
      assert ReceiverNames(receivers)[k] == ReceiverNames(receivers)[i];
    }
  }

  /** A critical alert that nobody takes exclusively pages GoAlert at its high URL and
      PagerDuty with the severity overridden. */
  lemma CriticalAlertsUse(inp: Inputs, fedramp: bool, re: Regexp, alert: Alert) returns (page: Receiver, post: Receiver)
    requires Decision(re, fedramp, alert) == Some(ToCritical)
    requires inp.pagerdutyKey != "" && inp.goalertLow != "" && inp.goalertHigh != ""
    requires inp.ocmAgentURL == "" && inp.cadKey == ""
    ensures page.name in DeliveredTo(inp, fedramp, re, alert) && post.name in DeliveredTo(inp, fedramp, re, alert)
    ensures page in Compiled(inp, fedramp).receivers && post in Compiled(inp, fedramp).receivers
    ensures Calls(page, inp.pagerdutyKey, Fixed("critical"), inp, fedramp)
    ensures Posts(post, inp.goalertHigh, inp.clusterProxy)
  {
    hide Compiled, Decision, Calls, Posts;
    page := LabelsDetermineEndpoint(inp, fedramp, re, alert, "make-it-critical");
    post := LabelsDetermineEndpoint(inp, fedramp, re, alert, "goalert-high");
  }

  // ---------- The rest of the configuration ----------

  /** A route of a subtree: final, without waits and grouping of its own. */
  predicate IsPlain(leaf: Route) {
    && leaf.routes == [] && leaf.groupBy == [] && !leaf.continues
    && leaf.groupWait == leaf.groupInterval == leaf.repeatInterval == ""
  }

  predicate ArePlain(routes: seq<Route>) {
    forall i :: 0 <= i < |routes| ==> IsPlain(routes[i])
  }

  /** The grouping and the intervals of the root's children. */
  predicate Grouped(child: Route) {
    && child.groupWait == child.groupInterval == ""
    && child.repeatInterval == (match child.receiver
                                case "watchdog" => "5m"
                                case "goalert-heartbeat" => "5m"
                                case "ocmagent" => "10m"
                                case _ => "")
    && (if child.receiver == "null" then child.groupBy == ["alertname", "severity"] && ArePlain(child.routes)
        else child.groupBy == [] && child.routes == [])
  }

  predicate AllGrouped(routes: seq<Route>) {
    forall i :: 0 <= i < |routes| ==> Grouped(routes[i])
  }

  lemma {:induction false} NamespaceRoutesPlain(kind: ReceiverType, namespaces: seq<string>)
    ensures ArePlain(NamespaceRoutes(kind, namespaces))
  {
    if namespaces != [] {
      NamespaceRoutesPlain(kind, namespaces[..|namespaces| - 1]);
    }
  }

  lemma SubtreeGrouped(kind: ReceiverType, namespaces: seq<string>, fedramp: bool)
    ensures AllGrouped([Subtree(kind, namespaces, fedramp)])
  {
    hide StaticRows;
    NamespaceRoutesPlain(kind, namespaces);
  }

  lemma LeavesGrouped()
    ensures AllGrouped([WatchdogRoute()]) && AllGrouped([OcmAgentRoute()]) && AllGrouped([CadRoute()])
    ensures AllGrouped([HeartbeatRoute()])
  {
  }

  lemma AddedGrouped(routes: seq<Route>, condition: bool, more: seq<Route>)
    requires AllGrouped(routes) && AllGrouped(more)
    ensures AllGrouped(Added(routes, condition, more))
  {
  }

  lemma RootRoutesGrouped(inp: Inputs, fedramp: bool)
    ensures AllGrouped(RootRoutes(inp, fedramp))
  {
    hide Added, Subtree, WatchdogRoute, OcmAgentRoute, CadRoute, HeartbeatRoute, Grouped;
    LeavesGrouped();
    SubtreeGrouped(Pagerduty, inp.namespaces, fedramp);
    SubtreeGrouped(GoAlert, inp.namespaces, fedramp);
    var routes := Added([], inp.HasWatchdog(), [WatchdogRoute()]);
    AddedGrouped([], inp.HasWatchdog(), [WatchdogRoute()]);
    AddedGrouped(routes, inp.HasOcmAgent(), [OcmAgentRoute()]);
    routes := Added(routes, inp.HasOcmAgent(), [OcmAgentRoute()]);
    AddedGrouped(routes, inp.HasCad(), [CadRoute()]);
    routes := Added(routes, inp.HasCad(), [CadRoute()]);
    AddedGrouped(routes, inp.HasPagerduty(), [Subtree(Pagerduty, inp.namespaces, fedramp)]);
    routes := Added(routes, inp.HasPagerduty(), [Subtree(Pagerduty, inp.namespaces, fedramp)]);
    AddedGrouped(routes, inp.HasGoalert(), [Subtree(GoAlert, inp.namespaces, fedramp)]);
    routes := Added(routes, inp.HasGoalert(), [Subtree(GoAlert, inp.namespaces, fedramp)]);
    AddedGrouped(routes, inp.HasHeartbeat(), [HeartbeatRoute()]);
  }

  /** Waits, intervals, grouping and defaults of the whole tree. */
  predicate HasSettings(cfg: Config) {
    && cfg.global == Some(GlobalConfig("5m", "https://events.pagerduty.com/v2/enqueue")) && cfg.templates == []
    && cfg.route.Some?
    && var root := cfg.route.value;
       && root.receiver == "null" && root.groupBy == ["job"] && !root.continues
       && root.groupWait == "30s" && root.groupInterval == "5m" && root.repeatInterval == "12h"
       && AllGrouped(root.routes)
  }

  lemma Settings(inp: Inputs, fedramp: bool)
    ensures HasSettings(Compiled(inp, fedramp))
  {
    hide RootRoutes, ReceiverList, Inhibition.InhibitRules, AllGrouped;
    RootRoutesGrouped(inp, fedramp);
  }

  /** The rules of a compiled configuration silence exactly what the nine conditions on
      labels say. */
  lemma ConfigInhibits(inp: Inputs, fedramp: bool, re: Regexp, source: Alert, target: Alert)
    requires ReadsAlternations(re)
    ensures
      var rules := Compiled(inp, fedramp).inhibitRules;
      (exists i :: 0 <= i < |rules| && Inhibition.RuleInhibits(re, rules[i], source, target))
      <==> Inhibition.Silences(source, target)
  {
    hide RootRoutes, ReceiverList, Inhibition.InhibitRules, Inhibition.RuleInhibits, Inhibition.Silences;
    Inhibition.InhibitsExactly(re, source, target);
  }
}
