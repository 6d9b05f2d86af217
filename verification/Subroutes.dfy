/** `createSubroutes` of controllers/secret_controller.go: one subtree per paging
    integration, built from the static table and the namespace patterns. */
module Subroutes {
  import opened AlertmanagerTypes
  import opened RouteTable

  datatype ReceiverType = GoAlert | Pagerduty

  const NULL := "null"
  const PAGERDUTY := "pagerduty"
  const MAKE_IT_CRITICAL := "make-it-critical"
  const MAKE_IT_ERROR := "make-it-error"
  const MAKE_IT_WARNING := "make-it-warning"
  const GOALERT_LOW := "goalert"
  const GOALERT_HIGH := "goalert-high"

  const K8S := "openshift-monitoring/k8s"

  /** The receiver each of the table's local variables stands for. */
  function ReceiverFor(kind: ReceiverType, dest: Destination): string {
    match (kind, dest)
    case (_, ToNull) => NULL
    case (GoAlert, ToCommon) => GOALERT_LOW
    case (GoAlert, ToCritical) => GOALERT_HIGH
    case (GoAlert, ToError) => GOALERT_HIGH
    case (GoAlert, ToWarning) => GOALERT_LOW
    case (Pagerduty, ToCommon) => PAGERDUTY
    case (Pagerduty, ToCritical) => MAKE_IT_CRITICAL
    case (Pagerduty, ToError) => MAKE_IT_ERROR
    case (Pagerduty, ToWarning) => MAKE_IT_WARNING
  }

  function Leaf(receiver: string, matchEq: map<string, string>, matchRE: map<string, string>): Route {
    Route(receiver, [], matchEq, matchRE, false, [], "", "", "")
  }

  function RouteOf(kind: ReceiverType, row: Row): Route {
    Leaf(ReceiverFor(kind, row.dest), row.matchEq, row.matchRE)
  }

  function RoutesOf(kind: ReceiverType, rows: seq<Row>): (routes: seq<Route>)
    ensures |routes| == |rows|
  {
    seq(|rows|, i requires 0 <= i < |rows| => RouteOf(kind, rows[i]))
  }

  lemma RoutesOfAppend(kind: ReceiverType, xs: seq<Row>, ys: seq<Row>)
    ensures RoutesOf(kind, xs + ys) == RoutesOf(kind, xs) + RoutesOf(kind, ys)
  {
  }

  /** The routes one namespace pattern adds (lines 519-535). */
  function RoutesForNamespace(kind: ReceiverType, namespace: string): seq<Route> {
    match kind
    case Pagerduty =>
      [ExportedRoute(namespace), OwnRoute(namespace)]
    case GoAlert =>
      [SeverityRoute(GOALERT_HIGH, namespace, "critical"),
       SeverityRoute(GOALERT_HIGH, namespace, "error"),
       SeverityRoute(GOALERT_LOW, namespace, "warning")]
  }

  function ExportedRoute(namespace: string): Route {
    Leaf(PAGERDUTY, map["prometheus" := K8S], map["exported_namespace" := namespace])
  }

  function OwnRoute(namespace: string): Route {
    Leaf(PAGERDUTY, map["exported_namespace" := "", "prometheus" := K8S], map["namespace" := namespace])
  }

  function SeverityRoute(receiver: string, namespace: string, severity: string): Route {
    Leaf(receiver,
         map["exported_namespace" := "", "prometheus" := K8S, "severity" := severity],
         map["namespace" := namespace])
  }

  function NamespaceRoutes(kind: ReceiverType, namespaces: seq<string>): seq<Route> {
    if namespaces == [] then []
    else NamespaceRoutes(kind, namespaces[..|namespaces| - 1]) + RoutesForNamespace(kind, namespaces[|namespaces| - 1])
  }

  lemma NamespaceRoutesStep(kind: ReceiverType, namespaces: seq<string>, i: nat)
    requires i < |namespaces|
    ensures NamespaceRoutes(kind, namespaces[..i + 1])
         == NamespaceRoutes(kind, namespaces[..i]) + RoutesForNamespace(kind, namespaces[i])
  {
    assert namespaces[..i + 1][..i] == namespaces[..i];
  }

  /** A subtree over any static table. */
  function SubtreeOver(rows: seq<Row>, kind: ReceiverType, namespaces: seq<string>): Route {
    Route(NULL, ["alertname", "severity"], map[], map[], true,
          RoutesOf(kind, rows) + NamespaceRoutes(kind, namespaces), "", "", "")
  }

  function Subtree(kind: ReceiverType, namespaces: seq<string>, fedramp: bool): Route {
    SubtreeOver(StaticRows(fedramp), kind, namespaces)
  }

  /** Lines 342-516: the static routes, one of them left out under FedRAMP. */
  method StaticRoutes(kind: ReceiverType, fedramp: bool) returns (subroute: seq<Route>)
    ensures subroute == RoutesOf(kind, StaticRows(fedramp))
  {
    subroute := RoutesOf(kind, CommonRows());
    if !fedramp {
      RoutesOfAppend(kind, CommonRows(), [MonitoringDownRow()]);
      subroute := subroute + [RouteOf(kind, MonitoringDownRow())];
    }
  }

  /** Lines 518-536: the routes of each namespace pattern, appended in list order. */
  method AppendNamespaceRoutes(start: seq<Route>, namespaces: seq<string>, kind: ReceiverType)
    returns (subroute: seq<Route>)
    ensures subroute == start + NamespaceRoutes(kind, namespaces)
  {
    subroute := start;
    for i := 0 to |namespaces|
      invariant subroute == start + NamespaceRoutes(kind, namespaces[..i])
    {
      var namespace := namespaces[i];
      NamespaceRoutesStep(kind, namespaces, i);
      if kind == Pagerduty {
        subroute := subroute + [ExportedRoute(namespace), OwnRoute(namespace)];
      }
      if kind == GoAlert {
        subroute := subroute + [
          SeverityRoute(GOALERT_HIGH, namespace, "critical"),
          SeverityRoute(GOALERT_HIGH, namespace, "error"),
          SeverityRoute(GOALERT_LOW, namespace, "warning")];
      }
    }
    assert namespaces[..|namespaces|] == namespaces;
  }

  method CreateSubroutes(namespaces: seq<string>, kind: ReceiverType, fedramp: bool) returns (route: Route)
    ensures route == Subtree(kind, namespaces, fedramp)
  {
    var subroute := StaticRoutes(kind, fedramp);
    subroute := AppendNamespaceRoutes(subroute, namespaces, kind);
    route := Route(NULL, ["alertname", "severity"], map[], map[], true, subroute, "", "", "");
  }
}

/** What an alert gets from a subtree, in closed form, and how the two
    integrations and different namespace lists compare. */
module SubrouteMeaning {
  import opened Wrappers
  import opened AlertmanagerTypes
  import opened Routing
  import opened RouteTable
  import opened Subroutes

  /** The destination of the first row whose matchers hold. */
  function FirstDestination(re: Regexp, rows: seq<Row>, alert: Alert): Option<Destination> {
    if rows == [] then None
    else if MatchersHold(re, rows[0].matchEq, rows[0].matchRE, alert) then Some(rows[0].dest)
    else FirstDestination(re, rows[1..], alert)
  }

  /** Some pattern of the list matches the given value. */
  predicate AnyPattern(re: Regexp, namespaces: seq<string>, value: string) {
    exists n :: n in namespaces && re(n, value)
  }

  /** The receiver the namespace patterns lead to, `null` when they lead nowhere. */
  function NamespaceReceiver(kind: ReceiverType, re: Regexp, namespaces: seq<string>, alert: Alert): string {
    var exported := Label(alert, "exported_namespace");
    var own := exported == "" && AnyPattern(re, namespaces, Label(alert, "namespace"));
    var severity := Label(alert, "severity");
    if Label(alert, "prometheus") != K8S then NULL
    else match kind
      case Pagerduty => if own || AnyPattern(re, namespaces, exported) then PAGERDUTY else NULL
      case GoAlert =>
        if own && severity in {"critical", "error"} then GOALERT_HIGH
        else if own && severity == "warning" then GOALERT_LOW
        else NULL
  }

  /** The one receiver a subtree over `rows` hands an alert to. */
  function SubtreeReceiver(
      kind: ReceiverType, re: Regexp, rows: seq<Row>, namespaces: seq<string>, alert: Alert): string {
    match FirstDestination(re, rows, alert)
    case Some(dest) => ReceiverFor(kind, dest)
    case None => NamespaceReceiver(kind, re, namespaces, alert)
  }

  function OneUnlessNull(receiver: string): seq<string> {
    if receiver == NULL then [] else [receiver]
  }

  lemma {:induction false} RowsDeliver(re: Regexp, kind: ReceiverType, rows: seq<Row>, alert: Alert)
    ensures NotifyAll(re, RoutesOf(kind, rows), alert)
         == match FirstDestination(re, rows, alert)
            case Some(dest) => [ReceiverFor(kind, dest)]
            case None => []
  {
    if rows != [] {
      assert RoutesOf(kind, rows)[1..] == RoutesOf(kind, rows[1..]);
      FinalLeafNotifies(re, RouteOf(kind, rows[0]), alert);
      RowsDeliver(re, kind, rows[1..], alert);
    }
  }

  lemma PrefixPatterns(re: Regexp, namespaces: seq<string>, value: string)
    requires namespaces != []
    ensures AnyPattern(re, namespaces, value)
        <==> AnyPattern(re, namespaces[..|namespaces| - 1], value) || re(namespaces[|namespaces| - 1], value)
  {
    var front, last := namespaces[..|namespaces| - 1], namespaces[|namespaces| - 1];
    assert namespaces == front + [last];
  }

  lemma SeverityMatches(re: Regexp, receiver: string, namespace: string, severity: string, alert: Alert)
    ensures Matches(re, SeverityRoute(receiver, namespace, severity), alert)
       <==> Label(alert, "exported_namespace") == "" && Label(alert, "prometheus") == K8S
            && Label(alert, "severity") == severity && re(namespace, Label(alert, "namespace"))
  {
    var required := map["exported_namespace" := "", "prometheus" := K8S, "severity" := severity];
    assert "exported_namespace" in required && "prometheus" in required && "severity" in required;
  }

  lemma ExportedMatches(re: Regexp, namespace: string, alert: Alert)
    ensures Matches(re, ExportedRoute(namespace), alert)
       <==> Label(alert, "prometheus") == K8S && re(namespace, Label(alert, "exported_namespace"))
  {
  }

  lemma OwnMatches(re: Regexp, namespace: string, alert: Alert)
    ensures Matches(re, OwnRoute(namespace), alert)
       <==> Label(alert, "prometheus") == K8S && Label(alert, "exported_namespace") == ""
            && re(namespace, Label(alert, "namespace"))
  {
  }

  /** One pattern's routes give what the closed form says of a one-element list. */
  lemma OnePatternDelivers(kind: ReceiverType, re: Regexp, namespace: string, alert: Alert)
    ensures NotifyAll(re, RoutesForNamespace(kind, namespace), alert)
         == OneUnlessNull(NamespaceReceiver(kind, re, [namespace], alert))
  {
    assert forall value :: AnyPattern(re, [namespace], value) <==> re(namespace, value) by {
      assert namespace in [namespace];
    }
    match kind {
      case Pagerduty => ExportedOrOwn(re, namespace, alert);
      case GoAlert => BySeverity(re, namespace, alert);
    }
  }

  lemma ExportedOrOwn(re: Regexp, namespace: string, alert: Alert)
    ensures NotifyAll(re, RoutesForNamespace(Pagerduty, namespace), alert)
         == if Label(alert, "prometheus") == K8S
               && (re(namespace, Label(alert, "exported_namespace"))
                   || (Label(alert, "exported_namespace") == "" && re(namespace, Label(alert, "namespace"))))
            then [PAGERDUTY] else []
  {
    var exported, own := ExportedRoute(namespace), OwnRoute(namespace);
    FinalPair(re, exported, own, alert);
    FinalLeafNotifies(re, own, alert);
    ExportedMatches(re, namespace, alert);
    OwnMatches(re, namespace, alert);
  }

  lemma BySeverity(re: Regexp, namespace: string, alert: Alert)
    ensures NotifyAll(re, RoutesForNamespace(GoAlert, namespace), alert)
         == if Label(alert, "prometheus") == K8S && Label(alert, "exported_namespace") == ""
               && re(namespace, Label(alert, "namespace"))
               && Label(alert, "severity") in {"critical", "error", "warning"}
            then [if Label(alert, "severity") == "warning" then GOALERT_LOW else GOALERT_HIGH] else []
  {
    var critical := SeverityRoute(GOALERT_HIGH, namespace, "critical");
    var error := SeverityRoute(GOALERT_HIGH, namespace, "error");
    var warning := SeverityRoute(GOALERT_LOW, namespace, "warning");
    FinalTriple(re, critical, error, warning, alert);
    FinalLeafNotifies(re, warning, alert);
    SeverityMatches(re, GOALERT_HIGH, namespace, "critical", alert);
    SeverityMatches(re, GOALERT_HIGH, namespace, "error", alert);
    SeverityMatches(re, GOALERT_LOW, namespace, "warning", alert);
  }

  lemma {:induction false} NamespaceRoutesAreFinal(kind: ReceiverType, namespaces: seq<string>)
    ensures AllFinalLeaves(NamespaceRoutes(kind, namespaces))
  {
    if namespaces != [] {
      NamespaceRoutesAreFinal(kind, namespaces[..|namespaces| - 1]);
    }
  }

  lemma {:induction false} NamespaceRoutesDeliver(kind: ReceiverType, re: Regexp, namespaces: seq<string>, alert: Alert)
    ensures NotifyAll(re, NamespaceRoutes(kind, namespaces), alert)
         == OneUnlessNull(NamespaceReceiver(kind, re, namespaces, alert))
  {
    if namespaces != [] {
      var front, last := namespaces[..|namespaces| - 1], namespaces[|namespaces| - 1];
      NamespaceRoutesDeliver(kind, re, front, alert);
      NamespaceRoutesAreFinal(kind, front);
      FinalLeavesAppend(re, NamespaceRoutes(kind, front), RoutesForNamespace(kind, last), alert);
      OnePatternDelivers(kind, re, last, alert);
      SplitReceiver(kind, re, namespaces, alert);
    }
  }

  /** The closed form of a list from those of its front and its last pattern. */
  lemma SplitReceiver(kind: ReceiverType, re: Regexp, namespaces: seq<string>, alert: Alert)
    requires namespaces != []
    ensures
      var front := NamespaceReceiver(kind, re, namespaces[..|namespaces| - 1], alert);
      var last := NamespaceReceiver(kind, re, [namespaces[|namespaces| - 1]], alert);
      NamespaceReceiver(kind, re, namespaces, alert) == if front != NULL then front else last
  {
    var last := namespaces[|namespaces| - 1];
    PrefixPatterns(re, namespaces, Label(alert, "namespace"));
    PrefixPatterns(re, namespaces, Label(alert, "exported_namespace"));
    PrefixPatterns(re, [last], Label(alert, "namespace"));
    PrefixPatterns(re, [last], Label(alert, "exported_namespace"));
  }

  /** A subtree notifies exactly one receiver: that of the first static row that
      matches, or else the one the namespace patterns give. */
  lemma SubtreeDelivery(kind: ReceiverType, re: Regexp, rows: seq<Row>, namespaces: seq<string>, alert: Alert)
    ensures Notify(re, SubtreeOver(rows, kind, namespaces), alert)
         == [SubtreeReceiver(kind, re, rows, namespaces, alert)]
  {
    var fixed := RoutesOf(kind, rows);
    RowsDeliver(re, kind, rows, alert);
    NamespaceRoutesDeliver(kind, re, namespaces, alert);
    FinalLeavesAppend(re, fixed, NamespaceRoutes(kind, namespaces), alert);
    var subtree := SubtreeOver(rows, kind, namespaces);
    assert Matches(re, subtree, alert);
  }

  // ---------- Comparing namespace lists ----------

  ghost predicate SubsetOf(xs: seq<string>, ys: seq<string>) {
    forall n :: n in xs ==> n in ys
  }

  lemma PatternsGrow(re: Regexp, fewer: seq<string>, more: seq<string>, value: string)
    requires SubsetOf(fewer, more) && AnyPattern(re, fewer, value)
    ensures AnyPattern(re, more, value)
  {
  }

  /** Adding namespaces, in any order or number, keeps every receiver but `null`. */
  lemma MoreNamespacesKeepReceivers(
      kind: ReceiverType, re: Regexp, rows: seq<Row>, fewer: seq<string>, more: seq<string>, alert: Alert)
    requires SubsetOf(fewer, more)
    ensures
      var before := Notify(re, SubtreeOver(rows, kind, fewer), alert);
      before == Notify(re, SubtreeOver(rows, kind, more), alert) || before == [NULL]
  {
    SubtreeDelivery(kind, re, rows, fewer, alert);
    SubtreeDelivery(kind, re, rows, more, alert);
    if AnyPattern(re, fewer, Label(alert, "namespace")) {
      PatternsGrow(re, fewer, more, Label(alert, "namespace"));
    }
    if AnyPattern(re, fewer, Label(alert, "exported_namespace")) {
      PatternsGrow(re, fewer, more, Label(alert, "exported_namespace"));
    }
  }

  /** Only the set of patterns counts: order and repetition never reach an alert. */
  lemma NamespaceListIsASet(
      kind: ReceiverType, re: Regexp, rows: seq<Row>, xs: seq<string>, ys: seq<string>, alert: Alert)
    requires SubsetOf(xs, ys) && SubsetOf(ys, xs)
    ensures Notify(re, SubtreeOver(rows, kind, xs), alert) == Notify(re, SubtreeOver(rows, kind, ys), alert)
  {
    SubtreeDelivery(kind, re, rows, xs, alert);
    SubtreeDelivery(kind, re, rows, ys, alert);
    MoreNamespacesKeepReceivers(kind, re, rows, xs, ys, alert);
    MoreNamespacesKeepReceivers(kind, re, rows, ys, xs, alert);
  }

  // ---------- Comparing the two integrations ----------

  /** The PagerDuty receivers that stand in for a GoAlert receiver. */
  predicate Corresponds(goalert: string, pagerduty: string) {
    || (goalert == NULL && pagerduty == NULL)
    || (goalert == GOALERT_HIGH && pagerduty in {MAKE_IT_CRITICAL, MAKE_IT_ERROR})
    || (goalert == GOALERT_LOW && pagerduty in {PAGERDUTY, MAKE_IT_WARNING})
  }

  /** Non-null from GoAlert means non-null from PagerDuty; a static match gives
      corresponding receivers. */
  lemma GoAlertRefinesPagerduty(re: Regexp, rows: seq<Row>, namespaces: seq<string>, alert: Alert)
    ensures
      var goalert := Notify(re, SubtreeOver(rows, GoAlert, namespaces), alert);
      var pagerduty := Notify(re, SubtreeOver(rows, Pagerduty, namespaces), alert);
      && |goalert| == |pagerduty| == 1
      && (goalert != [NULL] ==> pagerduty != [NULL])
      && (FirstDestination(re, rows, alert).Some? ==> Corresponds(goalert[0], pagerduty[0]))
  {
    SubtreeDelivery(GoAlert, re, rows, namespaces, alert);
    SubtreeDelivery(Pagerduty, re, rows, namespaces, alert);
  }

  /** What the namespace patterns of GoAlert can take at all. */
  predicate InGoAlertScope(re: Regexp, namespaces: seq<string>, alert: Alert) {
    && Label(alert, "exported_namespace") == ""
    && AnyPattern(re, namespaces, Label(alert, "namespace"))
    && Label(alert, "severity") in {"critical", "error", "warning"}
  }

  /** PagerDuty delivers what GoAlert drops exactly for alerts no static row takes,
      that PagerDuty takes by namespace, and that fall outside GoAlert's scope. */
  lemma GoAlertDropsExactly(re: Regexp, rows: seq<Row>, namespaces: seq<string>, alert: Alert)
    ensures
      var goalert := Notify(re, SubtreeOver(rows, GoAlert, namespaces), alert);
      var pagerduty := Notify(re, SubtreeOver(rows, Pagerduty, namespaces), alert);
      goalert == [NULL] && pagerduty != [NULL]
      <==> && FirstDestination(re, rows, alert).None?
           && Label(alert, "prometheus") == K8S
           && !InGoAlertScope(re, namespaces, alert)
           && (|| AnyPattern(re, namespaces, Label(alert, "exported_namespace"))
               || (Label(alert, "exported_namespace") == "" && AnyPattern(re, namespaces, Label(alert, "namespace"))))
  {
    SubtreeDelivery(GoAlert, re, rows, namespaces, alert);
    SubtreeDelivery(Pagerduty, re, rows, namespaces, alert);
  }

  /** With no exported namespace, a paging severity and no pattern that matches the
      empty string, the two integrations deliver the same alerts. */
  lemma GoAlertEquivalentToPagerduty(re: Regexp, rows: seq<Row>, namespaces: seq<string>, alert: Alert)
    requires Label(alert, "exported_namespace") == "" && !AnyPattern(re, namespaces, "")
    requires Label(alert, "severity") in {"critical", "error", "warning"}
    ensures Notify(re, SubtreeOver(rows, GoAlert, namespaces), alert) == [NULL]
       <==> Notify(re, SubtreeOver(rows, Pagerduty, namespaces), alert) == [NULL]
  {
    GoAlertDropsExactly(re, rows, namespaces, alert);
    GoAlertRefinesPagerduty(re, rows, namespaces, alert);
  }

  // ---------- What the table itself silences ----------

  lemma {:induction false} DestinationAppend(re: Regexp, xs: seq<Row>, ys: seq<Row>, alert: Alert)
    ensures FirstDestination(re, xs + ys, alert)
         == if FirstDestination(re, xs, alert).Some? then FirstDestination(re, xs, alert)
            else FirstDestination(re, ys, alert)
  {
    if xs == [] {
      assert xs + ys == ys;
    } else {
      assert (xs + ys)[1..] == xs[1..] + ys;
      DestinationAppend(re, xs[1..], ys, alert);
    }
  }

  lemma {:induction false} SilencedBy(re: Regexp, rows: seq<Row>, i: nat, alert: Alert)
    requires i < |rows| && MatchersHold(re, rows[i].matchEq, rows[i].matchRE, alert)
    requires forall j :: 0 <= j <= i ==> rows[j].dest == ToNull
    ensures FirstDestination(re, rows, alert) == Some(ToNull)
  {
    if i > 0 {
      SilencedBy(re, rows[1..], i - 1, alert);
    }
  }

  lemma {:induction false} OnlySilences(re: Regexp, rows: seq<Row>, alert: Alert)
    requires forall j :: 0 <= j < |rows| ==> rows[j].dest == ToNull
    ensures FirstDestination(re, rows, alert) in {None, Some(ToNull)}
  {
    if rows != [] {
      OnlySilences(re, rows[1..], alert);
    }
  }

  predicate MachineEscalation(re: Regexp, alert: Alert) {
    && Label(alert, "alertname") in {"MachineWithoutValidNode", "MachineWithNoRunningPhase"}
    && Label(alert, "namespace") == "openshift-machine-api"
    && re("^.+-master-.*[0-9]+$", Label(alert, "name"))
  }

  /** The alerts the routes of lines 350-353 raise to critical. */
  predicate Escalates(re: Regexp, alert: Alert) {
    || MachineEscalation(re, alert)
    || (Label(alert, "alertname") == "etcdDatabaseQuotaLowSpace" && Label(alert, "severity") == "warning")
  }

  predicate IsManaged(alert: Alert) {
    Label(alert, "send_managed_notification") == "true"
  }

  lemma TwoLabelsAndPattern(
      re: Regexp, k0: string, v0: string, k1: string, v1: string, k: string, pattern: string, alert: Alert)
    requires k0 != k1
    ensures MatchersHold(re, map[k0 := v0, k1 := v1], map[k := pattern], alert)
       <==> Label(alert, k0) == v0 && Label(alert, k1) == v1 && re(pattern, Label(alert, k))
  {
    TwoLabels(re, k0, v0, k1, v1, alert);
  }

  lemma ConsDestination(re: Regexp, row: Row, rows: seq<Row>, alert: Alert)
    ensures FirstDestination(re, [row] + rows, alert)
         == if MatchersHold(re, row.matchEq, row.matchRE, alert) then Some(row.dest)
            else FirstDestination(re, rows, alert)
  {
    assert ([row] + rows)[1..] == rows;
  }

  lemma HeadDestination(re: Regexp, alert: Alert)
    ensures FirstDestination(re, HeadRows(), alert)
         == if Label(alert, "alertname") == "Watchdog" && Label(alert, "severity") == "none" then Some(ToNull)
            else if Escalates(re, alert) then Some(ToCritical)
            else if Label(alert, "alertname") == "CannotRetrieveUpdates" || IsManaged(alert) then Some(ToNull)
            else None
  {
    var rows := HeadRows();
    assert rows == [rows[0]] + ([rows[1]] + ([rows[2]] + ([rows[3]] + ([rows[4]] + ([rows[5]] + [])))));
    ConsDestination(re, rows[0], [rows[1]] + ([rows[2]] + ([rows[3]] + ([rows[4]] + ([rows[5]] + [])))), alert);
    ConsDestination(re, rows[1], [rows[2]] + ([rows[3]] + ([rows[4]] + ([rows[5]] + []))), alert);
    ConsDestination(re, rows[2], [rows[3]] + ([rows[4]] + ([rows[5]] + [])), alert);
    ConsDestination(re, rows[3], [rows[4]] + ([rows[5]] + []), alert);
    ConsDestination(re, rows[4], [rows[5]] + [], alert);
    ConsDestination(re, rows[5], [], alert);
    TwoLabels(re, "alertname", "Watchdog", "severity", "none", alert);
    TwoLabelsAndPattern(re, "alertname", "MachineWithoutValidNode", "namespace", "openshift-machine-api",
                        "name", "^.+-master-.*[0-9]+$", alert);
    TwoLabelsAndPattern(re, "alertname", "MachineWithNoRunningPhase", "namespace", "openshift-machine-api",
                        "name", "^.+-master-.*[0-9]+$", alert);
    TwoLabels(re, "alertname", "etcdDatabaseQuotaLowSpace", "severity", "warning", alert);
    OneLabel(re, "alertname", "CannotRetrieveUpdates", alert);
    OneLabel(re, "send_managed_notification", "true", alert);
  }

  /** A table's first decisive part decides. */
  lemma FrontDecides(re: Regexp, front: seq<Row>, middle: seq<Row>, back: seq<Row>, alert: Alert)
    requires FirstDestination(re, front, alert).Some? || FirstDestination(re, middle, alert).Some?
    ensures FirstDestination(re, front + (middle + back), alert)
         == if FirstDestination(re, front, alert).Some? then FirstDestination(re, front, alert)
            else FirstDestination(re, middle, alert)
  {
    DestinationAppend(re, front, middle + back, alert);
    DestinationAppend(re, middle, back, alert);
  }

  lemma MonitoringRowLast(re: Regexp, fedramp: bool, alert: Alert)
    ensures FirstDestination(re, CommonRows(), alert).Some?
        ==> FirstDestination(re, StaticRows(fedramp), alert) == FirstDestination(re, CommonRows(), alert)
  {
    hide CommonRows;
    DestinationAppend(re, CommonRows(), [MonitoringDownRow()], alert);
  }

  lemma HeadDecides(re: Regexp, fedramp: bool, dest: Destination, alert: Alert)
    requires FirstDestination(re, HeadRows(), alert) == Some(dest)
    ensures FirstDestination(re, StaticRows(fedramp), alert) == Some(dest)
  {
    hide LaterRows;
    hide StaticRows;
    FrontDecides(re, HeadRows(), NoisyAlertRows(), NoisyNamespaceRows() + LaterRows(), alert);
    MonitoringRowLast(re, fedramp, alert);
  }

  /** A managed notification pages only through the escalations of lines 350-353,
      whatever the namespaces. */
  lemma ManagedAlertDelivery(kind: ReceiverType, re: Regexp, namespaces: seq<string>, fedramp: bool, alert: Alert)
    requires IsManaged(alert)
    ensures Notify(re, Subtree(kind, namespaces, fedramp), alert)
         == [if Escalates(re, alert) then ReceiverFor(kind, ToCritical) else NULL]
  {
    hide StaticRows;
    HeadDestination(re, alert);
    HeadDecides(re, fedramp, if Escalates(re, alert) then ToCritical else ToNull, alert);
    SubtreeDelivery(kind, re, StaticRows(fedramp), namespaces, alert);
  }

  lemma InfoRowSilences(re: Regexp, alert: Alert)
    requires Label(alert, "severity") == "info"
    ensures FirstDestination(re, NoisyNamespaceRows(), alert) == Some(ToNull)
  {
    var rows := NoisyNamespaceRows();
    assert rows[9] == Row(ToNull, map["severity" := "info"], map[]);
    OneLabel(re, "severity", "info", alert);
    SilencedBy(re, rows, 9, alert);
  }

  lemma InfoDestination(re: Regexp, fedramp: bool, alert: Alert)
    requires Label(alert, "severity") == "info"
    ensures FirstDestination(re, StaticRows(fedramp), alert)
         == Some(if MachineEscalation(re, alert) then ToCritical else ToNull)
  {
    hide LaterRows;
    hide StaticRows;
    HeadDestination(re, alert);
    if FirstDestination(re, HeadRows(), alert).Some? {
      HeadDecides(re, fedramp, if MachineEscalation(re, alert) then ToCritical else ToNull, alert);
    } else {
      OnlySilences(re, NoisyAlertRows(), alert);
      InfoRowSilences(re, alert);
      DestinationAppend(re, HeadRows(), NoisyAlertRows() + (NoisyNamespaceRows() + LaterRows()), alert);
      FrontDecides(re, NoisyAlertRows(), NoisyNamespaceRows(), LaterRows(), alert);
      MonitoringRowLast(re, fedramp, alert);
    }
  }

  /** An informational alert pages only as a lost master node (lines 350-351, 394). */
  lemma InfoAlertDelivery(kind: ReceiverType, re: Regexp, namespaces: seq<string>, fedramp: bool, alert: Alert)
    requires Label(alert, "severity") == "info"
    ensures Notify(re, Subtree(kind, namespaces, fedramp), alert)
         == [if MachineEscalation(re, alert) then ReceiverFor(kind, ToCritical) else NULL]
  {
    hide StaticRows;
    InfoDestination(re, fedramp, alert);
    SubtreeDelivery(kind, re, StaticRows(fedramp), namespaces, alert);
  }
}
