/** Which routes of namespaces some alert reaches in a PagerDuty or GoAlert subtree, under
    one given regular-expression engine. Where alerts without a name matter, the engine is
    one whose reading of `^.*SRE$` refuses the empty string. */
module ReachedRoutes {
  import opened AlertmanagerTypes
  import opened Routing
  import opened RouteTable
  import opened Subroutes
  import opened SubrouteMeaning
  import opened Delivery
  import opened IgnoredRoutes
  import opened Namespaces

  const LOGGING := "openshift-logging"
  const VALIDATION := "openshift-deployment-validation-operator"

  /** The namespaces whose alerts lines 376-396 silence whatever they are called. */
  const SILENCED := {
    "openshift-customer-monitoring", "openshift-operators", "openshift-storage", "openshift-compliance",
    "openshift-operators-redhat", "openshift-user-workload-monitoring"}

  /** The same for exported namespaces. */
  const SILENCED_EXPORTED := {"openshift-storage", "openshift-operators"}

  /** The route that keeps SRE's logging alerts. */
  function SreRow(): Row {
    Row(ToCommon, map["namespace" := LOGGING], map["alertname" := SRE])
  }

  function ValidationRow(): Row {
    Row(ToWarning, map["severity" := "critical", "namespace" := VALIDATION], map[])
  }

  /** No matcher asks for a missing label, and rows without an alert name are those of the
      silenced namespaces and a few others. */
  ghost predicate Plain(row: Row) {
    var key := KeyLabel(row);
    && key in row.matchEq
    && (forall l :: l in row.matchEq ==> row.matchEq[l] != "")
    && (key == "namespace" ==> row.matchEq[key] in SILENCED || row == SreRow() || row == ValidationRow())
    && (key == "severity" ==> row.matchEq[key] in {"info", "alert"})
    && (key == "exported_namespace" ==> row.matchEq[key] in SILENCED_EXPORTED)
    && (key == "send_managed_notification" ==> row.matchEq[key] == "true")
  }

  ghost predicate AllPlain(rows: seq<Row>) {
    forall i :: 0 <= i < |rows| ==> Plain(rows[i])
  }

  lemma HeadPlain()
    ensures AllPlain(HeadRows())
  {
  }

  lemma NoisyAlertPlain()
    ensures AllPlain(NoisyAlertRows())
  {
  }

  lemma NoisyNamespacePlain()
    ensures AllPlain(NoisyNamespaceRows())
  {
    hide NoisyNamespaceRows, Plain;
    NoisyNamespacePlain1();
    NoisyNamespacePlain2();
  }

  lemma NoisyNamespacePlain1()
    ensures |NoisyNamespaceRows()| == 16 && forall i :: 0 <= i < 8 ==> Plain(NoisyNamespaceRows()[i])
  {
  }

  lemma NoisyNamespacePlain2()
    ensures |NoisyNamespaceRows()| == 16 && forall i :: 8 <= i < 16 ==> Plain(NoisyNamespaceRows()[i])
  {
  }

  lemma LoggingPlain()
    ensures AllPlain(LoggingRows())
  {
  }

  lemma LokiPlain()
    ensures AllPlain(LokiRows())
  {
    hide LokiRows, Plain;
    LokiPlain1();
    LokiPlain2();
  }

  lemma LokiPlain1()
    ensures |LokiRows()| == 15 && forall i :: 0 <= i < 8 ==> Plain(LokiRows()[i])
  {
  }

  lemma LokiPlain2()
    ensures |LokiRows()| == 15 && forall i :: 8 <= i < 15 ==> Plain(LokiRows()[i])
  {
  }

  lemma OperatorPlain()
    ensures AllPlain(OperatorRows())
  {
    hide OperatorRows, Plain;
    OperatorPlain1();
    OperatorPlain2();
  }

  lemma OperatorPlain1()
    ensures |OperatorRows()| == 11 && forall i :: 0 <= i < 6 ==> Plain(OperatorRows()[i])
  {
  }

  lemma OperatorPlain2()
    ensures |OperatorRows()| == 11 && forall i :: 6 <= i < 11 ==> Plain(OperatorRows()[i])
  {
  }

  lemma TailPlain()
    ensures AllPlain(TailRows())
  {
    hide TailRows, Plain;
    TailPlain1();
    TailPlain2();
  }

  lemma TailPlain1()
    ensures |TailRows()| == 12 && forall i :: 0 <= i < 6 ==> Plain(TailRows()[i])
  {
  }

  lemma TailPlain2()
    ensures |TailRows()| == 12 && forall i :: 6 <= i < 12 ==> Plain(TailRows()[i])
  {
  }

  lemma MonitoringPlain()
    ensures Plain(MonitoringDownRow())
  {
  }

  lemma PlainAppend(xs: seq<Row>, ys: seq<Row>)
    requires AllPlain(xs) && AllPlain(ys)
    ensures AllPlain(xs + ys)
  {
  }

  lemma TablePlain(fedramp: bool)
    ensures AllPlain(StaticRows(fedramp))
  {
    hide HeadRows, NoisyAlertRows, NoisyNamespaceRows, LoggingRows, LokiRows, OperatorRows, TailRows;
    hide MonitoringDownRow, Plain;
    HeadPlain();
    NoisyAlertPlain();
    NoisyNamespacePlain();
    LoggingPlain();
    LokiPlain();
    OperatorPlain();
    TailPlain();
    MonitoringPlain();
    PlainAppend(LoggingRows(), LokiRows());
    PlainAppend(LoggingRows() + LokiRows(), OperatorRows());
    PlainAppend(LoggingRows() + LokiRows() + OperatorRows(), TailRows());
    PlainAppend(NoisyNamespaceRows(), LaterRows());
    PlainAppend(NoisyAlertRows(), NoisyNamespaceRows() + LaterRows());
    PlainAppend(HeadRows(), NoisyAlertRows() + (NoisyNamespaceRows() + LaterRows()));
    PlainAppend(CommonRows(), [MonitoringDownRow()]);
  }

  // ---------- What the static rows leave to the namespaces ----------

  ghost predicate RowMatches(re: Regexp, row: Row, alert: Alert) {
    MatchersHold(re, row.matchEq, row.matchRE, alert)
  }

  /** No static row takes the alert. */
  ghost predicate Unclaimed(re: Regexp, rows: seq<Row>, alert: Alert) {
    forall i :: 0 <= i < |rows| ==> !RowMatches(re, rows[i], alert)
  }

  /** What no alert on its way to the namespaces can look like. */
  predicate Clear(alert: Alert) {
    && Label(alert, "namespace") !in SILENCED
    && Label(alert, "exported_namespace") !in SILENCED_EXPORTED
    && !(Label(alert, "namespace") == VALIDATION && Label(alert, "severity") == "critical")
  }

  /** An alert of which nothing else is known than those labels. */
  predicate Nameless(alert: Alert) {
    && alert.Keys <= {"namespace", "exported_namespace", "prometheus", "severity"}
    && Label(alert, "severity") !in {"info", "alert"}
  }

  lemma PlainRowMisses(re: Regexp, row: Row, alert: Alert)
    requires Plain(row) && Nameless(alert) && Clear(alert)
    requires Label(alert, "namespace") == LOGGING ==> !re(SRE, "")
    ensures !RowMatches(re, row, alert)
  {
    var key := KeyLabel(row);
    assert "alertname" in SreRow().matchRE && "severity" in ValidationRow().matchEq;
    assert key in row.matchEq && row.matchEq[key] != "";
  }

  lemma NamelessUnclaimed(re: Regexp, fedramp: bool, alert: Alert)
    requires Nameless(alert) && Clear(alert)
    requires Label(alert, "namespace") == LOGGING ==> !re(SRE, "")
    ensures Unclaimed(re, StaticRows(fedramp), alert)
  {
    hide StaticRows, Plain, RowMatches, Nameless, Clear;
    TablePlain(fedramp);
    forall i | 0 <= i < |StaticRows(fedramp)|
      ensures !RowMatches(re, StaticRows(fedramp)[i], alert)
    {
      PlainRowMisses(re, StaticRows(fedramp)[i], alert);
    }
  }

  function OwnRow(namespace: string): Row {
    Row(ToNull, map["namespace" := namespace], map[])
  }

  function ExportedRow(namespace: string): Row {
    Row(ToNull, map["exported_namespace" := namespace], map[])
  }

  lemma SilencingRows(v: string)
    ensures v in SILENCED ==> OwnRow(v) in NoisyNamespaceRows()[..11]
  {
    var rows := NoisyNamespaceRows()[..11];
    assert rows[0] == OwnRow("openshift-customer-monitoring") && rows[1] == OwnRow("openshift-operators");
    assert rows[2] == OwnRow("openshift-storage") && rows[3] == OwnRow("openshift-compliance");
    assert rows[6] == OwnRow("openshift-operators-redhat") && rows[10] == OwnRow("openshift-user-workload-monitoring");
  }

  lemma SilencingExportedRows(v: string)
    ensures v in SILENCED_EXPORTED ==> ExportedRow(v) in NoisyNamespaceRows()
  {
    var rows := NoisyNamespaceRows();
    assert rows[4] == ExportedRow("openshift-storage") && rows[5] == ExportedRow("openshift-operators");
  }

  lemma ValidationPlace()
    ensures |TailRows()| > 4 && TailRows()[4] == ValidationRow()
  {
  }

  lemma InTable(fedramp: bool, row: Row)
    ensures row in NoisyNamespaceRows() ==> row in StaticRows(fedramp)
    ensures ValidationRow() in StaticRows(fedramp)
  {
    hide StaticRows, CommonRows, NoisyNamespaceRows, TailRows;
    ValidationPlace();
    SectionPlaces(fedramp, 4);
    DeadRows();
    if row in NoisyNamespaceRows() {
      var k :| 0 <= k < |NoisyNamespaceRows()| && NoisyNamespaceRows()[k] == row;
      SectionPlaces(fedramp, k);
    }
  }

  /** Whatever the rows leave is clear. */
  lemma UnclaimedIsClear(re: Regexp, fedramp: bool, alert: Alert)
    requires Unclaimed(re, StaticRows(fedramp), alert)
    ensures Clear(alert)
  {
    hide StaticRows, NoisyNamespaceRows, TailRows, SILENCED, SILENCED_EXPORTED;
    var own, exported := OwnRow(Label(alert, "namespace")), ExportedRow(Label(alert, "exported_namespace"));
    SilencingRows(Label(alert, "namespace"));
    DeadRows();
    assert own in NoisyNamespaceRows()[..11] ==> own in NoisyNamespaceRows();
    SilencingExportedRows(Label(alert, "exported_namespace"));
    InTable(fedramp, own);
    InTable(fedramp, exported);
    assert RowMatches(re, own, alert) && RowMatches(re, exported, alert);
    assert Label(alert, "namespace") == VALIDATION && Label(alert, "severity") == "critical"
      ==> RowMatches(re, ValidationRow(), alert);
  }

  // ---------- Routes of namespaces ----------

  /** The alert reaches the `j`-th route of the subtree over these rows. */
  ghost predicate Takes(re: Regexp, rows: seq<Row>, kind: ReceiverType, namespaces: seq<string>, j: nat, alert: Alert) {
    && j < |SubtreeOver(rows, kind, namespaces).routes|
    && Reached(re, SubtreeOver(rows, kind, namespaces).routes, j, alert)
  }

  /** The place of the `b`-th route of the `m`-th namespace behind so many rows. */
  function PlaceIn(kind: ReceiverType, base: nat, m: nat, b: nat): nat {
    base + (Width(kind) * m + b)
  }

  /** `value` is the namespace pattern's to take: it matches, and none listed before does. */
  predicate First(re: Regexp, namespaces: seq<string>, m: nat, value: string)
    requires m < |namespaces|
  {
    re(namespaces[m], value) && forall k :: 0 <= k < m ==> !re(namespaces[k], value)
  }

  ghost predicate Hits(re: Regexp, kind: ReceiverType, namespace: string, b: nat, alert: Alert) {
    b < Width(kind) && Matches(re, RoutesForNamespace(kind, namespace)[b], alert)
  }

  /** One route is tried before another. */
  predicate Before(k: nat, c: nat, m: nat, b: nat) {
    k < m || (k == m && c < b)
  }

  /** Of the namespaces' routes, the alert gets to this one and it matches. */
  ghost predicate PassesTo(re: Regexp, kind: ReceiverType, namespaces: seq<string>, m: nat, b: nat, alert: Alert)
    requires m < |namespaces|
  {
    && Hits(re, kind, namespaces[m], b, alert)
    && forall k: nat, c: nat :: k < |namespaces| && Before(k, c, m, b) ==> !Hits(re, kind, namespaces[k], c, alert)
  }

  lemma PlaceOrder(w: nat, m: nat, b: nat, u: nat)
    requires 2 <= w <= 3 && b < w
    ensures u < w * m + b <==> Before(u / w, u % w, m, b)
  {
    PlaceOf(w, m, b);
  }

  lemma PlaceWithin(w: nat, m: nat, b: nat, n: nat)
    requires 2 <= w <= 3 && b < w && m < n
    ensures w * m + b < w * n
  {
  }

  /** The `u`-th route behind the rows. */
  lemma RouteBehind(rows: seq<Row>, kind: ReceiverType, namespaces: seq<string>, u: nat)
    requires u < Width(kind) * |namespaces|
    ensures |rows| + u < |SubtreeOver(rows, kind, namespaces).routes| && u / Width(kind) < |namespaces|
    ensures
      var route := SubtreeOver(rows, kind, namespaces).routes[|rows| + u];
      && !route.continues
      && forall re, alert :: Matches(re, route, alert)
           <==> Hits(re, kind, namespaces[u / Width(kind)], u % Width(kind), alert)
  {
    hide NamespaceRoutes, Matches, RoutesForNamespace;
    NamespaceRouteAt(kind, namespaces, u);
    NeverContinues(kind, namespaces[u / Width(kind)], u % Width(kind));
  }

  lemma NeverContinues(kind: ReceiverType, namespace: string, b: nat)
    requires b < Width(kind)
    ensures b < |RoutesForNamespace(kind, namespace)| && !RoutesForNamespace(kind, namespace)[b].continues
  {
  }

  lemma RowAsRoute(re: Regexp, rows: seq<Row>, kind: ReceiverType, namespaces: seq<string>, i: nat, alert: Alert)
    requires i < |rows|
    ensures
      var route := SubtreeOver(rows, kind, namespaces).routes[i];
      !route.continues && (Matches(re, route, alert) <==> RowMatches(re, rows[i], alert))
  {
    hide NamespaceRoutes;
  }

  /** A static row is reached when it matches and no earlier one does. */
  lemma TakesRow(re: Regexp, rows: seq<Row>, kind: ReceiverType, namespaces: seq<string>, j: nat, alert: Alert)
    requires j < |rows|
    ensures Takes(re, rows, kind, namespaces, j, alert)
       <==> RowMatches(re, rows[j], alert) && Unclaimed(re, rows[..j], alert)
  {
    hide SubtreeOver, Matches, RowMatches;
    var routes := SubtreeOver(rows, kind, namespaces).routes;
    SubtreeLength(rows, kind, namespaces);
    forall i: nat | i <= j
      ensures !routes[i].continues && (Matches(re, routes[i], alert) <==> RowMatches(re, rows[i], alert))
    {
      RowAsRoute(re, rows, kind, namespaces, i, alert);
    }
    assert forall i :: 0 <= i < j ==> rows[..j][i] == rows[i];
  }

  lemma SubtreeLength(rows: seq<Row>, kind: ReceiverType, namespaces: seq<string>)
    ensures |SubtreeOver(rows, kind, namespaces).routes| == |rows| + Width(kind) * |namespaces|
  {
    hide NamespaceRoutes;
    NamespaceRouteAt(kind, namespaces, 0);
  }

  /** A namespace's route is reached when no row takes the alert, and no route before. */
  lemma TakesNamespace(
      re: Regexp, rows: seq<Row>, kind: ReceiverType, namespaces: seq<string>, m: nat, b: nat, alert: Alert)
    requires m < |namespaces| && b < Width(kind)
    ensures Takes(re, rows, kind, namespaces, PlaceIn(kind, |rows|, m, b), alert)
       <==> Unclaimed(re, rows, alert) && PassesTo(re, kind, namespaces, m, b, alert)
  {
    hide SubtreeOver, Hits, Matches, RowMatches, Before;
    var routes, w, base := SubtreeOver(rows, kind, namespaces).routes, Width(kind), |rows|;
    var place := PlaceIn(kind, base, m, b);
    SubtreeLength(rows, kind, namespaces);
    PlaceWithin(w, m, b, |namespaces|);
    PlaceOf(w, m, b);
    RouteBehind(rows, kind, namespaces, w * m + b);
    forall i: nat | i < base
      ensures !routes[i].continues && (Matches(re, routes[i], alert) <==> RowMatches(re, rows[i], alert))
    {
      RowAsRoute(re, rows, kind, namespaces, i, alert);
    }
    if Reached(re, routes, place, alert) {
      forall k: nat, c: nat | k < |namespaces| && Before(k, c, m, b)
        ensures !Hits(re, kind, namespaces[k], c, alert)
      {
        EarlierMisses(re, rows, kind, namespaces, m, b, k, c, alert);
      }
    }
    if Unclaimed(re, rows, alert) && PassesTo(re, kind, namespaces, m, b, alert) {
      forall i: nat | i < place
        ensures !Matches(re, routes[i], alert)
      {
        if i >= base {
          PlaceOrder(w, m, b, i - base);
          RouteBehind(rows, kind, namespaces, i - base);
        }
      }
    }
  }

  lemma EarlierMisses(
      re: Regexp, rows: seq<Row>, kind: ReceiverType, namespaces: seq<string>, m: nat, b: nat, k: nat, c: nat,
      alert: Alert)
    requires m < |namespaces| && b < Width(kind) && Before(k, c, m, b)
    requires Takes(re, rows, kind, namespaces, PlaceIn(kind, |rows|, m, b), alert)
    ensures !Hits(re, kind, namespaces[k], c, alert)
  {
    hide SubtreeOver, Matches;
    var routes, w, base := SubtreeOver(rows, kind, namespaces).routes, Width(kind), |rows|;
    if c < w {
      PlaceOf(w, k, c);
      PlaceOrder(w, m, b, w * k + c);
      PlaceWithin(w, k, c, |namespaces|);
      RouteBehind(rows, kind, namespaces, w * k + c);
      assert Matches(re, routes[base + (w * k + c)], alert) <==> Hits(re, kind, namespaces[k], c, alert);
    }
  }

  // ---------- Which routes of namespaces some alert reaches ----------

  ghost predicate Live(re: Regexp, kind: ReceiverType, namespaces: seq<string>, fedramp: bool, j: nat) {
    exists alert :: Takes(re, StaticRows(fedramp), kind, namespaces, j, alert)
  }

  /** The alert is not for the routes of OCM Agent and CAD. */
  predicate Free(alert: Alert) {
    !IsManaged(alert) && !IsForCad(alert)
  }

  function SeverityOf(b: nat): string {
    if b == 0 then "critical" else if b == 1 then "error" else "warning"
  }

  lemma GoAlertHits(re: Regexp, namespace: string, b: nat, alert: Alert)
    ensures Hits(re, GoAlert, namespace, b, alert)
       <==> && b < 3 && Label(alert, "exported_namespace") == "" && Label(alert, "prometheus") == K8S
            && Label(alert, "severity") == SeverityOf(b) && re(namespace, Label(alert, "namespace"))
  {
    if b < 3 {
      var route := RoutesForNamespace(GoAlert, namespace)[b];
      assert route.matchEq == map["exported_namespace" := "", "prometheus" := K8S, "severity" := SeverityOf(b)];
      assert route.matchRE == map["namespace" := namespace];
      assert "exported_namespace" in route.matchEq && "prometheus" in route.matchEq && "severity" in route.matchEq;
      assert "namespace" in route.matchRE;
    }
  }

  lemma ExportedHits(re: Regexp, namespace: string, alert: Alert)
    ensures Hits(re, Pagerduty, namespace, 0, alert)
       <==> Label(alert, "prometheus") == K8S && re(namespace, Label(alert, "exported_namespace"))
  {
    var route := ExportedRoute(namespace);
    assert "prometheus" in route.matchEq && "exported_namespace" in route.matchRE;
  }

  lemma OwnHits(re: Regexp, namespace: string, alert: Alert)
    ensures Hits(re, Pagerduty, namespace, 1, alert)
       <==> && Label(alert, "exported_namespace") == "" && Label(alert, "prometheus") == K8S
            && re(namespace, Label(alert, "namespace"))
  {
    var route := OwnRoute(namespace);
    assert "exported_namespace" in route.matchEq && "prometheus" in route.matchEq && "namespace" in route.matchRE;
  }

  /** What GoAlert's `b`-th route can take of a namespace. */
  predicate GoAlertOpen(namespace: string, b: nat) {
    namespace !in SILENCED && !(b == 0 && namespace == VALIDATION)
  }

  lemma GoAlertTaken(re: Regexp, namespaces: seq<string>, fedramp: bool, m: nat, b: nat, alert: Alert)
    requires m < |namespaces| && b < 3
    requires Takes(re, StaticRows(fedramp), GoAlert, namespaces, PlaceIn(GoAlert, |StaticRows(fedramp)|, m, b), alert)
    ensures First(re, namespaces, m, Label(alert, "namespace")) && GoAlertOpen(Label(alert, "namespace"), b)
  {
    hide StaticRows, Takes, Hits, SILENCED, SILENCED_EXPORTED;
    TakesNamespace(re, StaticRows(fedramp), GoAlert, namespaces, m, b, alert);
    UnclaimedIsClear(re, fedramp, alert);
    GoAlertHits(re, namespaces[m], b, alert);
    forall k | 0 <= k < m
      ensures !re(namespaces[k], Label(alert, "namespace"))
    {
      GoAlertHits(re, namespaces[k], b, alert);
      assert Before(k, b, m, b);
    }
  }

  lemma GoAlertWitness(re: Regexp, namespaces: seq<string>, fedramp: bool, m: nat, b: nat, namespace: string)
    returns (alert: Alert)
    requires m < |namespaces| && b < 3 && !re(SRE, "")
    requires First(re, namespaces, m, namespace) && GoAlertOpen(namespace, b)
    ensures Takes(re, StaticRows(fedramp), GoAlert, namespaces, PlaceIn(GoAlert, |StaticRows(fedramp)|, m, b), alert)
    ensures Free(alert)
  {
    hide StaticRows, Takes, Hits, Unclaimed;
    alert := map["namespace" := namespace, "prometheus" := K8S, "severity" := SeverityOf(b)];
    NamelessUnclaimed(re, fedramp, alert);
    forall k: nat, c: nat | k < |namespaces|
      ensures Hits(re, GoAlert, namespaces[k], c, alert)
         <==> c < 3 && SeverityOf(c) == SeverityOf(b) && re(namespaces[k], namespace)
    {
      GoAlertHits(re, namespaces[k], c, alert);
    }
    forall k: nat, c: nat | k < |namespaces| && Before(k, c, m, b)
      ensures !Hits(re, GoAlert, namespaces[k], c, alert)
    {
      GoAlertHits(re, namespaces[k], c, alert);
      if k == m {
        assert c < b && SeverityOf(c) != SeverityOf(b);
      } else {
        assert !re(namespaces[k], namespace);
      }
    }
    TakesNamespace(re, StaticRows(fedramp), GoAlert, namespaces, m, b, alert);
  }

  /** Some alert reaches a GoAlert route of a namespace exactly when its pattern is the first
      to match some namespace that the static rows leave open. */
  lemma GoAlertLiveExactlyWhen(re: Regexp, namespaces: seq<string>, fedramp: bool, m: nat, b: nat)
    requires m < |namespaces| && b < 3 && !re(SRE, "")
    ensures Live(re, GoAlert, namespaces, fedramp, PlaceIn(GoAlert, |StaticRows(fedramp)|, m, b))
       <==> exists v :: First(re, namespaces, m, v) && GoAlertOpen(v, b)
  {
    hide StaticRows, Takes, First, GoAlertOpen;
    var place := PlaceIn(GoAlert, |StaticRows(fedramp)|, m, b);
    if alert :| Takes(re, StaticRows(fedramp), GoAlert, namespaces, place, alert) {
      GoAlertTaken(re, namespaces, fedramp, m, b, alert);
    }
    if v :| First(re, namespaces, m, v) && GoAlertOpen(v, b) {
      var alert := GoAlertWitness(re, namespaces, fedramp, m, b, v);
    }
  }

  lemma ExportedTaken(re: Regexp, namespaces: seq<string>, fedramp: bool, m: nat, alert: Alert)
    requires m < |namespaces|
    requires Takes(re, StaticRows(fedramp), Pagerduty, namespaces,
                   PlaceIn(Pagerduty, |StaticRows(fedramp)|, m, 0), alert)
    ensures First(re, namespaces, m, Label(alert, "exported_namespace"))
    ensures Label(alert, "exported_namespace") !in SILENCED_EXPORTED
  {
    hide StaticRows, Takes, Hits, SILENCED, SILENCED_EXPORTED;
    TakesNamespace(re, StaticRows(fedramp), Pagerduty, namespaces, m, 0, alert);
    UnclaimedIsClear(re, fedramp, alert);
    ExportedHits(re, namespaces[m], alert);
    forall k | 0 <= k < m
      ensures !re(namespaces[k], Label(alert, "exported_namespace"))
    {
      ExportedHits(re, namespaces[k], alert);
      assert Before(k, 0, m, 0);
    }
  }

  lemma ExportedWitness(re: Regexp, namespaces: seq<string>, fedramp: bool, m: nat, exported: string)
    returns (alert: Alert)
    requires m < |namespaces| && First(re, namespaces, m, exported) && exported !in SILENCED_EXPORTED
    ensures Takes(re, StaticRows(fedramp), Pagerduty, namespaces,
                  PlaceIn(Pagerduty, |StaticRows(fedramp)|, m, 0), alert)
    ensures Free(alert)
  {
    hide StaticRows, Takes, Hits, Unclaimed;
    alert := map["exported_namespace" := exported, "prometheus" := K8S];
    NamelessUnclaimed(re, fedramp, alert);
    forall k: nat | k < |namespaces|
      ensures Hits(re, Pagerduty, namespaces[k], 0, alert) <==> re(namespaces[k], exported)
      ensures Hits(re, Pagerduty, namespaces[k], 1, alert) <==> exported == "" && re(namespaces[k], "")
      ensures forall c: nat :: c > 1 ==> !Hits(re, Pagerduty, namespaces[k], c, alert)
    {
      ExportedHits(re, namespaces[k], alert);
      OwnHits(re, namespaces[k], alert);
      NoThirdRoute(re, namespaces[k], alert);
    }
    TakesNamespace(re, StaticRows(fedramp), Pagerduty, namespaces, m, 0, alert);
  }

  lemma NoThirdRoute(re: Regexp, namespace: string, alert: Alert)
    ensures forall c: nat :: c > 1 ==> !Hits(re, Pagerduty, namespace, c, alert)
  {
  }

  /** Some alert reaches PagerDuty's route for a namespace as exported exactly when its
      pattern is the first to match some value other than the two silenced ones. */
  lemma ExportedLiveExactlyWhen(re: Regexp, namespaces: seq<string>, fedramp: bool, m: nat)
    requires m < |namespaces|
    ensures Live(re, Pagerduty, namespaces, fedramp, PlaceIn(Pagerduty, |StaticRows(fedramp)|, m, 0))
       <==> exists v :: First(re, namespaces, m, v) && v !in SILENCED_EXPORTED
  {
    hide StaticRows, Takes, First, SILENCED_EXPORTED;
    var place := PlaceIn(Pagerduty, |StaticRows(fedramp)|, m, 0);
    if alert :| Takes(re, StaticRows(fedramp), Pagerduty, namespaces, place, alert) {
      ExportedTaken(re, namespaces, fedramp, m, alert);
    }
    if v :| First(re, namespaces, m, v) && v !in SILENCED_EXPORTED {
      var alert := ExportedWitness(re, namespaces, fedramp, m, v);
    }
  }

  /** No pattern up to the `m`-th matches the empty string. */
  predicate NoneEmpty(re: Regexp, namespaces: seq<string>, m: nat)
    requires m < |namespaces|
  {
    forall k :: 0 <= k <= m ==> !re(namespaces[k], "")
  }

  lemma OwnTaken(re: Regexp, namespaces: seq<string>, fedramp: bool, m: nat, alert: Alert)
    requires m < |namespaces|
    requires Takes(re, StaticRows(fedramp), Pagerduty, namespaces,
                   PlaceIn(Pagerduty, |StaticRows(fedramp)|, m, 1), alert)
    ensures First(re, namespaces, m, Label(alert, "namespace")) && NoneEmpty(re, namespaces, m)
    ensures Label(alert, "namespace") !in SILENCED
  {
    hide StaticRows, Takes, Hits, SILENCED, SILENCED_EXPORTED;
    TakesNamespace(re, StaticRows(fedramp), Pagerduty, namespaces, m, 1, alert);
    UnclaimedIsClear(re, fedramp, alert);
    OwnHits(re, namespaces[m], alert);
    forall k | 0 <= k <= m
      ensures !re(namespaces[k], "")
      ensures k < m ==> !re(namespaces[k], Label(alert, "namespace"))
    {
      ExportedHits(re, namespaces[k], alert);
      OwnHits(re, namespaces[k], alert);
      assert Before(k, 0, m, 1);
      assert k < m ==> Before(k, 1, m, 1);
    }
  }

  lemma OwnWitness(re: Regexp, namespaces: seq<string>, fedramp: bool, m: nat, namespace: string)
    returns (alert: Alert)
    requires m < |namespaces| && First(re, namespaces, m, namespace) && NoneEmpty(re, namespaces, m)
    requires namespace !in SILENCED && !re(SRE, "")
    ensures Takes(re, StaticRows(fedramp), Pagerduty, namespaces,
                  PlaceIn(Pagerduty, |StaticRows(fedramp)|, m, 1), alert)
    ensures Free(alert)
  {
    hide StaticRows, Takes, Hits, Unclaimed;
    alert := map["namespace" := namespace, "prometheus" := K8S];
    NamelessUnclaimed(re, fedramp, alert);
    forall k: nat | k < |namespaces|
      ensures Hits(re, Pagerduty, namespaces[k], 0, alert) <==> re(namespaces[k], "")
      ensures Hits(re, Pagerduty, namespaces[k], 1, alert) <==> re(namespaces[k], namespace)
      ensures forall c: nat :: c > 1 ==> !Hits(re, Pagerduty, namespaces[k], c, alert)
    {
      ExportedHits(re, namespaces[k], alert);
      OwnHits(re, namespaces[k], alert);
      NoThirdRoute(re, namespaces[k], alert);
    }
    TakesNamespace(re, StaticRows(fedramp), Pagerduty, namespaces, m, 1, alert);
  }

  /** Some alert reaches PagerDuty's route for a namespace itself exactly when no pattern so
      far matches the empty string, which is what a missing exported namespace counts as,
      and its own is the first to match some namespace that is not silenced. */
  lemma OwnLiveExactlyWhen(re: Regexp, namespaces: seq<string>, fedramp: bool, m: nat)
    requires m < |namespaces| && !re(SRE, "")
    ensures Live(re, Pagerduty, namespaces, fedramp, PlaceIn(Pagerduty, |StaticRows(fedramp)|, m, 1))
       <==> NoneEmpty(re, namespaces, m) && exists v :: First(re, namespaces, m, v) && v !in SILENCED
  {
    hide StaticRows, Takes, First, SILENCED, NoneEmpty;
    var place := PlaceIn(Pagerduty, |StaticRows(fedramp)|, m, 1);
    if alert :| Takes(re, StaticRows(fedramp), Pagerduty, namespaces, place, alert) {
      OwnTaken(re, namespaces, fedramp, m, alert);
    }
    if v :| NoneEmpty(re, namespaces, m) && First(re, namespaces, m, v) && v !in SILENCED {
      var alert := OwnWitness(re, namespaces, fedramp, m, v);
    }
  }

  // ---------- Anchored names ----------

  /** The engine reads the anchored names as nothing but themselves. */
  ghost predicate ReadsNames(re: Regexp, names: seq<string>) {
    forall name, v :: name in names ==> (re("^" + name + "$", v) <==> v == name)
  }

  /** Compares the pattern with the anchored value as a text. */
  predicate LiteralEngine(pattern: string, value: string) {
    pattern == "^" + value + "$"
  }

  /** There is an engine that does, for all names at once. */
  lemma LiteralEngineReadsNames(names: seq<string>)
    ensures ReadsNames(LiteralEngine, names) && !LiteralEngine(SRE, "")
  {
    forall name, v | name in names
      ensures LiteralEngine("^" + name + "$", v) <==> v == name
    {
      if "^" + name + "$" == "^" + v + "$" {
        assert name == ("^" + name + "$")[1..|name| + 1] && v == ("^" + v + "$")[1..|v| + 1];
      }
    }
    assert |SRE| != |"^" + "" + "$"|;
  }

  lemma FirstOfNames(re: Regexp, names: seq<string>, m: nat, v: string)
    requires m < |names| && ReadsNames(re, names)
    ensures First(re, Anchored(names), m, v) <==> v == names[m] && names[m] !in names[..m]
  {
    forall k | 0 <= k <= m
      ensures re(Anchored(names)[k], v) <==> v == names[k]
    {
      assert names[k] in names;
    }
    assert forall k :: 0 <= k < m ==> names[..m][k] == names[k];
  }

  /** For the names that the configmaps list, anchored as the operator does: a GoAlert route
      is dead exactly when the name was listed before or is silenced. */
  lemma GoAlertDeadExactlyWhen(re: Regexp, names: seq<string>, fedramp: bool, m: nat, b: nat)
    requires m < |names| && b < 3 && ReadsNames(re, names) && !re(SRE, "")
    ensures !Live(re, GoAlert, Anchored(names), fedramp, PlaceIn(GoAlert, |StaticRows(fedramp)|, m, b))
       <==> names[m] in names[..m] || names[m] in SILENCED || (b == 0 && names[m] == VALIDATION)
  {
    hide Live, First, StaticRows, Anchored;
    GoAlertLiveExactlyWhen(re, Anchored(names), fedramp, m, b);
    forall v
      ensures First(re, Anchored(names), m, v) <==> v == names[m] && names[m] !in names[..m]
    {
      FirstOfNames(re, names, m, v);
    }
    assert GoAlertOpen(names[m], b) && names[m] !in names[..m] ==> First(re, Anchored(names), m, names[m]);
  }

  /** So are PagerDuty's, each with its own silenced values; its route for the namespace
      itself is also dead from an empty name on. */
  lemma PagerdutyDeadExactlyWhen(re: Regexp, names: seq<string>, fedramp: bool, m: nat)
    requires m < |names| && ReadsNames(re, names) && !re(SRE, "")
    ensures !Live(re, Pagerduty, Anchored(names), fedramp, PlaceIn(Pagerduty, |StaticRows(fedramp)|, m, 0))
       <==> names[m] in names[..m] || names[m] in SILENCED_EXPORTED
    ensures !Live(re, Pagerduty, Anchored(names), fedramp, PlaceIn(Pagerduty, |StaticRows(fedramp)|, m, 1))
       <==> names[m] in names[..m] || names[m] in SILENCED || "" in names[..m + 1]
  {
    hide Live, First, StaticRows, Anchored;
    ExportedLiveExactlyWhen(re, Anchored(names), fedramp, m);
    OwnLiveExactlyWhen(re, Anchored(names), fedramp, m);
    forall v
      ensures First(re, Anchored(names), m, v) <==> v == names[m] && names[m] !in names[..m]
    {
      FirstOfNames(re, names, m, v);
    }
    EmptyNames(re, names, m);
  }

  lemma EmptyNames(re: Regexp, names: seq<string>, m: nat)
    requires m < |names| && ReadsNames(re, names)
    ensures NoneEmpty(re, Anchored(names), m) <==> "" !in names[..m + 1]
  {
    forall k | 0 <= k <= m
      ensures re(Anchored(names)[k], "") <==> names[..m + 1][k] == ""
    {
      assert names[k] in names;
    }
    if "" in names[..m + 1] {
      var k :| 0 <= k <= m && names[..m + 1][k] == "";
      assert re(Anchored(names)[k], "");
    }
  }
}
