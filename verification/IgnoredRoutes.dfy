/** Which routes of a PagerDuty or GoAlert subtree no alert can reach whatever the
    regular-expression engine, because of the matchers alone. */
module IgnoredRoutes {
  import opened AlertmanagerTypes
  import opened Routing
  import opened RouteTable
  import opened Subroutes
  import opened Compiler
  import opened Delivery

  /** A row whose matchers include an earlier row's, as routes of either kind. */
  ghost predicate Covers(early: Row, late: Row) {
    Includes(RouteOf(Pagerduty, late), RouteOf(Pagerduty, early))
  }

  lemma CoversAsRoutes(kind: ReceiverType, early: Row, late: Row)
    ensures Shadows(RouteOf(kind, early), RouteOf(kind, late)) <==> Covers(early, late)
  {
  }

  // ---------- Telling rows apart ----------

  /** The label a row is known by: the alert name, or the first of the others it has. */
  function KeyLabel(row: Row): string {
    if "alertname" in row.matchEq then "alertname"
    else if "namespace" in row.matchEq then "namespace"
    else if "severity" in row.matchEq then "severity"
    else if "exported_namespace" in row.matchEq then "exported_namespace"
    else if "job" in row.matchEq then "job"
    else if "cluster" in row.matchEq then "cluster"
    else "send_managed_notification"
  }

  /** Length and fourth character from the end. */
  function Mark(text: string): int {
    |text| + if |text| < 4 then 0 else 100 * (text[|text| - 4] as int)
  }

  /** A number that tells most keys of the table apart, and spares comparing them as texts. */
  function Fingerprint(row: Row): int {
    var key := KeyLabel(row);
    var text := if key in row.matchEq then row.matchEq[key] else "";
    Mark(text) + if key == "alertname" then 0 else 20_000 * |key|
  }

  function Fingerprints(rows: seq<Row>): (prints: seq<int>)
    ensures |prints| == |rows|
  {
    seq(|rows|, i requires 0 <= i < |rows| => Fingerprint(rows[i]))
  }

  const SRE := "^.*SRE$"

  /** Matchers that rows have besides their key. */
  predicate SideMatcher(name: string, value: string) {
    || name in {"name", "prometheus", "reason"}
    || (name == "severity" && value in {"none", "warning", "error", "critical"})
    || (name == "exported_namespace" && value == "")
    || (name == "namespace"
        && value in {"openshift-logging", "openshift-machine-api", "openshift-cluster-storage-operator",
                     "openshift-etcd", "openshift-kube-apiserver"})
  }

  /** Side matchers are no keys, but for the row that keeps SRE's logging alerts. */
  ghost predicate Regular(row: Row) {
    var key := KeyLabel(row);
    && key in row.matchEq
    && (forall l :: l in row.matchEq && l != key ==> SideMatcher(l, row.matchEq[l]))
    && (forall k :: k in row.matchRE && row.matchRE[k] == SRE ==> key == "namespace")
    && (key != "alertname" && SideMatcher(key, row.matchEq[key]) ==>
          key == "namespace" && row.matchRE == map["alertname" := SRE])
  }

  ghost predicate AllRegular(rows: seq<Row>) {
    forall i :: 0 <= i < |rows| ==> Regular(rows[i])
  }

  /** A row can only cover rows with the same key. */
  lemma CoversSameKey(early: Row, late: Row)
    requires Regular(early) && Regular(late) && Covers(early, late)
    ensures Fingerprint(early) == Fingerprint(late)
  {
    hide SideMatcher;
    var key := KeyLabel(early);
    assert key in RouteOf(Pagerduty, early).matchEq;
    assert key in late.matchEq && late.matchEq[key] == early.matchEq[key];
    if early.matchRE == map["alertname" := SRE] {
      assert "alertname" in RouteOf(Pagerduty, early).matchRE;
      assert RequiresPattern(RouteOf(Pagerduty, late), "alertname", SRE);
    }
  }

  // The fingerprints of each section, so that the pairs of rows left to compare are few.
  // The first row is known by alertname "Watchdog": 8 characters, the fourth from the end
  // is 'h', number 104, so 8 + 100 * 104 = 10408. The sixth is known by the label
  // send_managed_notification, 25 characters, with value "true", whose fourth from the end
  // is 't', number 116, so 4 + 100 * 116 + 20000 * 25 = 511604.

  const HEAD_PRINTS: seq<int> := [
    10408, 7823, 10425, 11225, 9721, 511604]

  const NOISY_ALERT_PRINTS: seq<int> := [
    10117, 8518, 7217, 11028, 11028, 11230, 10530, 10523]

  const NOISY_NAMESPACE_PRINTS: seq<int> := [
    191429, 191619, 191417, 189720, 371417, 371619, 190026, 9922, 9820, 170504, 191434, 11029, 10524, 6810,
    10513, 190317]

  const LOGGING_PRINTS: seq<int> := [
    8220, 8224, 6815, 6815, 11528, 7230, 10830, 10332, 11536, 7227, 9937, 11537, 7227, 11740]

  const LOKI_PRINTS: seq<int> := [
    9955, 8234, 6817, 8222, 8226, 11417, 11427, 11426, 11017, 10118, 10519, 11420, 8219, 7621, 7620]

  const OPERATOR_PRINTS: seq<int> := [
    7017, 11722, 9723, 9723, 6819, 6819, 11723, 8034, 170805, 11529, 11230]

  const TAIL_PRINTS: seq<int> := [
    7218, 8320, 6815, 10138, 189740, 11525, 70107, 149713, 6622, 6811, 11226, 6819]

  lemma HeadRowsPrints()
    ensures Fingerprints(HeadRows()) == HEAD_PRINTS
  {
  }

  lemma HeadRowsRegular1()
    ensures |HeadRows()| == 6 && forall i :: 0 <= i < 3 ==> Regular(HeadRows()[i])
  {
  }

  lemma HeadRowsRegular2()
    ensures |HeadRows()| == 6 && forall i :: 3 <= i < 6 ==> Regular(HeadRows()[i])
  {
  }

  lemma NoisyAlertRowsPrints()
    ensures Fingerprints(NoisyAlertRows()) == NOISY_ALERT_PRINTS
  {
  }

  lemma NoisyAlertRowsRegular1()
    ensures |NoisyAlertRows()| == 8 && forall i :: 0 <= i < 4 ==> Regular(NoisyAlertRows()[i])
  {
  }

  lemma NoisyAlertRowsRegular2()
    ensures |NoisyAlertRows()| == 8 && forall i :: 4 <= i < 8 ==> Regular(NoisyAlertRows()[i])
  {
  }

  lemma NoisyNamespaceRowsPrints()
    ensures Fingerprints(NoisyNamespaceRows()) == NOISY_NAMESPACE_PRINTS
  {
  }

  lemma NoisyNamespaceRowsRegular1()
    ensures |NoisyNamespaceRows()| == 16 && forall i :: 0 <= i < 8 ==> Regular(NoisyNamespaceRows()[i])
  {
  }

  lemma NoisyNamespaceRowsRegular2()
    ensures |NoisyNamespaceRows()| == 16 && forall i :: 8 <= i < 16 ==> Regular(NoisyNamespaceRows()[i])
  {
  }

  lemma LoggingRowsPrints()
    ensures Fingerprints(LoggingRows()) == LOGGING_PRINTS
  {
  }

  lemma LoggingRowsRegular1()
    ensures |LoggingRows()| == 14 && forall i :: 0 <= i < 7 ==> Regular(LoggingRows()[i])
  {
  }

  lemma LoggingRowsRegular2()
    ensures |LoggingRows()| == 14 && forall i :: 7 <= i < 14 ==> Regular(LoggingRows()[i])
  {
  }

  lemma LokiRowsPrints()
    ensures Fingerprints(LokiRows()) == LOKI_PRINTS
  {
  }

  lemma LokiRowsRegular1()
    ensures |LokiRows()| == 15 && forall i :: 0 <= i < 8 ==> Regular(LokiRows()[i])
  {
  }

  lemma LokiRowsRegular2()
    ensures |LokiRows()| == 15 && forall i :: 8 <= i < 15 ==> Regular(LokiRows()[i])
  {
  }

  lemma OperatorRowsPrints()
    ensures Fingerprints(OperatorRows()) == OPERATOR_PRINTS
  {
  }

  lemma OperatorRowsRegular1()
    ensures |OperatorRows()| == 11 && forall i :: 0 <= i < 6 ==> Regular(OperatorRows()[i])
  {
  }

  lemma OperatorRowsRegular2()
    ensures |OperatorRows()| == 11 && forall i :: 6 <= i < 11 ==> Regular(OperatorRows()[i])
  {
  }

  lemma TailRowsPrints()
    ensures Fingerprints(TailRows()) == TAIL_PRINTS
  {
  }

  lemma TailRowsRegular1()
    ensures |TailRows()| == 12 && forall i :: 0 <= i < 6 ==> Regular(TailRows()[i])
  {
  }

  lemma TailRowsRegular2()
    ensures |TailRows()| == 12 && forall i :: 6 <= i < 12 ==> Regular(TailRows()[i])
  {
  }

  /** The table in three parts. */
  const FIRST_PRINTS: seq<int> := HEAD_PRINTS + NOISY_ALERT_PRINTS + NOISY_NAMESPACE_PRINTS
  const MIDDLE_PRINTS: seq<int> := LOGGING_PRINTS + LOKI_PRINTS
  const LAST_PRINTS: seq<int> := OPERATOR_PRINTS + TAIL_PRINTS

  lemma FirstWithin(i: nat, j: nat)
    requires i < j < 30 && FIRST_PRINTS[i] == FIRST_PRINTS[j]
    ensures (i, j) == (9, 10)
  {
  }

  lemma MiddleWithin(i: nat, j: nat)
    requires i < j < 29 && MIDDLE_PRINTS[i] == MIDDLE_PRINTS[j]
    ensures (i, j) in {(2, 3), (9, 12)}
  {
  }

  lemma LastWithin(i: nat, j: nat)
    requires i < j < 23 && LAST_PRINTS[i] == LAST_PRINTS[j]
    ensures (i, j) in {(2, 3), (4, 5), (4, 22), (5, 22)}
  {
  }

  lemma FirstToMiddle(i: nat, j: nat)
    requires i < 30 && j < 29
    ensures FIRST_PRINTS[i] != MIDDLE_PRINTS[j]
  {
  }

  lemma FirstToLast(i: nat, j: nat)
    requires i < 30 && j < 23 && FIRST_PRINTS[i] == LAST_PRINTS[j]
    ensures (i, j) == (11, 10)
  {
  }

  lemma MiddleToLast(i: nat, j: nat)
    requires i < 29 && j < 23 && MIDDLE_PRINTS[i] == LAST_PRINTS[j]
    ensures (i, j) in {(2, 13), (3, 13)}
  {
  }

  lemma FingerprintsAppend(xs: seq<Row>, ys: seq<Row>)
    ensures Fingerprints(xs + ys) == Fingerprints(xs) + Fingerprints(ys)
  {
  }

  /** The fingerprints of the whole table. */
  lemma TablePrints()
    ensures Fingerprints(CommonRows()) == FIRST_PRINTS + (MIDDLE_PRINTS + LAST_PRINTS)
  {
    hide Fingerprints, HeadRows, NoisyAlertRows, NoisyNamespaceRows, LoggingRows, LokiRows, OperatorRows, TailRows;
    HeadRowsPrints();
    NoisyAlertRowsPrints();
    NoisyNamespaceRowsPrints();
    LoggingRowsPrints();
    LokiRowsPrints();
    OperatorRowsPrints();
    TailRowsPrints();
    FingerprintsAppend(LoggingRows(), LokiRows());
    FingerprintsAppend(LoggingRows() + LokiRows(), OperatorRows());
    FingerprintsAppend(LoggingRows() + LokiRows() + OperatorRows(), TailRows());
    FingerprintsAppend(NoisyNamespaceRows(), LaterRows());
    FingerprintsAppend(NoisyAlertRows(), NoisyNamespaceRows() + LaterRows());
    FingerprintsAppend(HeadRows(), NoisyAlertRows() + (NoisyNamespaceRows() + LaterRows()));
    Regroup(HEAD_PRINTS, NOISY_ALERT_PRINTS, NOISY_NAMESPACE_PRINTS, LOGGING_PRINTS, LOKI_PRINTS,
            OPERATOR_PRINTS, TAIL_PRINTS);
  }

  lemma Regroup(a: seq<int>, b: seq<int>, c: seq<int>, d: seq<int>, e: seq<int>, f: seq<int>, g: seq<int>)
    ensures a + (b + (c + (d + e + f + g))) == (a + b + c) + ((d + e) + (f + g))
  {
  }

  lemma RegularAppend(xs: seq<Row>, ys: seq<Row>)
    requires AllRegular(xs) && AllRegular(ys)
    ensures AllRegular(xs + ys)
  {
  }

  lemma EarlyRowsRegular()
    ensures AllRegular(HeadRows()) && AllRegular(NoisyAlertRows()) && AllRegular(NoisyNamespaceRows())
  {
    hide HeadRows, NoisyAlertRows, NoisyNamespaceRows, Regular;
    HeadRowsRegular1();
    HeadRowsRegular2();
    NoisyAlertRowsRegular1();
    NoisyAlertRowsRegular2();
    NoisyNamespaceRowsRegular1();
    NoisyNamespaceRowsRegular2();
  }

  lemma LaterRowsRegular()
    ensures AllRegular(LaterRows())
  {
    hide LoggingRows, LokiRows, OperatorRows, TailRows, Regular;
    LoggingRowsRegular1();
    LoggingRowsRegular2();
    LokiRowsRegular1();
    LokiRowsRegular2();
    OperatorRowsRegular1();
    OperatorRowsRegular2();
    TailRowsRegular1();
    TailRowsRegular2();
    RegularAppend(LoggingRows(), LokiRows());
    RegularAppend(LoggingRows() + LokiRows(), OperatorRows());
    RegularAppend(LoggingRows() + LokiRows() + OperatorRows(), TailRows());
  }

  lemma MonitoringRowRegular()
    ensures Regular(MonitoringDownRow()) && Fingerprint(MonitoringDownRow()) == LAST_PRINTS[4]
  {
  }

  lemma TableRegular(fedramp: bool)
    ensures AllRegular(StaticRows(fedramp))
  {
    hide HeadRows, NoisyAlertRows, NoisyNamespaceRows, LaterRows, MonitoringDownRow, Regular;
    EarlyRowsRegular();
    LaterRowsRegular();
    MonitoringRowRegular();
    RegularAppend(NoisyNamespaceRows(), LaterRows());
    RegularAppend(NoisyAlertRows(), NoisyNamespaceRows() + LaterRows());
    RegularAppend(HeadRows(), NoisyAlertRows() + (NoisyNamespaceRows() + LaterRows()));
    RegularAppend(CommonRows(), [MonitoringDownRow()]);
  }

  // ---------- The table ----------

  /** The places of rows that share a fingerprint. */
  const LOOKALIKES: set<(nat, nat)> := {
    (9, 10), (11, 69), (32, 33), (32, 72), (33, 72), (39, 42), (61, 62), (63, 64), (63, 81), (64, 81),
    (63, 82), (64, 82), (81, 82)}

  lemma PartLengths()
    ensures |FIRST_PRINTS| == 30 && |MIDDLE_PRINTS| == 29 && |LAST_PRINTS| == 23
  {
  }

  lemma SamePrint(i: nat, j: nat)
    requires i < j < 82 == |FIRST_PRINTS + (MIDDLE_PRINTS + LAST_PRINTS)|
    requires var prints := FIRST_PRINTS + (MIDDLE_PRINTS + LAST_PRINTS); prints[i] == prints[j]
    ensures (i, j) in LOOKALIKES
  {
    hide FIRST_PRINTS, MIDDLE_PRINTS, LAST_PRINTS;
    PartLengths();
    if j < 30 {
      FirstWithin(i, j);
    } else if j < 59 {
      if i < 30 {
        FirstToMiddle(i, j - 30);
      } else {
        MiddleWithin(i - 30, j - 30);
      }
    } else if i < 30 {
      FirstToLast(i, j - 59);
    } else if i < 59 {
      MiddleToLast(i - 30, j - 59);
    } else {
      LastWithin(i - 59, j - 59);
    }
  }

  /** `early` requires on this label what `late` does not. */
  predicate Differs(early: Row, late: Row, name: string) {
    name in early.matchEq && (name in late.matchEq ==> late.matchEq[name] != early.matchEq[name])
  }

  lemma DiffersUncovered(early: Row, late: Row, name: string)
    requires Differs(early, late, name)
    ensures !Covers(early, late)
  {
    assert name in RouteOf(Pagerduty, early).matchEq;
  }

  /** The lookalikes of lines 366-440 differ after all. */
  lemma EarlyLookalikes()
    ensures Differs(NoisyAlertRows()[3], NoisyAlertRows()[4], "alertname")
    ensures Differs(LoggingRows()[2], LoggingRows()[3], "namespace")
    ensures Differs(LoggingRows()[9], LoggingRows()[12], "alertname")
  {
  }

  lemma LateLookalikes()
    ensures Differs(OperatorRows()[2], OperatorRows()[3], "reason")
    ensures Differs(OperatorRows()[4], OperatorRows()[5], "reason")
    ensures Differs(OperatorRows()[4], MonitoringDownRow(), "reason")
    ensures Differs(OperatorRows()[5], MonitoringDownRow(), "reason")
  {
  }

  lemma LastLookalikes()
    ensures Differs(LoggingRows()[2], TailRows()[2], "alertname")
    ensures Differs(LoggingRows()[3], TailRows()[2], "alertname")
    ensures Differs(OperatorRows()[4], TailRows()[11], "reason")
    ensures Differs(OperatorRows()[5], TailRows()[11], "reason")
    ensures Differs(TailRows()[11], MonitoringDownRow(), "name")
  {
  }

  lemma TailLength()
    ensures |TailRows()| == 12
  {
  }

  lemma SectionPlaces(fedramp: bool, k: nat)
    ensures |CommonRows()| == 82 && |StaticRows(fedramp)| == if fedramp then 82 else 83
    ensures k < 6 ==> StaticRows(fedramp)[k] == HeadRows()[k]
    ensures k < 8 ==> StaticRows(fedramp)[6 + k] == NoisyAlertRows()[k]
    ensures k < 16 ==> StaticRows(fedramp)[14 + k] == NoisyNamespaceRows()[k]
    ensures k < 14 ==> StaticRows(fedramp)[30 + k] == LoggingRows()[k]
    ensures k < 11 ==> StaticRows(fedramp)[59 + k] == OperatorRows()[k]
    ensures k < 12 ==> StaticRows(fedramp)[70 + k] == TailRows()[k]
    ensures !fedramp ==> StaticRows(fedramp)[82] == MonitoringDownRow()
    ensures k < 82 ==> StaticRows(fedramp)[k] == CommonRows()[k]
  {
    hide HeadRows, NoisyAlertRows, NoisyNamespaceRows, LoggingRows, LokiRows, OperatorRows, TailRows, MonitoringDownRow;
    DeadRows();
    DeadLaterRows();
    TailLength();
  }

  /** Lookalikes but the mountpoint row differ on some label. */
  lemma LookalikesDiffer(fedramp: bool, i: nat, j: nat) returns (name: string)
    requires i < j < |StaticRows(fedramp)| && (i, j) in LOOKALIKES && j != MOUNTPOINT_ROW
    ensures Differs(StaticRows(fedramp)[i], StaticRows(fedramp)[j], name)
  {
    hide HeadRows, NoisyAlertRows, NoisyNamespaceRows, LoggingRows, LokiRows, OperatorRows, TailRows, MonitoringDownRow;
    hide CommonRows, StaticRows, Differs;
    EarlyLookalikes();
    LateLookalikes();
    LastLookalikes();
    SectionPlaces(fedramp, 2);
    SectionPlaces(fedramp, 3);
    if i in {9, 39} {
      SectionPlaces(fedramp, 4);
      SectionPlaces(fedramp, 9);
      SectionPlaces(fedramp, 12);
    } else if i >= 63 {
      SectionPlaces(fedramp, 4);
      SectionPlaces(fedramp, 5);
      SectionPlaces(fedramp, 11);
    }
    name := if i in {9, 39} || j == 72 then "alertname" else if i == 32 then "namespace"
            else if i == 81 then "name" else "reason";
  }

  lemma EqualPrints(fedramp: bool, i: nat, j: nat)
    requires i < j < |StaticRows(fedramp)|
    requires Fingerprint(StaticRows(fedramp)[i]) == Fingerprint(StaticRows(fedramp)[j])
    ensures (i, j) in LOOKALIKES
  {
    hide HeadRows, NoisyAlertRows, NoisyNamespaceRows, LaterRows, MonitoringDownRow, Fingerprint, CommonRows;
    hide FIRST_PRINTS, MIDDLE_PRINTS, LAST_PRINTS;
    PartLengths();
    var rows, prints := StaticRows(fedramp), FIRST_PRINTS + (MIDDLE_PRINTS + LAST_PRINTS);
    TablePrints();
    SectionPlaces(fedramp, i);
    SectionPlaces(fedramp, j);
    MonitoringRowRegular();
    assert Fingerprint(rows[i]) == Fingerprints(CommonRows())[i];
    if j < 82 {
      assert Fingerprint(rows[j]) == Fingerprints(CommonRows())[j];
      SamePrint(i, j);
    } else {
      assert prints[63] == LAST_PRINTS[4];
      if i < 63 {
        SamePrint(i, 63);
      } else if i > 63 {
        SamePrint(63, i);
      }
    }
  }

  /** In the whole table one row covers another: that of line 371 the one of line 476. */
  lemma CoversExactlyWhen(fedramp: bool, i: nat, j: nat)
    requires i < j < |StaticRows(fedramp)|
    ensures Covers(StaticRows(fedramp)[i], StaticRows(fedramp)[j])
       <==> (i, j) == (ALMOST_OUT_OF_SPACE_ROW, MOUNTPOINT_ROW)
  {
    hide StaticRows, Covers, Regular, Fingerprint, Differs;
    var rows := StaticRows(fedramp);
    if Covers(rows[i], rows[j]) {
      TableRegular(fedramp);
      CoversSameKey(rows[i], rows[j]);
      EqualPrints(fedramp, i, j);
      if j != MOUNTPOINT_ROW {
        var name := LookalikesDiffer(fedramp, i, j);
        DiffersUncovered(rows[i], rows[j], name);
      }
    }
    MountpointCovered(fedramp);
  }

  lemma MountpointCovered(fedramp: bool)
    ensures |StaticRows(fedramp)| > MOUNTPOINT_ROW
    ensures Covers(StaticRows(fedramp)[ALMOST_OUT_OF_SPACE_ROW], StaticRows(fedramp)[MOUNTPOINT_ROW])
  {
    hide StaticRows;
    DeadRowPlaces(fedramp);
    DeadRows();
    DeadLaterRows();
  }

  // ---------- The routes of namespaces ----------

  function Width(kind: ReceiverType): nat {
    if kind == Pagerduty then 2 else 3
  }

  lemma PlaceOf(w: nat, m: nat, b: nat)
    requires 2 <= w <= 3 && b < w
    ensures (w * m + b) / w == m && (w * m + b) % w == b
  {
    if w == 2 {
      assert (2 * m + b) / 2 == m;
    } else {
      assert (3 * m + b) / 3 == m;
    }
  }

  lemma BlockLength(kind: ReceiverType, namespace: string)
    ensures |RoutesForNamespace(kind, namespace)| == Width(kind)
  {
  }

  /** `w * n` places are `n` blocks of `w`. */
  lemma Blocks(w: nat, n: nat, t: nat)
    requires 2 <= w <= 3
    ensures w * (n + 1) == w * n + w
    ensures t < w * n ==> t / w < n
  {
  }

  lemma {:induction false} NamespaceRouteAt(kind: ReceiverType, namespaces: seq<string>, t: nat)
    ensures |NamespaceRoutes(kind, namespaces)| == Width(kind) * |namespaces|
    ensures t < |NamespaceRoutes(kind, namespaces)| ==>
      && t / Width(kind) < |namespaces| && t % Width(kind) < |RoutesForNamespace(kind, namespaces[t / Width(kind)])|
      && NamespaceRoutes(kind, namespaces)[t]
         == RoutesForNamespace(kind, namespaces[t / Width(kind)])[t % Width(kind)]
  {
    hide RoutesForNamespace;
    if namespaces != [] {
      var m, w := |namespaces| - 1, Width(kind);
      NamespaceRouteAt(kind, namespaces[..m], t);
      BlockLength(kind, namespaces[m]);
      Blocks(w, m, t);
      if w * m <= t < w * m + w {
        PlaceOf(w, m, t - w * m);
      }
    }
  }

  lemma PagerdutyPairs(x: string, a: nat, y: string, b: nat)
    requires a < 2 && b < 2 && (x != y || a != b)
    ensures !Shadows(RoutesForNamespace(Pagerduty, x)[a], RoutesForNamespace(Pagerduty, y)[b])
  {
    assert (if a == 0 then "exported_namespace" else "namespace") in RoutesForNamespace(Pagerduty, x)[a].matchRE;
  }

  lemma GoAlertPairs(x: string, a: nat, y: string, b: nat)
    requires a < 3 && b < 3 && (x != y || a != b)
    ensures !Shadows(RoutesForNamespace(GoAlert, x)[a], RoutesForNamespace(GoAlert, y)[b])
  {
    var early := RoutesForNamespace(GoAlert, x)[a];
    assert "namespace" in early.matchRE && "severity" in early.matchEq;
  }

  lemma IncludesItself(route: Route)
    ensures Includes(route, route)
  {
    forall k | k in route.matchRE
      ensures RequiresPattern(route, k, route.matchRE[k])
    {
    }
  }

  /** Two routes of namespaces shadow one another exactly when they are the same route. */
  lemma NamespacePairs(kind: ReceiverType, x: string, a: nat, y: string, b: nat)
    requires a < Width(kind) && b < Width(kind)
    ensures Shadows(RoutesForNamespace(kind, x)[a], RoutesForNamespace(kind, y)[b]) <==> x == y && a == b
  {
    hide Includes;
    if x == y && a == b {
      IncludesItself(RoutesForNamespace(kind, x)[a]);
    } else if kind == Pagerduty {
      PagerdutyPairs(x, a, y, b);
    } else {
      GoAlertPairs(x, a, y, b);
    }
  }

  /** No static row stands in front of a namespace. */
  lemma RowBeforeNamespace(kind: ReceiverType, row: Row, namespace: string, b: nat)
    requires Regular(row) && b < Width(kind)
    ensures !Shadows(RouteOf(kind, row), RoutesForNamespace(kind, namespace)[b])
  {
    var key := KeyLabel(row);
    assert key in RouteOf(kind, row).matchEq;
  }

  // ---------- Which routes are ignored ----------

  /** The namespace of that route was already listed. */
  predicate ListedBefore(kind: ReceiverType, namespaces: seq<string>, t: nat)
    requires t / Width(kind) < |namespaces|
  {
    namespaces[t / Width(kind)] in namespaces[..t / Width(kind)]
  }

  /** Behind `base` static rows: the mountpoint row, and routes of a namespace listed before. */
  predicate IgnoredPlace(kind: ReceiverType, namespaces: seq<string>, base: nat, j: nat) {
    if j < base then j == MOUNTPOINT_ROW
    else (j - base) / Width(kind) < |namespaces| && ListedBefore(kind, namespaces, j - base)
  }

  /** The matchers alone make a route of a compiled subtree unreachable, for all alerts and
      all engines at once, exactly when it is the one of line 476 or belongs to a namespace
      listed before. */
  lemma IgnoredInSubtree(kind: ReceiverType, namespaces: seq<string>, fedramp: bool, j: nat)
    requires j < |Subtree(kind, namespaces, fedramp).routes|
    ensures Ignored(Subtree(kind, namespaces, fedramp).routes, j)
       <==> IgnoredPlace(kind, namespaces, |StaticRows(fedramp)|, j)
  {
    hide StaticRows, NamespaceRoutes, RoutesForNamespace, Ignored, Shadows, Covers, Regular;
    var rows, base := StaticRows(fedramp), |StaticRows(fedramp)|;
    var routes := Subtree(kind, namespaces, fedramp).routes;
    IgnoredExactlyWhen(routes, j);
    MountpointCovered(fedramp);
    if j < base {
      forall i | 0 <= i < j
        ensures Shadows(routes[i], routes[j]) <==> (i, j) == (ALMOST_OUT_OF_SPACE_ROW, MOUNTPOINT_ROW)
      {
        CoversAsRoutes(kind, rows[i], rows[j]);
        CoversExactlyWhen(fedramp, i, j);
      }
      assert j == MOUNTPOINT_ROW ==> Shadows(routes[ALMOST_OUT_OF_SPACE_ROW], routes[j]);
    } else {
      TableRegular(fedramp);
      NamespaceIgnored(kind, rows, namespaces, j - base);
    }
  }

  /** Two places hold the same route of the same namespace. */
  predicate SameRoute(kind: ReceiverType, namespaces: seq<string>, u: nat, t: nat) {
    var w := Width(kind);
    && u / w < |namespaces| && t / w < |namespaces|
    && namespaces[u / w] == namespaces[t / w] && u % w == t % w
  }

  lemma SameRouteBefore(kind: ReceiverType, namespaces: seq<string>, t: nat)
    requires t / Width(kind) < |namespaces|
    ensures (exists u: nat :: u < t && SameRoute(kind, namespaces, u, t)) <==> ListedBefore(kind, namespaces, t)
  {
    var w := Width(kind);
    if ListedBefore(kind, namespaces, t) {
      var m :| 0 <= m < t / w && namespaces[..t / w][m] == namespaces[t / w];
      PlaceOf(w, m, t % w);
      assert w * m + t % w < t;
      assert SameRoute(kind, namespaces, w * m + t % w, t);
    }
    if u: nat :| u < t && SameRoute(kind, namespaces, u, t) {
      assert u / w < t / w;
      assert namespaces[..t / w][u / w] == namespaces[t / w];
    }
  }

  /** Behind any regular rows, a route of a namespace is shadowed exactly when its namespace
      was listed before. */
  lemma NamespaceIgnored(kind: ReceiverType, rows: seq<Row>, namespaces: seq<string>, t: nat)
    requires AllRegular(rows) && t < |NamespaceRoutes(kind, namespaces)|
    ensures t / Width(kind) < |namespaces|
    ensures
      var routes := SubtreeOver(rows, kind, namespaces).routes;
      (exists i :: 0 <= i < |rows| + t && Shadows(routes[i], routes[|rows| + t]))
      <==> ListedBefore(kind, namespaces, t)
  {
    hide NamespaceRoutes, RoutesForNamespace, Shadows, Regular, ListedBefore;
    var routes, base := SubtreeOver(rows, kind, namespaces).routes, |rows|;
    NamespaceRouteAt(kind, namespaces, t);
    forall i | 0 <= i < base + t
      ensures Shadows(routes[i], routes[base + t]) <==> i >= base && SameRoute(kind, namespaces, i - base, t)
    {
      if i < base {
        RowBeforeNamespace(kind, rows[i], namespaces[t / Width(kind)], t % Width(kind));
      } else {
        NamespaceShadows(kind, namespaces, i - base, t);
      }
    }
    SameRouteBefore(kind, namespaces, t);
    if u: nat :| u < t && SameRoute(kind, namespaces, u, t) {
      assert Shadows(routes[base + u], routes[base + t]);
    }
  }

  lemma NamespaceShadows(kind: ReceiverType, namespaces: seq<string>, u: nat, t: nat)
    requires u < t < |NamespaceRoutes(kind, namespaces)|
    ensures Shadows(NamespaceRoutes(kind, namespaces)[u], NamespaceRoutes(kind, namespaces)[t])
       <==> SameRoute(kind, namespaces, u, t)
  {
    hide NamespaceRoutes, RoutesForNamespace, Shadows;
    var w := Width(kind);
    NamespaceRouteAt(kind, namespaces, u);
    NamespaceRouteAt(kind, namespaces, t);
    NamespacePairs(kind, namespaces[u / w], u % w, namespaces[t / w], t % w);
  }

  ghost predicate NoneShadowed(routes: seq<Route>) {
    forall i, j :: 0 <= i < j < |routes| ==> !Shadows(routes[i], routes[j])
  }

  /** The routes that end the search all require one of these labels. */
  ghost predicate EndOn(routes: seq<Route>, names: set<string>) {
    forall i :: 0 <= i < |routes| && !routes[i].continues ==> routes[i].matchEq.Keys * names != {}
  }

  lemma AddUnshadowed(routes: seq<Route>, names: set<string>, present: bool, route: Route)
    requires NoneShadowed(routes) && EndOn(routes, names) && route.matchEq.Keys !! names
    ensures NoneShadowed(Added(routes, present, [route]))
    ensures route.continues ==> EndOn(Added(routes, present, [route]), names)
    ensures route.matchEq.Keys != {} ==> EndOn(Added(routes, present, [route]), names + route.matchEq.Keys)
  {
  }

  /** Every top-level route of a compiled configuration is reached by some alert. */
  lemma NoneIgnoredAtRoot(inp: Inputs, fedramp: bool, j: nat)
    requires j < |RootRoutes(inp, fedramp)|
    ensures !Ignored(RootRoutes(inp, fedramp), j)
  {
    IgnoredExactlyWhen(RootRoutes(inp, fedramp), j);
    RootUnshadowed(inp, fedramp);
  }

  lemma RootUnshadowed(inp: Inputs, fedramp: bool)
    ensures NoneShadowed(RootRoutes(inp, fedramp))
  {
    hide Added, NoneShadowed, EndOn, StaticRows, NamespaceRoutes;
    var ocm := {"send_managed_notification"};
    var both := ocm + {"route_to_cad"};
    NothingShadowed();
    AddUnshadowed([], {}, inp.HasWatchdog(), WatchdogRoute());
    var routes := Added([], inp.HasWatchdog(), [WatchdogRoute()]);
    AddUnshadowed(routes, {}, inp.HasOcmAgent(), OcmAgentRoute());
    routes := Added(routes, inp.HasOcmAgent(), [OcmAgentRoute()]);
    assert {} + OcmAgentRoute().matchEq.Keys == ocm;
    AddUnshadowed(routes, ocm, inp.HasCad(), CadRoute());
    routes := Added(routes, inp.HasCad(), [CadRoute()]);
    assert ocm + CadRoute().matchEq.Keys == both;
    AddUnshadowed(routes, both, inp.HasPagerduty(), Subtree(Pagerduty, inp.namespaces, fedramp));
    routes := Added(routes, inp.HasPagerduty(), [Subtree(Pagerduty, inp.namespaces, fedramp)]);
    AddUnshadowed(routes, both, inp.HasGoalert(), Subtree(GoAlert, inp.namespaces, fedramp));
    routes := Added(routes, inp.HasGoalert(), [Subtree(GoAlert, inp.namespaces, fedramp)]);
    AddUnshadowed(routes, both, inp.HasHeartbeat(), HeartbeatRoute());
  }

  lemma NothingShadowed()
    ensures NoneShadowed([]) && EndOn([], {})
  {
  }
}
