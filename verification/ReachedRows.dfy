/** Which static routes some alert reaches under one given regular-expression engine, and
    what the rest of the tree leaves to a subtree. */
module ReachedRows {
  import opened Wrappers
  import opened AlertmanagerTypes
  import opened Routing
  import opened RouteTable
  import opened Subroutes
  import opened SubrouteMeaning
  import opened Compiler
  import opened Delivery
  import opened IgnoredRoutes
  import opened ReachedRoutes

  // ---------- Which static rows some alert reaches ----------

  const MASTER := "^.+-master-.*[0-9]+$"
  const REDHAT := "^redhat-.*"

  /** The places of the rows of lines 402, 413 and 359. */
  const TARGET_DOWN_ROW: nat := 27
  const SRE_ROW: nat := 29
  const MANAGED_ROW: nat := 5

  /** Rows with a pattern. */
  const PATTERN_ROWS: set<nat> := {1, 2, TARGET_DOWN_ROW, SRE_ROW, MOUNTPOINT_ROW}

  ghost predicate PatternsAt(rows: seq<Row>, places: set<nat>) {
    forall i: nat :: i < |rows| && i !in places ==> rows[i].matchRE == map[]
  }

  lemma EarlyPatterns()
    ensures PatternsAt(HeadRows(), {1, 2}) && PatternsAt(NoisyAlertRows(), {})
    ensures PatternsAt(NoisyNamespaceRows(), {13, 15})
  {
  }

  lemma LoggingPatterns()
    ensures PatternsAt(LoggingRows(), {}) && PatternsAt(LokiRows(), {})
  {
  }

  lemma LatePatterns()
    ensures PatternsAt(OperatorRows(), {10}) && PatternsAt(TailRows(), {}) && MonitoringDownRow().matchRE == map[]
  {
  }

  lemma OtherRowsPlain(fedramp: bool, i: nat)
    requires i < |StaticRows(fedramp)| && i !in PATTERN_ROWS
    ensures StaticRows(fedramp)[i].matchRE == map[]
  {
    hide HeadRows, NoisyAlertRows, NoisyNamespaceRows, LoggingRows, LokiRows, OperatorRows, TailRows, MonitoringDownRow;
    EarlyPatterns();
    LoggingPatterns();
    LatePatterns();
    DeadRows();
    DeadLaterRows();
    TailLength();
  }

  lemma PatternRows(fedramp: bool)
    ensures |StaticRows(fedramp)| > MOUNTPOINT_ROW
    ensures StaticRows(fedramp)[TARGET_DOWN_ROW]
         == Row(ToNull, map["alertname" := "TargetDown"], map["namespace" := REDHAT])
    ensures StaticRows(fedramp)[SRE_ROW] == SreRow()
  {
    hide StaticRows, CommonRows;
    SectionPlaces(fedramp, 13);
    SectionPlaces(fedramp, 15);
    NoisyPatternRows();
  }

  lemma NoisyPatternRows()
    ensures |NoisyNamespaceRows()| == 16 && NoisyNamespaceRows()[15] == SreRow()
    ensures NoisyNamespaceRows()[13] == Row(ToNull, map["alertname" := "TargetDown"], map["namespace" := REDHAT])
  {
  }

  /** The later row requires every equality of the earlier one. */
  ghost predicate EqualitiesIn(early: Row, late: map<string, string>) {
    forall l :: l in early.matchEq ==> l in late && late[l] == early.matchEq[l]
  }

  lemma OnePrint(fedramp: bool, i: nat, j: nat)
    requires i < |StaticRows(fedramp)| && j < |StaticRows(fedramp)| && j in {MANAGED_ROW, TARGET_DOWN_ROW, SRE_ROW}
    requires Fingerprint(StaticRows(fedramp)[i]) == Fingerprint(StaticRows(fedramp)[j])
    ensures i == j
  {
    hide StaticRows, Fingerprint;
    if i < j {
      EqualPrints(fedramp, i, j);
    } else if j < i {
      EqualPrints(fedramp, j, i);
    }
  }

  /** Of the equalities alone, only those of SRE's row are included in a later row's. */
  lemma EqualitiesIncluded(fedramp: bool, i: nat, j: nat)
    requires i < j < |StaticRows(fedramp)| && j != MOUNTPOINT_ROW
    requires EqualitiesIn(StaticRows(fedramp)[i], StaticRows(fedramp)[j].matchEq)
    ensures i == SRE_ROW
  {
    hide StaticRows, Fingerprint;
    var rows := StaticRows(fedramp);
    var key := KeyLabel(rows[i]);
    TableRegular(fedramp);
    TablePlain(fedramp);
    assert Regular(rows[i]) && Regular(rows[j]) && Plain(rows[i]);
    if key == "alertname" || KeyLabel(rows[j]) == key {
      SameKeySamePrint(rows[i], rows[j]);
      EqualPrints(fedramp, i, j);
      var name := LookalikesDiffer(fedramp, i, j);
      assert false;
    } else {
      assert SideMatcher(key, rows[j].matchEq[key]);
      assert rows[i] == SreRow();
      PatternRows(fedramp);
      OnePrint(fedramp, i, SRE_ROW);
    }
  }

  lemma SameKeySamePrint(early: Row, late: Row)
    requires KeyLabel(early) in early.matchEq && EqualitiesIn(early, late.matchEq)
    requires KeyLabel(early) == "alertname" || KeyLabel(late) == KeyLabel(early)
    ensures Fingerprint(early) == Fingerprint(late)
  {
  }

  /** An alert made of a row's own equalities meets another's only if it includes them. */
  lemma OwnEqualities(re: Regexp, row: Row, alert: Alert)
    requires Plain(row) && RowMatches(re, row, alert)
    ensures EqualitiesIn(row, alert)
  {
  }

  /** Takes every alert of that name in the logging namespace, or anywhere. */
  predicate Silences(row: Row, name: string) {
    && row.matchRE == map[]
    && (row.matchEq == map["alertname" := name] || row.matchEq == map["alertname" := name, "namespace" := LOGGING])
  }

  /** A name that SRE's row is left with. */
  ghost predicate SreOpen(re: Regexp, rows: seq<Row>, name: string) {
    && re(SRE, name) && !(name == "TargetDown" && re(REDHAT, LOGGING))
    && forall i :: 0 <= i < |rows| ==> !Silences(rows[i], name)
  }

  /** SRE's row takes all alerts of this one before. */
  predicate LeftToSre(re: Regexp, row: Row) {
    Label(row.matchEq, "namespace") == LOGGING && re(SRE, Label(row.matchEq, "alertname"))
  }

  /** When some alert gets as far as the `j`-th row. */
  ghost predicate RowOpen(re: Regexp, rows: seq<Row>, j: nat)
    requires SRE_ROW <= |rows| && j < |rows|
  {
    if j in {1, 2} then exists v :: re(MASTER, v)
    else if j == TARGET_DOWN_ROW then exists v :: re(REDHAT, v) && v !in SILENCED
    else if j == SRE_ROW then exists v :: SreOpen(re, rows[..SRE_ROW], v)
    else j != MOUNTPOINT_ROW && !(j > SRE_ROW && LeftToSre(re, rows[j]))
  }

  // The rows without a pattern.

  lemma EqualityRowWitness(re: Regexp, fedramp: bool, j: nat)
    requires j < |StaticRows(fedramp)| && j !in PATTERN_ROWS
    requires !(j > SRE_ROW && LeftToSre(re, StaticRows(fedramp)[j]))
    ensures RowMatches(re, StaticRows(fedramp)[j], StaticRows(fedramp)[j].matchEq)
    ensures Unclaimed(re, StaticRows(fedramp)[..j], StaticRows(fedramp)[j].matchEq)
  {
    hide StaticRows;
    var rows := StaticRows(fedramp);
    OtherRowsPlain(fedramp, j);
    TablePlain(fedramp);
    PatternRows(fedramp);
    forall i | 0 <= i < j
      ensures !RowMatches(re, rows[i], rows[j].matchEq)
    {
      if RowMatches(re, rows[i], rows[j].matchEq) {
        OwnEqualities(re, rows[i], rows[j].matchEq);
        EqualitiesIncluded(fedramp, i, j);
        SreTakes(re, rows[j].matchEq);
        assert false;
      }
    }
  }

  lemma SreTakes(re: Regexp, alert: Alert)
    ensures RowMatches(re, SreRow(), alert)
       <==> Label(alert, "namespace") == LOGGING && re(SRE, Label(alert, "alertname"))
  {
    assert "namespace" in SreRow().matchEq && "alertname" in SreRow().matchRE;
  }

  lemma EqualityRowTaken(re: Regexp, fedramp: bool, j: nat, alert: Alert)
    requires j < |StaticRows(fedramp)| && j !in PATTERN_ROWS
    requires RowMatches(re, StaticRows(fedramp)[j], alert) && Unclaimed(re, StaticRows(fedramp)[..j], alert)
    ensures !(j > SRE_ROW && LeftToSre(re, StaticRows(fedramp)[j]))
  {
    hide StaticRows;
    var rows := StaticRows(fedramp);
    OtherRowsPlain(fedramp, j);
    TablePlain(fedramp);
    PatternRows(fedramp);
    assert Plain(rows[j]);
    if j > SRE_ROW && Label(rows[j].matchEq, "namespace") == LOGGING {
      assert rows[..j][SRE_ROW] == SreRow();
      SreTakes(re, alert);
      LoggingRowsAreNamed(rows[j]);
    }
  }

  lemma LoggingRowsAreNamed(row: Row)
    requires Plain(row) && row.matchRE == map[] && Label(row.matchEq, "namespace") == LOGGING
    ensures "alertname" in row.matchEq && "namespace" in row.matchEq
  {
    assert "namespace" in ValidationRow().matchEq && "alertname" in SreRow().matchRE;
  }

  /** The row of line 476 asks for more than that of line 371. */
  lemma MountpointNeverTakes(re: Regexp, fedramp: bool, alert: Alert)
    requires |StaticRows(fedramp)| > MOUNTPOINT_ROW
    requires RowMatches(re, StaticRows(fedramp)[MOUNTPOINT_ROW], alert)
    ensures !Unclaimed(re, StaticRows(fedramp)[..MOUNTPOINT_ROW], alert)
  {
    hide StaticRows;
    var rows := StaticRows(fedramp);
    DeadRowPlaces(fedramp);
    DeadRows();
    DeadLaterRows();
    assert "alertname" in rows[MOUNTPOINT_ROW].matchEq;
    assert RowMatches(re, rows[..MOUNTPOINT_ROW][ALMOST_OUT_OF_SPACE_ROW], alert);
  }

  // The rows with one.

  lemma MasterRows()
    ensures |HeadRows()| == 6
    ensures HeadRows()[1]
         == Row(ToCritical, map["alertname" := "MachineWithoutValidNode", "namespace" := "openshift-machine-api"],
                map["name" := MASTER])
    ensures HeadRows()[2]
         == Row(ToCritical, map["alertname" := "MachineWithNoRunningPhase", "namespace" := "openshift-machine-api"],
                map["name" := MASTER])
    ensures HeadRows()[0].matchEq == map["alertname" := "Watchdog", "severity" := "none"]
  {
  }

  lemma HeadPlaces(fedramp: bool)
    ensures |StaticRows(fedramp)| > 2
    ensures forall i :: 0 <= i <= 2 ==> StaticRows(fedramp)[i] == HeadRows()[i]
  {
    hide StaticRows, CommonRows, HeadRows;
    DeadRows();
    SectionPlaces(fedramp, 0);
    SectionPlaces(fedramp, 1);
    SectionPlaces(fedramp, 2);
  }

  lemma OtherName(re: Regexp, row: Row, alert: Alert)
    requires "alertname" in row.matchEq && Label(alert, "alertname") != row.matchEq["alertname"]
    ensures !RowMatches(re, row, alert)
  {
  }

  lemma MasterRowWitness(re: Regexp, row: Row, v: string) returns (alert: Alert)
    requires row.matchRE == map["name" := MASTER] && row.matchEq.Keys == {"alertname", "namespace"} && re(MASTER, v)
    ensures RowMatches(re, row, alert) && alert.Keys == {"alertname", "namespace", "name"}
    ensures Label(alert, "alertname") == row.matchEq["alertname"]
  {
    alert := row.matchEq["name" := v];
    assert "alertname" in row.matchEq.Keys && "alertname" in row.matchEq;
    forall k | k in row.matchEq
      ensures Label(alert, k) == row.matchEq[k]
    {
      assert k in row.matchEq.Keys;
    }
  }

  lemma MasterRowLive(re: Regexp, fedramp: bool, j: nat, v: string) returns (alert: Alert)
    requires j in {1, 2} && re(MASTER, v)
    ensures |StaticRows(fedramp)| > j
    ensures RowMatches(re, StaticRows(fedramp)[j], alert) && Unclaimed(re, StaticRows(fedramp)[..j], alert)
    ensures alert.Keys == {"alertname", "namespace", "name"}
  {
    hide StaticRows, HeadRows, RowMatches;
    var rows := StaticRows(fedramp);
    HeadPlaces(fedramp);
    MasterRows();
    alert := MasterRowWitness(re, rows[j], v);
    assert "alertname" in rows[0].matchEq && "alertname" in rows[1].matchEq;
    OtherName(re, rows[0], alert);
    if j == 2 {
      OtherName(re, rows[1], alert);
    }
    assert forall i :: 0 <= i < j ==> rows[..j][i] == rows[i];
  }

  lemma MasterRowTaken(re: Regexp, fedramp: bool, j: nat, alert: Alert)
    requires j in {1, 2} && j < |StaticRows(fedramp)| && RowMatches(re, StaticRows(fedramp)[j], alert)
    ensures re(MASTER, Label(alert, "name"))
  {
    hide StaticRows, HeadRows;
    HeadPlaces(fedramp);
    MasterRows();
    assert "name" in StaticRows(fedramp)[j].matchRE;
  }

  function NamedIn(name: string, namespace: string): Alert {
    map["alertname" := name, "namespace" := namespace]
  }

  /** What can take an alert of which only name and namespace are known. */
  lemma NamedMatch(re: Regexp, row: Row, name: string, namespace: string)
    requires Plain(row) && RowMatches(re, row, NamedIn(name, namespace)) && namespace !in SILENCED
    ensures row == SreRow() || (KeyLabel(row) == "alertname" && row.matchEq["alertname"] == name)
    ensures row.matchEq.Keys <= {"alertname", "namespace"}
  {
    var key := KeyLabel(row);
    OwnEqualities(re, row, NamedIn(name, namespace));
    assert "severity" in ValidationRow().matchEq;
  }

  lemma TargetDownLive(re: Regexp, fedramp: bool, v: string)
    requires re(REDHAT, v) && v !in SILENCED
    ensures |StaticRows(fedramp)| > TARGET_DOWN_ROW
    ensures RowMatches(re, StaticRows(fedramp)[TARGET_DOWN_ROW], NamedIn("TargetDown", v))
    ensures Unclaimed(re, StaticRows(fedramp)[..TARGET_DOWN_ROW], NamedIn("TargetDown", v))
  {
    hide StaticRows, RowMatches, Plain, Fingerprint;
    var rows, alert := StaticRows(fedramp), NamedIn("TargetDown", v);
    PatternRows(fedramp);
    TablePlain(fedramp);
    TargetDownMatches(re, v);
    forall i | 0 <= i < TARGET_DOWN_ROW
      ensures !RowMatches(re, rows[i], alert)
    {
      if RowMatches(re, rows[i], alert) {
        NamedMatch(re, rows[i], "TargetDown", v);
        if rows[i] == SreRow() {
          OnePrint(fedramp, i, SRE_ROW);
        } else {
          SameNameSamePrint(rows[i], rows[TARGET_DOWN_ROW]);
          OnePrint(fedramp, i, TARGET_DOWN_ROW);
        }
        assert false;
      }
    }
  }

  lemma SameNameSamePrint(a: Row, b: Row)
    requires "alertname" in a.matchEq && "alertname" in b.matchEq && a.matchEq["alertname"] == b.matchEq["alertname"]
    ensures Fingerprint(a) == Fingerprint(b)
  {
  }

  lemma TargetDownMatches(re: Regexp, v: string)
    ensures RowMatches(re, Row(ToNull, map["alertname" := "TargetDown"], map["namespace" := REDHAT]),
                       NamedIn("TargetDown", v))
       <==> re(REDHAT, v)
  {
    assert "namespace" in map["namespace" := REDHAT];
  }

  lemma TargetDownTaken(re: Regexp, fedramp: bool, alert: Alert)
    requires |StaticRows(fedramp)| > TARGET_DOWN_ROW && RowMatches(re, StaticRows(fedramp)[TARGET_DOWN_ROW], alert)
    requires Unclaimed(re, StaticRows(fedramp)[..TARGET_DOWN_ROW], alert)
    ensures re(REDHAT, Label(alert, "namespace")) && Label(alert, "namespace") !in SILENCED
  {
    hide StaticRows, SILENCED;
    var rows, own := StaticRows(fedramp), OwnRow(Label(alert, "namespace"));
    PatternRows(fedramp);
    assert "namespace" in rows[TARGET_DOWN_ROW].matchRE;
    EarlySilencing(fedramp, Label(alert, "namespace"));
    assert RowMatches(re, own, alert);
  }

  lemma EarlySilencing(fedramp: bool, v: string)
    ensures |StaticRows(fedramp)| > TARGET_DOWN_ROW
    ensures v in SILENCED ==> OwnRow(v) in StaticRows(fedramp)[..TARGET_DOWN_ROW]
  {
    hide StaticRows, CommonRows, NoisyNamespaceRows, SILENCED;
    SilencingRows(v);
    DeadRows();
    SectionPlaces(fedramp, 0);
    if v in SILENCED {
      var k :| 0 <= k < 11 && NoisyNamespaceRows()[..11][k] == OwnRow(v);
      SectionPlaces(fedramp, k);
      assert StaticRows(fedramp)[..TARGET_DOWN_ROW][14 + k] == OwnRow(v);
    }
  }

  lemma SreLive(re: Regexp, fedramp: bool, name: string)
    requires |StaticRows(fedramp)| > SRE_ROW && SreOpen(re, StaticRows(fedramp)[..SRE_ROW], name)
    ensures RowMatches(re, StaticRows(fedramp)[SRE_ROW], NamedIn(name, LOGGING))
    ensures Unclaimed(re, StaticRows(fedramp)[..SRE_ROW], NamedIn(name, LOGGING))
  {
    hide StaticRows, RowMatches, Plain, Fingerprint;
    var rows, alert := StaticRows(fedramp), NamedIn(name, LOGGING);
    PatternRows(fedramp);
    TablePlain(fedramp);
    SreTakes(re, alert);
    forall i | 0 <= i < SRE_ROW
      ensures !RowMatches(re, rows[i], alert)
    {
      if RowMatches(re, rows[i], alert) {
        NamedMatch(re, rows[i], name, LOGGING);
        if rows[i] == SreRow() {
          OnePrint(fedramp, i, SRE_ROW);
        } else {
          NamedOnly(re, rows[i], name);
          assert rows[..SRE_ROW][i] == rows[i];
          if i in {1, 2} {
            MasterRowNamespace(fedramp, i);
          } else if i == TARGET_DOWN_ROW {
            TargetDownMatches(re, LOGGING);
          } else {
            OtherRowsPlain(fedramp, i);
          }
        }
        assert false;
      }
    }
  }

  lemma MasterRowNamespace(fedramp: bool, i: nat)
    requires i in {1, 2}
    ensures |StaticRows(fedramp)| > i
    ensures "namespace" in StaticRows(fedramp)[i].matchEq && StaticRows(fedramp)[i].matchEq["namespace"] != LOGGING
  {
    hide StaticRows, HeadRows;
    HeadPlaces(fedramp);
    MasterRows();
  }

  /** Name and namespace are all it asks for. */
  lemma NamedOnly(re: Regexp, row: Row, name: string)
    requires Plain(row) && RowMatches(re, row, NamedIn(name, LOGGING)) && row.matchEq.Keys <= {"alertname", "namespace"}
    requires KeyLabel(row) == "alertname" && "alertname" in row.matchEq && row.matchEq["alertname"] == name
    ensures row.matchEq == map["alertname" := name] || row.matchEq == map["alertname" := name, "namespace" := LOGGING]
    ensures "namespace" in row.matchEq ==> row.matchEq["namespace"] == LOGGING
  {
    OwnEqualities(re, row, NamedIn(name, LOGGING));
    if "namespace" in row.matchEq {
      assert row.matchEq == map["alertname" := name, "namespace" := LOGGING];
    } else {
      assert row.matchEq == map["alertname" := name];
    }
  }

  lemma SreTaken(re: Regexp, fedramp: bool, alert: Alert)
    requires |StaticRows(fedramp)| > SRE_ROW && RowMatches(re, StaticRows(fedramp)[SRE_ROW], alert)
    requires Unclaimed(re, StaticRows(fedramp)[..SRE_ROW], alert)
    ensures SreOpen(re, StaticRows(fedramp)[..SRE_ROW], Label(alert, "alertname"))
  {
    hide StaticRows;
    var rows, name := StaticRows(fedramp), Label(alert, "alertname");
    PatternRows(fedramp);
    SreTakes(re, alert);
    var target := rows[TARGET_DOWN_ROW];
    assert rows[..SRE_ROW][TARGET_DOWN_ROW] == target;
    assert name == "TargetDown" && re(REDHAT, LOGGING) ==> RowMatches(re, target, alert);
    forall i | 0 <= i < SRE_ROW && Silences(rows[..SRE_ROW][i], name)
      ensures RowMatches(re, rows[..SRE_ROW][i], alert)
    {
    }
  }

  /** An alert that reaches a row that is open, and is not for OCM Agent or CAD unless the
      row is that of managed notifications. */
  lemma RowWitness(re: Regexp, fedramp: bool, j: nat) returns (alert: Alert)
    requires SRE_ROW < |StaticRows(fedramp)| && j < |StaticRows(fedramp)| && RowOpen(re, StaticRows(fedramp), j)
    ensures RowMatches(re, StaticRows(fedramp)[j], alert) && Unclaimed(re, StaticRows(fedramp)[..j], alert)
    ensures !IsForCad(alert) && (IsManaged(alert) ==> j == MANAGED_ROW)
  {
    hide StaticRows, RowMatches, Unclaimed, SreOpen, SILENCED, LeftToSre;
    if j in {1, 2} {
      var v :| re(MASTER, v);
      alert := MasterRowLive(re, fedramp, j, v);
    } else if j == TARGET_DOWN_ROW {
      var v :| re(REDHAT, v) && v !in SILENCED;
      TargetDownLive(re, fedramp, v);
      alert := NamedIn("TargetDown", v);
    } else if j == SRE_ROW {
      var name :| SreOpen(re, StaticRows(fedramp)[..SRE_ROW], name);
      SreLive(re, fedramp, name);
      alert := NamedIn(name, LOGGING);
    } else {
      EqualityRowWitness(re, fedramp, j);
      RowIsFree(fedramp, j);
      alert := StaticRows(fedramp)[j].matchEq;
    }
  }

  lemma RowIsFree(fedramp: bool, j: nat)
    requires j < |StaticRows(fedramp)|
    ensures !IsForCad(StaticRows(fedramp)[j].matchEq)
    ensures IsManaged(StaticRows(fedramp)[j].matchEq) <==> j == MANAGED_ROW
  {
    hide StaticRows, Fingerprint;
    var rows, row := StaticRows(fedramp), StaticRows(fedramp)[j];
    StaticRowsWellFormed(fedramp);
    TableRegular(fedramp);
    ManagedRow(fedramp);
    assert WellFormed(row) && Regular(row);
    assert "route_to_cad" !in LABELS;
    if IsManaged(row.matchEq) {
      assert KeyLabel(row) == "send_managed_notification" by {
        assert !SideMatcher("send_managed_notification", "true");
      }
      ManagedPrint(row, rows[MANAGED_ROW]);
      OnePrint(fedramp, j, MANAGED_ROW);
    }
  }

  lemma ManagedPrint(a: Row, b: Row)
    requires IsManaged(a.matchEq) && IsManaged(b.matchEq)
    requires KeyLabel(a) == KeyLabel(b) == "send_managed_notification"
    ensures Fingerprint(a) == Fingerprint(b)
  {
  }

  lemma ManagedRow(fedramp: bool)
    ensures |StaticRows(fedramp)| > MANAGED_ROW
    ensures StaticRows(fedramp)[MANAGED_ROW] == Row(ToNull, map["send_managed_notification" := "true"], map[])
  {
    hide StaticRows, CommonRows;
    SectionPlaces(fedramp, MANAGED_ROW);
  }

  lemma RowTaken(re: Regexp, fedramp: bool, j: nat, alert: Alert)
    requires SRE_ROW < |StaticRows(fedramp)| && j < |StaticRows(fedramp)|
    requires RowMatches(re, StaticRows(fedramp)[j], alert) && Unclaimed(re, StaticRows(fedramp)[..j], alert)
    ensures RowOpen(re, StaticRows(fedramp), j)
  {
    hide StaticRows, RowMatches, Unclaimed, SreOpen, SILENCED, LeftToSre;
    if j in {1, 2} {
      MasterRowTaken(re, fedramp, j, alert);
    } else if j == TARGET_DOWN_ROW {
      TargetDownTaken(re, fedramp, alert);
    } else if j == SRE_ROW {
      SreTaken(re, fedramp, alert);
    } else if j == MOUNTPOINT_ROW {
      MountpointNeverTakes(re, fedramp, alert);
    } else {
      EqualityRowTaken(re, fedramp, j, alert);
    }
  }

  /** Under any engine, some alert reaches a static row exactly when it is not the one of
      line 476, its pattern, if it has one, matches something left to it, and SRE's row
      does not take all its alerts before. */
  lemma RowLiveExactlyWhen(re: Regexp, kind: ReceiverType, namespaces: seq<string>, fedramp: bool, j: nat)
    requires SRE_ROW < |StaticRows(fedramp)| && j < |StaticRows(fedramp)|
    ensures Live(re, kind, namespaces, fedramp, j) <==> RowOpen(re, StaticRows(fedramp), j)
  {
    hide StaticRows, RowMatches, Unclaimed, RowOpen, Takes;
    var rows := StaticRows(fedramp);
    if alert :| Takes(re, rows, kind, namespaces, j, alert) {
      TakesRow(re, rows, kind, namespaces, j, alert);
      RowTaken(re, fedramp, j, alert);
    }
    if RowOpen(re, rows, j) {
      var alert := RowWitness(re, fedramp, j);
      TakesRow(re, rows, kind, namespaces, j, alert);
    }
  }

  // ---------- In the whole tree ----------

  /** The alert gets past the top-level routes to the `at`-th, the subtree, and in it to the
      `j`-th route. */
  ghost predicate TakenInTree(
      re: Regexp, inp: Inputs, fedramp: bool, kind: ReceiverType, at: nat, j: nat, alert: Alert)
  {
    && at < |RootRoutes(inp, fedramp)| && Reached(re, RootRoutes(inp, fedramp), at, alert)
    && Takes(re, StaticRows(fedramp), kind, inp.namespaces, j, alert)
  }

  function FrontRoutes(inp: Inputs): seq<Route> {
    When(inp.HasWatchdog(), [WatchdogRoute()])
    + (When(inp.HasOcmAgent(), [OcmAgentRoute()]) + When(inp.HasCad(), [CadRoute()]))
  }

  function BackRoutes(inp: Inputs, fedramp: bool): seq<Route> {
    When(inp.HasPagerduty(), [Subtree(Pagerduty, inp.namespaces, fedramp)])
    + (When(inp.HasGoalert(), [Subtree(GoAlert, inp.namespaces, fedramp)])
       + When(inp.HasHeartbeat(), [HeartbeatRoute()]))
  }

  lemma RootParts(inp: Inputs, fedramp: bool)
    ensures RootRoutes(inp, fedramp) == FrontRoutes(inp) + BackRoutes(inp, fedramp)
  {
    hide Subtree, Added, When, WatchdogRoute, OcmAgentRoute, CadRoute, HeartbeatRoute;
    var pd, ga := Subtree(Pagerduty, inp.namespaces, fedramp), Subtree(GoAlert, inp.namespaces, fedramp);
    NestedParts(inp.HasWatchdog(), [WatchdogRoute()], inp.HasOcmAgent(), [OcmAgentRoute()], inp.HasCad(), [CadRoute()],
                inp.HasPagerduty(), [pd], inp.HasGoalert(), [ga], inp.HasHeartbeat(), [HeartbeatRoute()]);
    InHalves(When(inp.HasWatchdog(), [WatchdogRoute()]), When(inp.HasOcmAgent(), [OcmAgentRoute()]),
             When(inp.HasCad(), [CadRoute()]), BackRoutes(inp, fedramp));
  }

  lemma InHalves(a: seq<Route>, b: seq<Route>, c: seq<Route>, back: seq<Route>)
    ensures a + (b + (c + back)) == (a + (b + c)) + back
  {
  }

  lemma BackContinues(inp: Inputs, fedramp: bool)
    ensures forall i :: 0 <= i < |BackRoutes(inp, fedramp)| ==> BackRoutes(inp, fedramp)[i].continues
  {
    hide StaticRows, NamespaceRoutes, SubtreeOver;
    SubtreeNode(StaticRows(fedramp), Pagerduty, inp.namespaces);
    SubtreeNode(StaticRows(fedramp), GoAlert, inp.namespaces);
  }

  lemma SubtreeNode(rows: seq<Row>, kind: ReceiverType, namespaces: seq<string>)
    ensures SubtreeOver(rows, kind, namespaces).continues && SubtreeOver(rows, kind, namespaces).receiver == NULL
    ensures SubtreeOver(rows, kind, namespaces).matchEq == map[] == SubtreeOver(rows, kind, namespaces).matchRE
  {
  }

  /** The alert gets past the front exactly when neither OCM Agent nor CAD takes it. */
  lemma PastFront(re: Regexp, inp: Inputs, alert: Alert)
    ensures (forall i :: 0 <= i < |FrontRoutes(inp)| && Matches(re, FrontRoutes(inp)[i], alert)
              ==> FrontRoutes(inp)[i].continues)
       <==> !TakenByOcm(inp, alert) && !TakenByCad(inp, alert)
    ensures forall i :: 0 <= i < |FrontRoutes(inp)| ==> FrontRoutes(inp)[i].receiver != NULL
  {
    var front := FrontRoutes(inp);
    OneLabel(re, "send_managed_notification", "true", alert);
    OneLabel(re, "route_to_cad", "true", alert);
    if inp.HasOcmAgent() {
      assert front[if inp.HasWatchdog() then 1 else 0] == OcmAgentRoute();
    }
    if inp.HasCad() {
      assert front[|front| - 1] == CadRoute();
    }
  }

  lemma ReachesSubtree(re: Regexp, inp: Inputs, fedramp: bool, kind: ReceiverType, at: nat, alert: Alert)
    requires at < |RootRoutes(inp, fedramp)| && RootRoutes(inp, fedramp)[at] == Subtree(kind, inp.namespaces, fedramp)
    ensures Reached(re, RootRoutes(inp, fedramp), at, alert)
       <==> !TakenByOcm(inp, alert) && !TakenByCad(inp, alert)
  {
    hide StaticRows, SubtreeOver, FrontRoutes, BackRoutes, RootRoutes, TakenByOcm, TakenByCad;
    var routes, front := RootRoutes(inp, fedramp), FrontRoutes(inp);
    RootParts(inp, fedramp);
    BackContinues(inp, fedramp);
    SubtreeNode(StaticRows(fedramp), kind, inp.namespaces);
    PastFront(re, inp, alert);
    assert Matches(re, routes[at], alert) && routes[at].receiver == NULL;
    assert forall i :: 0 <= i < |front| ==> routes[i] == front[i];
    assert at >= |front|;
    assert forall i :: |front| <= i < at ==> routes[i] == BackRoutes(inp, fedramp)[i - |front|];
  }

  /** A free alert reaches whatever route of a namespace any alert reaches. */
  lemma NamespaceWitness(re: Regexp, kind: ReceiverType, namespaces: seq<string>, fedramp: bool, j: nat, alert: Alert)
    returns (other: Alert)
    requires !re(SRE, "") && j >= |StaticRows(fedramp)|
    requires Takes(re, StaticRows(fedramp), kind, namespaces, j, alert)
    ensures Takes(re, StaticRows(fedramp), kind, namespaces, j, other) && Free(other)
  {
    hide StaticRows, SubtreeOver, First, GoAlertOpen, SILENCED, SILENCED_EXPORTED, NoneEmpty;
    var w, t := Width(kind), j - |StaticRows(fedramp)|;
    var m, b := t / w, t % w;
    SubtreeLength(StaticRows(fedramp), kind, namespaces);
    RouteBehind(StaticRows(fedramp), kind, namespaces, t);
    assert PlaceIn(kind, |StaticRows(fedramp)|, m, b) == j;
    if kind == GoAlert {
      GoAlertTaken(re, namespaces, fedramp, m, b, alert);
      other := GoAlertWitness(re, namespaces, fedramp, m, b, Label(alert, "namespace"));
    } else if b == 0 {
      ExportedTaken(re, namespaces, fedramp, m, alert);
      other := ExportedWitness(re, namespaces, fedramp, m, Label(alert, "exported_namespace"));
    } else {
      OwnTaken(re, namespaces, fedramp, m, alert);
      other := OwnWitness(re, namespaces, fedramp, m, Label(alert, "namespace"));
    }
  }

  /** In the whole tree a route of a subtree is reached by some alert exactly when it is in
      the subtree alone, but for the one that silences managed notifications: with OCM
      Agent configured none get there. */
  lemma LiveInTreeExactlyWhen(re: Regexp, inp: Inputs, fedramp: bool, kind: ReceiverType, at: nat, j: nat)
    requires at < |RootRoutes(inp, fedramp)| && RootRoutes(inp, fedramp)[at] == Subtree(kind, inp.namespaces, fedramp)
    requires !re(SRE, "")
    ensures (exists alert :: TakenInTree(re, inp, fedramp, kind, at, j, alert))
       <==> Live(re, kind, inp.namespaces, fedramp, j) && !(j == MANAGED_ROW && inp.HasOcmAgent())
  {
    hide StaticRows, SubtreeOver, RootRoutes, Takes, RowOpen, RowMatches, Unclaimed, Reached;
    var rows := StaticRows(fedramp);
    PatternRows(fedramp);
    if alert :| TakenInTree(re, inp, fedramp, kind, at, j, alert) {
      ReachesSubtree(re, inp, fedramp, kind, at, alert);
      if j == MANAGED_ROW {
        TakesRow(re, rows, kind, inp.namespaces, j, alert);
        ManagedAlerts(re, fedramp, alert);
      }
    }
    if alert :| Takes(re, rows, kind, inp.namespaces, j, alert) && !(j == MANAGED_ROW && inp.HasOcmAgent()) {
      var other := TreeWitness(re, inp, fedramp, kind, j, alert);
      ReachesSubtree(re, inp, fedramp, kind, at, other);
      assert TakenInTree(re, inp, fedramp, kind, at, j, other);
    }
  }

  lemma TreeWitness(re: Regexp, inp: Inputs, fedramp: bool, kind: ReceiverType, j: nat, alert: Alert)
    returns (other: Alert)
    requires !re(SRE, "") && Takes(re, StaticRows(fedramp), kind, inp.namespaces, j, alert)
    requires !(j == MANAGED_ROW && inp.HasOcmAgent())
    ensures Takes(re, StaticRows(fedramp), kind, inp.namespaces, j, other)
    ensures !TakenByOcm(inp, other) && !TakenByCad(inp, other)
  {
    hide StaticRows, SubtreeOver, Takes, RowOpen, RowMatches, Unclaimed;
    PatternRows(fedramp);
    if j < |StaticRows(fedramp)| {
      TakesRow(re, StaticRows(fedramp), kind, inp.namespaces, j, alert);
      RowTaken(re, fedramp, j, alert);
      other := RowWitness(re, fedramp, j);
      TakesRow(re, StaticRows(fedramp), kind, inp.namespaces, j, other);
    } else {
      other := NamespaceWitness(re, kind, inp.namespaces, fedramp, j, alert);
    }
  }

  lemma ManagedAlerts(re: Regexp, fedramp: bool, alert: Alert)
    requires |StaticRows(fedramp)| > MANAGED_ROW && RowMatches(re, StaticRows(fedramp)[MANAGED_ROW], alert)
    ensures IsManaged(alert)
  {
    hide StaticRows;
    ManagedRow(fedramp);
    assert "send_managed_notification" in StaticRows(fedramp)[MANAGED_ROW].matchEq;
  }
}
