/** The compiled configuration is closed: it defines exactly the receivers its tree
    references, so only what callers supply can make it invalid. */
module Closure {
  import opened Wrappers
  import opened AlertmanagerTypes
  import opened Routing
  import opened RouteTable
  import opened Subroutes
  import opened Compiler
  import opened Validation
  import opened Alternations
  import Inhibition

  // ---------- Receivers a subtree references ----------

  function KindNames(kind: ReceiverType): set<string> {
    {ReceiverFor(kind, ToNull), ReceiverFor(kind, ToCommon), ReceiverFor(kind, ToCritical),
     ReceiverFor(kind, ToError), ReceiverFor(kind, ToWarning)}
  }

  lemma {:induction false} RowsReference(kind: ReceiverType, rows: seq<Row>)
    ensures ReferencedAll(RoutesOf(kind, rows)) <= KindNames(kind)
    ensures forall i :: 0 <= i < |rows| ==> ReceiverFor(kind, rows[i].dest) in ReferencedAll(RoutesOf(kind, rows))
  {
    if rows != [] {
      var routes := RoutesOf(kind, rows);
      assert routes[1..] == RoutesOf(kind, rows[1..]);
      assert ReferencedAll(routes[0].routes) == {};
      RowsReference(kind, rows[1..]);
      assert forall i :: 1 <= i < |rows| ==> rows[i] == rows[1..][i - 1];
    }
  }

  lemma {:induction false} LeavesWithin(routes: seq<Route>, names: set<string>)
    requires forall i :: 0 <= i < |routes| ==> routes[i].routes == [] && routes[i].receiver in names
    ensures ReferencedAll(routes) <= names
  {
    if routes != [] {
      assert ReferencedAll(routes[0].routes) == {};
      LeavesWithin(routes[1..], names);
    }
  }

  lemma PatternReferences(kind: ReceiverType, namespace: string)
    ensures ReferencedAll(RoutesForNamespace(kind, namespace)) <= KindNames(kind)
  {
    LeavesWithin(RoutesForNamespace(kind, namespace), KindNames(kind));
  }

  lemma {:induction false} NamespacesReference(kind: ReceiverType, namespaces: seq<string>)
    ensures ReferencedAll(NamespaceRoutes(kind, namespaces)) <= KindNames(kind)
  {
    if namespaces != [] {
      var front, last := namespaces[..|namespaces| - 1], namespaces[|namespaces| - 1];
      NamespacesReference(kind, front);
      PatternReferences(kind, last);
      ReferencedAppend(NamespaceRoutes(kind, front), RoutesForNamespace(kind, last));
    }
  }

  /** Every destination occurs in the static table, so even an empty namespace list
      references all five receivers. */
  lemma EveryDestinationOccurs(fedramp: bool, dest: Destination) returns (i: nat)
    ensures i < |StaticRows(fedramp)| && StaticRows(fedramp)[i].dest == dest
  {
    var rows := CommonRows();
    var offset := |rows| - |TailRows()|;
    match dest {
      case ToNull => i := 0;
      case ToCritical => i := 1;
      case ToWarning => i := offset; assert rows[i] == TailRows()[0];
      case ToError => i := offset + 5; assert rows[i] == TailRows()[5];
      case ToCommon => i := offset + 6; assert rows[i] == TailRows()[6];
    }
    assert StaticRows(fedramp)[i] == rows[i];
  }

  lemma SubtreeReferences(kind: ReceiverType, namespaces: seq<string>, fedramp: bool)
    ensures Referenced(Subtree(kind, namespaces, fedramp)) == KindNames(kind)
  {
    hide StaticRows, NamespaceRoutes;
    var rows := StaticRows(fedramp);
    RowsReference(kind, rows);
    NamespacesReference(kind, namespaces);
    ReferencedAppend(RoutesOf(kind, rows), NamespaceRoutes(kind, namespaces));
    forall dest: Destination
      ensures ReceiverFor(kind, dest) in ReferencedAll(RoutesOf(kind, rows))
    {
      var i := EveryDestinationOccurs(fedramp, dest);
    }
  }

  // ---------- Names defined ----------

  function NamesWhen(condition: bool, names: set<string>): set<string> {
    if condition then names else {}
  }

  /** The receivers that the given inputs call for. */
  function ConfiguredNames(inp: Inputs): set<string> {
    NamesWhen(inp.HasWatchdog(), {WATCHDOG}) + NamesWhen(inp.HasOcmAgent(), {OCM_AGENT})
    + NamesWhen(inp.HasCad(), {CAD_PAGERDUTY})
    + NamesWhen(inp.HasPagerduty(), {PAGERDUTY, MAKE_IT_WARNING, MAKE_IT_ERROR, MAKE_IT_CRITICAL})
    + NamesWhen(inp.HasGoalert(), {GOALERT_LOW, GOALERT_HIGH}) + NamesWhen(inp.HasHeartbeat(), {GOALERT_HEARTBEAT})
    + {NULL}
  }

  lemma AddedNames(receivers: seq<Receiver>, condition: bool, more: seq<Receiver>)
    requires NoRepeats(ReceiverNames(receivers))
    requires condition ==> NoRepeats(ReceiverNames(more)) && NameSet(receivers) !! NameSet(more)
    ensures
      var all := Added(receivers, condition, more);
      && NoRepeats(ReceiverNames(all))
      && NameSet(all) == NameSet(receivers) + NamesWhen(condition, NameSet(more))
  {
    if condition {
      NameSetAppend(receivers, more);
      var names, added := ReceiverNames(receivers), ReceiverNames(more);
      assert ReceiverNames(receivers + more) == names + added;
      forall i, j | 0 <= i < |names| && 0 <= j < |added|
        ensures names[i] != added[j]
      {
        assert receivers[i].name in NameSet(receivers) && more[j].name in NameSet(more);
      }
    }
  }

  lemma OneName(receiver: Receiver)
    ensures NoRepeats(ReceiverNames([receiver])) && NameSet([receiver]) == {receiver.name}
  {
    assert [receiver][0].name in NameSet([receiver]);
  }

  lemma FourNames(a: Receiver, b: Receiver, c: Receiver, d: Receiver)
    requires NoRepeats([a.name, b.name, c.name, d.name])
    ensures NoRepeats(ReceiverNames([a, b, c, d])) && NameSet([a, b, c, d]) == {a.name, b.name, c.name, d.name}
  {
    var all := [a, b, c, d];
    assert ReceiverNames(all) == [a.name, b.name, c.name, d.name];
    assert all[0].name in NameSet(all) && all[1].name in NameSet(all);
    assert all[2].name in NameSet(all) && all[3].name in NameSet(all);
  }

  lemma PagingNames(inp: Inputs, fedramp: bool)
    ensures inp.HasPagerduty() ==>
      && NoRepeats(ReceiverNames(PagerdutyReceivers(inp, fedramp)))
      && NameSet(PagerdutyReceivers(inp, fedramp)) == {PAGERDUTY, MAKE_IT_WARNING, MAKE_IT_ERROR, MAKE_IT_CRITICAL}
    ensures inp.HasGoalert() ==>
      && NoRepeats(ReceiverNames(GoalertReceivers(inp)))
      && NameSet(GoalertReceivers(inp)) == {GOALERT_LOW, GOALERT_HIGH}
  {
    if inp.HasPagerduty() {
      var all := PagerdutyReceivers(inp, fedramp);
      FourNames(all[0], all[1], all[2], all[3]);
    }
    if inp.HasGoalert() {
      var low := WebhookReceiver(GOALERT_LOW, inp.goalertLow, HttpFor(inp.clusterProxy));
      var high := WebhookReceiver(GOALERT_HIGH, inp.goalertHigh, HttpFor(inp.clusterProxy));
      OneName(low[0]);
      OneName(high[0]);
      AddedNames(low, true, high);
    }
  }

  lemma SingleNames(inp: Inputs, fedramp: bool)
    ensures
      var http := HttpFor(inp.clusterProxy);
      && (inp.HasWatchdog() ==> IsOne(WebhookReceiver(WATCHDOG, inp.watchdogURL, http), WATCHDOG))
      && (inp.HasOcmAgent() ==> IsOne(WebhookReceiver(OCM_AGENT, inp.ocmAgentURL, HttpConfig("")), OCM_AGENT))
      && (inp.HasCad() ==> IsOne(CadReceivers(inp, fedramp), CAD_PAGERDUTY))
      && (inp.HasHeartbeat() ==> IsOne(WebhookReceiver(GOALERT_HEARTBEAT, inp.goalertHeartbeat, http),
                                       GOALERT_HEARTBEAT))
      && IsOne([Receiver(NULL, [], [])], NULL)
  {
    var http := HttpFor(inp.clusterProxy);
    if inp.HasWatchdog() { OneName(WebhookReceiver(WATCHDOG, inp.watchdogURL, http)[0]); }
    if inp.HasOcmAgent() { OneName(WebhookReceiver(OCM_AGENT, inp.ocmAgentURL, HttpConfig(""))[0]); }
    if inp.HasCad() { OneName(CadReceivers(inp, fedramp)[0]); }
    if inp.HasHeartbeat() { OneName(WebhookReceiver(GOALERT_HEARTBEAT, inp.goalertHeartbeat, http)[0]); }
    OneName(Receiver(NULL, [], []));
  }

  ghost predicate IsOne(receivers: seq<Receiver>, name: string) {
    NoRepeats(ReceiverNames(receivers)) && NameSet(receivers) == {name}
  }

  /** The receivers that do not page by namespace. */
  lemma FrontNames(inp: Inputs, fedramp: bool) returns (front: seq<Receiver>)
    ensures front == Added(Added(Added([], inp.HasWatchdog(),
                                             WebhookReceiver(WATCHDOG, inp.watchdogURL, HttpFor(inp.clusterProxy))),
                                 inp.HasOcmAgent(), WebhookReceiver(OCM_AGENT, inp.ocmAgentURL, HttpConfig(""))),
                           inp.HasCad(), CadReceivers(inp, fedramp))
    ensures NoRepeats(ReceiverNames(front))
    ensures NameSet(front) == NamesWhen(inp.HasWatchdog(), {WATCHDOG}) + NamesWhen(inp.HasOcmAgent(), {OCM_AGENT})
                              + NamesWhen(inp.HasCad(), {CAD_PAGERDUTY})
  {
    hide CadReceivers, WebhookReceiver, NameSet, NoRepeats, Added, ReceiverNames;
    SingleNames(inp, fedramp);
    NothingNamed();
    front := [];
    AddedNames(front, inp.HasWatchdog(), WebhookReceiver(WATCHDOG, inp.watchdogURL, HttpFor(inp.clusterProxy)));
    front := Added(front, inp.HasWatchdog(), WebhookReceiver(WATCHDOG, inp.watchdogURL, HttpFor(inp.clusterProxy)));
    AddedNames(front, inp.HasOcmAgent(), WebhookReceiver(OCM_AGENT, inp.ocmAgentURL, HttpConfig("")));
    front := Added(front, inp.HasOcmAgent(), WebhookReceiver(OCM_AGENT, inp.ocmAgentURL, HttpConfig("")));
    AddedNames(front, inp.HasCad(), CadReceivers(inp, fedramp));
    front := Added(front, inp.HasCad(), CadReceivers(inp, fedramp));
  }

  /** Those and the paging ones. */
  lemma PagedNames(inp: Inputs, fedramp: bool, front: seq<Receiver>) returns (all: seq<Receiver>)
    requires NoRepeats(ReceiverNames(front)) && NameSet(front) <= {WATCHDOG, OCM_AGENT, CAD_PAGERDUTY}
    ensures all == Added(Added(front, inp.HasPagerduty(), PagerdutyReceivers(inp, fedramp)), inp.HasGoalert(),
                         GoalertReceivers(inp))
    ensures NoRepeats(ReceiverNames(all))
    ensures NameSet(all) == NameSet(front)
              + NamesWhen(inp.HasPagerduty(), {PAGERDUTY, MAKE_IT_WARNING, MAKE_IT_ERROR, MAKE_IT_CRITICAL})
              + NamesWhen(inp.HasGoalert(), {GOALERT_LOW, GOALERT_HIGH})
  {
    hide PagerdutyReceivers, GoalertReceivers, NameSet, NoRepeats, Added, ReceiverNames;
    PagingNames(inp, fedramp);
    AddedNames(front, inp.HasPagerduty(), PagerdutyReceivers(inp, fedramp));
    all := Added(front, inp.HasPagerduty(), PagerdutyReceivers(inp, fedramp));
    AddedNames(all, inp.HasGoalert(), GoalertReceivers(inp));
    all := Added(all, inp.HasGoalert(), GoalertReceivers(inp));
  }

  lemma NamesDefined(inp: Inputs, fedramp: bool)
    ensures NoRepeats(ReceiverNames(ReceiverList(inp, fedramp)))
    ensures NameSet(ReceiverList(inp, fedramp)) == ConfiguredNames(inp)
  {
    hide PagerdutyReceivers, GoalertReceivers, CadReceivers, WebhookReceiver, NameSet, NoRepeats, Added, ReceiverNames;
    var front := FrontNames(inp, fedramp);
    var paged := PagedNames(inp, fedramp, front);
    var heartbeat := WebhookReceiver(GOALERT_HEARTBEAT, inp.goalertHeartbeat, HttpFor(inp.clusterProxy));
    SingleNames(inp, fedramp);
    AddedNames(paged, inp.HasHeartbeat(), heartbeat);
    var all := Added(paged, inp.HasHeartbeat(), heartbeat);
    AddedNames(all, true, [Receiver(NULL, [], [])]);
    AlwaysAdded(all, [Receiver(NULL, [], [])]);
  }

  lemma NothingNamed()
    ensures NameSet([]) == {} && NoRepeats(ReceiverNames([]))
  {
  }

  lemma AlwaysAdded(receivers: seq<Receiver>, more: seq<Receiver>)
    ensures Added(receivers, true, more) == receivers + more
  {
  }

  // ---------- Names referenced by the whole tree ----------

  lemma ReferencedWhen(present: bool, route: Route, rest: seq<Route>)
    ensures ReferencedAll(When(present, [route]) + rest)
         == NamesWhen(present, Referenced(route)) + ReferencedAll(rest)
  {
    ReferencedAppend(When(present, [route]), rest);
    assert [route][1..] == [] && ReferencedAll([]) == {};
  }

  /** The tree's receivers, route by route. */
  lemma TreeReferences(inp: Inputs, fedramp: bool)
    ensures ReferencedAll(RootRoutes(inp, fedramp))
         == NamesWhen(inp.HasWatchdog(), {WATCHDOG}) + (NamesWhen(inp.HasOcmAgent(), {OCM_AGENT})
            + (NamesWhen(inp.HasCad(), {CAD_PAGERDUTY}) + (NamesWhen(inp.HasPagerduty(), KindNames(Pagerduty))
            + (NamesWhen(inp.HasGoalert(), KindNames(GoAlert))
               + (NamesWhen(inp.HasHeartbeat(), {GOALERT_HEARTBEAT}) + {})))))
  {
    hide Subtree, Referenced, ReferencedAll, NamesWhen, Added, When, KindNames;
    hide WatchdogRoute, OcmAgentRoute, CadRoute, HeartbeatRoute;
    var pd, ga := Subtree(Pagerduty, inp.namespaces, fedramp), Subtree(GoAlert, inp.namespaces, fedramp);
    NestedParts(inp.HasWatchdog(), [WatchdogRoute()], inp.HasOcmAgent(), [OcmAgentRoute()], inp.HasCad(), [CadRoute()],
                inp.HasPagerduty(), [pd], inp.HasGoalert(), [ga], inp.HasHeartbeat(), [HeartbeatRoute()]);
    var h := When(inp.HasHeartbeat(), [HeartbeatRoute()]);
    var g := When(inp.HasGoalert(), [ga]) + h;
    var p := When(inp.HasPagerduty(), [pd]) + g;
    var c := When(inp.HasCad(), [CadRoute()]) + p;
    var o := When(inp.HasOcmAgent(), [OcmAgentRoute()]) + c;
    ReferencedWhen(inp.HasWatchdog(), WatchdogRoute(), o);
    ReferencedWhen(inp.HasOcmAgent(), OcmAgentRoute(), c);
    ReferencedWhen(inp.HasCad(), CadRoute(), p);
    ReferencedWhen(inp.HasPagerduty(), pd, g);
    ReferencedWhen(inp.HasGoalert(), ga, h);
    ReferencedWhen(inp.HasHeartbeat(), HeartbeatRoute(), []);
    assert h + [] == h;
    SubtreeReferences(Pagerduty, inp.namespaces, fedramp);
    SubtreeReferences(GoAlert, inp.namespaces, fedramp);
    LeavesReference();
  }

  lemma NamesReferenced(inp: Inputs, fedramp: bool)
    ensures Referenced(RootRoute(RootRoutes(inp, fedramp))) == ConfiguredNames(inp)
  {
    hide ReferencedAll, RootRoutes;
    TreeReferences(inp, fedramp);
  }

  lemma LeavesReference()
    ensures Referenced(WatchdogRoute()) == {WATCHDOG} && Referenced(OcmAgentRoute()) == {OCM_AGENT}
    ensures Referenced(CadRoute()) == {CAD_PAGERDUTY} && Referenced(HeartbeatRoute()) == {GOALERT_HEARTBEAT}
    ensures ReferencedAll([]) == {}
  {
  }

  /** Receiver names are distinct, and are exactly the names the tree references. */
  lemma ConfigClosed(inp: Inputs, fedramp: bool)
    ensures
      var cfg := Compiled(inp, fedramp);
      && NoRepeats(ReceiverNames(cfg.receivers))
      && Referenced(cfg.route.value) == NameSet(cfg.receivers) == ConfiguredNames(inp)
  {
    hide RootRoutes, ReceiverList, Inhibition.InhibitRules, ConfiguredNames;
    NamesDefined(inp, fedramp);
    NamesReferenced(inp, fedramp);
  }

  // ---------- Only supplied URLs and patterns can be rejected ----------

  /** The checks accept the constants the compiler itself puts in. */
  ghost predicate ConstantsPass(checks: Checks) {
    && (forall p :: p in PATTERNS ==> checks.pattern(p))
    && (forall words: seq<string> | words != [] && AllPlain(words) :: checks.pattern(Alternation(words)))
    && checks.url(DEFAULT_PAGERDUTY_URL)
    && (forall d :: d in {"30s", "5m", "10m", "12h"} ==> checks.duration(d))
  }

  predicate PatternsPass(checks: Checks, namespaces: seq<string>) {
    forall n :: n in namespaces ==> checks.pattern(n)
  }

  lemma LabelsAreValid()
    ensures forall l :: l in LABELS ==> ValidLabelName(l)
  {
    LabelsAreValid1();
    LabelsAreValid2();
  }

  lemma LabelsAreValid1()
    ensures ValidLabelName("alertname") && ValidLabelName("cluster") && ValidLabelName("exported_namespace")
    ensures ValidLabelName("job") && ValidLabelName("mountpoint") && ValidLabelName("name")
  {
  }

  lemma LabelsAreValid2()
    ensures ValidLabelName("namespace") && ValidLabelName("prometheus") && ValidLabelName("reason")
    ensures ValidLabelName("send_managed_notification") && ValidLabelName("severity")
  {
  }

  lemma OtherLabelsAreValid()
    ensures ValidLabelName("route_to_cad") && ValidLabelName("node") && ValidLabelName("instance")
    ensures ValidLabelName("dummylabel")
  {
  }

  lemma RowsValid(checks: Checks, names: set<string>, kind: ReceiverType, rows: seq<Row>)
    requires ConstantsPass(checks) && AllWellFormed(rows) && KindNames(kind) <= names
    ensures ValidTrees(checks, names, RoutesOf(kind, rows))
  {
    LabelsAreValid();
    var routes := RoutesOf(kind, rows);
    forall i | 0 <= i < |routes|
      ensures ValidNode(checks, names, routes[i])
    {
      assert WellFormed(rows[i]);
    }
    ValidLeaves(checks, names, routes);
  }

  lemma PatternValid(checks: Checks, names: set<string>, kind: ReceiverType, namespace: string)
    requires KindNames(kind) <= names
    ensures ValidTrees(checks, names, RoutesForNamespace(kind, namespace)) <==> checks.pattern(namespace)
  {
    LabelsAreValid();
    var routes := RoutesForNamespace(kind, namespace);
    assert "namespace" in LABELS && "exported_namespace" in LABELS && "prometheus" in LABELS && "severity" in LABELS;
    forall i | 0 <= i < |routes|
      ensures ValidNode(checks, names, routes[i]) <==> checks.pattern(namespace)
    {
      assert "namespace" in routes[i].matchRE || "exported_namespace" in routes[i].matchRE;
    }
    ValidLeaves(checks, names, routes);
  }

  lemma {:induction false} NamespacesValid(checks: Checks, names: set<string>, kind: ReceiverType,
                                           namespaces: seq<string>)
    requires KindNames(kind) <= names
    ensures ValidTrees(checks, names, NamespaceRoutes(kind, namespaces)) <==> PatternsPass(checks, namespaces)
  {
    if namespaces != [] {
      var front, last := namespaces[..|namespaces| - 1], namespaces[|namespaces| - 1];
      NamespacesValid(checks, names, kind, front);
      PatternValid(checks, names, kind, last);
      ValidTreesAppend(checks, names, NamespaceRoutes(kind, front), RoutesForNamespace(kind, last));
      assert namespaces == front + [last];
    }
  }

  lemma SubtreeValid(checks: Checks, names: set<string>, kind: ReceiverType, namespaces: seq<string>, fedramp: bool)
    requires ConstantsPass(checks) && KindNames(kind) <= names
    ensures ValidTree(checks, names, Subtree(kind, namespaces, fedramp)) <==> PatternsPass(checks, namespaces)
  {
    hide StaticRows, NamespaceRoutes, ValidTrees, ConstantsPass;
    StaticRowsWellFormed(fedramp);
    RowsValid(checks, names, kind, StaticRows(fedramp));
    NamespacesValid(checks, names, kind, namespaces);
    ValidTreesAppend(checks, names, RoutesOf(kind, StaticRows(fedramp)), NamespaceRoutes(kind, namespaces));
    LabelsAreValid();
    assert "alertname" in LABELS && "severity" in LABELS;
  }

  lemma ValidWhen(checks: Checks, names: set<string>, present: bool, route: Route, rest: seq<Route>)
    ensures ValidTrees(checks, names, When(present, [route]) + rest)
       <==> (present ==> ValidTree(checks, names, route)) && ValidTrees(checks, names, rest)
  {
    ValidTreesAppend(checks, names, When(present, [route]), rest);
    assert [route][1..] == [] && ValidTrees(checks, names, []);
  }

  lemma PlainRoutesValid(checks: Checks, names: set<string>)
    requires ConstantsPass(checks)
    ensures WATCHDOG in names ==> ValidTree(checks, names, WatchdogRoute())
    ensures GOALERT_HEARTBEAT in names ==> ValidTree(checks, names, HeartbeatRoute())
    ensures OCM_AGENT in names ==> ValidTree(checks, names, OcmAgentRoute())
    ensures CAD_PAGERDUTY in names ==> ValidTree(checks, names, CadRoute())
  {
    LabelsAreValid();
    OtherLabelsAreValid();
    assert "alertname" in LABELS && "send_managed_notification" in LABELS;
    assert ValidTrees(checks, names, []);
  }

  lemma RootValid(checks: Checks, inp: Inputs, fedramp: bool)
    requires ConstantsPass(checks)
    ensures ValidTree(checks, ConfiguredNames(inp), RootRoute(RootRoutes(inp, fedramp)))
       <==> (inp.HasPagerduty() || inp.HasGoalert() ==> PatternsPass(checks, inp.namespaces))
  {
    hide Subtree, ValidTrees, ValidNode, Added, When, ConstantsPass, PatternsPass, ConfiguredNames, KindNames;
    hide WatchdogRoute, OcmAgentRoute, CadRoute, HeartbeatRoute;
    var names := ConfiguredNames(inp);
    var pd, ga := Subtree(Pagerduty, inp.namespaces, fedramp), Subtree(GoAlert, inp.namespaces, fedramp);
    NestedParts(inp.HasWatchdog(), [WatchdogRoute()], inp.HasOcmAgent(), [OcmAgentRoute()], inp.HasCad(), [CadRoute()],
                inp.HasPagerduty(), [pd], inp.HasGoalert(), [ga], inp.HasHeartbeat(), [HeartbeatRoute()]);
    var h := When(inp.HasHeartbeat(), [HeartbeatRoute()]);
    var g := When(inp.HasGoalert(), [ga]) + h;
    var p := When(inp.HasPagerduty(), [pd]) + g;
    var c := When(inp.HasCad(), [CadRoute()]) + p;
    var o := When(inp.HasOcmAgent(), [OcmAgentRoute()]) + c;
    ValidWhen(checks, names, inp.HasWatchdog(), WatchdogRoute(), o);
    ValidWhen(checks, names, inp.HasOcmAgent(), OcmAgentRoute(), c);
    ValidWhen(checks, names, inp.HasCad(), CadRoute(), p);
    ValidWhen(checks, names, inp.HasPagerduty(), pd, g);
    ValidWhen(checks, names, inp.HasGoalert(), ga, h);
    ValidWhen(checks, names, inp.HasHeartbeat(), HeartbeatRoute(), []);
    assert h + [] == h;
    NoTrees(checks, names);
    PlainRoutesValid(checks, names);
    NamesContain(inp);
    if inp.HasPagerduty() {
      SubtreeValid(checks, names, Pagerduty, inp.namespaces, fedramp);
    }
    if inp.HasGoalert() {
      SubtreeValid(checks, names, GoAlert, inp.namespaces, fedramp);
    }
    RootNodeValid(checks, names, RootRoutes(inp, fedramp));
  }

  lemma NamesContain(inp: Inputs)
    ensures
      var names := ConfiguredNames(inp);
      && NULL in names
      && (inp.HasWatchdog() ==> WATCHDOG in names) && (inp.HasOcmAgent() ==> OCM_AGENT in names)
      && (inp.HasCad() ==> CAD_PAGERDUTY in names) && (inp.HasHeartbeat() ==> GOALERT_HEARTBEAT in names)
      && (inp.HasPagerduty() ==> KindNames(Pagerduty) <= names) && (inp.HasGoalert() ==> KindNames(GoAlert) <= names)
  {
  }

  lemma NoTrees(checks: Checks, names: set<string>)
    ensures ValidTrees(checks, names, [])
  {
  }

  lemma RootNodeValid(checks: Checks, names: set<string>, routes: seq<Route>)
    requires ConstantsPass(checks) && NULL in names
    ensures ValidNode(checks, names, RootRoute(routes))
  {
    LabelsAreValid();
    assert "job" in LABELS;
  }

  predicate UsesProxy(inp: Inputs) {
    inp.HasWatchdog() || inp.HasCad() || inp.HasPagerduty() || inp.HasGoalert() || inp.HasHeartbeat()
  }

  /** The URLs that callers supply. */
  predicate URLsPass(checks: Checks, inp: Inputs) {
    && (inp.HasWatchdog() ==> checks.url(inp.watchdogURL))
    && (inp.HasOcmAgent() ==> checks.url(inp.ocmAgentURL))
    && (inp.HasGoalert() ==> checks.url(inp.goalertLow) && checks.url(inp.goalertHigh))
    && (inp.HasHeartbeat() ==> checks.url(inp.goalertHeartbeat))
    && (UsesProxy(inp) ==> OptionalOk(checks.url, inp.clusterProxy))
  }

  lemma ValidReceiversAppend(checks: Checks, xs: seq<Receiver>, ys: seq<Receiver>)
    ensures ValidReceivers(checks, xs + ys) <==> ValidReceivers(checks, xs) && ValidReceivers(checks, ys)
  {
    assert forall i :: 0 <= i < |xs| ==> (xs + ys)[i] == xs[i];
    assert forall i :: 0 <= i < |ys| ==> (xs + ys)[|xs| + i] == ys[i];
  }

  lemma ValidAdded(checks: Checks, receivers: seq<Receiver>, condition: bool, more: seq<Receiver>)
    ensures ValidReceivers(checks, Added(receivers, condition, more))
       <==> ValidReceivers(checks, receivers) && (condition ==> ValidReceivers(checks, more))
  {
    ValidReceiversAppend(checks, receivers, more);
  }

  lemma WebhookValid(checks: Checks, name: string, url: string, http: HttpConfig)
    requires name != "" && url != ""
    ensures ValidReceivers(checks, WebhookReceiver(name, url, http)) <==> checks.url(url) && ValidHttp(checks, http)
  {
    var receiver := Receiver(name, [], [WebhookConfig(true, url, http)]);
    assert WebhookReceiver(name, url, http) == [receiver];
    assert [receiver][0] == receiver && receiver.webhooks[0].url == url;
  }

  lemma PagerdutyValid(checks: Checks, receiver: Receiver, key: string, severity: Text, inp: Inputs, fedramp: bool)
    requires receiver.name != "" && key != ""
    requires receiver == Receiver(receiver.name, [PagerdutyConfigFor(key, severity, inp, fedramp)], [])
    ensures ValidReceiver(checks, receiver) <==> OptionalOk(checks.url, inp.clusterProxy)
  {
    assert receiver.pagerduty[0].http.proxyURL == inp.clusterProxy;
  }

  lemma PagingValid(checks: Checks, inp: Inputs, fedramp: bool)
    ensures inp.HasCad() ==> (ValidReceivers(checks, CadReceivers(inp, fedramp))
                              <==> OptionalOk(checks.url, inp.clusterProxy))
    ensures inp.HasPagerduty() ==>
      (ValidReceivers(checks, PagerdutyReceivers(inp, fedramp)) <==> OptionalOk(checks.url, inp.clusterProxy))
    ensures inp.HasGoalert() ==>
      (ValidReceivers(checks, GoalertReceivers(inp))
       <==> checks.url(inp.goalertLow) && checks.url(inp.goalertHigh) && OptionalOk(checks.url, inp.clusterProxy))
  {
    hide PagerdutyConfigFor, ValidReceiver, ConfiguredNames;
    if inp.HasCad() {
      PagerdutyValid(checks, CadReceivers(inp, fedramp)[0], inp.cadKey, Rendered(SeverityTemplate), inp, fedramp);
    }
    if inp.HasPagerduty() {
      var all := PagerdutyReceivers(inp, fedramp);
      PagerdutyValid(checks, all[0], inp.pagerdutyKey, Rendered(SeverityTemplate), inp, fedramp);
      PagerdutyValid(checks, all[1], inp.pagerdutyKey, Fixed("warning"), inp, fedramp);
      PagerdutyValid(checks, all[2], inp.pagerdutyKey, Fixed("error"), inp, fedramp);
      PagerdutyValid(checks, all[3], inp.pagerdutyKey, Fixed("critical"), inp, fedramp);
    }
    if inp.HasGoalert() {
      WebhookValid(checks, GOALERT_LOW, inp.goalertLow, HttpFor(inp.clusterProxy));
      WebhookValid(checks, GOALERT_HIGH, inp.goalertHigh, HttpFor(inp.clusterProxy));
      ValidReceiversAppend(checks, WebhookReceiver(GOALERT_LOW, inp.goalertLow, HttpFor(inp.clusterProxy)),
                           WebhookReceiver(GOALERT_HIGH, inp.goalertHigh, HttpFor(inp.clusterProxy)));
    }
  }

  lemma ReceiversValid(checks: Checks, inp: Inputs, fedramp: bool)
    ensures ValidReceivers(checks, ReceiverList(inp, fedramp)) <==> URLsPass(checks, inp)
  {
    hide PagerdutyReceivers, GoalertReceivers, CadReceivers, WebhookReceiver, ValidReceivers, Added;
    PagingValid(checks, inp, fedramp);
    var http := HttpFor(inp.clusterProxy);
    var watchdog := WebhookReceiver(WATCHDOG, inp.watchdogURL, http);
    var ocm := WebhookReceiver(OCM_AGENT, inp.ocmAgentURL, HttpConfig(""));
    var heartbeat := WebhookReceiver(GOALERT_HEARTBEAT, inp.goalertHeartbeat, http);
    if inp.HasWatchdog() { WebhookValid(checks, WATCHDOG, inp.watchdogURL, http); }
    if inp.HasOcmAgent() { WebhookValid(checks, OCM_AGENT, inp.ocmAgentURL, HttpConfig("")); }
    if inp.HasHeartbeat() { WebhookValid(checks, GOALERT_HEARTBEAT, inp.goalertHeartbeat, http); }
    NullValid(checks);
    ValidAdded(checks, [], inp.HasWatchdog(), watchdog);
    var r1 := Added([], inp.HasWatchdog(), watchdog);
    ValidAdded(checks, r1, inp.HasOcmAgent(), ocm);
    var r2 := Added(r1, inp.HasOcmAgent(), ocm);
    ValidAdded(checks, r2, inp.HasCad(), CadReceivers(inp, fedramp));
    var r3 := Added(r2, inp.HasCad(), CadReceivers(inp, fedramp));
    ValidAdded(checks, r3, inp.HasPagerduty(), PagerdutyReceivers(inp, fedramp));
    var r4 := Added(r3, inp.HasPagerduty(), PagerdutyReceivers(inp, fedramp));
    ValidAdded(checks, r4, inp.HasGoalert(), GoalertReceivers(inp));
    var r5 := Added(r4, inp.HasGoalert(), GoalertReceivers(inp));
    ValidAdded(checks, r5, inp.HasHeartbeat(), heartbeat);
    ValidReceiversAppend(checks, Added(r5, inp.HasHeartbeat(), heartbeat), [Receiver(NULL, [], [])]);
  }

  lemma NullValid(checks: Checks)
    ensures ValidReceivers(checks, [Receiver(NULL, [], [])]) && ValidReceivers(checks, [])
  {
  }

  lemma NamedRuleValid(checks: Checks, equal: seq<string>, source: string, targets: seq<string>)
    requires ConstantsPass(checks) && targets != [] && AllPlain(targets)
    requires forall l :: l in equal ==> ValidLabelName(l)
    ensures ValidRule(checks, Inhibition.NamedRule(equal, source, targets))
  {
    LabelsAreValid();
    assert "alertname" in LABELS;
  }

  lemma SeverityRuleValid(checks: Checks, severity: string, targets: seq<string>)
    requires ConstantsPass(checks) && targets != [] && AllPlain(targets)
    ensures ValidRule(checks, Inhibition.SeverityRule(severity, targets))
  {
    LabelsAreValid();
    assert "alertname" in LABELS && "severity" in LABELS && "namespace" in LABELS;
  }

  lemma DegradedRuleValid(checks: Checks)
    requires ConstantsPass(checks)
    ensures ValidRule(checks, Inhibition.DegradedRule())
  {
    LabelsAreValid();
    Inhibition.PlainOperatorAndNode();
    assert AllPlain(["ClusterOperatorDown"]) && "alertname" in LABELS && "severity" in LABELS
        && "namespace" in LABELS && "name" in LABELS;
  }

  lemma EarlyRulesValid(checks: Checks)
    requires ConstantsPass(checks)
    ensures ValidRule(checks, Inhibition.CriticalRule()) && ValidRule(checks, Inhibition.WarningRule())
    ensures ValidRule(checks, Inhibition.NotReadyRule()) && ValidRule(checks, Inhibition.UnreachableRule())
  {
    hide ConstantsPass, ValidRule, ValidLabelName;
    Inhibition.PlainSeverities();
    Inhibition.PlainOperatorAndNode();
    Inhibition.PlainUnreachableTargets();
    OtherLabelsAreValid();
    SeverityRuleValid(checks, "critical", ["warning", "info"]);
    SeverityRuleValid(checks, "warning", ["info"]);
    NamedRuleValid(checks, ["node", "instance"], "KubeNodeNotReady", ["KubeNodeUnreachable"]);
    NamedRuleValid(checks, [], "KubeNodeUnreachable", ["SDNPodNotReady", "TargetDown"]);
  }

  lemma LateRulesValid(checks: Checks)
    requires ConstantsPass(checks)
    ensures ValidRule(checks, Inhibition.SymptomsRule()) && ValidRule(checks, Inhibition.ReplicasRule())
    ensures ValidRule(checks, Inhibition.ElasticsearchRule()) && ValidRule(checks, Inhibition.ErrorBudgetRule())
  {
    hide ConstantsPass, ValidRule, ValidLabelName;
    Inhibition.PlainDaemonSets();
    Inhibition.PlainReplicas();
    Inhibition.PlainPods();
    Inhibition.PlainLast();
    OtherLabelsAreValid();
    LabelsAreValid2();
    NamedRuleValid(checks, ["instance"], "KubeNodeNotReady", Inhibition.NODE_SYMPTOMS);
    NamedRuleValid(checks, ["namespace"], "KubeDeploymentReplicasMismatch", ["KubePodNotReady", "KubePodCrashLooping"]);
    NamedRuleValid(checks, ["dummylabel"], "ElasticsearchOperatorCSVNotSuccessful", ["ElasticsearchClusterNotHealthy"]);
    NamedRuleValid(checks, ["severity"], "KubeAPIErrorBudgetBurn", ["api-ErrorBudgetBurn"]);
  }

  lemma RulesValid(checks: Checks)
    requires ConstantsPass(checks)
    ensures ValidRules(checks, Inhibition.InhibitRules())
  {
    hide ConstantsPass, ValidRule;
    EarlyRulesValid(checks);
    DegradedRuleValid(checks);
    LateRulesValid(checks);
  }

  /** The URLs, and if an integration pages by namespace the patterns, are acceptable. */
  predicate SuppliedPass(checks: Checks, inp: Inputs) {
    && URLsPass(checks, inp)
    && (inp.HasPagerduty() || inp.HasGoalert() ==> PatternsPass(checks, inp.namespaces))
  }

  /** The compiled configuration is rejected only over a URL or a namespace pattern
      that a caller supplied, and always over such a one. */
  lemma AcceptedExactlyWhen(checks: Checks, inp: Inputs, fedramp: bool)
    requires ConstantsPass(checks)
    ensures Accepts(checks, Compiled(inp, fedramp)) <==> SuppliedPass(checks, inp)
  {
    hide RootRoutes, ReceiverList, Inhibition.InhibitRules, ConfiguredNames;
    hide ValidReceivers, ValidTree, NameSet, NoRepeats;
    NamesDefined(inp, fedramp);
    RootValid(checks, inp, fedramp);
    ReceiversValid(checks, inp, fedramp);
    RulesValid(checks);
  }

  /** Reading the compiled configuration back finds no repeated name and no default to fill in. */
  lemma CompiledNeedsNoDefaults(inp: Inputs, fedramp: bool)
    ensures NoRepeats(ReceiverNames(Compiled(inp, fedramp).receivers))
    ensures WithDefaults(Compiled(inp, fedramp)) == Compiled(inp, fedramp)
  {
    hide RootRoutes, ReceiverList, Inhibition.InhibitRules, NoRepeats;
    NamesDefined(inp, fedramp);
  }
}
