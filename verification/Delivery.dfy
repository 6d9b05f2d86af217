/** Who gets an alert from the compiled configuration, for every set of
    integrations and every namespace list. */
module Delivery {
  import opened Wrappers
  import opened AlertmanagerTypes
  import opened Routing
  import opened RouteTable
  import opened Subroutes
  import opened SubrouteMeaning
  import opened Compiler
  import Inhibition

  predicate IsHeartbeat(alert: Alert) {
    Label(alert, "alertname") == "Watchdog"
  }

  predicate IsForCad(alert: Alert) {
    Label(alert, "route_to_cad") == "true"
  }

  /** The receiver of one paging subtree, by its closed form. */
  function Paged(kind: ReceiverType, inp: Inputs, fedramp: bool, re: Regexp, alert: Alert): string {
    SubtreeReceiver(kind, re, StaticRows(fedramp), inp.namespaces, alert)
  }

  predicate TakenByOcm(inp: Inputs, alert: Alert) {
    inp.HasOcmAgent() && IsManaged(alert)
  }

  predicate TakenByCad(inp: Inputs, alert: Alert) {
    !TakenByOcm(inp, alert) && inp.HasCad() && IsForCad(alert)
  }

  function Snitch(inp: Inputs, alert: Alert): seq<string> {
    When(inp.HasWatchdog() && IsHeartbeat(alert), [WATCHDOG])
  }

  /** What the paging subtrees and the GoAlert heartbeat add, given each subtree's receiver. */
  function PagedAll(inp: Inputs, alert: Alert, pagerduty: string, goalert: string): seq<string> {
    When(inp.HasPagerduty(), [pagerduty])
    + (When(inp.HasGoalert(), [goalert])
    + When(inp.HasHeartbeat() && IsHeartbeat(alert), [GOALERT_HEARTBEAT]))
  }

  function OrNull(receivers: seq<string>): seq<string> {
    if receivers == [] then [NULL] else receivers
  }

  /** Dead Man's Snitch first and always; then OCM Agent or CAD exclusively, or else
      every paging integration; `null` when nothing else was notified. */
  function DeliveredWith(inp: Inputs, alert: Alert, pagerduty: string, goalert: string): seq<string> {
    if TakenByOcm(inp, alert) then Snitch(inp, alert) + [OCM_AGENT]
    else if TakenByCad(inp, alert) then Snitch(inp, alert) + [CAD_PAGERDUTY]
    else OrNull(Snitch(inp, alert) + PagedAll(inp, alert, pagerduty, goalert))
  }

  function Delivered(inp: Inputs, fedramp: bool, re: Regexp, alert: Alert): seq<string> {
    DeliveredWith(inp, alert, Paged(Pagerduty, inp, fedramp, re, alert), Paged(GoAlert, inp, fedramp, re, alert))
  }

  function Notified(inp: Inputs, fedramp: bool, re: Regexp, alert: Alert): seq<string> {
    Notify(re, Compiled(inp, fedramp).route.value, alert)
  }

  lemma HeartbeatMatches(re: Regexp, alert: Alert)
    ensures Notify(re, WatchdogRoute(), alert) == When(IsHeartbeat(alert), [WATCHDOG])
    ensures Notify(re, HeartbeatRoute(), alert) == When(IsHeartbeat(alert), [GOALERT_HEARTBEAT])
  {
    OneLabel(re, "alertname", "Watchdog", alert);
    assert NotifyAll(re, [], alert) == [];
  }

  lemma ExclusiveMatches(re: Regexp, alert: Alert)
    ensures Matches(re, OcmAgentRoute(), alert) <==> IsManaged(alert)
    ensures Matches(re, CadRoute(), alert) <==> IsForCad(alert)
  {
    OneLabel(re, "send_managed_notification", "true", alert);
    OneLabel(re, "route_to_cad", "true", alert);
  }

  lemma PagingRoutesDeliver(inp: Inputs, fedramp: bool, re: Regexp, alert: Alert)
    ensures NotifyAll(re,
              When(inp.HasPagerduty(), [Subtree(Pagerduty, inp.namespaces, fedramp)])
              + (When(inp.HasGoalert(), [Subtree(GoAlert, inp.namespaces, fedramp)])
              + When(inp.HasHeartbeat(), [HeartbeatRoute()])), alert)
         == PagedAll(inp, alert, Paged(Pagerduty, inp, fedramp, re, alert), Paged(GoAlert, inp, fedramp, re, alert))
  {
    hide StaticRows, NamespaceRoutes, SubtreeReceiver;
    var goalert, pagerduty := Subtree(GoAlert, inp.namespaces, fedramp), Subtree(Pagerduty, inp.namespaces, fedramp);
    var heartbeat := When(inp.HasHeartbeat(), [HeartbeatRoute()]);
    SubtreeDelivery(Pagerduty, re, StaticRows(fedramp), inp.namespaces, alert);
    SubtreeDelivery(GoAlert, re, StaticRows(fedramp), inp.namespaces, alert);
    OptionalContinuing(re, inp.HasPagerduty(), pagerduty, When(inp.HasGoalert(), [goalert]) + heartbeat, alert);
    OptionalContinuing(re, inp.HasGoalert(), goalert, heartbeat, alert);
    OptionalContinuing(re, inp.HasHeartbeat(), HeartbeatRoute(), [], alert);
    assert heartbeat + [] == heartbeat && NotifyAll(re, [], alert) == [];
    HeartbeatMatches(re, alert);
  }

  /** A continuing sibling, then two that end the search, then the rest. */
  lemma ThreeGates(re: Regexp, b0: bool, first: Route, b1: bool, second: Route, b2: bool, third: Route,
                   rest: seq<Route>, alert: Alert)
    requires first.continues && IsFinalLeaf(second) && IsFinalLeaf(third)
    ensures NotifyAll(re, When(b0, [first]) + (When(b1, [second]) + (When(b2, [third]) + rest)), alert)
         == When(b0, Notify(re, first, alert))
            + (if b1 && Matches(re, second, alert) then [second.receiver]
               else if b2 && Matches(re, third, alert) then [third.receiver]
               else NotifyAll(re, rest, alert))
  {
    hide When, Matches;
    OptionalContinuing(re, b0, first, When(b1, [second]) + (When(b2, [third]) + rest), alert);
    OptionalFinal(re, b1, second, When(b2, [third]) + rest, alert);
    OptionalFinal(re, b2, third, rest, alert);
  }

  lemma RootFallsBack(re: Regexp, routes: seq<Route>, alert: Alert)
    ensures Notify(re, RootRoute(routes), alert)
         == if NotifyAll(re, routes, alert) == [] then [NULL] else NotifyAll(re, routes, alert)
  {
    assert Matches(re, RootRoute(routes), alert);
  }

  /** The routing tree means exactly `Delivered`. */
  lemma ConfigDelivery(inp: Inputs, fedramp: bool, re: Regexp, alert: Alert)
    ensures Notified(inp, fedramp, re, alert) == Delivered(inp, fedramp, re, alert)
  {
    hide Subtree, Inhibition.InhibitRules, ReceiverList, PagedAll, Paged, NotifyAll, Notify, Matches, Added, RootRoute;
    var pagerduty := [Subtree(Pagerduty, inp.namespaces, fedramp)];
    var goalert := [Subtree(GoAlert, inp.namespaces, fedramp)];
    NestedParts(inp.HasWatchdog(), [WatchdogRoute()], inp.HasOcmAgent(), [OcmAgentRoute()], inp.HasCad(), [CadRoute()],
                inp.HasPagerduty(), pagerduty, inp.HasGoalert(), goalert, inp.HasHeartbeat(), [HeartbeatRoute()]);
    var paging := When(inp.HasPagerduty(), pagerduty)
                  + (When(inp.HasGoalert(), goalert) + When(inp.HasHeartbeat(), [HeartbeatRoute()]));
    ThreeGates(re, inp.HasWatchdog(), WatchdogRoute(), inp.HasOcmAgent(), OcmAgentRoute(), inp.HasCad(), CadRoute(),
               paging, alert);
    HeartbeatMatches(re, alert);
    ExclusiveMatches(re, alert);
    PagingRoutesDeliver(inp, fedramp, re, alert);
    RootFallsBack(re, RootRoutes(inp, fedramp), alert);
  }

  // ---------- Exact delivery ----------

  lemma SubtreeRange(kind: ReceiverType, re: Regexp, rows: seq<Row>, namespaces: seq<string>, alert: Alert)
    ensures SubtreeReceiver(kind, re, rows, namespaces, alert)
            !in {OCM_AGENT, CAD_PAGERDUTY, WATCHDOG, GOALERT_HEARTBEAT}
  {
  }

  lemma PagedRange(kind: ReceiverType, inp: Inputs, fedramp: bool, re: Regexp, alert: Alert)
    ensures Paged(kind, inp, fedramp, re, alert) !in {OCM_AGENT, CAD_PAGERDUTY, WATCHDOG, GOALERT_HEARTBEAT}
  {
    hide StaticRows, SubtreeReceiver;
    SubtreeRange(kind, re, StaticRows(fedramp), inp.namespaces, alert);
  }

  /** OCM Agent, or else CAD, takes its alerts from everyone but the snitch. */
  lemma ExclusiveDelivery(inp: Inputs, fedramp: bool, re: Regexp, alert: Alert)
    ensures TakenByOcm(inp, alert) ==> Notified(inp, fedramp, re, alert) == Snitch(inp, alert) + [OCM_AGENT]
    ensures TakenByCad(inp, alert) ==> Notified(inp, fedramp, re, alert) == Snitch(inp, alert) + [CAD_PAGERDUTY]
    ensures !TakenByOcm(inp, alert) ==> OCM_AGENT !in Notified(inp, fedramp, re, alert)
    ensures !TakenByCad(inp, alert) ==> CAD_PAGERDUTY !in Notified(inp, fedramp, re, alert)
  {
    hide Notified, Paged;
    ConfigDelivery(inp, fedramp, re, alert);
    PagedRange(Pagerduty, inp, fedramp, re, alert);
    PagedRange(GoAlert, inp, fedramp, re, alert);
  }

  /** Without OCM Agent a managed notification that CAD does not take pages only as
      one of the escalations of lines 350-353, and then always as critical. */
  lemma ManagedWithoutOcm(inp: Inputs, fedramp: bool, re: Regexp, alert: Alert)
    requires IsManaged(alert) && !inp.HasOcmAgent() && !TakenByCad(inp, alert)
    ensures Notified(inp, fedramp, re, alert)
         == OrNull(Snitch(inp, alert)
                   + PagedAll(inp, alert,
                              if Escalates(re, alert) then MAKE_IT_CRITICAL else NULL,
                              if Escalates(re, alert) then GOALERT_HIGH else NULL))
  {
    hide Notified, Subtree, StaticRows, SubtreeReceiver, Paged, PagedAll, Escalates;
    ConfigDelivery(inp, fedramp, re, alert);
    PagedByTree(Pagerduty, inp, fedramp, re, alert);
    PagedByTree(GoAlert, inp, fedramp, re, alert);
    ManagedAlertDelivery(Pagerduty, re, inp.namespaces, fedramp, alert);
    ManagedAlertDelivery(GoAlert, re, inp.namespaces, fedramp, alert);
  }

  lemma PagedByTree(kind: ReceiverType, inp: Inputs, fedramp: bool, re: Regexp, alert: Alert)
    ensures Notify(re, Subtree(kind, inp.namespaces, fedramp), alert) == [Paged(kind, inp, fedramp, re, alert)]
  {
    hide StaticRows, SubtreeReceiver;
    SubtreeDelivery(kind, re, StaticRows(fedramp), inp.namespaces, alert);
  }

  /** A heartbeat nobody takes exclusively reaches each configured one of the snitch
      and the GoAlert heartbeat; with severity `none` it pages nobody. */
  lemma HeartbeatsCoexist(inp: Inputs, fedramp: bool, re: Regexp, alert: Alert)
    requires IsHeartbeat(alert) && !TakenByOcm(inp, alert) && !TakenByCad(inp, alert)
    ensures WATCHDOG in Notified(inp, fedramp, re, alert) <==> inp.HasWatchdog()
    ensures GOALERT_HEARTBEAT in Notified(inp, fedramp, re, alert) <==> inp.HasHeartbeat()
    ensures Label(alert, "severity") == "none"
        ==> forall r :: r in Notified(inp, fedramp, re, alert) ==> r in {WATCHDOG, GOALERT_HEARTBEAT, NULL}
  {
    hide Notified, Paged;
    ConfigDelivery(inp, fedramp, re, alert);
    PagedRange(Pagerduty, inp, fedramp, re, alert);
    PagedRange(GoAlert, inp, fedramp, re, alert);
    if Label(alert, "severity") == "none" {
      SilentHeartbeat(Pagerduty, inp, fedramp, re, alert);
      SilentHeartbeat(GoAlert, inp, fedramp, re, alert);
    }
  }

  lemma SilentHeartbeat(kind: ReceiverType, inp: Inputs, fedramp: bool, re: Regexp, alert: Alert)
    requires IsHeartbeat(alert) && Label(alert, "severity") == "none"
    ensures Paged(kind, inp, fedramp, re, alert) == NULL
  {
    hide StaticRows;
    HeadDestination(re, alert);
    HeadDecides(re, fedramp, ToNull, alert);
  }

  // ---------- Namespace lists ----------

  /** The same receivers at the same places, except where nothing was paged before. */
  ghost predicate KeepsReceivers(before: seq<string>, after: seq<string>) {
    && |before| == |after|
    && forall i :: 0 <= i < |before| ==> before[i] == after[i] || before[i] == NULL
  }

  lemma PagedKept(kind: ReceiverType, inp: Inputs, more: seq<string>, fedramp: bool, re: Regexp, alert: Alert)
    requires SubsetOf(inp.namespaces, more)
    ensures
      var before := Paged(kind, inp, fedramp, re, alert);
      before == Paged(kind, inp.(namespaces := more), fedramp, re, alert) || before == NULL
  {
    hide StaticRows, SubtreeReceiver;
    MoreNamespacesKeepReceivers(kind, re, StaticRows(fedramp), inp.namespaces, more, alert);
    SubtreeDelivery(kind, re, StaticRows(fedramp), inp.namespaces, alert);
    SubtreeDelivery(kind, re, StaticRows(fedramp), more, alert);
  }

  lemma KeepsAppend(xs: seq<string>, xs': seq<string>, ys: seq<string>, ys': seq<string>)
    requires KeepsReceivers(xs, xs') && KeepsReceivers(ys, ys')
    ensures KeepsReceivers(xs + ys, xs' + ys')
  {
  }

  lemma PagedAllKept(
      inp: Inputs, alert: Alert, pagerduty: string, goalert: string, pagerduty': string, goalert': string)
    requires pagerduty == pagerduty' || pagerduty == NULL
    requires goalert == goalert' || goalert == NULL
    ensures KeepsReceivers(PagedAll(inp, alert, pagerduty, goalert), PagedAll(inp, alert, pagerduty', goalert'))
  {
    var beat := When(inp.HasHeartbeat() && IsHeartbeat(alert), [GOALERT_HEARTBEAT]);
    KeepsAppend(When(inp.HasGoalert(), [goalert]), When(inp.HasGoalert(), [goalert']), beat, beat);
    KeepsAppend(When(inp.HasPagerduty(), [pagerduty]), When(inp.HasPagerduty(), [pagerduty']),
                When(inp.HasGoalert(), [goalert]) + beat, When(inp.HasGoalert(), [goalert']) + beat);
  }

  lemma DeliveredKept(
      inp: Inputs, alert: Alert, pagerduty: string, goalert: string, pagerduty': string, goalert': string)
    requires pagerduty == pagerduty' || pagerduty == NULL
    requires goalert == goalert' || goalert == NULL
    ensures KeepsReceivers(DeliveredWith(inp, alert, pagerduty, goalert),
                           DeliveredWith(inp, alert, pagerduty', goalert'))
  {
    hide PagedAll;
    PagedAllKept(inp, alert, pagerduty, goalert, pagerduty', goalert');
    KeepsAppend(Snitch(inp, alert), Snitch(inp, alert),
                PagedAll(inp, alert, pagerduty, goalert), PagedAll(inp, alert, pagerduty', goalert'));
  }

  lemma NamespacesDoNotSelect(inp: Inputs, more: seq<string>, alert: Alert, pagerduty: string, goalert: string)
    ensures DeliveredWith(inp.(namespaces := more), alert, pagerduty, goalert)
        == DeliveredWith(inp, alert, pagerduty, goalert)
  {
    hide When, OrNull, IsHeartbeat, IsManaged, IsForCad;
    var other := inp.(namespaces := more);
    assert Snitch(other, alert) == Snitch(inp, alert);
    assert PagedAll(other, alert, pagerduty, goalert) == PagedAll(inp, alert, pagerduty, goalert);
    assert TakenByOcm(other, alert) == TakenByOcm(inp, alert) && TakenByCad(other, alert) == TakenByCad(inp, alert);
  }

  /** Adding namespaces to a configuration takes no alert away from any receiver. */
  lemma MoreNamespacesKeepDelivery(inp: Inputs, more: seq<string>, fedramp: bool, re: Regexp, alert: Alert)
    requires SubsetOf(inp.namespaces, more)
    ensures KeepsReceivers(Notified(inp, fedramp, re, alert), Notified(inp.(namespaces := more), fedramp, re, alert))
  {
    hide Notified, Paged, DeliveredWith, KeepsReceivers;
    ConfigDelivery(inp, fedramp, re, alert);
    ConfigDelivery(inp.(namespaces := more), fedramp, re, alert);
    PagedKept(Pagerduty, inp, more, fedramp, re, alert);
    PagedKept(GoAlert, inp, more, fedramp, re, alert);
    var larger := inp.(namespaces := more);
    NamespacesDoNotSelect(inp, more, alert, Paged(Pagerduty, larger, fedramp, re, alert),
                          Paged(GoAlert, larger, fedramp, re, alert));
    DeliveredKept(inp, alert,
                  Paged(Pagerduty, inp, fedramp, re, alert), Paged(GoAlert, inp, fedramp, re, alert),
                  Paged(Pagerduty, larger, fedramp, re, alert), Paged(GoAlert, larger, fedramp, re, alert));
  }

  /** Reordering or repeating namespaces changes what no alert gets. */
  lemma NamespacesActAsSet(inp: Inputs, other: seq<string>, fedramp: bool, re: Regexp, alert: Alert)
    requires SubsetOf(inp.namespaces, other) && SubsetOf(other, inp.namespaces)
    ensures Notified(inp, fedramp, re, alert) == Notified(inp.(namespaces := other), fedramp, re, alert)
  {
    hide Notified;
    MoreNamespacesKeepDelivery(inp, other, fedramp, re, alert);
    MoreNamespacesKeepDelivery(inp.(namespaces := other), inp.namespaces, fedramp, re, alert);
    assert inp.(namespaces := other).(namespaces := inp.namespaces) == inp;
  }

  // ---------- A dead route of the static table ----------

  /** The places in the table of the routes of lines 371 and 476. */
  const ALMOST_OUT_OF_SPACE_ROW: nat := 11
  const MOUNTPOINT_ROW: nat := 69

  lemma DeadRows()
    ensures |HeadRows()| == 6 && |NoisyAlertRows()| == 8 && |NoisyNamespaceRows()| == 16
    ensures NoisyAlertRows()[5] == Row(ToNull, map["alertname" := "NodeFilesystemAlmostOutOfSpace"], map[])
  {
  }

  lemma DeadLaterRows()
    ensures |LoggingRows()| == 14 && |LokiRows()| == 15 && |OperatorRows()| == 11
    ensures OperatorRows()[10]
         == Row(ToNull, map["alertname" := "NodeFilesystemAlmostOutOfSpace", "severity" := "critical"],
                map["mountpoint" := "/var/lib/ibmc-s3fs.*"])
  {
  }

  lemma DeadRowPlaces(fedramp: bool)
    ensures |StaticRows(fedramp)| > MOUNTPOINT_ROW
    ensures StaticRows(fedramp)[ALMOST_OUT_OF_SPACE_ROW] == NoisyAlertRows()[5]
    ensures StaticRows(fedramp)[MOUNTPOINT_ROW] == OperatorRows()[10]
  {
    DeadRows();
    DeadLaterRows();
    hide HeadRows, NoisyAlertRows, NoisyNamespaceRows, LoggingRows, LokiRows, OperatorRows, TailRows;
    assert LaterRows()[39] == OperatorRows()[10];
    assert (NoisyNamespaceRows() + LaterRows())[55] == LaterRows()[39];
  }

  /** The route of line 476 never decides anything: without it, every alert gets the
      same from the whole tree, through either subtree. */
  lemma MountpointRouteIsDead(inp: Inputs, kind: ReceiverType, fedramp: bool, at: nat, re: Regexp, alert: Alert)
    requires at < |RootRoutes(inp, fedramp)| && RootRoutes(inp, fedramp)[at] == Subtree(kind, inp.namespaces, fedramp)
    ensures Notify(re, DeleteChild(RootRoute(RootRoutes(inp, fedramp)), [at], MOUNTPOINT_ROW), alert)
         == Notified(inp, fedramp, re, alert)
  {
    hide RootRoutes, StaticRows, NamespaceRoutes, Notify, DeleteChild, Inhibition.InhibitRules, ReceiverList;
    var root, subtree := RootRoute(RootRoutes(inp, fedramp)), Subtree(kind, inp.namespaces, fedramp);
    DeadRowPlaces(fedramp);
    DeadRows();
    DeadLaterRows();
    assert ValidPath(root, [at]) && NodeAt(root, [at]) == subtree by {
      assert [at][1..] == [];
    }
    assert subtree.routes[ALMOST_OUT_OF_SPACE_ROW] == RouteOf(kind, NoisyAlertRows()[5]);
    assert subtree.routes[MOUNTPOINT_ROW] == RouteOf(kind, OperatorRows()[10]);
    DeletingShadowedPreserves(re, root, [at], ALMOST_OUT_OF_SPACE_ROW, MOUNTPOINT_ROW, alert);
  }
}
