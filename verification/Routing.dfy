/** The documented meaning of an Alertmanager routing tree
    (https://prometheus.io/docs/alerting/latest/configuration/#route), and facts
    about it that hold for trees of any shape and any regular-expression engine. */
module Routing {
  import opened Wrappers
  import opened AlertmanagerTypes

  type Alert = map<string, string>

  /** `re(p, v)`: the anchored pattern `p` matches the value `v`. */
  type Regexp = (string, string) -> bool

  /** A missing label counts as the empty string. */
  function Label(alert: Alert, name: string): string {
    if name in alert then alert[name] else ""
  }

  predicate MatchersHold(re: Regexp, matchEq: map<string, string>, matchRE: map<string, string>, alert: Alert) {
    && (forall k :: k in matchEq ==> Label(alert, k) == matchEq[k])
    && (forall k :: k in matchRE ==> re(matchRE[k], Label(alert, k)))
  }

  predicate Matches(re: Regexp, route: Route, alert: Alert) {
    MatchersHold(re, route.matchEq, route.matchRE, alert)
  }

  lemma OneLabel(re: Regexp, k: string, v: string, alert: Alert)
    ensures MatchersHold(re, map[k := v], map[], alert) <==> Label(alert, k) == v
  {
  }

  lemma TwoLabels(re: Regexp, k0: string, v0: string, k1: string, v1: string, alert: Alert)
    requires k0 != k1
    ensures MatchersHold(re, map[k0 := v0, k1 := v1], map[], alert)
        <==> Label(alert, k0) == v0 && Label(alert, k1) == v1
  {
    var required := map[k0 := v0, k1 := v1];
    assert k0 in required && k1 in required;
  }

  lemma OnePattern(re: Regexp, k: string, pattern: string, alert: Alert)
    ensures MatchersHold(re, map[], map[k := pattern], alert) <==> re(pattern, Label(alert, k))
  {
  }

  /** The receivers that get `alert` from the tree rooted at `route`. */
  function Notify(re: Regexp, route: Route, alert: Alert): seq<string>
    decreases route, 1
  {
    if !Matches(re, route, alert) then [] else
      var fromChildren := NotifyAll(re, route.routes, alert);
      if fromChildren == [] then [route.receiver] else fromChildren
  }

  /** Siblings are tried in order, up to the first that delivers without `continue`. */
  function NotifyAll(re: Regexp, routes: seq<Route>, alert: Alert): seq<string>
    decreases routes, 0
  {
    if routes == [] then [] else
      var here := Notify(re, routes[0], alert);
      if here != [] && !routes[0].continues then here
      else here + NotifyAll(re, routes[1..], alert)
  }

  lemma {:induction false} MatchedIffNotified(re: Regexp, route: Route, alert: Alert)
    ensures Matches(re, route, alert) <==> Notify(re, route, alert) != []
  {
  }

  /** Some sibling of `routes` ends the search for this alert. */
  predicate Stops(re: Regexp, routes: seq<Route>, alert: Alert) {
    routes != [] && ((Matches(re, routes[0], alert) && !routes[0].continues) || Stops(re, routes[1..], alert))
  }

  lemma {:induction false} StopsAt(re: Regexp, routes: seq<Route>, i: nat, alert: Alert)
    requires i < |routes| && Matches(re, routes[i], alert) && !routes[i].continues
    ensures Stops(re, routes, alert)
  {
    if i > 0 {
      StopsAt(re, routes[1..], i - 1, alert);
    }
  }

  lemma {:induction false} NotifyAllAppend(re: Regexp, xs: seq<Route>, ys: seq<Route>, alert: Alert)
    ensures NotifyAll(re, xs + ys, alert)
         == NotifyAll(re, xs, alert) + (if Stops(re, xs, alert) then [] else NotifyAll(re, ys, alert))
  {
    if xs == [] {
      assert xs + ys == ys;
    } else {
      assert (xs + ys)[1..] == xs[1..] + ys;
      NotifyAllAppend(re, xs[1..], ys, alert);
      MatchedIffNotified(re, xs[0], alert);
    }
  }

  lemma {:induction false} NotifySingle(re: Regexp, route: Route, alert: Alert)
    ensures NotifyAll(re, [route], alert) == Notify(re, route, alert)
  {
    assert [route][1..] == [];
    assert NotifyAll(re, [], alert) == [];
  }

  /** An optional sibling that lets the search go on adds what it delivers. */
  lemma OptionalContinuing(re: Regexp, present: bool, route: Route, rest: seq<Route>, alert: Alert)
    requires route.continues
    ensures NotifyAll(re, When(present, [route]) + rest, alert)
         == When(present, Notify(re, route, alert)) + NotifyAll(re, rest, alert)
  {
    NotifyAllAppend(re, When(present, [route]), rest, alert);
    NotifySingle(re, route, alert);
    assert !Stops(re, [route], alert) && NotifyAll(re, [], alert) == [];
  }

  /** An optional sibling that ends the search replaces what follows if it matches. */
  lemma OptionalFinal(re: Regexp, present: bool, route: Route, rest: seq<Route>, alert: Alert)
    requires IsFinalLeaf(route)
    ensures NotifyAll(re, When(present, [route]) + rest, alert)
         == if present && Matches(re, route, alert) then [route.receiver] else NotifyAll(re, rest, alert)
  {
    FinalLeafNotifies(re, route, alert);
    NotifySingle(re, route, alert);
    NotifyAllAppend(re, When(present, [route]), rest, alert);
  }

  /** A childless route that stops the search, as in the operator's subtrees. */
  predicate IsFinalLeaf(route: Route) {
    route.routes == [] && !route.continues
  }

  lemma FinalLeafNotifies(re: Regexp, leaf: Route, alert: Alert)
    requires IsFinalLeaf(leaf)
    ensures Notify(re, leaf, alert) == if Matches(re, leaf, alert) then [leaf.receiver] else []
  {
    assert NotifyAll(re, leaf.routes, alert) == [];
  }

  predicate AllFinalLeaves(routes: seq<Route>) {
    forall i :: 0 <= i < |routes| ==> IsFinalLeaf(routes[i])
  }

  /** Among final leaves the first delivery is the only one. */
  lemma {:induction false} FinalLeavesAppend(re: Regexp, xs: seq<Route>, ys: seq<Route>, alert: Alert)
    requires AllFinalLeaves(xs)
    ensures NotifyAll(re, xs + ys, alert)
         == if NotifyAll(re, xs, alert) != [] then NotifyAll(re, xs, alert) else NotifyAll(re, ys, alert)
  {
    if xs == [] {
      assert xs + ys == ys;
    } else {
      assert (xs + ys)[1..] == xs[1..] + ys;
      FinalLeavesAppend(re, xs[1..], ys, alert);
    }
  }

  lemma FinalPair(re: Regexp, a: Route, b: Route, alert: Alert)
    requires IsFinalLeaf(a)
    ensures NotifyAll(re, [a, b], alert)
         == if Matches(re, a, alert) then [a.receiver] else Notify(re, b, alert)
  {
    assert [a, b] == [a] + [b];
    FinalLeavesAppend(re, [a], [b], alert);
    NotifySingle(re, a, alert);
    NotifySingle(re, b, alert);
    FinalLeafNotifies(re, a, alert);
  }

  lemma FinalTriple(re: Regexp, a: Route, b: Route, c: Route, alert: Alert)
    requires IsFinalLeaf(a) && IsFinalLeaf(b)
    ensures NotifyAll(re, [a, b, c], alert)
         == if Matches(re, a, alert) then [a.receiver]
            else if Matches(re, b, alert) then [b.receiver]
            else Notify(re, c, alert)
  {
    assert [a, b, c] == [a] + [b, c];
    FinalLeavesAppend(re, [a], [b, c], alert);
    NotifySingle(re, a, alert);
    FinalLeafNotifies(re, a, alert);
    FinalPair(re, b, c, alert);
  }

  // ---------- Removing a route that an earlier sibling shadows ----------

  /** The node of `route` that `path` leads to, if the path stays inside the tree. */
  predicate ValidPath(route: Route, path: seq<nat>)
    decreases |path|
  {
    path != [] ==> path[0] < |route.routes| && ValidPath(route.routes[path[0]], path[1..])
  }

  function NodeAt(route: Route, path: seq<nat>): Route
    requires ValidPath(route, path)
    decreases |path|
  {
    if path == [] then route else NodeAt(route.routes[path[0]], path[1..])
  }

  /** `route` without the `j`-th child of the node at `path`, if there is one. */
  function DeleteChild(route: Route, path: seq<nat>, j: nat): Route
    decreases |path|
  {
    if path == [] then
      if j < |route.routes| then route.(routes := route.routes[..j] + route.routes[j + 1..]) else route
    else if path[0] < |route.routes| then
      route.(routes := route.routes[path[0] := DeleteChild(route.routes[path[0]], path[1..], j)])
    else route
  }

  /** For this alert `early` ends the search whenever `late` matches. */
  predicate Preempts(re: Regexp, early: Route, late: Route, alert: Alert) {
    !early.continues && (Matches(re, late, alert) ==> Matches(re, early, alert))
  }

  /** The matchers of `late` require that label `k` satisfy pattern `p`: of that label
      itself, or of one they require to have the same value. */
  predicate RequiresPattern(late: Route, k: string, p: string) {
    exists other :: other in late.matchRE && late.matchRE[other] == p
      && (other == k
          || (k in late.matchEq && other in late.matchEq && late.matchEq[k] == late.matchEq[other]))
  }

  /** Every matcher of `early` is required by `late`. */
  predicate Includes(late: Route, early: Route) {
    && (forall k :: k in early.matchEq ==> k in late.matchEq && late.matchEq[k] == early.matchEq[k])
    && (forall k :: k in early.matchRE ==> RequiresPattern(late, k, early.matchRE[k]))
  }

  /** So it does for every alert and engine: decided on the matchers alone. */
  predicate Shadows(early: Route, late: Route) {
    !early.continues && Includes(late, early)
  }

  lemma ShadowsPreempts(re: Regexp, early: Route, late: Route, alert: Alert)
    requires Shadows(early, late)
    ensures Preempts(re, early, late, alert)
  {
  }

  lemma {:induction false} UnreachableSibling(re: Regexp, routes: seq<Route>, i: nat, j: nat, alert: Alert)
    requires i < j < |routes| && Preempts(re, routes[i], routes[j], alert)
    ensures NotifyAll(re, routes[..j] + routes[j + 1..], alert) == NotifyAll(re, routes, alert)
  {
    var front, back := routes[..j], routes[j + 1..];
    assert routes == front + ([routes[j]] + back);
    NotifyAllAppend(re, front, back, alert);
    NotifyAllAppend(re, front, [routes[j]] + back, alert);
    if Matches(re, routes[j], alert) {
      StopsAt(re, front, i, alert);
    } else {
      NotifyAllAppend(re, [routes[j]], back, alert);
      NotifySingle(re, routes[j], alert);
    }
  }

  lemma {:induction false} ReplaceSibling(re: Regexp, routes: seq<Route>, k: nat, other: Route, alert: Alert)
    requires k < |routes| && other.continues == routes[k].continues
    requires Notify(re, other, alert) == Notify(re, routes[k], alert)
    ensures NotifyAll(re, routes[k := other], alert) == NotifyAll(re, routes, alert)
  {
    if k > 0 {
      ReplaceSibling(re, routes[1..], k - 1, other, alert);
      assert routes[k := other][1..] == routes[1..][k - 1 := other];
    } else {
      assert routes[k := other][1..] == routes[1..];
    }
  }

  /** Deleting a route whose matchers imply those of an earlier sibling that ends the
      search, however deep in the tree, changes nothing for the alert. */
  lemma {:induction false} DeletingPreemptedPreserves(
      re: Regexp, route: Route, path: seq<nat>, i: nat, j: nat, alert: Alert)
    requires ValidPath(route, path) && i < j < |NodeAt(route, path).routes|
    requires Preempts(re, NodeAt(route, path).routes[i], NodeAt(route, path).routes[j], alert)
    ensures Notify(re, DeleteChild(route, path, j), alert) == Notify(re, route, alert)
    decreases |path|
  {
    if path == [] {
      UnreachableSibling(re, route.routes, i, j, alert);
    } else {
      var child := route.routes[path[0]];
      DeletingPreemptedPreserves(re, child, path[1..], i, j, alert);
      ReplaceSibling(re, route.routes, path[0], DeleteChild(child, path[1..], j), alert);
    }
  }

  /** Where the matchers say so themselves, it changes nothing for any alert. */
  lemma DeletingShadowedPreserves(re: Regexp, route: Route, path: seq<nat>, i: nat, j: nat, alert: Alert)
    requires ValidPath(route, path) && i < j < |NodeAt(route, path).routes|
    requires Shadows(NodeAt(route, path).routes[i], NodeAt(route, path).routes[j])
    ensures Notify(re, DeleteChild(route, path, j), alert) == Notify(re, route, alert)
  {
    ShadowsPreempts(re, NodeAt(route, path).routes[i], NodeAt(route, path).routes[j], alert);
    DeletingPreemptedPreserves(re, route, path, i, j, alert);
  }

  // ---------- Which routes are ignored ----------

  /** The search among the siblings gets as far as the `j`-th, and that one matches. */
  predicate Reached(re: Regexp, routes: seq<Route>, j: nat, alert: Alert)
    requires j < |routes|
  {
    && Matches(re, routes[j], alert)
    && forall i :: 0 <= i < j && Matches(re, routes[i], alert) ==> routes[i].continues
  }

  /** No alert reaches it, whatever the engine. */
  ghost predicate Ignored(routes: seq<Route>, j: nat)
    requires j < |routes|
  {
    forall re: Regexp, alert: Alert :: !Reached(re, routes, j, alert)
  }

  /** A string longer than all of those. */
  lemma {:induction false} LongerThan(values: set<string>) returns (pad: string)
    ensures forall v :: v in values ==> |v| < |pad|
    decreases values
  {
    if values == {} {
      pad := "";
    } else {
      var v :| v in values;
      var shorter := LongerThan(values - {v});
      pad := shorter + v + "x";
    }
  }

  function LabelsOf(routes: seq<Route>): set<string> {
    set i, k | 0 <= i < |routes| && k in routes[i].matchEq.Keys + routes[i].matchRE.Keys :: k
  }

  function ValuesOf(routes: seq<Route>): set<string> {
    set i, k | 0 <= i < |routes| && k in routes[i].matchEq.Keys :: routes[i].matchEq[k]
  }

  /** What the route requires, and on other labels a value of its own for each. */
  function Witness(late: Route, labels: set<string>, pad: string): Alert {
    map k | k in labels :: if k in late.matchEq then late.matchEq[k] else pad + k
  }

  /** An engine under which patterns match where the route needs them to, and only there. */
  ghost function WitnessEngine(late: Route, alert: Alert): Regexp {
    (p: string, v: string) => exists k :: k in late.matchRE && late.matchRE[k] == p && Label(alert, k) == v
  }

  lemma WitnessMatches(late: Route, labels: set<string>, pad: string)
    requires late.matchEq.Keys + late.matchRE.Keys <= labels
    ensures Matches(WitnessEngine(late, Witness(late, labels, pad)), late, Witness(late, labels, pad))
  {
    var alert := Witness(late, labels, pad);
    forall k | k in late.matchEq
      ensures Label(alert, k) == late.matchEq[k]
    {
      assert k in late.matchEq.Keys;
    }
  }

  lemma WitnessLabel(late: Route, labels: set<string>, pad: string, k: string)
    requires k in labels
    ensures Label(Witness(late, labels, pad), k) == if k in late.matchEq then late.matchEq[k] else pad + k
  {
  }

  lemma PaddedApart(pad: string, k: string, other: string)
    requires pad + k == pad + other
    ensures k == other
  {
    assert k == (pad + k)[|pad|..] && other == (pad + other)[|pad|..];
  }

  /** The witness matches an earlier route only if the later one includes it. */
  lemma WitnessEscapes(early: Route, late: Route, labels: set<string>, pad: string)
    requires early.matchEq.Keys + early.matchRE.Keys + late.matchEq.Keys + late.matchRE.Keys <= labels
    requires forall k :: k in early.matchEq ==> |early.matchEq[k]| < |pad|
    requires forall k :: k in late.matchEq ==> |late.matchEq[k]| < |pad|
    requires Matches(WitnessEngine(late, Witness(late, labels, pad)), early, Witness(late, labels, pad))
    ensures Includes(late, early)
  {
    var alert := Witness(late, labels, pad);
    forall k | k in early.matchEq
      ensures k in late.matchEq && late.matchEq[k] == early.matchEq[k]
    {
      assert k in early.matchEq.Keys;
      WitnessLabel(late, labels, pad, k);
    }
    forall k | k in early.matchRE
      ensures RequiresPattern(late, k, early.matchRE[k])
    {
      assert k in early.matchRE.Keys;
      WitnessLabel(late, labels, pad, k);
      assert WitnessEngine(late, alert)(early.matchRE[k], Label(alert, k));
      var other :| other in late.matchRE && late.matchRE[other] == early.matchRE[k]
                   && Label(alert, other) == Label(alert, k);
      assert other in late.matchRE.Keys;
      WitnessLabel(late, labels, pad, other);
      if k !in late.matchEq && other !in late.matchEq {
        PaddedApart(pad, k, other);
      }
    }
  }

  /** Among siblings of any shape, a route is out of reach for all alerts and all engines
      exactly when its matchers include those of an earlier one that ends the search. */
  lemma IgnoredExactlyWhen(routes: seq<Route>, j: nat)
    requires j < |routes|
    ensures Ignored(routes, j) <==> exists i :: 0 <= i < j && Shadows(routes[i], routes[j])
  {
    hide Matches, Shadows, Includes, WitnessEngine, Witness;
    if i :| 0 <= i < j && Shadows(routes[i], routes[j]) {
      forall re: Regexp, alert: Alert
        ensures !Reached(re, routes, j, alert)
      {
        ShadowsPreempts(re, routes[i], routes[j], alert);
      }
    } else {
      var late, labels := routes[j], LabelsOf(routes);
      var pad := LongerThan(ValuesOf(routes));
      var alert := Witness(late, labels, pad);
      var re := WitnessEngine(late, alert);
      WitnessFits(routes, j, pad);
      WitnessMatches(late, labels, pad);
      forall i | 0 <= i < j && Matches(re, routes[i], alert)
        ensures routes[i].continues
      {
        WitnessFits(routes, i, pad);
        WitnessEscapes(routes[i], late, labels, pad);
        ShadowsIfIncluded(routes[i], late);
      }
      assert Reached(re, routes, j, alert);
    }
  }

  lemma ShadowsIfIncluded(early: Route, late: Route)
    requires Includes(late, early)
    ensures early.continues || Shadows(early, late)
  {
  }

  lemma WitnessFits(routes: seq<Route>, i: nat, pad: string)
    requires i < |routes| && forall v :: v in ValuesOf(routes) ==> |v| < |pad|
    ensures routes[i].matchEq.Keys + routes[i].matchRE.Keys <= LabelsOf(routes)
    ensures forall k :: k in routes[i].matchEq ==> |routes[i].matchEq[k]| < |pad|
  {
    forall k | k in routes[i].matchEq
      ensures routes[i].matchEq[k] in ValuesOf(routes)
    {
      assert k in routes[i].matchEq.Keys;
    }
  }
}
