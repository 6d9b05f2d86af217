/** The structural part of Alertmanager's own configuration check (README.md:82-88),
    with patterns, URLs and durations left to predicates, and
    `Config.UnmarshalYAML` of pkg/types/alertmanagerconfig.go. */
module Validation {
  import opened Wrappers
  import opened AlertmanagerTypes
  import opened Routing

  datatype Checks = Checks(pattern: string -> bool, url: string -> bool, duration: string -> bool)

  predicate LabelStart(c: char) {
    'a' <= c <= 'z' || 'A' <= c <= 'Z' || c == '_'
  }

  /** `[a-zA-Z_][a-zA-Z0-9_]*` */
  predicate ValidLabelName(name: string) {
    && name != "" && LabelStart(name[0])
    && forall i :: 0 <= i < |name| ==> LabelStart(name[i]) || '0' <= name[i] <= '9'
  }

  predicate ValidMatchers(checks: Checks, matchEq: map<string, string>, matchRE: map<string, string>) {
    && (forall k :: k in matchEq ==> ValidLabelName(k))
    && (forall k :: k in matchRE ==> ValidLabelName(k) && checks.pattern(matchRE[k]))
  }

  predicate OptionalOk(check: string -> bool, text: string) {
    text == "" || check(text)
  }

  predicate NoRepeats(s: seq<string>) {
    forall i, j :: 0 <= i < j < |s| ==> s[i] != s[j]
  }

  /** What is asked of one node, its children aside. */
  predicate ValidNode(checks: Checks, names: set<string>, route: Route) {
    && (route.receiver != "" ==> route.receiver in names)
    && ValidMatchers(checks, route.matchEq, route.matchRE)
    && (forall g :: g in route.groupBy ==> ValidLabelName(g)) && NoRepeats(route.groupBy)
    && OptionalOk(checks.duration, route.groupWait)
    && OptionalOk(checks.duration, route.groupInterval)
    && OptionalOk(checks.duration, route.repeatInterval)
  }

  /** The recursion over the routing tree. */
  predicate ValidTree(checks: Checks, names: set<string>, route: Route)
    decreases route, 1
  {
    ValidNode(checks, names, route) && ValidTrees(checks, names, route.routes)
  }

  predicate ValidTrees(checks: Checks, names: set<string>, routes: seq<Route>)
    decreases routes, 0
  {
    routes != [] ==> ValidTree(checks, names, routes[0]) && ValidTrees(checks, names, routes[1..])
  }

  predicate ValidRoot(route: Route) {
    route.receiver != "" && route.matchEq == map[] && route.matchRE == map[] && !route.continues
  }

  predicate ValidHttp(checks: Checks, http: HttpConfig) {
    OptionalOk(checks.url, http.proxyURL)
  }

  predicate ValidReceiver(checks: Checks, receiver: Receiver) {
    && receiver.name != ""
    && (forall i :: 0 <= i < |receiver.pagerduty| ==>
          && receiver.pagerduty[i].routingKey != ""
          && OptionalOk(checks.url, receiver.pagerduty[i].url)
          && ValidHttp(checks, receiver.pagerduty[i].http))
    && (forall i :: 0 <= i < |receiver.webhooks| ==>
          && checks.url(receiver.webhooks[i].url)
          && ValidHttp(checks, receiver.webhooks[i].http))
  }

  predicate ValidReceivers(checks: Checks, receivers: seq<Receiver>) {
    forall i :: 0 <= i < |receivers| ==> ValidReceiver(checks, receivers[i])
  }

  predicate ValidRule(checks: Checks, rule: InhibitRule) {
    && ValidMatchers(checks, rule.sourceMatch, rule.targetMatchRE)
    && forall l :: l in rule.equal ==> ValidLabelName(l)
  }

  predicate ValidRules(checks: Checks, rules: seq<InhibitRule>) {
    forall i :: 0 <= i < |rules| ==> ValidRule(checks, rules[i])
  }

  function NameSet(receivers: seq<Receiver>): set<string> {
    set i | 0 <= i < |receivers| :: receivers[i].name
  }

  /** The whole check. */
  predicate Accepts(checks: Checks, cfg: Config) {
    && NoRepeats(ReceiverNames(cfg.receivers))
    && cfg.route.Some? && ValidRoot(cfg.route.value)
    && ValidTree(checks, NameSet(cfg.receivers), cfg.route.value)
    && ValidReceivers(checks, cfg.receivers)
    && ValidRules(checks, cfg.inhibitRules)
    && (cfg.global.Some? ==>
          OptionalOk(checks.url, cfg.global.value.pagerdutyURL) && checks.duration(cfg.global.value.resolveTimeout))
  }

  lemma {:induction false} ValidTreesAppend(checks: Checks, names: set<string>, xs: seq<Route>, ys: seq<Route>)
    ensures ValidTrees(checks, names, xs + ys) <==> ValidTrees(checks, names, xs) && ValidTrees(checks, names, ys)
  {
    if xs == [] {
      assert xs + ys == ys;
    } else {
      assert (xs + ys)[1..] == xs[1..] + ys;
      ValidTreesAppend(checks, names, xs[1..], ys);
    }
  }

  lemma {:induction false} ValidLeaves(checks: Checks, names: set<string>, routes: seq<Route>)
    requires forall i :: 0 <= i < |routes| ==> routes[i].routes == []
    ensures ValidTrees(checks, names, routes) <==> forall i :: 0 <= i < |routes| ==> ValidNode(checks, names, routes[i])
  {
    if routes != [] {
      ValidLeaves(checks, names, routes[1..]);
      assert forall i :: 1 <= i < |routes| ==> routes[i] == routes[1..][i - 1];
      assert ValidTrees(checks, names, []);
    }
  }

  // ---------- Receivers referenced by a tree ----------

  function Referenced(route: Route): set<string>
    decreases route, 1
  {
    {route.receiver} + ReferencedAll(route.routes)
  }

  function ReferencedAll(routes: seq<Route>): set<string>
    decreases routes, 0
  {
    if routes == [] then {} else Referenced(routes[0]) + ReferencedAll(routes[1..])
  }

  lemma {:induction false} ReferencedAppend(xs: seq<Route>, ys: seq<Route>)
    ensures ReferencedAll(xs + ys) == ReferencedAll(xs) + ReferencedAll(ys)
  {
    if xs == [] {
      assert xs + ys == ys;
    } else {
      assert (xs + ys)[1..] == xs[1..] + ys;
      ReferencedAppend(xs[1..], ys);
    }
  }

  /** Alertmanager can only ever notify receivers the tree references. */
  lemma {:induction false} NotifiedAreReferenced(re: Regexp, route: Route, alert: Alert)
    ensures forall r :: r in Notify(re, route, alert) ==> r in Referenced(route)
    decreases route, 1
  {
    NotifiedAllAreReferenced(re, route.routes, alert);
  }

  lemma {:induction false} NotifiedAllAreReferenced(re: Regexp, routes: seq<Route>, alert: Alert)
    ensures forall r :: r in NotifyAll(re, routes, alert) ==> r in ReferencedAll(routes)
    decreases routes, 0
  {
    if routes != [] {
      NotifiedAreReferenced(re, routes[0], alert);
      NotifiedAllAreReferenced(re, routes[1..], alert);
    }
  }

  // ---------- Config.UnmarshalYAML ----------

  predicate UsesDefaultURL(receivers: seq<Receiver>) {
    exists i, j :: 0 <= i < |receivers| && 0 <= j < |receivers[i].pagerduty| && receivers[i].pagerduty[j].url == ""
  }

  /** The configuration after the defaults of lines 59-80: a global section always,
      and its PagerDuty URL if some integration relies on it. */
  function WithDefaults(plain: Config): Config {
    var global := if plain.global.Some? then plain.global.value else GlobalConfig("", "");
    plain.(global := Some(
      if global.pagerdutyURL == "" && UsesDefaultURL(plain.receivers)
      then global.(pagerdutyURL := DEFAULT_PAGERDUTY_URL) else global))
  }

  /** A supplied URL is kept, and one is only filled in for an integration without its own. */
  predicate Filled(decoded: Config, plain: Config) {
    && decoded == plain.(global := decoded.global) && decoded.global.Some?
    && decoded.global.value.resolveTimeout == (if plain.global.Some? then plain.global.value.resolveTimeout else "")
    && decoded.global.value.pagerdutyURL ==
       if plain.global.Some? && plain.global.value.pagerdutyURL != "" then plain.global.value.pagerdutyURL
       else if exists receiver, pd :: receiver in plain.receivers && pd in receiver.pagerduty && pd.url == ""
       then "https://events.pagerduty.com/v2/enqueue" else ""
  }

  lemma DefaultsFill(plain: Config)
    ensures Filled(WithDefaults(plain), plain)
  {
    var receivers := plain.receivers;
    if receiver, pd :| receiver in receivers && pd in receiver.pagerduty && pd.url == "" {
      var i :| 0 <= i < |receivers| && receivers[i] == receiver;
      var j :| 0 <= j < |receiver.pagerduty| && receiver.pagerduty[j] == pd;
      assert receivers[i].pagerduty[j].url == "";
    }
    if i, j :| 0 <= i < |receivers| && 0 <= j < |receivers[i].pagerduty| && receivers[i].pagerduty[j].url == "" {
      assert receivers[i].pagerduty[j] in receivers[i].pagerduty;
    }
  }

  /** Rejects repeated receiver names, and fills in the defaults otherwise. */
  method UnmarshalYAML(plain: Config) returns (decoded: Result<Config>)
    ensures decoded.Ok? <==> NoRepeats(ReceiverNames(plain.receivers))
    ensures decoded.Ok? ==> decoded.value == WithDefaults(plain) && Filled(decoded.value, plain)
  {
    var given := if plain.global.Some? then plain.global.value else GlobalConfig("", "");
    var global := given;
    var names: set<string> := {};
    var receivers := plain.receivers;
    for i := 0 to |receivers|
      invariant names == NameSet(receivers[..i])
      invariant NoRepeats(ReceiverNames(receivers[..i]))
      invariant global == if given.pagerdutyURL == "" && UsesDefaultURL(receivers[..i])
                          then given.(pagerdutyURL := DEFAULT_PAGERDUTY_URL) else given
    {
      var receiver := receivers[i];
      if receiver.name in names {
        RepeatedName(receivers, i);
        return Err("notification config name is not unique");
      }
      NewName(receivers, i);
      for j := 0 to |receiver.pagerduty|
        invariant global == if given.pagerdutyURL == ""
                               && (UsesDefaultURL(receivers[..i])
                                   || exists k :: 0 <= k < j && receiver.pagerduty[k].url == "")
                            then given.(pagerdutyURL := DEFAULT_PAGERDUTY_URL) else given
      {
        if receiver.pagerduty[j].url == "" {
          if global.pagerdutyURL == "" {
            global := global.(pagerdutyURL := DEFAULT_PAGERDUTY_URL);
          }
        }
      }
      NextURL(receivers, i);
      names := names + {receiver.name};
    }
    assert receivers[..|receivers|] == receivers;
    decoded := Ok(plain.(global := Some(global)));
    DefaultsFill(plain);
  }

  lemma RepeatedName(receivers: seq<Receiver>, i: nat)
    requires i < |receivers| && receivers[i].name in NameSet(receivers[..i])
    ensures !NoRepeats(ReceiverNames(receivers))
  {
    var k :| 0 <= k < i && receivers[..i][k].name == receivers[i].name;
    assert ReceiverNames(receivers)[k] == ReceiverNames(receivers)[i];
  }

  lemma NewName(receivers: seq<Receiver>, i: nat)
    requires i < |receivers| && receivers[i].name !in NameSet(receivers[..i])
    requires NoRepeats(ReceiverNames(receivers[..i]))
    ensures NoRepeats(ReceiverNames(receivers[..i + 1]))
    ensures NameSet(receivers[..i + 1]) == NameSet(receivers[..i]) + {receivers[i].name}
  {
    var names, longer := ReceiverNames(receivers[..i]), ReceiverNames(receivers[..i + 1]);
    assert forall k :: 0 <= k < i ==> longer[k] == names[k] && receivers[..i][k].name in NameSet(receivers[..i]);
    assert receivers[..i + 1] == receivers[..i] + [receivers[i]];
    NameSetAppend(receivers[..i], [receivers[i]]);
    assert NameSet([receivers[i]]) == {receivers[i].name} by {
      assert [receivers[i]][0].name in NameSet([receivers[i]]);
    }
  }

  lemma NameSetAppend(xs: seq<Receiver>, ys: seq<Receiver>)
    ensures NameSet(xs + ys) == NameSet(xs) + NameSet(ys)
  {
    forall name | name in NameSet(xs) + NameSet(ys)
      ensures name in NameSet(xs + ys)
    {
      if name in NameSet(xs) {
        var k :| 0 <= k < |xs| && xs[k].name == name;
        assert (xs + ys)[k].name == name;
      } else {
        var k :| 0 <= k < |ys| && ys[k].name == name;
        assert (xs + ys)[|xs| + k].name == name;
      }
    }
  }

  lemma NextURL(receivers: seq<Receiver>, i: nat)
    requires i < |receivers|
    ensures UsesDefaultURL(receivers[..i + 1])
       <==> UsesDefaultURL(receivers[..i])
            || exists k :: 0 <= k < |receivers[i].pagerduty| && receivers[i].pagerduty[k].url == ""
  {
    var shorter, longer := receivers[..i], receivers[..i + 1];
    assert forall k :: 0 <= k < i ==> longer[k] == shorter[k];
    if UsesDefaultURL(shorter) {
      var k, j :| 0 <= k < |shorter| && 0 <= j < |shorter[k].pagerduty| && shorter[k].pagerduty[j].url == "";
      assert longer[k].pagerduty[j].url == "";
    }
    if j :| 0 <= j < |receivers[i].pagerduty| && receivers[i].pagerduty[j].url == "" {
      assert longer[i].pagerduty[j].url == "";
    }
    if UsesDefaultURL(longer) {
      var k, j :| 0 <= k < |longer| && 0 <= j < |longer[k].pagerduty| && longer[k].pagerduty[j].url == "";
      assert k < i ==> shorter[k].pagerduty[j].url == "";
    }
  }
}
