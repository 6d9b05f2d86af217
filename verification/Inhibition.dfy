/** Patterns that are alternations of plain words, the only patterns the
    inhibition rules use, and an engine that reads them. */
module Alternations {
  import opened Routing

  /** Letters, digits, '-' and '_' stand for themselves in a regular expression. */
  predicate PlainChar(c: char) {
    'a' <= c <= 'z' || 'A' <= c <= 'Z' || '0' <= c <= '9' || c == '-' || c == '_'
  }

  predicate Plain(word: string) {
    forall i :: 0 <= i < |word| ==> PlainChar(word[i])
  }

  predicate AllPlain(words: seq<string>) {
    forall i :: 0 <= i < |words| ==> Plain(words[i])
  }

  /** The pattern `w0|w1|...`. */
  function Alternation(words: seq<string>): string
    requires words != []
  {
    if |words| == 1 then words[0] else words[0] + "|" + Alternation(words[1..])
  }

  /** An engine under which an alternation of plain words matches exactly those words. */
  ghost predicate ReadsAlternations(re: Regexp) {
    forall words: seq<string>, value: string | words != [] && AllPlain(words) ::
      re(Alternation(words), value) <==> value in words
  }

  /** The words of a pattern, cut at each bar. */
  function Words(pattern: string): (words: seq<string>)
    ensures words != []
  {
    if pattern == "" then [""]
    else
      var rest := Words(pattern[1..]);
      if pattern[0] == '|' then [""] + rest else [[pattern[0]] + rest[0]] + rest[1..]
  }

  predicate WordEngine(pattern: string, value: string) {
    value in Words(pattern)
  }

  lemma {:induction false} WordsOfPlain(word: string)
    requires Plain(word)
    ensures Words(word) == [word]
  {
    if word != "" {
      WordsOfPlain(word[1..]);
      assert [word[0]] + word[1..] == word;
    }
  }

  lemma {:induction false} WordsPastBar(word: string, rest: string)
    requires Plain(word)
    ensures Words(word + "|" + rest) == [word] + Words(rest)
  {
    var pattern := word + "|" + rest;
    if word == "" {
      assert pattern[1..] == rest;
    } else {
      assert pattern[1..] == word[1..] + "|" + rest;
      WordsPastBar(word[1..], rest);
      assert [word[0]] + word[1..] == word;
    }
  }

  /** Cutting undoes joining. */
  lemma {:induction false} WordsOfAlternation(words: seq<string>)
    requires words != [] && AllPlain(words)
    ensures Words(Alternation(words)) == words
  {
    if |words| == 1 {
      WordsOfPlain(words[0]);
      assert words == [words[0]];
    } else {
      WordsOfAlternation(words[1..]);
      WordsPastBar(words[0], Alternation(words[1..]));
      assert words == [words[0]] + words[1..];
    }
  }

  /** The assumption on engines can be met. */
  lemma WordEngineReadsAlternations()
    ensures ReadsAlternations(WordEngine)
  {
    forall words: seq<string>, value: string | words != [] && AllPlain(words)
      ensures WordEngine(Alternation(words), value) <==> value in words
    {
      WordsOfAlternation(words);
    }
  }
}

/** The nine inhibition rules of `createAlertManagerConfig`
    (controllers/secret_controller.go:836-951) as a relation between firing alerts. */
module Inhibition {
  import opened AlertmanagerTypes
  import opened Routing
  import opened Alternations

  function NamedRule(equal: seq<string>, source: string, targets: seq<string>): InhibitRule
    requires targets != []
  {
    InhibitRule(equal, map["alertname" := source], map["alertname" := Alternation(targets)])
  }

  function SeverityRule(source: string, targets: seq<string>): InhibitRule
    requires targets != []
  {
    InhibitRule(["namespace", "alertname"], map["severity" := source], map["severity" := Alternation(targets)])
  }

  function CriticalRule(): InhibitRule {
    SeverityRule("critical", ["warning", "info"])
  }

  function WarningRule(): InhibitRule {
    SeverityRule("warning", ["info"])
  }

  function DegradedRule(): InhibitRule {
    InhibitRule(["namespace", "name"],
                map["alertname" := "ClusterOperatorDegraded", "severity" := "critical"],
                map["alertname" := Alternation(["ClusterOperatorDown"])])
  }

  function NotReadyRule(): InhibitRule {
    NamedRule(["node", "instance"], "KubeNodeNotReady", ["KubeNodeUnreachable"])
  }

  function UnreachableRule(): InhibitRule {
    NamedRule([], "KubeNodeUnreachable", ["SDNPodNotReady", "TargetDown"])
  }

  const NODE_SYMPTOMS := ["KubeDaemonSetRolloutStuck", "KubeDaemonSetMisScheduled", "KubeDeploymentReplicasMismatch",
                          "KubeStatefulSetReplicasMismatch", "KubePodNotReady"]

  function SymptomsRule(): InhibitRule {
    NamedRule(["instance"], "KubeNodeNotReady", NODE_SYMPTOMS)
  }

  function ReplicasRule(): InhibitRule {
    NamedRule(["namespace"], "KubeDeploymentReplicasMismatch", ["KubePodNotReady", "KubePodCrashLooping"])
  }

  function ElasticsearchRule(): InhibitRule {
    NamedRule(["dummylabel"], "ElasticsearchOperatorCSVNotSuccessful", ["ElasticsearchClusterNotHealthy"])
  }

  function ErrorBudgetRule(): InhibitRule {
    NamedRule(["severity"], "KubeAPIErrorBudgetBurn", ["api-ErrorBudgetBurn"])
  }

  function InhibitRules(): seq<InhibitRule> {
    [CriticalRule(), WarningRule(), DegradedRule(), NotReadyRule(), UnreachableRule(), SymptomsRule(),
     ReplicasRule(), ElasticsearchRule(), ErrorBudgetRule()]
  }

  predicate SourceSide(re: Regexp, rule: InhibitRule, alert: Alert) {
    MatchersHold(re, rule.sourceMatch, map[], alert)
  }

  predicate TargetSide(re: Regexp, rule: InhibitRule, alert: Alert) {
    MatchersHold(re, map[], rule.targetMatchRE, alert)
  }

  /** Documented semantics: equal labels agree (missing counts as empty), and alerts
      that match both sides do not silence one another. */
  predicate RuleInhibits(re: Regexp, rule: InhibitRule, source: Alert, target: Alert) {
    && SourceSide(re, rule, source)
    && TargetSide(re, rule, target)
    && (forall i :: 0 <= i < |rule.equal| ==> Label(source, rule.equal[i]) == Label(target, rule.equal[i]))
    && !(SourceSide(re, rule, target) && TargetSide(re, rule, source))
  }

  predicate Inhibits(re: Regexp, source: Alert, target: Alert) {
    exists i :: 0 <= i < |InhibitRules()| && RuleInhibits(re, InhibitRules()[i], source, target)
  }

  // ---------- The rank that every inhibition lowers ----------

  function SeverityRank(severity: string): nat {
    if severity == "critical" then 2 else if severity == "warning" then 1 else 0
  }

  function NameRank(name: string): nat {
    if name == "KubeNodeNotReady" then 2
    else if name in {"KubeNodeUnreachable", "KubeDeploymentReplicasMismatch", "ClusterOperatorDegraded",
                     "ElasticsearchOperatorCSVNotSuccessful", "KubeAPIErrorBudgetBurn"} then 1
    else 0
  }

  /** Lexicographic: the alert name first, then the severity. */
  function Rank(alert: Alert): (rank: nat)
    ensures rank <= 8
  {
    3 * NameRank(Label(alert, "alertname")) + SeverityRank(Label(alert, "severity"))
  }

  lemma NamedRuleSides(re: Regexp, equal: seq<string>, source: string, targets: seq<string>, alert: Alert)
    requires targets != []
    ensures SourceSide(re, NamedRule(equal, source, targets), alert) <==> Label(alert, "alertname") == source
    ensures TargetSide(re, NamedRule(equal, source, targets), alert)
       <==> re(Alternation(targets), Label(alert, "alertname"))
  {
    OneLabel(re, "alertname", source, alert);
    OnePattern(re, "alertname", Alternation(targets), alert);
  }

  lemma SeverityRuleSides(re: Regexp, source: string, targets: seq<string>, alert: Alert)
    requires targets != []
    ensures SourceSide(re, SeverityRule(source, targets), alert) <==> Label(alert, "severity") == source
    ensures TargetSide(re, SeverityRule(source, targets), alert) <==> re(Alternation(targets), Label(alert, "severity"))
  {
    OneLabel(re, "severity", source, alert);
    OnePattern(re, "severity", Alternation(targets), alert);
  }

  /** The source and target agree on the given labels, a missing one counting as empty. */
  predicate Agree(source: Alert, target: Alert, labels: seq<string>) {
    forall i :: 0 <= i < |labels| ==> Label(source, labels[i]) == Label(target, labels[i])
  }

  predicate SeveritySilences(severity: string, targets: seq<string>, source: Alert, target: Alert) {
    Label(source, "severity") == severity && Label(target, "severity") in targets
    && Agree(source, target, ["namespace", "alertname"])
  }

  predicate NameSilences(equal: seq<string>, name: string, targets: seq<string>, source: Alert, target: Alert) {
    Label(source, "alertname") == name && Label(target, "alertname") in targets && Agree(source, target, equal)
  }

  lemma SeverityRuleExactly(re: Regexp, severity: string, targets: seq<string>, source: Alert, target: Alert)
    requires ReadsAlternations(re) && targets != [] && AllPlain(targets) && severity !in targets
    ensures RuleInhibits(re, SeverityRule(severity, targets), source, target)
       <==> SeveritySilences(severity, targets, source, target)
  {
    SeverityRuleSides(re, severity, targets, source);
    SeverityRuleSides(re, severity, targets, target);
  }

  lemma NamedRuleExactly(re: Regexp, equal: seq<string>, name: string, targets: seq<string>, source: Alert,
                         target: Alert)
    requires ReadsAlternations(re) && targets != [] && AllPlain(targets) && name !in targets
    ensures RuleInhibits(re, NamedRule(equal, name, targets), source, target)
       <==> NameSilences(equal, name, targets, source, target)
  {
    NamedRuleSides(re, equal, name, targets, source);
    NamedRuleSides(re, equal, name, targets, target);
  }

  lemma PlainSeverities()
    ensures Plain("warning")
    ensures Plain("info")
  {
  }

  lemma PlainOperatorAndNode()
    ensures Plain("ClusterOperatorDown")
    ensures Plain("KubeNodeUnreachable")
  {
  }

  lemma PlainUnreachableTargets()
    ensures Plain("SDNPodNotReady")
    ensures Plain("TargetDown")
  {
  }

  lemma PlainDaemonSets()
    ensures Plain("KubeDaemonSetRolloutStuck")
    ensures Plain("KubeDaemonSetMisScheduled")
  {
  }

  lemma PlainReplicas()
    ensures Plain("KubeDeploymentReplicasMismatch")
    ensures Plain("KubeStatefulSetReplicasMismatch")
  {
  }

  lemma PlainPods()
    ensures Plain("KubePodNotReady")
    ensures Plain("KubePodCrashLooping")
  {
  }

  lemma PlainLast()
    ensures Plain("ElasticsearchClusterNotHealthy")
    ensures Plain("api-ErrorBudgetBurn")
  {
  }

  /** Down the order of names, or the same name at a lower severity. */
  predicate Below(target: Alert, source: Alert) {
    || NameRank(Label(target, "alertname")) < NameRank(Label(source, "alertname"))
    || (&& Label(target, "alertname") == Label(source, "alertname")
        && SeverityRank(Label(target, "severity")) < SeverityRank(Label(source, "severity")))
  }

  predicate CriticalSilences(source: Alert, target: Alert) {
    SeveritySilences("critical", ["warning", "info"], source, target)
  }

  predicate WarningSilences(source: Alert, target: Alert) {
    SeveritySilences("warning", ["info"], source, target)
  }

  predicate DegradedSilences(source: Alert, target: Alert) {
    NameSilences(["namespace", "name"], "ClusterOperatorDegraded", ["ClusterOperatorDown"], source, target)
    && Label(source, "severity") == "critical"
  }

  predicate NotReadySilences(source: Alert, target: Alert) {
    NameSilences(["node", "instance"], "KubeNodeNotReady", ["KubeNodeUnreachable"], source, target)
  }

  predicate UnreachableSilences(source: Alert, target: Alert) {
    NameSilences([], "KubeNodeUnreachable", ["SDNPodNotReady", "TargetDown"], source, target)
  }

  predicate SymptomsSilences(source: Alert, target: Alert) {
    NameSilences(["instance"], "KubeNodeNotReady",
                 ["KubeDaemonSetRolloutStuck", "KubeDaemonSetMisScheduled", "KubeDeploymentReplicasMismatch",
                  "KubeStatefulSetReplicasMismatch", "KubePodNotReady"], source, target)
  }

  predicate ReplicasSilences(source: Alert, target: Alert) {
    NameSilences(["namespace"], "KubeDeploymentReplicasMismatch", ["KubePodNotReady", "KubePodCrashLooping"], source,
                 target)
  }

  predicate ElasticsearchSilences(source: Alert, target: Alert) {
    NameSilences(["dummylabel"], "ElasticsearchOperatorCSVNotSuccessful", ["ElasticsearchClusterNotHealthy"], source,
                 target)
  }

  predicate ErrorBudgetSilences(source: Alert, target: Alert) {
    NameSilences(["severity"], "KubeAPIErrorBudgetBurn", ["api-ErrorBudgetBurn"], source, target)
  }

  /** The nine rules read off the labels of the two alerts. */
  predicate Silences(source: Alert, target: Alert) {
    || CriticalSilences(source, target)
    || WarningSilences(source, target)
    || DegradedSilences(source, target)
    || NotReadySilences(source, target)
    || UnreachableSilences(source, target)
    || SymptomsSilences(source, target)
    || ReplicasSilences(source, target)
    || ElasticsearchSilences(source, target)
    || ErrorBudgetSilences(source, target)
  }

  lemma CriticalExactly(re: Regexp, source: Alert, target: Alert)
    requires ReadsAlternations(re)
    ensures RuleInhibits(re, CriticalRule(), source, target) <==> CriticalSilences(source, target)
  {
    hide RuleInhibits, SeveritySilences;
    PlainSeverities();
    SeverityRuleExactly(re, "critical", ["warning", "info"], source, target);
  }

  lemma WarningExactly(re: Regexp, source: Alert, target: Alert)
    requires ReadsAlternations(re)
    ensures RuleInhibits(re, WarningRule(), source, target) <==> WarningSilences(source, target)
  {
    hide RuleInhibits, SeveritySilences;
    PlainSeverities();
    SeverityRuleExactly(re, "warning", ["info"], source, target);
  }

  lemma DegradedExactly(re: Regexp, source: Alert, target: Alert)
    requires ReadsAlternations(re)
    ensures RuleInhibits(re, DegradedRule(), source, target) <==> DegradedSilences(source, target)
  {
    PlainOperatorAndNode();
    TwoLabels(re, "alertname", "ClusterOperatorDegraded", "severity", "critical", source);
    TwoLabels(re, "alertname", "ClusterOperatorDegraded", "severity", "critical", target);
    OnePattern(re, "alertname", Alternation(["ClusterOperatorDown"]), source);
    OnePattern(re, "alertname", Alternation(["ClusterOperatorDown"]), target);
  }

  lemma NotReadyExactly(re: Regexp, source: Alert, target: Alert)
    requires ReadsAlternations(re)
    ensures RuleInhibits(re, NotReadyRule(), source, target) <==> NotReadySilences(source, target)
  {
    hide RuleInhibits, NameSilences;
    PlainOperatorAndNode();
    NamedRuleExactly(re, ["node", "instance"], "KubeNodeNotReady", ["KubeNodeUnreachable"], source, target);
  }

  lemma UnreachableExactly(re: Regexp, source: Alert, target: Alert)
    requires ReadsAlternations(re)
    ensures RuleInhibits(re, UnreachableRule(), source, target) <==> UnreachableSilences(source, target)
  {
    hide RuleInhibits, NameSilences;
    PlainUnreachableTargets();
    NamedRuleExactly(re, [], "KubeNodeUnreachable", ["SDNPodNotReady", "TargetDown"], source, target);
  }

  lemma SymptomsExactly(re: Regexp, source: Alert, target: Alert)
    requires ReadsAlternations(re)
    ensures RuleInhibits(re, SymptomsRule(), source, target) <==> SymptomsSilences(source, target)
  {
    hide RuleInhibits, NameSilences;
    PlainDaemonSets();
    PlainReplicas();
    PlainPods();
    NamedRuleExactly(re, ["instance"], "KubeNodeNotReady", NODE_SYMPTOMS, source, target);
  }

  lemma ReplicasExactly(re: Regexp, source: Alert, target: Alert)
    requires ReadsAlternations(re)
    ensures RuleInhibits(re, ReplicasRule(), source, target) <==> ReplicasSilences(source, target)
  {
    hide RuleInhibits, NameSilences;
    PlainPods();
    NamedRuleExactly(re, ["namespace"], "KubeDeploymentReplicasMismatch", ["KubePodNotReady", "KubePodCrashLooping"],
                     source, target);
  }

  lemma ElasticsearchExactly(re: Regexp, source: Alert, target: Alert)
    requires ReadsAlternations(re)
    ensures RuleInhibits(re, ElasticsearchRule(), source, target) <==> ElasticsearchSilences(source, target)
  {
    hide RuleInhibits, NameSilences;
    PlainLast();
    NamedRuleExactly(re, ["dummylabel"], "ElasticsearchOperatorCSVNotSuccessful", ["ElasticsearchClusterNotHealthy"],
                     source, target);
  }

  lemma ErrorBudgetExactly(re: Regexp, source: Alert, target: Alert)
    requires ReadsAlternations(re)
    ensures RuleInhibits(re, ErrorBudgetRule(), source, target) <==> ErrorBudgetSilences(source, target)
  {
    hide RuleInhibits, NameSilences;
    PlainLast();
    NamedRuleExactly(re, ["severity"], "KubeAPIErrorBudgetBurn", ["api-ErrorBudgetBurn"], source, target);
  }

  /** Under any engine that reads alternations the configured rules inhibit exactly
      what `Silences` says. */
  lemma InhibitsExactly(re: Regexp, source: Alert, target: Alert)
    requires ReadsAlternations(re)
    ensures Inhibits(re, source, target) <==> Silences(source, target)
  {
    hide CriticalSilences, WarningSilences, DegradedSilences, NotReadySilences, UnreachableSilences, SymptomsSilences,
        ReplicasSilences, ElasticsearchSilences, ErrorBudgetSilences;
    hide RuleInhibits, CriticalRule, WarningRule, DegradedRule, NotReadyRule, UnreachableRule, SymptomsRule,
        ReplicasRule, ElasticsearchRule, ErrorBudgetRule;
    CriticalExactly(re, source, target);
    WarningExactly(re, source, target);
    DegradedExactly(re, source, target);
    NotReadyExactly(re, source, target);
    UnreachableExactly(re, source, target);
    SymptomsExactly(re, source, target);
    ReplicasExactly(re, source, target);
    ElasticsearchExactly(re, source, target);
    ErrorBudgetExactly(re, source, target);
    var rules := InhibitRules();
    assert Inhibits(re, source, target) <==>
      RuleInhibits(re, rules[0], source, target) ||
      RuleInhibits(re, rules[1], source, target) ||
      RuleInhibits(re, rules[2], source, target) ||
      RuleInhibits(re, rules[3], source, target) ||
      RuleInhibits(re, rules[4], source, target) ||
      RuleInhibits(re, rules[5], source, target) ||
      RuleInhibits(re, rules[6], source, target) ||
      RuleInhibits(re, rules[7], source, target) ||
      RuleInhibits(re, rules[8], source, target);
  }

  lemma SeverityIsBelow(severity: string, targets: seq<string>, source: Alert, target: Alert)
    requires SeveritySilences(severity, targets, source, target)
    requires forall t :: t in targets ==> SeverityRank(t) < SeverityRank(severity)
    ensures Below(target, source)
  {
    assert Label(source, ["namespace", "alertname"][1]) == Label(target, ["namespace", "alertname"][1]);
  }

  lemma NameIsBelow(equal: seq<string>, name: string, targets: seq<string>, source: Alert, target: Alert)
    requires NameSilences(equal, name, targets, source, target)
    requires forall i :: 0 <= i < |targets| ==> NameRank(targets[i]) < NameRank(name)
    ensures Below(target, source)
  {
  }

  lemma NodeRanks()
    ensures NameRank("KubeNodeNotReady") == 2 && NameRank("KubeNodeUnreachable") == 1
    ensures NameRank("SDNPodNotReady") == NameRank("TargetDown") == NameRank("KubePodNotReady") == 0
  {
  }

  lemma WorkloadRanks()
    ensures NameRank("KubeDaemonSetRolloutStuck") == NameRank("KubeDaemonSetMisScheduled") == 0
    ensures NameRank("KubeStatefulSetReplicasMismatch") == NameRank("KubePodCrashLooping") == 0
    ensures NameRank("KubeDeploymentReplicasMismatch") == 1
  {
  }

  lemma OtherRanks()
    ensures NameRank("ClusterOperatorDown") == NameRank("ElasticsearchClusterNotHealthy")
        == NameRank("api-ErrorBudgetBurn") == 0
    ensures NameRank("ClusterOperatorDegraded") == NameRank("ElasticsearchOperatorCSVNotSuccessful")
         == NameRank("KubeAPIErrorBudgetBurn") == 1
  {
  }

  lemma SilencesIsBelow(source: Alert, target: Alert)
    requires Silences(source, target)
    ensures Below(target, source)
  {
    NodeRanks();
    WorkloadRanks();
    OtherRanks();
    hide NameRank, Below, SeveritySilences, NameSilences;
    if CriticalSilences(source, target) {
      SeverityIsBelow("critical", ["warning", "info"], source, target);
    } else if WarningSilences(source, target) {
      SeverityIsBelow("warning", ["info"], source, target);
    } else if DegradedSilences(source, target) {
      NameIsBelow(["namespace", "name"], "ClusterOperatorDegraded", ["ClusterOperatorDown"], source, target);
    } else if NotReadySilences(source, target) {
      NameIsBelow(["node", "instance"], "KubeNodeNotReady", ["KubeNodeUnreachable"], source, target);
    } else if UnreachableSilences(source, target) {
      NameIsBelow([], "KubeNodeUnreachable", ["SDNPodNotReady", "TargetDown"], source, target);
    } else if SymptomsSilences(source, target) {
      NameIsBelow(["instance"], "KubeNodeNotReady", NODE_SYMPTOMS, source, target);
    } else if ReplicasSilences(source, target) {
      NameIsBelow(["namespace"], "KubeDeploymentReplicasMismatch", ["KubePodNotReady", "KubePodCrashLooping"], source,
                  target);
    } else if ElasticsearchSilences(source, target) {
      NameIsBelow(["dummylabel"], "ElasticsearchOperatorCSVNotSuccessful", ["ElasticsearchClusterNotHealthy"], source,
                  target);
    } else {
      NameIsBelow(["severity"], "KubeAPIErrorBudgetBurn", ["api-ErrorBudgetBurn"], source, target);
    }
  }

  lemma BelowLowersRank(target: Alert, source: Alert)
    requires Below(target, source)
    ensures Rank(target) < Rank(source)
  {
  }

  /** The two severity rules keep the alert name and lower the severity; the other
      seven move down the order of names. Either way the rank falls. */
  lemma InhibitionLowersRank(re: Regexp, source: Alert, target: Alert)
    requires ReadsAlternations(re)
    ensures Inhibits(re, source, target) ==> Below(target, source) && Rank(target) < Rank(source)
  {
    hide Inhibits, Silences, Below, Rank;
    InhibitsExactly(re, source, target);
    if Inhibits(re, source, target) {
      SilencesIsBelow(source, target);
      BelowLowersRank(target, source);
    }
  }

  // ---------- Chains of inhibition ----------

  /** Each alert of the chain inhibits the next. */
  predicate IsChain(re: Regexp, chain: seq<Alert>) {
    forall i :: 0 <= i < |chain| - 1 ==> Inhibits(re, chain[i], chain[i + 1])
  }

  lemma {:induction false} ChainLowersRank(re: Regexp, chain: seq<Alert>)
    requires ReadsAlternations(re) && IsChain(re, chain) && chain != []
    ensures Rank(chain[|chain| - 1]) + |chain| - 1 <= Rank(chain[0])
  {
    hide Inhibits, Rank;
    if |chain| > 1 {
      var tail := chain[1..];
      assert forall i :: 0 <= i < |tail| ==> tail[i] == chain[i + 1];
      ChainLowersRank(re, tail);
      InhibitionLowersRank(re, chain[0], chain[1]);
    }
  }

  /** No alert inhibits itself, directly or through others. */
  lemma InhibitionAcyclic(re: Regexp, chain: seq<Alert>)
    requires ReadsAlternations(re) && IsChain(re, chain) && |chain| > 1
    ensures chain[0] != chain[|chain| - 1]
    ensures !Inhibits(re, chain[|chain| - 1], chain[0])
  {
    hide Inhibits, Rank;
    ChainLowersRank(re, chain);
    if Inhibits(re, chain[|chain| - 1], chain[0]) {
      InhibitionLowersRank(re, chain[|chain| - 1], chain[0]);
    }
  }

  /** A chain of inhibitions has at most nine alerts. */
  lemma ChainsAreShort(re: Regexp, chain: seq<Alert>)
    requires ReadsAlternations(re) && IsChain(re, chain)
    ensures |chain| <= 9
  {
    if chain != [] {
      ChainLowersRank(re, chain);
    }
  }

  predicate Inhibited(re: Regexp, firing: set<Alert>, alert: Alert) {
    exists source :: source in firing && Inhibits(re, source, alert)
  }

  /** Every firing alert is reached by a chain of firing alerts from one that nothing
      inhibits: inhibition never silences a group of alerts entirely. */
  lemma {:induction false} InhibitedTracesToRoot(re: Regexp, firing: set<Alert>, alert: Alert)
    returns (chain: seq<Alert>)
    requires ReadsAlternations(re) && alert in firing
    ensures chain != [] && chain[|chain| - 1] == alert && IsChain(re, chain)
    ensures (forall a :: a in chain ==> a in firing) && !Inhibited(re, firing, chain[0])
    decreases 8 - Rank(alert)
  {
    hide Inhibits;
    if Inhibited(re, firing, alert) {
      var source :| source in firing && Inhibits(re, source, alert);
      InhibitionLowersRank(re, source, alert);
      var front := InhibitedTracesToRoot(re, firing, source);
      chain := front + [alert];
    } else {
      chain := [alert];
    }
  }

  // ---------- The bound of nine is reached ----------

  function Named(name: string, severity: string): Alert {
    map["alertname" := name, "severity" := severity]
  }

  function NineAlerts(): seq<Alert> {
    [Named("KubeNodeNotReady", "critical"), Named("KubeNodeNotReady", "warning"), Named("KubeNodeNotReady", "info"),
     Named("KubeNodeUnreachable", "critical"), Named("KubeNodeUnreachable", "warning"),
     Named("KubeNodeUnreachable", "info"),
     Named("TargetDown", "critical"), Named("TargetDown", "warning"), Named("TargetDown", "info")]
  }

  lemma NamedLabels(name: string, severity: string)
    ensures Label(Named(name, severity), "alertname") == name
    ensures Label(Named(name, severity), "severity") == severity
    ensures forall k :: k !in {"alertname", "severity"} ==> Label(Named(name, severity), k) == ""
  {
  }

  lemma SeveritySteps(re: Regexp, name: string)
    requires ReadsAlternations(re)
    ensures Inhibits(re, Named(name, "critical"), Named(name, "warning"))
    ensures Inhibits(re, Named(name, "warning"), Named(name, "info"))
  {
    hide Inhibits, Named;
    NamedLabels(name, "critical");
    NamedLabels(name, "warning");
    NamedLabels(name, "info");
    InhibitsExactly(re, Named(name, "critical"), Named(name, "warning"));
    InhibitsExactly(re, Named(name, "warning"), Named(name, "info"));
    assert CriticalSilences(Named(name, "critical"), Named(name, "warning"));
    assert WarningSilences(Named(name, "warning"), Named(name, "info"));
  }

  lemma NameSteps(re: Regexp)
    requires ReadsAlternations(re)
    ensures Inhibits(re, Named("KubeNodeNotReady", "info"), Named("KubeNodeUnreachable", "critical"))
    ensures Inhibits(re, Named("KubeNodeUnreachable", "info"), Named("TargetDown", "critical"))
  {
    hide Inhibits, Named;
    NamedLabels("KubeNodeNotReady", "info");
    NamedLabels("KubeNodeUnreachable", "critical");
    NamedLabels("KubeNodeUnreachable", "info");
    NamedLabels("TargetDown", "critical");
    InhibitsExactly(re, Named("KubeNodeNotReady", "info"), Named("KubeNodeUnreachable", "critical"));
    InhibitsExactly(re, Named("KubeNodeUnreachable", "info"), Named("TargetDown", "critical"));
    assert NotReadySilences(Named("KubeNodeNotReady", "info"), Named("KubeNodeUnreachable", "critical"));
    assert UnreachableSilences(Named("KubeNodeUnreachable", "info"), Named("TargetDown", "critical"));
  }

  function ThreeAlerts(name: string): seq<Alert> {
    [Named(name, "critical"), Named(name, "warning"), Named(name, "info")]
  }

  lemma ThreeAlertsChain(re: Regexp, name: string)
    requires ReadsAlternations(re)
    ensures IsChain(re, ThreeAlerts(name))
  {
    hide Inhibits, Named;
    SeveritySteps(re, name);
  }

  lemma JoinChains(re: Regexp, xs: seq<Alert>, ys: seq<Alert>)
    requires IsChain(re, xs) && IsChain(re, ys) && xs != [] && ys != []
    requires Inhibits(re, xs[|xs| - 1], ys[0])
    ensures IsChain(re, xs + ys)
  {
    hide Inhibits;
    assert forall i :: 0 <= i < |ys| ==> (xs + ys)[|xs| + i] == ys[i];
  }

  lemma NineAlertsChain(re: Regexp)
    requires ReadsAlternations(re)
    ensures IsChain(re, NineAlerts()) && |NineAlerts()| == 9
  {
    hide Inhibits, Named, IsChain;
    var first, second := ThreeAlerts("KubeNodeNotReady"), ThreeAlerts("KubeNodeUnreachable");
    var third := ThreeAlerts("TargetDown");
    ThreeAlertsChain(re, "KubeNodeNotReady");
    ThreeAlertsChain(re, "KubeNodeUnreachable");
    ThreeAlertsChain(re, "TargetDown");
    NameSteps(re);
    JoinChains(re, first, second);
    JoinChains(re, first + second, third);
    assert NineAlerts() == first + second + third;
  }
}
