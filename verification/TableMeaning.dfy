/** What the static table decides, said in labels: who the rows give an alert to, when they
    silence it, and when they leave it to the namespaces. */
module TableMeaning {
  import opened Wrappers
  import opened AlertmanagerTypes
  import opened Routing
  import opened RouteTable
  import opened Subroutes
  import opened SubrouteMeaning

  // ---------- The decision ----------

  /** Silenced by name alone: lines 361-374. */
  const NOISY_NAMES := [
    "KubeQuotaExceeded", "KubeQuotaFullyUsed", "CPUThrottlingHigh", "NodeFilesystemSpaceFillingUp",
    "NodeFilesystemFilesFillingUp", "NodeFilesystemAlmostOutOfSpace", "NodeFilesystemAlmostOutOfFiles",
    "NodeFileDescriptorLimit"]

  /** Silenced in the logging namespace: lines 415-417, 420-429 and 435-450. */
  const FLUENT_NAMES := ["FluentDHighErrorRate", "FluentDVeryHighErrorRate", "FluentdNodeDown"]

  const ELASTIC_NAMES := [
    "FluentdQueueLengthIncreasing", "AggregatedLoggingSystemCPUHigh", "ElasticsearchClusterNotHealthy",
    "ElasticsearchDiskSpaceRunningLow", "ElasticsearchHighFileDescriptorUsage", "ElasticsearchJVMHeapUseHigh",
    "ElasticsearchNodeDiskWatermarkReached", "ElasticsearchOperatorCSVNotSuccessful", "ElasticsearchProcessCPUHigh",
    "ElasticsearchWriteRequestsRejectionJumps"]

  const LOKI_NAMES := [
    "ClusterLogForwarderRuntimeConfigurationMissingUnmatched", "ClusterLogForwarderOutputErrorRate",
    "CollectorNodeDown", "CollectorHighErrorRate", "CollectorVeryHighErrorRate", "LokiRequestErrors",
    "LokiStackWriteRequestErrors", "LokiStackReadRequestErrors", "LokiRequestPanics", "LokiRequestLatency",
    "LokiTenantRateLimit", "LokiStorageSlowWrite", "LokiStorageSlowRead", "LokiWritePathHighLoad",
    "LokiReadPathHighLoad"]

  /** Lines 376-408. */
  predicate Noisy(re: Regexp, alert: Alert) {
    var name, namespace := Label(alert, "alertname"), Label(alert, "namespace");
    || namespace in ["openshift-customer-monitoring", "openshift-operators", "openshift-storage",
                     "openshift-compliance"]
    || Label(alert, "exported_namespace") in ["openshift-storage", "openshift-operators"]
    || namespace == "openshift-operators-redhat"
    || name in ["CustomResourceDetected", "ImagePruningDisabled"]
    || Label(alert, "severity") == "info"
    || namespace == "openshift-user-workload-monitoring"
    || (name == "KubePersistentVolumeFillingUp" && namespace == "openshift-logging")
    || name == "PodDisruptionBudgetLimit"
    || (name == "TargetDown" && re("^redhat-.*", namespace))
    || name == "KubeJobFailed"
  }

  /** Line 413. */
  predicate ForSre(re: Regexp, alert: Alert) {
    Label(alert, "namespace") == "openshift-logging" && re("^.*SRE$", Label(alert, "alertname"))
  }

  /** Lines 415-450. */
  predicate LoggingNoise(alert: Alert) {
    var name, namespace := Label(alert, "alertname"), Label(alert, "namespace");
    || (name in FLUENT_NAMES && namespace == "openshift-logging")
    || (name == "FluentdNodeDown" && Label(alert, "prometheus") == "openshift-monitoring/k8s")
    || (name in ELASTIC_NAMES && namespace == "openshift-logging")
    || (name in LOKI_NAMES && namespace == "openshift-logging")
  }

  /** Lines 454-476. */
  predicate OperatorNoise(re: Regexp, alert: Alert) {
    var name, namespace := Label(alert, "alertname"), Label(alert, "namespace");
    var severity := Label(alert, "severity");
    || (name == "HAProxyReloadFail" && severity == "critical")
    || name == "PrometheusRuleFailures"
    || ((name == "ClusterOperatorDegraded" || name == "ClusterOperatorDown")
        && Label(alert, "name") == "authentication"
        && Label(alert, "reason") in ["IdentityProviderConfig_Error", "OAuthServerConfigObservation_Error"])
    || (name == "FluentdQueueLengthBurst" && namespace == "openshift-logging" && severity == "warning")
    || (name == "ClusterAutoscalerUnschedulablePods" && namespace == "openshift-machine-api")
    || severity == "alert"
    || (name == "MultipleDefaultStorageClasses" && namespace == "openshift-cluster-storage-operator")
    || (name == "NodeFilesystemAlmostOutOfSpace" && severity == "critical"
        && re("/var/lib/ibmc-s3fs.*", Label(alert, "mountpoint")))
  }

  /** Lines 478-508. */
  function Downgraded(alert: Alert): Option<Destination> {
    var name, namespace := Label(alert, "alertname"), Label(alert, "namespace");
    var critical := Label(alert, "severity") == "critical";
    var k8s := Label(alert, "prometheus") == "openshift-monitoring/k8s";
    if name == "KubeAPILatencyHigh" && critical then Some(ToWarning)
    else if name == "etcdGRPCRequestsSlow" && namespace == "openshift-etcd" then Some(ToWarning)
    else if name == "etcdMembersDown" && namespace == "openshift-etcd" then Some(ToNull)
    else if name == "ExtremelyHighIndividualControlPlaneCPU" && namespace == "openshift-kube-apiserver"
    then Some(ToWarning)
    else if critical && namespace == "openshift-deployment-validation-operator" then Some(ToWarning)
    else if name == "NodeClockNotSynchronising" && k8s then Some(ToError)
    else if Label(alert, "job") == "fluentd" && k8s then Some(ToCommon)
    else if Label(alert, "cluster") == "elasticsearch" && k8s then Some(ToCommon)
    else if name == "KubeAPIErrorBudgetBurn" && k8s then Some(ToNull)
    else if name in ["HAProxyDown", "CertificateIsAboutToExpire"] then Some(ToNull)
    else if name == "ClusterOperatorDown" && Label(alert, "name") == "insights" then Some(ToNull)
    else None
  }

  /** Lines 346-353. */
  predicate Escalated(re: Regexp, alert: Alert) {
    var name := Label(alert, "alertname");
    || (name in ["MachineWithoutValidNode", "MachineWithNoRunningPhase"]
        && Label(alert, "namespace") == "openshift-machine-api" && re("^.+-master-.*[0-9]+$", Label(alert, "name")))
    || (name == "etcdDatabaseQuotaLowSpace" && Label(alert, "severity") == "warning")
  }

  /** What the table decides, row by row; `None` leaves the alert to the namespaces. */
  function Decision(re: Regexp, fedramp: bool, alert: Alert): Option<Destination> {
    var name := Label(alert, "alertname");
    if name == "Watchdog" && Label(alert, "severity") == "none" then Some(ToNull)
    else if Escalated(re, alert) then Some(ToCritical)
    else if name == "CannotRetrieveUpdates" || Label(alert, "send_managed_notification") == "true" then Some(ToNull)
    else if name in NOISY_NAMES || Noisy(re, alert) then Some(ToNull)
    else if ForSre(re, alert) then Some(ToCommon)
    else if LoggingNoise(alert) || OperatorNoise(re, alert) then Some(ToNull)
    else if Downgraded(alert).Some? then Downgraded(alert)
    else if !fedramp && name == "ClusterOperatorDown" && Label(alert, "name") == "monitoring" then Some(ToNull)
    else None
  }

  // ---------- Blocks of similar rows ----------

  /** Rows that silence alerts by one label. */
  function Block(name: string, values: seq<string>): seq<Row> {
    seq(|values|, i requires 0 <= i < |values| => Row(ToNull, map[name := values[i]], map[]))
  }

  /** Rows that silence alerts by name in one namespace. */
  function BlockIn(names: seq<string>, namespace: string): seq<Row> {
    seq(|names|, i requires 0 <= i < |names| =>
      Row(ToNull, map["alertname" := names[i], "namespace" := namespace], map[]))
  }

  lemma {:induction false} BlockDecides(re: Regexp, name: string, values: seq<string>, alert: Alert)
    ensures FirstDestination(re, Block(name, values), alert)
         == if Label(alert, name) in values then Some(ToNull) else None
  {
    if values != [] {
      assert Block(name, values) == [Row(ToNull, map[name := values[0]], map[])] + Block(name, values[1..]);
      ConsDestination(re, Row(ToNull, map[name := values[0]], map[]), Block(name, values[1..]), alert);
      OneLabel(re, name, values[0], alert);
      BlockDecides(re, name, values[1..], alert);
    }
  }

  lemma {:induction false} BlockInDecides(re: Regexp, names: seq<string>, namespace: string, alert: Alert)
    ensures FirstDestination(re, BlockIn(names, namespace), alert)
         == if Label(alert, "alertname") in names && Label(alert, "namespace") == namespace then Some(ToNull) else None
  {
    if names != [] {
      var first := Row(ToNull, map["alertname" := names[0], "namespace" := namespace], map[]);
      assert BlockIn(names, namespace) == [first] + BlockIn(names[1..], namespace);
      ConsDestination(re, first, BlockIn(names[1..], namespace), alert);
      TwoLabels(re, "alertname", names[0], "namespace", namespace, alert);
      BlockInDecides(re, names[1..], namespace, alert);
    }
  }

  /** One row at a time. */
  lemma Peel(re: Regexp, rows: seq<Row>, k: nat, alert: Alert)
    requires k < |rows|
    ensures FirstDestination(re, rows[k..], alert)
         == if MatchersHold(re, rows[k].matchEq, rows[k].matchRE, alert) then Some(rows[k].dest)
            else FirstDestination(re, rows[k + 1..], alert)
  {
    assert rows[k..][1..] == rows[k + 1..];
  }

  lemma ThreeLabels(
      re: Regexp, k0: string, v0: string, k1: string, v1: string, k2: string, v2: string, alert: Alert)
    requires k0 != k1 && k1 != k2 && k0 != k2
    ensures MatchersHold(re, map[k0 := v0, k1 := v1, k2 := v2], map[], alert)
       <==> Label(alert, k0) == v0 && Label(alert, k1) == v1 && Label(alert, k2) == v2
  {
    var required := map[k0 := v0, k1 := v1, k2 := v2];
    assert k0 in required && k1 in required && k2 in required;
  }

  lemma OneLabelAndPattern(re: Regexp, k: string, v: string, p: string, pattern: string, alert: Alert)
    ensures MatchersHold(re, map[k := v], map[p := pattern], alert)
       <==> Label(alert, k) == v && re(pattern, Label(alert, p))
  {
    OneLabel(re, k, v, alert);
  }

  // ---------- Section by section ----------

  lemma NoisyAlertDecides(re: Regexp, alert: Alert)
    ensures FirstDestination(re, NoisyAlertRows(), alert)
         == if Label(alert, "alertname") in NOISY_NAMES then Some(ToNull) else None
  {
    hide NoisyAlertRows, NOISY_NAMES, Block, FirstDestination;
    NoisyAlertBlock();
    BlockDecides(re, "alertname", NOISY_NAMES, alert);
  }

  lemma NoisyAlertBlock()
    ensures NoisyAlertRows() == Block("alertname", NOISY_NAMES)
  {
  }

  lemma LokiDecides(re: Regexp, alert: Alert)
    ensures FirstDestination(re, LokiRows(), alert)
         == if Label(alert, "alertname") in LOKI_NAMES && Label(alert, "namespace") == "openshift-logging"
            then Some(ToNull) else None
  {
    hide LokiRows, LOKI_NAMES, BlockIn, FirstDestination;
    LokiBlock();
    BlockInDecides(re, LOKI_NAMES, "openshift-logging", alert);
  }

  lemma LokiBlock()
    ensures LokiRows() == BlockIn(LOKI_NAMES, "openshift-logging")
  {
  }

  lemma LoggingBlocks()
    ensures LoggingRows()
         == BlockIn(FLUENT_NAMES, "openshift-logging")
            + ([Row(ToNull, map["alertname" := "FluentdNodeDown", "prometheus" := "openshift-monitoring/k8s"], map[])]
               + BlockIn(ELASTIC_NAMES, "openshift-logging"))
  {
  }

  lemma LoggingDecides(re: Regexp, alert: Alert)
    ensures FirstDestination(re, LoggingRows() + LokiRows(), alert)
         == if LoggingNoise(alert) then Some(ToNull) else None
  {
    hide LoggingRows, LokiRows, FLUENT_NAMES, ELASTIC_NAMES, LOKI_NAMES, BlockIn, FirstDestination;
    var fluent, elastic := BlockIn(FLUENT_NAMES, "openshift-logging"), BlockIn(ELASTIC_NAMES, "openshift-logging");
    var node := Row(ToNull, map["alertname" := "FluentdNodeDown", "prometheus" := "openshift-monitoring/k8s"], map[]);
    LoggingBlocks();
    BlockInDecides(re, FLUENT_NAMES, "openshift-logging", alert);
    BlockInDecides(re, ELASTIC_NAMES, "openshift-logging", alert);
    TwoLabels(re, "alertname", "FluentdNodeDown", "prometheus", "openshift-monitoring/k8s", alert);
    ConsDestination(re, node, elastic, alert);
    DestinationAppend(re, fluent, [node] + elastic, alert);
    LokiDecides(re, alert);
    DestinationAppend(re, LoggingRows(), LokiRows(), alert);
  }

  /** The rows of lines 376-413. */
  lemma NoisyNamespaceBlocks()
    ensures |NoisyNamespaceRows()| == 16
    ensures NoisyNamespaceRows()[..4]
         == Block("namespace", ["openshift-customer-monitoring", "openshift-operators", "openshift-storage",
                                "openshift-compliance"])
    ensures NoisyNamespaceRows()[4..6] == Block("exported_namespace", ["openshift-storage", "openshift-operators"])
    ensures NoisyNamespaceRows()[7..9] == Block("alertname", ["CustomResourceDetected", "ImagePruningDisabled"])
  {
  }

  lemma NoisyNamespaceSingles()
    ensures |NoisyNamespaceRows()| == 16
    ensures NoisyNamespaceRows()[6] == Row(ToNull, map["namespace" := "openshift-operators-redhat"], map[])
    ensures NoisyNamespaceRows()[9] == Row(ToNull, map["severity" := "info"], map[])
    ensures NoisyNamespaceRows()[10] == Row(ToNull, map["namespace" := "openshift-user-workload-monitoring"], map[])
    ensures NoisyNamespaceRows()[11]
         == Row(ToNull, map["alertname" := "KubePersistentVolumeFillingUp", "namespace" := "openshift-logging"], map[])
    ensures NoisyNamespaceRows()[12] == Row(ToNull, map["alertname" := "PodDisruptionBudgetLimit"], map[])
    ensures NoisyNamespaceRows()[13]
         == Row(ToNull, map["alertname" := "TargetDown"], map["namespace" := "^redhat-.*"])
    ensures NoisyNamespaceRows()[14] == Row(ToNull, map["alertname" := "KubeJobFailed"], map[])
    ensures NoisyNamespaceRows()[15]
         == Row(ToCommon, map["namespace" := "openshift-logging"], map["alertname" := "^.*SRE$"])
  {
  }

  /** A stretch of rows, then the rest. */
  lemma Stretch(re: Regexp, rows: seq<Row>, from: nat, to: nat, alert: Alert)
    requires from <= to <= |rows|
    ensures FirstDestination(re, rows[from..], alert)
         == if FirstDestination(re, rows[from..to], alert).Some? then FirstDestination(re, rows[from..to], alert)
            else FirstDestination(re, rows[to..], alert)
  {
    assert rows[from..] == rows[from..to] + rows[to..];
    DestinationAppend(re, rows[from..to], rows[to..], alert);
  }

  lemma NoisyNamespaceFront(re: Regexp, alert: Alert)
    ensures |NoisyNamespaceRows()| == 16
    ensures FirstDestination(re, NoisyNamespaceRows(), alert)
         == if || Label(alert, "namespace") in ["openshift-customer-monitoring", "openshift-operators",
                                                "openshift-storage", "openshift-compliance"]
               || Label(alert, "exported_namespace") in ["openshift-storage", "openshift-operators"]
               || Label(alert, "namespace") == "openshift-operators-redhat"
               || Label(alert, "alertname") in ["CustomResourceDetected", "ImagePruningDisabled"]
            then Some(ToNull) else FirstDestination(re, NoisyNamespaceRows()[9..], alert)
  {
    hide NoisyNamespaceRows, Block, FirstDestination;
    var rows := NoisyNamespaceRows();
    NoisyNamespaceBlocks();
    NoisyNamespaceSingles();
    assert rows[0..] == rows && rows[0..4] == rows[..4];
    Stretch(re, rows, 0, 4, alert);
    Stretch(re, rows, 4, 6, alert);
    Peel(re, rows, 6, alert);
    Stretch(re, rows, 7, 9, alert);
    BlockDecides(re, "namespace", ["openshift-customer-monitoring", "openshift-operators", "openshift-storage",
                                   "openshift-compliance"], alert);
    BlockDecides(re, "exported_namespace", ["openshift-storage", "openshift-operators"], alert);
    OneLabel(re, "namespace", "openshift-operators-redhat", alert);
    BlockDecides(re, "alertname", ["CustomResourceDetected", "ImagePruningDisabled"], alert);
  }

  lemma NoisyNamespaceDecides(re: Regexp, alert: Alert)
    ensures FirstDestination(re, NoisyNamespaceRows(), alert)
         == if Noisy(re, alert) then Some(ToNull) else if ForSre(re, alert) then Some(ToCommon) else None
  {
    hide NoisyNamespaceRows, FirstDestination;
    var rows := NoisyNamespaceRows();
    NoisyNamespaceFront(re, alert);
    NoisyNamespaceSingles();
    Peel(re, rows, 9, alert);
    Peel(re, rows, 10, alert);
    Peel(re, rows, 11, alert);
    Peel(re, rows, 12, alert);
    Peel(re, rows, 13, alert);
    Peel(re, rows, 14, alert);
    Peel(re, rows, 15, alert);
    NothingLeft(re, rows, alert);
    OneLabel(re, "severity", "info", alert);
    OneLabel(re, "namespace", "openshift-user-workload-monitoring", alert);
    TwoLabels(re, "alertname", "KubePersistentVolumeFillingUp", "namespace", "openshift-logging", alert);
    OneLabel(re, "alertname", "PodDisruptionBudgetLimit", alert);
    OneLabelAndPattern(re, "alertname", "TargetDown", "namespace", "^redhat-.*", alert);
    OneLabel(re, "alertname", "KubeJobFailed", alert);
    OneLabelAndPattern(re, "namespace", "openshift-logging", "alertname", "^.*SRE$", alert);
  }

  lemma NothingLeft(re: Regexp, rows: seq<Row>, alert: Alert)
    ensures FirstDestination(re, rows[|rows|..], alert) == None
  {
  }

  lemma OperatorDecides(re: Regexp, alert: Alert)
    ensures FirstDestination(re, OperatorRows(), alert) == if OperatorNoise(re, alert) then Some(ToNull) else None
  {
    hide OperatorRows, FirstDestination, MatchersHold, Label;
    var rows := OperatorRows();
    OperatorSingles();
    assert rows[0..] == rows;
    Peel(re, rows, 0, alert);
    Peel(re, rows, 1, alert);
    Peel(re, rows, 2, alert);
    Peel(re, rows, 3, alert);
    Peel(re, rows, 4, alert);
    Peel(re, rows, 5, alert);
    Peel(re, rows, 6, alert);
    Peel(re, rows, 7, alert);
    Peel(re, rows, 8, alert);
    Peel(re, rows, 9, alert);
    Peel(re, rows, 10, alert);
    NothingLeft(re, rows, alert);
    TwoLabels(re, "alertname", "HAProxyReloadFail", "severity", "critical", alert);
    OneLabel(re, "alertname", "PrometheusRuleFailures", alert);
    AuthenticationRow(re, "ClusterOperatorDegraded", "IdentityProviderConfig_Error", alert);
    AuthenticationRow(re, "ClusterOperatorDegraded", "OAuthServerConfigObservation_Error", alert);
    AuthenticationRow(re, "ClusterOperatorDown", "IdentityProviderConfig_Error", alert);
    AuthenticationRow(re, "ClusterOperatorDown", "OAuthServerConfigObservation_Error", alert);
    ThreeLabels(re, "alertname", "FluentdQueueLengthBurst", "namespace", "openshift-logging", "severity", "warning",
                alert);
    TwoLabels(re, "alertname", "ClusterAutoscalerUnschedulablePods", "namespace", "openshift-machine-api", alert);
    OneLabel(re, "severity", "alert", alert);
    TwoLabels(re, "alertname", "MultipleDefaultStorageClasses", "namespace", "openshift-cluster-storage-operator",
              alert);
    TwoLabelsAndPattern(re, "alertname", "NodeFilesystemAlmostOutOfSpace", "severity", "critical", "mountpoint",
                        "/var/lib/ibmc-s3fs.*", alert);
  }

  lemma AuthenticationRow(re: Regexp, name: string, reason: string, alert: Alert)
    ensures MatchersHold(re, map["alertname" := name, "name" := "authentication", "reason" := reason], map[], alert)
       <==> Label(alert, "alertname") == name && Label(alert, "name") == "authentication"
            && Label(alert, "reason") == reason
  {
    ThreeLabels(re, "alertname", name, "name", "authentication", "reason", reason, alert);
  }

  lemma OperatorSingles()
    ensures |OperatorRows()| == 11
    ensures OperatorRows()[0] == Row(ToNull, map["alertname" := "HAProxyReloadFail", "severity" := "critical"], map[])
    ensures OperatorRows()[1] == Row(ToNull, map["alertname" := "PrometheusRuleFailures"], map[])
    ensures OperatorRows()[2]
         == Row(ToNull, map["alertname" := "ClusterOperatorDegraded", "name" := "authentication",
                            "reason" := "IdentityProviderConfig_Error"], map[])
    ensures OperatorRows()[3]
         == Row(ToNull, map["alertname" := "ClusterOperatorDegraded", "name" := "authentication",
                            "reason" := "OAuthServerConfigObservation_Error"], map[])
    ensures OperatorRows()[4]
         == Row(ToNull, map["alertname" := "ClusterOperatorDown", "name" := "authentication",
                            "reason" := "IdentityProviderConfig_Error"], map[])
    ensures OperatorRows()[5]
         == Row(ToNull, map["alertname" := "ClusterOperatorDown", "name" := "authentication",
                            "reason" := "OAuthServerConfigObservation_Error"], map[])
    ensures OperatorRows()[6]
         == Row(ToNull, map["alertname" := "FluentdQueueLengthBurst", "namespace" := "openshift-logging",
                            "severity" := "warning"], map[])
    ensures OperatorRows()[7]
         == Row(ToNull, map["alertname" := "ClusterAutoscalerUnschedulablePods",
                            "namespace" := "openshift-machine-api"], map[])
    ensures OperatorRows()[8] == Row(ToNull, map["severity" := "alert"], map[])
    ensures OperatorRows()[9]
         == Row(ToNull, map["alertname" := "MultipleDefaultStorageClasses",
                            "namespace" := "openshift-cluster-storage-operator"], map[])
    ensures OperatorRows()[10]
         == Row(ToNull, map["alertname" := "NodeFilesystemAlmostOutOfSpace", "severity" := "critical"],
                map["mountpoint" := "/var/lib/ibmc-s3fs.*"])
  {
  }

  lemma TailDecides(re: Regexp, alert: Alert)
    ensures FirstDestination(re, TailRows(), alert) == Downgraded(alert)
  {
    hide TailRows, FirstDestination, MatchersHold, Label;
    var rows := TailRows();
    TailSingles();
    assert rows[0..] == rows;
    Peel(re, rows, 0, alert);
    Peel(re, rows, 1, alert);
    Peel(re, rows, 2, alert);
    Peel(re, rows, 3, alert);
    Peel(re, rows, 4, alert);
    Peel(re, rows, 5, alert);
    Peel(re, rows, 6, alert);
    Peel(re, rows, 7, alert);
    Peel(re, rows, 8, alert);
    Peel(re, rows, 9, alert);
    Peel(re, rows, 10, alert);
    Peel(re, rows, 11, alert);
    NothingLeft(re, rows, alert);
    TwoLabels(re, "alertname", "KubeAPILatencyHigh", "severity", "critical", alert);
    TwoLabels(re, "alertname", "etcdGRPCRequestsSlow", "namespace", "openshift-etcd", alert);
    TwoLabels(re, "alertname", "etcdMembersDown", "namespace", "openshift-etcd", alert);
    TwoLabels(re, "alertname", "ExtremelyHighIndividualControlPlaneCPU", "namespace", "openshift-kube-apiserver",
              alert);
    TwoLabels(re, "severity", "critical", "namespace", "openshift-deployment-validation-operator", alert);
    TwoLabels(re, "alertname", "NodeClockNotSynchronising", "prometheus", "openshift-monitoring/k8s", alert);
    TwoLabels(re, "job", "fluentd", "prometheus", "openshift-monitoring/k8s", alert);
    TwoLabels(re, "cluster", "elasticsearch", "prometheus", "openshift-monitoring/k8s", alert);
    TwoLabels(re, "alertname", "KubeAPIErrorBudgetBurn", "prometheus", "openshift-monitoring/k8s", alert);
    OneLabel(re, "alertname", "HAProxyDown", alert);
    OneLabel(re, "alertname", "CertificateIsAboutToExpire", alert);
    TwoLabels(re, "alertname", "ClusterOperatorDown", "name", "insights", alert);
  }

  lemma TailSingles()
    ensures |TailRows()| == 12
    ensures TailRows()[0] == Row(ToWarning, map["alertname" := "KubeAPILatencyHigh", "severity" := "critical"], map[])
    ensures TailRows()[1]
         == Row(ToWarning, map["alertname" := "etcdGRPCRequestsSlow", "namespace" := "openshift-etcd"], map[])
    ensures TailRows()[2] == Row(ToNull, map["alertname" := "etcdMembersDown", "namespace" := "openshift-etcd"], map[])
    ensures TailRows()[3]
         == Row(ToWarning, map["alertname" := "ExtremelyHighIndividualControlPlaneCPU",
                               "namespace" := "openshift-kube-apiserver"], map[])
    ensures TailRows()[4]
         == Row(ToWarning, map["severity" := "critical",
                               "namespace" := "openshift-deployment-validation-operator"], map[])
    ensures TailRows()[5]
         == Row(ToError, map["alertname" := "NodeClockNotSynchronising",
                             "prometheus" := "openshift-monitoring/k8s"], map[])
    ensures TailRows()[6] == Row(ToCommon, map["job" := "fluentd", "prometheus" := "openshift-monitoring/k8s"], map[])
    ensures TailRows()[7]
         == Row(ToCommon, map["cluster" := "elasticsearch", "prometheus" := "openshift-monitoring/k8s"], map[])
    ensures TailRows()[8]
         == Row(ToNull, map["alertname" := "KubeAPIErrorBudgetBurn",
                            "prometheus" := "openshift-monitoring/k8s"], map[])
    ensures TailRows()[9] == Row(ToNull, map["alertname" := "HAProxyDown"], map[])
    ensures TailRows()[10] == Row(ToNull, map["alertname" := "CertificateIsAboutToExpire"], map[])
    ensures TailRows()[11] == Row(ToNull, map["alertname" := "ClusterOperatorDown", "name" := "insights"], map[])
  {
  }

  // ---------- The whole table ----------

  lemma LaterDecides(re: Regexp, alert: Alert)
    ensures FirstDestination(re, LaterRows(), alert)
         == if LoggingNoise(alert) || OperatorNoise(re, alert) then Some(ToNull) else Downgraded(alert)
  {
    hide LoggingRows, LokiRows, OperatorRows, TailRows, FirstDestination, LoggingNoise, OperatorNoise, Downgraded;
    LoggingDecides(re, alert);
    OperatorDecides(re, alert);
    TailDecides(re, alert);
    DestinationAppend(re, LoggingRows() + LokiRows(), OperatorRows(), alert);
    DestinationAppend(re, LoggingRows() + LokiRows() + OperatorRows(), TailRows(), alert);
  }

  lemma MonitoringDecides(re: Regexp, alert: Alert)
    ensures FirstDestination(re, [MonitoringDownRow()], alert)
         == if Label(alert, "alertname") == "ClusterOperatorDown" && Label(alert, "name") == "monitoring"
            then Some(ToNull) else None
  {
    ConsDestination(re, MonitoringDownRow(), [], alert);
    assert [MonitoringDownRow()] + [] == [MonitoringDownRow()];
    TwoLabels(re, "alertname", "ClusterOperatorDown", "name", "monitoring", alert);
  }

  lemma EscalatedAsBefore(re: Regexp, alert: Alert)
    ensures Escalates(re, alert) <==> Escalated(re, alert)
  {
  }

  /** The first row that matches decides as the labels say. */
  lemma TableDecides(re: Regexp, fedramp: bool, alert: Alert)
    ensures FirstDestination(re, StaticRows(fedramp), alert) == Decision(re, fedramp, alert)
  {
    hide HeadRows, NoisyAlertRows, NoisyNamespaceRows, LaterRows, MonitoringDownRow, FirstDestination;
    hide Escalated, Noisy, ForSre, LoggingNoise, OperatorNoise, Downgraded, NOISY_NAMES, Escalates;
    HeadDestination(re, alert);
    EscalatedAsBefore(re, alert);
    NoisyAlertDecides(re, alert);
    NoisyNamespaceDecides(re, alert);
    LaterDecides(re, alert);
    MonitoringDecides(re, alert);
    DestinationAppend(re, NoisyNamespaceRows(), LaterRows(), alert);
    DestinationAppend(re, NoisyAlertRows(), NoisyNamespaceRows() + LaterRows(), alert);
    DestinationAppend(re, HeadRows(), NoisyAlertRows() + (NoisyNamespaceRows() + LaterRows()), alert);
    DestinationAppend(re, CommonRows(), [MonitoringDownRow()], alert);
  }

  // ---------- What the subtrees make of it ----------

  /** Some pattern matches the exported namespace, or without one the namespace itself. */
  predicate PagerdutyNamespace(re: Regexp, namespaces: seq<string>, alert: Alert) {
    && Label(alert, "prometheus") == "openshift-monitoring/k8s"
    && exists n ::
      && n in namespaces
      && (re(n, Label(alert, "exported_namespace"))
          || (Label(alert, "exported_namespace") == "" && re(n, Label(alert, "namespace"))))
  }

  predicate GoAlertNamespace(re: Regexp, namespaces: seq<string>, alert: Alert) {
    && Label(alert, "prometheus") == "openshift-monitoring/k8s" && Label(alert, "exported_namespace") == ""
    && Label(alert, "severity") in ["critical", "error", "warning"]
    && exists n :: n in namespaces && re(n, Label(alert, "namespace"))
  }

  /** PagerDuty's receiver of an alert. */
  function PagerdutyFor(re: Regexp, namespaces: seq<string>, fedramp: bool, alert: Alert): string {
    match Decision(re, fedramp, alert)
    case Some(ToNull) => "null"
    case Some(ToCritical) => "make-it-critical"
    case Some(ToError) => "make-it-error"
    case Some(ToWarning) => "make-it-warning"
    case Some(ToCommon) => "pagerduty"
    case None => if PagerdutyNamespace(re, namespaces, alert) then "pagerduty" else "null"
  }

  /** GoAlert's receiver of an alert. */
  function GoAlertFor(re: Regexp, namespaces: seq<string>, fedramp: bool, alert: Alert): string {
    match Decision(re, fedramp, alert)
    case Some(ToNull) => "null"
    case Some(ToCritical) => "goalert-high"
    case Some(ToError) => "goalert-high"
    case Some(ToWarning) => "goalert"
    case Some(ToCommon) => "goalert"
    case None =>
      if !GoAlertNamespace(re, namespaces, alert) then "null"
      else if Label(alert, "severity") == "warning" then "goalert" else "goalert-high"
  }

  /** Both subtrees deliver as the labels say. */
  lemma SubtreesDeliver(re: Regexp, namespaces: seq<string>, fedramp: bool, alert: Alert)
    ensures Notify(re, Subtree(Pagerduty, namespaces, fedramp), alert) == [PagerdutyFor(re, namespaces, fedramp, alert)]
    ensures Notify(re, Subtree(GoAlert, namespaces, fedramp), alert) == [GoAlertFor(re, namespaces, fedramp, alert)]
  {
    hide StaticRows, Decision, FirstDestination, Notify, SubtreeOver;
    TableDecides(re, fedramp, alert);
    SubtreeDelivery(Pagerduty, re, StaticRows(fedramp), namespaces, alert);
    SubtreeDelivery(GoAlert, re, StaticRows(fedramp), namespaces, alert);
  }
}
