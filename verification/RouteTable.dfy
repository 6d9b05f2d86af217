/** The static part of a PagerDuty or GoAlert subtree, `createSubroutes` in
    controllers/secret_controller.go: rows in source order, each with the local
    variable its receiver is taken from. */
module RouteTable {
  /** Which of `receiverNull`, `receiverCommon`, ... a row uses. */
  datatype Destination = ToNull | ToCommon | ToCritical | ToError | ToWarning

  datatype Row = Row(dest: Destination, matchEq: map<string, string>, matchRE: map<string, string>)

  /** Rows ahead of and including the managed-notification row (lines 346-359). */
  function HeadRows(): seq<Row> {
    [
      Row(ToNull, map["alertname" := "Watchdog", "severity" := "none"], map[]),
      Row(ToCritical, map["alertname" := "MachineWithoutValidNode", "namespace" := "openshift-machine-api"],
          map["name" := "^.+-master-.*[0-9]+$"]),
      Row(ToCritical, map["alertname" := "MachineWithNoRunningPhase", "namespace" := "openshift-machine-api"],
          map["name" := "^.+-master-.*[0-9]+$"]),
      Row(ToCritical, map["alertname" := "etcdDatabaseQuotaLowSpace", "severity" := "warning"], map[]),
      Row(ToNull, map["alertname" := "CannotRetrieveUpdates"], map[]),
      Row(ToNull, map["send_managed_notification" := "true"], map[])
    ]
  }

  /** Alerts silenced by name (lines 361-374). */
  function NoisyAlertRows(): seq<Row> {
    [
      Row(ToNull, map["alertname" := "KubeQuotaExceeded"], map[]),
      Row(ToNull, map["alertname" := "KubeQuotaFullyUsed"], map[]),
      Row(ToNull, map["alertname" := "CPUThrottlingHigh"], map[]),
      Row(ToNull, map["alertname" := "NodeFilesystemSpaceFillingUp"], map[]),
      Row(ToNull, map["alertname" := "NodeFilesystemFilesFillingUp"], map[]),
      Row(ToNull, map["alertname" := "NodeFilesystemAlmostOutOfSpace"], map[]),
      Row(ToNull, map["alertname" := "NodeFilesystemAlmostOutOfFiles"], map[]),
      Row(ToNull, map["alertname" := "NodeFileDescriptorLimit"], map[])
    ]
  }

  /** Namespaces and further alerts silenced, then SRE logging alerts kept (lines 376-413). */
  function NoisyNamespaceRows(): seq<Row> {
    [
      Row(ToNull, map["namespace" := "openshift-customer-monitoring"], map[]),
      Row(ToNull, map["namespace" := "openshift-operators"], map[]),
      Row(ToNull, map["namespace" := "openshift-storage"], map[]),
      Row(ToNull, map["namespace" := "openshift-compliance"], map[]),
      Row(ToNull, map["exported_namespace" := "openshift-storage"], map[]),
      Row(ToNull, map["exported_namespace" := "openshift-operators"], map[]),
      Row(ToNull, map["namespace" := "openshift-operators-redhat"], map[]),
      Row(ToNull, map["alertname" := "CustomResourceDetected"], map[]),
      Row(ToNull, map["alertname" := "ImagePruningDisabled"], map[]),
      Row(ToNull, map["severity" := "info"], map[]),
      Row(ToNull, map["namespace" := "openshift-user-workload-monitoring"], map[]),
      Row(ToNull, map["alertname" := "KubePersistentVolumeFillingUp", "namespace" := "openshift-logging"], map[]),
      Row(ToNull, map["alertname" := "PodDisruptionBudgetLimit"], map[]),
      Row(ToNull, map["alertname" := "TargetDown"], map["namespace" := "^redhat-.*"]),
      Row(ToNull, map["alertname" := "KubeJobFailed"], map[]),
      Row(ToCommon, map["namespace" := "openshift-logging"], map["alertname" := "^.*SRE$"])
    ]
  }

  /** Fluentd and Elasticsearch (lines 415-429). */
  function LoggingRows(): seq<Row> {
    [
      Row(ToNull, map["alertname" := "FluentDHighErrorRate", "namespace" := "openshift-logging"], map[]),
      Row(ToNull, map["alertname" := "FluentDVeryHighErrorRate", "namespace" := "openshift-logging"], map[]),
      Row(ToNull, map["alertname" := "FluentdNodeDown", "namespace" := "openshift-logging"], map[]),
      Row(ToNull, map["alertname" := "FluentdNodeDown", "prometheus" := "openshift-monitoring/k8s"], map[]),
      Row(ToNull, map["alertname" := "FluentdQueueLengthIncreasing", "namespace" := "openshift-logging"], map[]),
      Row(ToNull, map["alertname" := "AggregatedLoggingSystemCPUHigh", "namespace" := "openshift-logging"], map[]),
      Row(ToNull, map["alertname" := "ElasticsearchClusterNotHealthy", "namespace" := "openshift-logging"], map[]),
      Row(ToNull, map["alertname" := "ElasticsearchDiskSpaceRunningLow", "namespace" := "openshift-logging"], map[]),
      Row(ToNull, map["alertname" := "ElasticsearchHighFileDescriptorUsage", "namespace" := "openshift-logging"],
          map[]),
      Row(ToNull, map["alertname" := "ElasticsearchJVMHeapUseHigh", "namespace" := "openshift-logging"], map[]),
      Row(ToNull, map["alertname" := "ElasticsearchNodeDiskWatermarkReached", "namespace" := "openshift-logging"],
          map[]),
      Row(ToNull, map["alertname" := "ElasticsearchOperatorCSVNotSuccessful", "namespace" := "openshift-logging"],
          map[]),
      Row(ToNull, map["alertname" := "ElasticsearchProcessCPUHigh", "namespace" := "openshift-logging"], map[]),
      Row(ToNull, map["alertname" := "ElasticsearchWriteRequestsRejectionJumps", "namespace" := "openshift-logging"],
          map[])
    ]
  }

  /** Vector and Loki (lines 435-450). */
  function LokiRows(): seq<Row> {
    [
      Row(ToNull, map["alertname" := "ClusterLogForwarderRuntimeConfigurationMissingUnmatched",
                      "namespace" := "openshift-logging"], map[]),
      Row(ToNull, map["alertname" := "ClusterLogForwarderOutputErrorRate", "namespace" := "openshift-logging"], map[]),
      Row(ToNull, map["alertname" := "CollectorNodeDown", "namespace" := "openshift-logging"], map[]),
      Row(ToNull, map["alertname" := "CollectorHighErrorRate", "namespace" := "openshift-logging"], map[]),
      Row(ToNull, map["alertname" := "CollectorVeryHighErrorRate", "namespace" := "openshift-logging"], map[]),
      Row(ToNull, map["alertname" := "LokiRequestErrors", "namespace" := "openshift-logging"], map[]),
      Row(ToNull, map["alertname" := "LokiStackWriteRequestErrors", "namespace" := "openshift-logging"], map[]),
      Row(ToNull, map["alertname" := "LokiStackReadRequestErrors", "namespace" := "openshift-logging"], map[]),
      Row(ToNull, map["alertname" := "LokiRequestPanics", "namespace" := "openshift-logging"], map[]),
      Row(ToNull, map["alertname" := "LokiRequestLatency", "namespace" := "openshift-logging"], map[]),
      Row(ToNull, map["alertname" := "LokiTenantRateLimit", "namespace" := "openshift-logging"], map[]),
      Row(ToNull, map["alertname" := "LokiStorageSlowWrite", "namespace" := "openshift-logging"], map[]),
      Row(ToNull, map["alertname" := "LokiStorageSlowRead", "namespace" := "openshift-logging"], map[]),
      Row(ToNull, map["alertname" := "LokiWritePathHighLoad", "namespace" := "openshift-logging"], map[]),
      Row(ToNull, map["alertname" := "LokiReadPathHighLoad", "namespace" := "openshift-logging"], map[])
    ]
  }

  /** Operators and storage (lines 454-476). */
  function OperatorRows(): seq<Row> {
    [
      Row(ToNull, map["alertname" := "HAProxyReloadFail", "severity" := "critical"], map[]),
      Row(ToNull, map["alertname" := "PrometheusRuleFailures"], map[]),
      Row(ToNull, map["alertname" := "ClusterOperatorDegraded", "name" := "authentication",
                      "reason" := "IdentityProviderConfig_Error"], map[]),
      Row(ToNull, map["alertname" := "ClusterOperatorDegraded", "name" := "authentication",
                      "reason" := "OAuthServerConfigObservation_Error"], map[]),
      Row(ToNull, map["alertname" := "ClusterOperatorDown", "name" := "authentication",
                      "reason" := "IdentityProviderConfig_Error"], map[]),
      Row(ToNull, map["alertname" := "ClusterOperatorDown", "name" := "authentication",
                      "reason" := "OAuthServerConfigObservation_Error"], map[]),
      Row(ToNull, map["alertname" := "FluentdQueueLengthBurst", "namespace" := "openshift-logging",
                      "severity" := "warning"], map[]),
      Row(ToNull, map["alertname" := "ClusterAutoscalerUnschedulablePods", "namespace" := "openshift-machine-api"],
          map[]),
      Row(ToNull, map["severity" := "alert"], map[]),
      Row(ToNull, map["alertname" := "MultipleDefaultStorageClasses",
                      "namespace" := "openshift-cluster-storage-operator"], map[]),
      Row(ToNull, map["alertname" := "NodeFilesystemAlmostOutOfSpace", "severity" := "critical"],
          map["mountpoint" := "/var/lib/ibmc-s3fs.*"])
    ]
  }

  /** Downgrades, the clock alert, logging jobs and last silences (lines 478-508). */
  function TailRows(): seq<Row> {
    [
      Row(ToWarning, map["alertname" := "KubeAPILatencyHigh", "severity" := "critical"], map[]),
      Row(ToWarning, map["alertname" := "etcdGRPCRequestsSlow", "namespace" := "openshift-etcd"], map[]),
      Row(ToNull, map["alertname" := "etcdMembersDown", "namespace" := "openshift-etcd"], map[]),
      Row(ToWarning, map["alertname" := "ExtremelyHighIndividualControlPlaneCPU",
                      "namespace" := "openshift-kube-apiserver"], map[]),
      Row(ToWarning, map["severity" := "critical", "namespace" := "openshift-deployment-validation-operator"], map[]),
      Row(ToError, map["alertname" := "NodeClockNotSynchronising", "prometheus" := "openshift-monitoring/k8s"], map[]),
      Row(ToCommon, map["job" := "fluentd", "prometheus" := "openshift-monitoring/k8s"], map[]),
      Row(ToCommon, map["cluster" := "elasticsearch", "prometheus" := "openshift-monitoring/k8s"], map[]),
      Row(ToNull, map["alertname" := "KubeAPIErrorBudgetBurn", "prometheus" := "openshift-monitoring/k8s"], map[]),
      Row(ToNull, map["alertname" := "HAProxyDown"], map[]),
      Row(ToNull, map["alertname" := "CertificateIsAboutToExpire"], map[]),
      Row(ToNull, map["alertname" := "ClusterOperatorDown", "name" := "insights"], map[])
    ]
  }

  /** Appended outside FedRAMP only (line 514). */
  function MonitoringDownRow(): Row {
    Row(ToNull, map["alertname" := "ClusterOperatorDown", "name" := "monitoring"], map[])
  }

  function LaterRows(): seq<Row> {
    LoggingRows() + LokiRows() + OperatorRows() + TailRows()
  }

  function CommonRows(): seq<Row> {
    HeadRows() + (NoisyAlertRows() + (NoisyNamespaceRows() + LaterRows()))
  }

  function StaticRows(fedramp: bool): seq<Row> {
    if fedramp then CommonRows() else CommonRows() + [MonitoringDownRow()]
  }

  const LABELS := {"alertname", "cluster", "exported_namespace", "job", "mountpoint", "name", "namespace",
                   "prometheus", "reason", "send_managed_notification", "severity"}

  const PATTERNS := {"^.+-master-.*[0-9]+$", "^redhat-.*", "^.*SRE$", "/var/lib/ibmc-s3fs.*"}

  ghost predicate WellFormed(row: Row) {
    && row.matchEq.Keys <= LABELS && row.matchRE.Keys <= LABELS
    && forall k :: k in row.matchRE ==> row.matchRE[k] in PATTERNS
  }

  ghost predicate AllWellFormed(rows: seq<Row>) {
    forall i :: 0 <= i < |rows| ==> WellFormed(rows[i])
  }

  lemma HeadRowsWellFormed()
    ensures AllWellFormed(HeadRows())
  {
  }

  lemma NoisyAlertRowsWellFormed()
    ensures AllWellFormed(NoisyAlertRows())
  {
  }

  lemma NoisyNamespaceRowsWellFormed()
    ensures AllWellFormed(NoisyNamespaceRows())
  {
  }

  lemma LoggingRowsWellFormed()
    ensures AllWellFormed(LoggingRows())
  {
  }

  lemma LokiRowsWellFormed()
    ensures AllWellFormed(LokiRows())
  {
  }

  lemma OperatorRowsWellFormed()
    ensures AllWellFormed(OperatorRows())
  {
  }

  lemma TailRowsWellFormed()
    ensures AllWellFormed(TailRows())
  {
  }

  lemma WellFormedAppend(xs: seq<Row>, ys: seq<Row>)
    requires AllWellFormed(xs) && AllWellFormed(ys)
    ensures AllWellFormed(xs + ys)
  {
  }

  lemma LaterRowsWellFormed()
    ensures AllWellFormed(LaterRows())
  {
    LoggingRowsWellFormed();
    LokiRowsWellFormed();
    OperatorRowsWellFormed();
    TailRowsWellFormed();
    WellFormedAppend(LoggingRows(), LokiRows());
    WellFormedAppend(LoggingRows() + LokiRows(), OperatorRows());
    WellFormedAppend(LoggingRows() + LokiRows() + OperatorRows(), TailRows());
  }

  /** Every row uses known labels and one of four patterns. */
  lemma StaticRowsWellFormed(fedramp: bool)
    ensures AllWellFormed(StaticRows(fedramp))
  {
    HeadRowsWellFormed();
    NoisyAlertRowsWellFormed();
    NoisyNamespaceRowsWellFormed();
    LaterRowsWellFormed();
    WellFormedAppend(NoisyNamespaceRows(), LaterRows());
    WellFormedAppend(NoisyAlertRows(), NoisyNamespaceRows() + LaterRows());
    WellFormedAppend(HeadRows(), NoisyAlertRows() + (NoisyNamespaceRows() + LaterRows()));
    WellFormedAppend(CommonRows(), [MonitoringDownRow()]);
  }
}
