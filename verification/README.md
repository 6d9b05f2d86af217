# Verified model of configure-alertmanager-operator

The operator turns secrets, configmaps and cluster facts into an Alertmanager
configuration, keeps paging off until the cluster is ready, and validates every
configuration before it stores it. This project models that behaviour in Dafny and
proves what alerts, clusters and maintainers can rely on. `dafny verify dfyconfig.toml`
checks all of it.

- **Routing** (`Types`, `Routing`, `RouteTable`, `Subroutes`, `TableMeaning`, `Compiler`,
  `Delivery`, `ReceiverMeaning`, `IgnoredRoutes`, `ReachedRoutes`, `ReachedRows`).
  Routing trees get the meaning Alertmanager documents for them
  (https://prometheus.io/docs/alerting/latest/configuration/#route), with the regular
  expression engine left arbitrary. The compiler is proved to build the specified tree,
  and the tree to deliver according to a closed form; every delivery theorem holds for
  all alerts, all namespace lists and all sets of integrations. `TableMeaning` and
  `ReceiverMeaning` state the outcome once more without the compiler's own names, from the
  labels of an alert to the URL or key that is used. Facts about subtrees are
  proved for any static table first and then used on the real one. Under FedRAMP nothing
  in the configuration depends on the cluster's identity (`Compiler.FedrampHidesCluster`).
- **Closure** (`Validation`, `Closure`). The recursive structural check, the decoder of
  the types package, and the proof that a compiled configuration defines exactly the
  receivers it references.
- **Inhibition** (`Inhibition`). The nine rules as a relation between alerts.
- **Readiness** (`Readiness`, `ReadinessLaws`). The engine as a class with its loops,
  its cache and its int64 arithmetic, and its behaviour over whole runs.
- **Reconciliation** (`Namespaces`, `Metrics`, `Reconciler`, `ReconcilerLaws`). The
  reconciler as a class over an API server. Every API answer of a reconciliation is an
  independent input, so the safety theorems cover objects that change and calls that
  fail between any two reads, as well as restarts. `Namespaces.OrdinaryExactlyWhen` says
  when cluster-type detection, which `DetectionFailsSafe` is about, answers ordinary.
- **Bundle generation** (`Bundle`, `BundleBooks`, `BundleMeaning`, `BundleGenerator`,
  `BundleOutcomes`, `BundleLaws`). The
  script that shrinks its document index in place, when it raises, and where it puts
  every document.

## Where the code and its documentation differ

The model follows the code.

- The comment at controllers/secret_controller.go:202 says that ClusterVersion events
  trigger a reconciliation. ClusterVersion is cluster-scoped, the namespace guard comes
  first, and such events are skipped (`ReconcilerLaws.ClusterVersionEventsAreSkipped`;
  `AttemptsExactlyWhen` gives the exact condition).
- The bundle script says that leftover bindings are an error. Its check looks at role
  kinds it has already removed, so it never fires; `BundleLaws.LeftOverExactlyWhen` says
  which bindings a finished run leaves over, and `LooseEndsAreBundled` shows some.
- The script announces NoAssociatedRoleBinding for a Role without a binding. The class's
  initialiser takes one argument fewer than it is given, so raising it raises TypeError,
  or KeyError when the Role has no namespace (`WrongArguments` and `MissingKey`;
  `BundleOutcomes.UnboundRoleRaises`, `NeverRaised`).
- The script's `filename_for` promises a unique name for a unique resource. No document
  has one (`BundleLaws.NoFilenameIsUnique`); `SharesFileExactlyWhen` gives a largest
  family in which names are unique.
- The creation-time loop treats Go's zero time as "no sample yet". It returns the minimum
  exactly when the minimum is another time (`ReadinessLaws.CachesMinimumExactlyWhen`;
  `OrderIrrelevantExactlyWhen` says when the order of the samples matters).
- A maximum age above 153722867 minutes overflows (`ReadinessLaws.ProductExactWhen`,
  `AgeAsSetExactlyWhen`, `OverflowDeclaresReady`); polling ends under every setting all the same
  (`PollingTerminates`).
- The README asks that no rule be ignored. Some are, for four reasons. The matchers of the
  route at controllers/secret_controller.go:476 include those of line 371
  (`Delivery.MountpointRouteIsDead`), and those of a namespace listed twice are repeated;
  no other route is out of reach by its matchers alone (`IgnoredRoutes.IgnoredInSubtree`,
  `NoneIgnoredAtRoot`). Routes of namespaces that static rows silence or downgrade never
  see an alert when the engine reads the anchored names as themselves
  (`ReachedRoutes.GoAlertDeadExactlyWhen`, `PagerdutyDeadExactlyWhen`). With OCM Agent
  configured, none is left for the row of line 359 (`ReachedRows.LiveInTreeExactlyWhen`).
  `RowLiveExactlyWhen`, `GoAlertLiveExactlyWhen`, `ExportedLiveExactlyWhen` and
  `OwnLiveExactlyWhen` say for any given engine which routes some alert reaches.

## Model

| member | source | states |
|---|---|---|
| Routing.NotifyAllAppend | controllers/secret_controller.go:335-341 | A list of sibling routes delivers what its front delivers, followed by what its back delivers unless the front ended the search |
| Routing.DeletingPreemptedPreserves | README.md:33 | For an alert whose match of a route implies that of an earlier sibling without `continue`, deleting the route, at any depth of any tree, changes nothing |
| Routing.DeletingShadowedPreserves | README.md:33 | Where the later route's matchers include the earlier one's, it changes what no alert gets under any engine |
| Routing.IgnoredExactlyWhen | README.md:33 | Among siblings of any shape, the matchers alone put a route out of reach, for all alerts and all engines, exactly when they include those of an earlier sibling without `continue` |
| RouteTable.StaticRowsWellFormed | controllers/secret_controller.go:342-516 | Every row of the static table matches on eleven known labels and uses one of four patterns |
| Subroutes.AppendNamespaceRoutes | controllers/secret_controller.go:518-536 | The loop appends, per namespace in list order, two PagerDuty or three GoAlert routes |
| Subroutes.CreateSubroutes | controllers/secret_controller.go:312-547 | The built subtree is the specified one, whose delivery the lemmas below characterise |
| SubrouteMeaning.NamespaceRoutesDeliver | controllers/secret_controller.go:518-536 | The namespace routes of any list deliver exactly what one question about the set of patterns decides |
| SubrouteMeaning.SubtreeDelivery | controllers/secret_controller.go:312-547 | A subtree hands every alert to exactly one receiver: the first matching static row's, or else the one given in closed form by labels and patterns |
| SubrouteMeaning.MoreNamespacesKeepReceivers | controllers/secret_controller.go:518-536 | Adding namespaces keeps every non-null receiver, for any static table, either integration and any regexp engine |
| SubrouteMeaning.NamespaceListIsASet | controllers/secret_controller.go:518-536 | Permuting or repeating namespaces changes no delivery |
| SubrouteMeaning.GoAlertRefinesPagerduty | controllers/secret_controller.go:316-331 | Whatever GoAlert delivers PagerDuty delivers too, and a static match gives corresponding receivers |
| SubrouteMeaning.GoAlertDropsExactly | controllers/secret_controller.go:518-536 | The exact family of alerts that reach PagerDuty and not GoAlert |
| SubrouteMeaning.GoAlertEquivalentToPagerduty | controllers/secret_controller.go:518-536 | With no exported namespace, a paging severity and no pattern matching the empty string, one pages exactly when the other does |
| SubrouteMeaning.HeadDestination | controllers/secret_controller.go:346-359 | What the first six rows decide, as a function of the labels |
| SubrouteMeaning.ManagedAlertDelivery | controllers/secret_controller.go:346-359 | A managed notification pages exactly through the three escalation routes, whatever the namespaces |
| SubrouteMeaning.InfoAlertDelivery | controllers/secret_controller.go:346-394 | An alert of severity info pages exactly when it reports a lost master node, whatever the namespaces |
| TableMeaning.TableDecides | controllers/secret_controller.go:342-516 | The whole table, outside FedRAMP and under it, as one decision on literal alert names, namespaces and other labels and on the four patterns: which alerts become critical, errors, warnings or common, which are silenced, and which the table leaves to the namespaces |
| TableMeaning.SubtreesDeliver | controllers/secret_controller.go:312-547 | The receiver each of the two subtrees hands an alert to, by literal receiver name, from that decision and the namespace patterns |
| Compiler.CreatePagerdutyConfig | controllers/secret_controller.go:579-613 | The details map filled and then, under FedRAMP, blanked in place is the specified one |
| Compiler.CreatePagerdutyReceivers | controllers/secret_controller.go:629-666 | Four receivers that differ in name and severity override only, or none without a key |
| Compiler.CreateAlertManagerConfig | controllers/secret_controller.go:770-955 | The appended routes and receivers form the specified configuration for every combination of keys, URLs and namespaces |
| Delivery.ConfigDelivery | controllers/secret_controller.go:770-834 | The whole tree means: snitch always, then OCM Agent or CAD exclusively, or else every paging integration, null if nobody |
| Delivery.ExclusiveDelivery | controllers/secret_controller.go:774-789 | With OCM Agent a managed notification goes to it plus at most the snitch; otherwise with CAD a routed alert goes to it plus at most the snitch; neither gets any other alert |
| Delivery.ManagedWithoutOcm | controllers/secret_controller.go:346-359 | Without OCM Agent a managed notification CAD does not take pages only through the escalation routes, and then as critical |
| Delivery.HeartbeatsCoexist | controllers/secret_controller.go:693-710 | A Watchdog alert not taken exclusively reaches each configured heartbeat, and with severity none pages nobody |
| Delivery.MoreNamespacesKeepDelivery | controllers/secret_controller.go:518-546 | Across the whole tree, adding namespaces leaves every receiver in place except null ones |
| Delivery.NamespacesActAsSet | controllers/secret_controller.go:518-546 | Across the whole tree, the namespace list acts as a set |
| Delivery.MountpointRouteIsDead | controllers/secret_controller.go:476 | Deleting the mountpoint route from either subtree changes what no alert gets from the whole configuration |
| ReceiverMeaning.ReceiversDescribed | controllers/secret_controller.go:549-834 | Every receiver of a compiled configuration holds, by literal name, the URL or key of its own integration, its proxy, and for PagerDuty its severity override and details under both settings of FedRAMP |
| ReceiverMeaning.TreeDelivers | controllers/secret_controller.go:312-834 | The compiled tree hands every alert, under any engine, to a list of receivers given by literal labels and names throughout |
| ReceiverMeaning.LabelsDetermineEndpoint | controllers/secret_controller.go:770-834 | Each receiver an alert is handed to is defined exactly once and holds what its name says, so the labels determine the URL or key that is used |
| ReceiverMeaning.CriticalAlertsUse | controllers/secret_controller.go:770-804 | An alert the table calls critical uses the PagerDuty key with the severity overridden, and the high GoAlert URL |
| ReceiverMeaning.Settings | controllers/secret_controller.go:537-834 | Grouping, waits, intervals and defaults of the root, of its children and of every route of the subtrees |
| ReceiverMeaning.ConfigInhibits | controllers/secret_controller.go:836-951 | The rules of a compiled configuration silence exactly the pairs of alerts that nine conditions on labels name |
| IgnoredRoutes.CoversExactlyWhen | controllers/secret_controller.go:342-516 | Among all pairs of the 83 static rows, an earlier row's matchers are included in a later one's for the rows of lines 371 and 476 only |
| IgnoredRoutes.IgnoredInSubtree | controllers/secret_controller.go:312-547 | For either integration and every namespace list, the matchers alone put a route of the subtree out of reach, for all alerts and all engines, exactly when it is the one of line 476 or belongs to a namespace listed before; what one given engine leaves out of reach the next rows say |
| ReachedRows.RowLiveExactlyWhen | controllers/secret_controller.go:342-516 | Under any given engine, some alert reaches a static row exactly when it is not the one of line 476, its pattern, if any, matches something the rows before leave it, and the row that keeps SRE's logging alerts does not take all of its alerts |
| ReachedRoutes.GoAlertLiveExactlyWhen | controllers/secret_controller.go:529-535 | Under any given engine, some alert reaches a GoAlert route of a namespace exactly when its pattern is the first to match some namespace that no static row silences; the route for critical alerts is also closed to the one downgraded at line 486 |
| ReachedRoutes.ExportedLiveExactlyWhen | controllers/secret_controller.go:519-527 | Some alert reaches PagerDuty's route for an exported namespace exactly when its pattern is the first to match some value but the two silenced ones |
| ReachedRoutes.OwnLiveExactlyWhen | controllers/secret_controller.go:519-527 | Some alert reaches PagerDuty's route for a namespace itself exactly when no pattern so far matches the empty string and its own is the first to match some namespace that is not silenced |
| ReachedRoutes.GoAlertDeadExactlyWhen | controllers/secret_controller.go:376-396 | With anchored names read as themselves, a GoAlert route is dead exactly when its namespace was listed before or is one of the six silenced, or, for critical alerts, the downgraded one |
| ReachedRoutes.PagerdutyDeadExactlyWhen | controllers/secret_controller.go:376-396 | So are PagerDuty's two routes, each with its own silenced values, the second also from an empty name on |
| ReachedRoutes.LiteralEngineReadsNames | controllers/secret_controller.go:518-536 | Some engine reads all anchored names as themselves |
| ReachedRows.LiveInTreeExactlyWhen | controllers/secret_controller.go:774-812 | In the whole tree the same routes are reached, but for the one of line 359, which OCM Agent's route at the top leaves no alert |
| IgnoredRoutes.NoneIgnoredAtRoot | controllers/secret_controller.go:774-812 | Every top-level route of a compiled configuration is reached by some alert |
| Validation.NotifiedAreReferenced | pkg/types/alertmanagerconfig.go:97-111 | Only receivers referenced in a tree can ever be notified by it |
| Validation.UnmarshalYAML | pkg/types/alertmanagerconfig.go:50-81 | Decoding succeeds exactly when receiver names are distinct; it keeps everything supplied, the PagerDuty URL included, adds a global section, and fills in the default URL exactly when some integration relies on it |
| Closure.EveryDestinationOccurs | controllers/secret_controller.go:342-509 | All five receivers of a subtree occur in its static part, so even an empty namespace list references them |
| Closure.NamesDefined | controllers/secret_controller.go:770-812 | Receiver names are pairwise distinct and are those the inputs call for |
| Closure.NamesReferenced | controllers/secret_controller.go:774-834 | The receivers referenced anywhere in the tree are those the inputs call for |
| Closure.ConfigClosed | controllers/secret_controller.go:770-834 | Receivers defined equal receivers referenced, with distinct names, for every input |
| Closure.AcceptedExactlyWhen | controllers/secret_controller.go:1342-1358 | The structural check (README.md:82-88) accepts the compiled configuration exactly when the supplied URLs and, if a paging integration is configured, the supplied patterns are acceptable |
| Closure.CompiledNeedsNoDefaults | pkg/types/alertmanagerconfig.go:59-78 | Reading the compiled configuration back rejects nothing and adds nothing |
| Alternations.WordsOfAlternation | controllers/secret_controller.go:845-946 | Cutting a joined pattern at its bars gives back the words |
| Alternations.WordEngineReadsAlternations | controllers/secret_controller.go:845-946 | Some engine reads alternations of plain words as the lemmas below assume |
| Inhibition.InhibitsExactly | controllers/secret_controller.go:836-951 | The nine rules inhibit exactly the pairs of alerts given by explicit label conditions |
| Inhibition.InhibitionLowersRank | controllers/secret_controller.go:836-951 | Severity rules keep the name and lower the severity, the others move down an order of names, so a rank falls |
| Inhibition.InhibitionAcyclic | controllers/secret_controller.go:836-951 | No alert inhibits itself, directly or through a chain |
| Inhibition.ChainsAreShort | controllers/secret_controller.go:836-951 | Chains of inhibition have at most nine alerts |
| Inhibition.NineAlertsChain | controllers/secret_controller.go:836-951 | A chain of nine alerts exists |
| Inhibition.InhibitedTracesToRoot | controllers/secret_controller.go:836-951 | In any finite set of firing alerts every alert is reached by a chain from one that nothing inhibits |
| Readiness.Impl.AllReady | pkg/readiness/cluster_ready.go:76-95 | The nested loops with breaks decide that no condition of any operator is Progressing=True, Degraded=True or Available=False |
| Readiness.Impl.SetClusterCreationTime | pkg/readiness/cluster_ready.go:164-196 | Caches the running choice over the samples once, and succeeds exactly when a time is known afterwards |
| Readiness.Impl.IsReady | pkg/readiness/cluster_ready.go:64-124 | One call changes the engine and answers as the transition function says, all fields included |
| ReadinessLaws.ReachableConsistent | pkg/readiness/cluster_ready.go:64-124 | In every reachable state ready implies a zero result |
| ReadinessLaws.StepExactly | pkg/readiness/cluster_ready.go:64-124 | Answer, wait and memory of a call of a not-ready engine, in literal conditions, times and waits: it declares readiness exactly when the operators were read, there is one, and none is progressing, degraded or unavailable, or when the creation time is known and beyond the age limit, 90 minutes by default |
| ReadinessLaws.RequeueFollowsAnswer | pkg/readiness/cluster_ready.go:98-123 | Not ready without error always leaves a requeue, of 1 s exactly while the creation time is unknown and of 30 s otherwise; only a malformed setting fails |
| ReadinessLaws.ReadinessNeverReverts | pkg/readiness/cluster_ready.go:65-68 | Once ready, every later call answers ready and changes nothing |
| ReadinessLaws.CreationTimeNeverChanges | pkg/readiness/cluster_ready.go:165-167 | A cached creation time survives every later call |
| ReadinessLaws.ReadyOnEvidence | pkg/readiness/cluster_ready.go:72-116 | Readiness is declared only when operators were listed and none has one of the three conditions, or on a known age beyond the limit |
| ReadinessLaws.CachesMinimumExactlyWhen | pkg/readiness/cluster_ready.go:183-194 | The loop caches the minimum sample exactly when that minimum is not Go's zero time |
| ReadinessLaws.FailsExactlyWhen | pkg/readiness/cluster_ready.go:183-192 | The loop fails exactly for an empty vector, or one ending in the zero time with nothing below it |
| ReadinessLaws.OrderIrrelevantExactlyWhen | pkg/readiness/cluster_ready.go:183-192 | Every order of the samples gives the same answer exactly when their minimum is not the zero time, or all of them are, or there are none |
| ReadinessLaws.ZeroSampleMakesOrderMatter | pkg/readiness/cluster_ready.go:183-192 | Two orders of the same two samples give a wrong time and an error |
| ReadinessLaws.ProductExactWhen | pkg/readiness/cluster_ready.go:199 | The int64 nanosecond product is exact exactly up to 153722867 minutes either way |
| ReadinessLaws.AgeAsSetExactlyWhen | pkg/readiness/cluster_ready.go:198-201 | The age test says `older than the setting` for every cluster and time exactly for settings up to 153722867 minutes either way |
| ReadinessLaws.OverflowDeclaresReady | pkg/readiness/cluster_ready.go:198-201 | One minute more and a cluster created this instant counts as too old |
| ReadinessLaws.UnreadyPollsLimited | pkg/readiness/cluster_ready.go:198-201 | The number of unready polls a setting allows is 2*maxAge+1 where the product fits, 0 for negative ages that fit, and at most 307445735 under any wrap-around |
| ReadinessLaws.PollingTerminates | pkg/readiness/cluster_ready.go:104-123 | With a known creation time and any setting, polls at least 30 s apart report not ready at most that often, so at most 2*maxAge+1 times for every maxAge >= 0 (181 by default), and never fail |
| ReadinessLaws.PollingBoundIsTight | pkg/readiness/cluster_ready.go:104-123 | Polls exactly 30 s apart reach that number under every setting |
| ReadinessLaws.CallFailsExactlyWhen | pkg/readiness/cluster_ready.go:64-110 | A call fails exactly when the engine is not ready, the operators are not settled, the creation time is known and the setting is malformed |
| Namespaces.ParseNamespaceConfigMap | controllers/secret_controller.go:1000-1023 | Anchored names of a listed, decodable configmap, nothing otherwise |
| Namespaces.ParseMCNamespaceConfigMap | controllers/secret_controller.go:1027-1060 | Anchored additional namespaces, nothing on any error path |
| Namespaces.ParseConfigMaps | controllers/secret_controller.go:958-997 | The assembled list, with detection errors counted as a management cluster |
| Namespaces.PatternsExactly | controllers/secret_controller.go:958-1060 | The list is one anchored pattern a name, in order: the managed names, the OCP names, and the management cluster's own unless the cluster is known to be ordinary; or the three wide patterns when one of the first two lists is empty |
| Namespaces.DefaultsExactlyWhen | controllers/secret_controller.go:984-996 | The list is never empty, and is the three defaults exactly when a base list is empty |
| Namespaces.DetectionFailsSafe | controllers/secret_controller.go:963-982 | Whatever is notified with the ordinary list is notified to the same receiver when the cluster is a management cluster or detection fails |
| Metrics.Gauges.UpdateSecretsMetrics | pkg/metrics/metrics.go:115-201 | All seven gauges after the loops, as functions of the listing and the receivers, the others unchanged |
| Metrics.Gauges.UpdateConfigMapMetrics | pkg/metrics/metrics.go:205-233 | Both configmap gauges, the others unchanged |
| Reconciler.SecretReconciler.ParseSecrets | controllers/secret_controller.go:1080-1140 | Paging keys only from listed secrets and only when ready; the snitch URL regardless of readiness |
| Reconciler.SecretReconciler.ReadOCMAgentURL | controllers/secret_controller.go:1063-1078 | The URL of a listed configmap if it parses, else none |
| Reconciler.SecretReconciler.WriteAlertManagerConfig | controllers/secret_controller.go:1395-1446 | Validate, update, create if missing: the new store, gauge and history on every path |
| Reconciler.SecretReconciler.Reconcile | controllers/secret_controller.go:184-297 | One reconciliation changes the whole world and returns as the transition function says, for arbitrary API answers |
| ReconcilerLaws.LastKnownGood | controllers/secret_controller.go:1395-1446 | In every run with environment changes, failed calls and restarts, each value ever written marshalled and passed the check, and the secret holds the latest one until others change the cluster |
| ReconcilerLaws.OnlyWritesChangeStore | controllers/secret_controller.go:184-288 | Irrelevant requests, readiness errors, failed validations and failed calls change no stored object; a change, and any success, is a validated write of alertmanager-main alone |
| ReconcilerLaws.GaugeTellsLastAttempt | pkg/metrics/metrics.go:236-242 | After every run the validation gauge is 0 exactly when the latest write attempt of the process validated and wrote |
| ReconcilerLaws.PagesOnlyWhenReady | controllers/secret_controller.go:1090-1139 | A configuration with a paging receiver is compiled only from a ready answer |
| ReconcilerLaws.PagingIsGated | controllers/secret_controller.go:225-288 | In every run, a written configuration that can page was preceded, in the same process, by a declaration of readiness on evidence |
| ReconcilerLaws.PagesExactlyWhen | controllers/secret_controller.go:774-804 | A compiled configuration can page exactly when its inputs configure PagerDuty, CAD, GoAlert or the GoAlert heartbeat |
| ReconcilerLaws.PagingIsSwitchedOn | pkg/readiness/cluster_ready.go:104-123 | With a known creation time, more undisturbed reconciliations at least 30 s apart than the setting can leave unready end with readiness declared and with alertmanager-main holding what the stored objects call for on a ready cluster |
| ReconcilerLaws.UndisturbedCallsExist | controllers/secret_controller.go:184-297 | From any world, any number of undisturbed reconciliations 30 s apart under any setting is possible |
| ReconcilerLaws.UnreadyNeverPages | controllers/secret_controller.go:1087-1139 | Compiled before readiness, the tree hands no alert to any paging receiver |
| ReconcilerLaws.AttemptsExactlyWhen | controllers/secret_controller.go:184-229 | A write is attempted exactly for nine literal names in openshift-monitoring, unless a malformed age limit was needed to tell readiness |
| ReconcilerLaws.HeardExactlyWhen | controllers/secret_controller.go:184-200 | Those nine are the names whose requests can lead to a write attempt at all |
| ReconcilerLaws.WatchListIsComplete | controllers/secret_controller.go:188-283 | What the stored objects call for changes only with the cluster's own facts or with an object a request for which can lead to a write attempt, so no change of an object the compiler reads is missed |
| ReconcilerLaws.RunFailsExactlyWhen | controllers/secret_controller.go:284-288 | With Alertmanager's loader deciding as the structural check does, a run that could tell readiness fails exactly over an API call, a supplied URL or a pattern, never over what the compiler built |
| ReconcilerLaws.PollsUntilReady | controllers/secret_controller.go:295-296 | A successful reconciliation of an unready cluster asks to be requeued in 1 s or 30 s, of a ready one not at all |
| ReconcilerLaws.HonestInputs | controllers/secret_controller.go:1080-1140 | Undisturbed reads yield the inputs that the stored objects call for, each from its secret or configmap and key by literal name |
| ReconcilerLaws.MainIsNotAnInput | controllers/secret_controller.go:231-283 | The content and existence of alertmanager-main never influence what is compiled |
| ReconcilerLaws.SelfHealing | controllers/secret_controller.go:231-297 | From any stored or missing alertmanager-main one undisturbed run leaves exactly the compiled configuration, under the key alertmanager.yaml |
| ReconcilerLaws.Idempotent | controllers/secret_controller.go:231-297 | A second undisturbed run with the same readiness answer stores the same value |
| ReconcilerLaws.HistoryIndependent | controllers/secret_controller.go:231-297 | Two operators with any past end with the same value over the same other objects |
| ReconcilerLaws.GaugesAgreeWithCompiler | manifests/05_prometheusrules.yaml:12-36 | After a successful reconciliation contains is at most exists, and each mismatch sum is 1 exactly when the secret was listed but not compiled in or alertmanager-main was not listed |
| Bundle.WithoutPresent | boilerplate/openshift/golang-osd-operator/csv-generate/common-generate-operator-bundle.py:210-240 | Trimming a present document of unique key removes that one only |
| Bundle.LastBindingIsLast | boilerplate/openshift/golang-osd-operator/csv-generate/common-generate-operator-bundle.py:147-150 | The binding kept for a role name is the one at the last place that refers to it, and there is none exactly when nothing refers to it |
| BundleMeaning.ClusterPermissionExactly | boilerplate/openshift/golang-osd-operator/csv-generate/common-generate-operator-bundle.py:188-208 | A ClusterRole's permission carries its rules and the operator's name when no ClusterRoleBinding refers to it, and otherwise the name of the first subject of kind ServiceAccount in the last one that does |
| BundleMeaning.GoesToCSVExactly | boilerplate/openshift/golang-osd-operator/csv-generate/common-generate-operator-bundle.py:312-331 | A Role is injected exactly when the last RoleBinding that refers to it has one subject, a ServiceAccount of the operator's namespace or of none |
| BundleMeaning.PermissionExactly | boilerplate/openshift/golang-osd-operator/csv-generate/common-generate-operator-bundle.py:312-331 | A Role's permission carries its rules and the name of that subject |
| BundleMeaning.FirstTwoAre | boilerplate/openshift/golang-osd-operator/csv-generate/common-generate-operator-bundle.py:333-371 | The deployments that reach the CSV are the first document of kind Deployment and the second, if there is one |
| BundleBooks.ConsumeKeepsBalanced | boilerplate/openshift/golang-osd-operator/csv-generate/common-generate-operator-bundle.py:295-297 | Trimming a binding keeps the books balanced, also when an earlier role consumed it |
| BundleBooks.TrimmedAway | boilerplate/openshift/golang-osd-operator/csv-generate/common-generate-operator-bundle.py:295-297 | Balanced books mean that what was consumed or injected has left the index |
| BundleBooks.BooksClose | boilerplate/openshift/golang-osd-operator/csv-generate/common-generate-operator-bundle.py:373-391 | Balanced books and a bundled remainder mean conservation |
| BundleGenerator.Generator.Load | boilerplate/openshift/golang-osd-operator/csv-generate/common-generate-operator-bundle.py:132-150 | The index holds each kind's documents in order, the dictionaries the binding loaded last for each role name and nothing else; the first bad document stops the run |
| BundleGenerator.Generator.TrimIndex | boilerplate/openshift/golang-osd-operator/csv-generate/common-generate-operator-bundle.py:210-240 | All, one or none of a kind's documents leave the index |
| BundleGenerator.Generator.DiscoverServiceAccount | boilerplate/openshift/golang-osd-operator/csv-generate/common-generate-operator-bundle.py:188-208 | The operator's name without a binding; otherwise the name of the first subject of kind ServiceAccount, and an error exactly when there is none |
| BundleGenerator.Generator.ProcessClusterRoles | boilerplate/openshift/golang-osd-operator/csv-generate/common-generate-operator-bundle.py:283-301 | Each ClusterRole is injected once, in order, with its rules and the account of its last binding, and that binding has left the index; it fails over the first role that lacks an account or rules |
| BundleGenerator.Generator.ProcessRoles | boilerplate/openshift/golang-osd-operator/csv-generate/common-generate-operator-bundle.py:312-331 | Exactly the roles whose last binding is one service account of the operator's namespace are injected, in order, and they and those bindings have left the index; it fails over the first role without binding, subjects or needed rules |
| BundleGenerator.Generator.Generate | boilerplate/openshift/golang-osd-operator/csv-generate/common-generate-operator-bundle.py:132-391 | Which failure ends the run is a function of the inputs; a run that finishes conserves documents of unique keys, consumes exactly the last bindings of injected roles, and writes permissions, deployments and files as the documents call for |
| BundleLaws.EachLandsOnce | boilerplate/openshift/golang-osd-operator/csv-generate/common-generate-operator-bundle.py:276-391 | Every document but Deployments and ServiceAccounts lands exactly once |
| BundleOutcomes.FinishesExactlyWhen | boilerplate/openshift/golang-osd-operator/csv-generate/common-generate-operator-bundle.py:132-331 | The exact conditions under which the script does not raise: literal kinds, deployments by place, and accounts, bindings and subjects by position |
| BundleOutcomes.RaisesExactlyWhen | boilerplate/openshift/golang-osd-operator/csv-generate/common-generate-operator-bundle.py:132-331 | Which exception ends a run, each by an exact condition on documents, namespace and image and on which document is the first to fail; whatever is left is a missing key |
| BundleOutcomes.NeverRaised | boilerplate/openshift/golang-osd-operator/csv-generate/common-generate-operator-bundle.py:318-385 | BindingsNotSupported and NoAssociatedRoleBinding are never what ends a run |
| BundleOutcomes.UnboundRoleRaises | boilerplate/openshift/golang-osd-operator/csv-generate/common-generate-operator-bundle.py:312-316 | A Role without binding ends the run with TypeError, or with KeyError if it has no namespace |
| BundleLaws.ConsumedExactlyWhen | boilerplate/openshift/golang-osd-operator/csv-generate/common-generate-operator-bundle.py:293-331 | A binding is consumed exactly when its role was loaded, no later binding of that role was, and a RoleBinding's subject makes the role injectable |
| BundleLaws.BundledExactlyWhen | boilerplate/openshift/golang-osd-operator/csv-generate/common-generate-operator-bundle.py:373-391 | The documents a finished run copies into the bundle, each by an exact condition on what was loaded |
| BundleLaws.RolesLandOnce | boilerplate/openshift/golang-osd-operator/csv-generate/common-generate-operator-bundle.py:312-331 | A Role is in the CSV permissions exactly when its last binding makes it injectable, and in the bundle exactly otherwise |
| BundleLaws.InjectedInOrder | boilerplate/openshift/golang-osd-operator/csv-generate/common-generate-operator-bundle.py:283-331 | The CSV lists every ClusterRole, and the Roles whose last binding says so, in the order of the documents |
| BundleLaws.LeftOverExactlyWhen | boilerplate/openshift/golang-osd-operator/csv-generate/common-generate-operator-bundle.py:380-385 | A finished run leaves a binding in the bundle exactly when its role is missing, a later binding of that role replaced it, or it is a RoleBinding that does not make its role injectable |
| BundleLaws.LooseEndsAreBundled | boilerplate/openshift/golang-osd-operator/csv-generate/common-generate-operator-bundle.py:380-385 | Documents on which the script finishes with three bindings left over, one of them for a role that was loaded |
| BundleLaws.FilenameIdentifies | boilerplate/openshift/golang-osd-operator/csv-generate/common-generate-operator-bundle.py:160-173 | File names are distinct for distinct documents when underscores cannot be mistaken for separators |
| BundleLaws.SharesFileExactlyWhen | boilerplate/openshift/golang-osd-operator/csv-generate/common-generate-operator-bundle.py:160-173 | A document shares its file name with one of that family exactly when it is outside the family, so no larger family has unique names |
| BundleLaws.NoFilenameIsUnique | boilerplate/openshift/golang-osd-operator/csv-generate/common-generate-operator-bundle.py:160-173 | Every document shares its file name with some document of another key |
| BundleLaws.UnderscoreCollides | boilerplate/openshift/golang-osd-operator/csv-generate/common-generate-operator-bundle.py:160-173 | Two distinct documents whose file is Role_a_b.yaml |
| BundleLaws.NoFileLost | boilerplate/openshift/golang-osd-operator/csv-generate/common-generate-operator-bundle.py:175-186 | Under that condition every bundled document survives in the file spelled by its kind, namespace and name |

## Left out

- Kubernetes client, caches, watches, leader election and manager start-up: plumbing. API calls are inputs that may fail.
- The Prometheus client and its token file, and the metrics HTTP server: network. The sample vector, or its absence, is an input.
- `amconfig.Load`, yaml.v2, net/url and Go's regexp are not part of this model: marshalling, loading, decoding, URL parsing and pattern matching are arbitrary functions; `Validation.Accepts` is the structural part of the load check, with patterns, URLs and durations as predicates, and `ReconcilerLaws.RunFailsExactlyWhen` assumes the loader to decide as it does.
- The texts of the PagerDuty templates: constants the operator passes on unread; the model names them by what they render.
- Routes without a receiver of their own inherit their parent's in Alertmanager: every compiled route names one, so `Routing.Notify` does without inheritance.
- `createSubroutes` returns nil for a receiver type other than its two constants: no caller passes one, and the type here has two values.
- The first cluster-type detection in `Reconcile` (line 208) only logs and records an event; log lines and Kubernetes events are left out.
- ReachedRoutes.GoAlertLiveExactlyWhen, and with it the results on routes for a namespace itself and on the whole tree: take an engine whose reading of `^.*SRE$` refuses the empty string, as every engine for that syntax does.
- An update or create call that reports failure is taken to have stored nothing.
- `createHttpConfig`'s empty TLS section, the unused fields of the configuration types (`TargetMatch`, `SourceMatchRE`, PagerDuty class, component and group) and the region lookup per platform: they carry no property.
- Times are unbounded integers of nanoseconds: the int64 wrap-around of `time.Unix` for samples near 2^63 seconds is not modelled, that of the age product is.
- A Prometheus answer that is not a vector makes `setClusterCreationTime` panic; only vectors are modelled.
- The wall clock is an input of each readiness call; a clock that steps back is allowed in runs, but `ReadinessLaws.PollingTerminates` speaks of polls that move forward.
- BundleGenerator.Generator.Generate: says where documents go when none share kind, namespace and name; CSV metadata, owned CRD entries and the edits of images and environment variables are not modelled, nor the errors raised for documents without a kind, a name or the fields those edits read.
- BundleOutcomes.FinishesExactlyWhen: leaves out those errors too.
- Closure.AcceptedExactlyWhen: speaks of the structural check; that Alertmanager's `Load` decides as it does is the assumption `LoadsByStructure` of `ReconcilerLaws.RunFailsExactlyWhen`.
- Service and ServiceMonitor generation, FedRAMP environment parsing, the OLM-to-PKO migration, shell scripts and the end-to-end harness: text templating and calls to outside tools.
