/** The namespace patterns read from configmaps, and management-cluster detection
    (controllers/secret_controller.go:958-1057, 1208-1242). */
module Namespaces {
  import opened Wrappers
  import opened AlertmanagerTypes
  import opened Routing
  import opened SubrouteMeaning
  import opened Compiler
  import opened Delivery

  /** A decoded `managed_namespaces.yaml`. */
  datatype NamespaceConfig = NamespaceConfig(namespaces: seq<string>, managementCluster: Option<seq<string>>)

  const CM_MANAGED := "managed-namespaces"
  const CM_OCP := "ocp-namespaces"

  const DEFAULT_NAMESPACES := [PD_REGEX_OS, PD_REGEX_LP, PD_REGEX_KUBE]

  // ---------- Management-cluster detection ----------

  const CLUSTER_TYPE_MANAGEMENT := "management-cluster"

  /** The API answers detection uses: the infrastructure name, and the cluster-type
      annotation of ClusterVersion; `None` outside is a failed call, inside a missing one. */
  datatype ClusterFacts = ClusterFacts(infraName: Option<string>, annotation: Option<Option<string>>)

  function IsManagementCluster(facts: ClusterFacts): Result<bool> {
    if facts.infraName.None? then Err("infrastructure")
    else if |facts.infraName.value| >= 5 && facts.infraName.value[..5] == "hs-mc" then Ok(true)
    else if facts.annotation.None? then Ok(false)
    else match facts.annotation.value
      case Some(clusterType) => Ok(clusterType == CLUSTER_TYPE_MANAGEMENT)
      case None => Ok(false)
  }

  /** Detection errors count as a management cluster. */
  function ReadsManagement(facts: ClusterFacts): bool {
    var detected := IsManagementCluster(facts);
    detected.Err? || detected.value
  }

  /** Only a successful look at the infrastructure can say that a cluster is ordinary. */
  lemma OrdinaryExactlyWhen(facts: ClusterFacts)
    ensures !ReadsManagement(facts)
       <==> && facts.infraName.Some?
            && !("hs-mc" <= facts.infraName.value)
            && !(facts.annotation.Some? && facts.annotation.value == Some("management-cluster"))
  {
    if facts.infraName.Some? {
      var name := facts.infraName.value;
      assert "hs-mc" <= name <==> |name| >= 5 && name[..5] == "hs-mc";
    }
  }

  // ---------- Parsing the configmaps ----------

  /** What the configmap reads of one reconciliation return: the listed names and the
      text of each read, "" when the read failed or the key is missing. */
  datatype ConfigMapView = ConfigMapView(
    listed: seq<string>,
    managedText: string,
    ocpText: string,
    managementText: string,
    facts: ClusterFacts)

  type Decoder = string -> Option<NamespaceConfig>

  function Anchored(names: seq<string>): (patterns: seq<string>)
    ensures |patterns| == |names|
  {
    seq(|names|, i requires 0 <= i < |names| => "^" + names[i] + "$")
  }

  method Anchor(names: seq<string>) returns (nsList: seq<string>)
    ensures nsList == Anchored(names)
  {
    nsList := [];
    for i := 0 to |names|
      invariant nsList == Anchored(names)[..i]
    {
      nsList := nsList + ["^" + names[i] + "$"];
    }
  }

  function BaseNamespaces(listed: bool, text: string, decode: Decoder): seq<string> {
    if !listed || decode(text).None? then [] else Anchored(decode(text).value.namespaces)
  }

  method ParseNamespaceConfigMap(listed: seq<string>, name: string, text: string, decode: Decoder)
    returns (nsList: seq<string>)
    ensures nsList == BaseNamespaces(name in listed, text, decode)
  {
    if name !in listed {
      return [];
    }
    var decoded := decode(text);
    if decoded.None? {
      return [];
    } else if |decoded.value.namespaces| == 0 {
      return [];
    }
    nsList := Anchor(decoded.value.namespaces);
  }

  function ManagementNamespaces(listed: bool, text: string, decode: Decoder): seq<string> {
    if !listed || decode(text).None? || decode(text).value.managementCluster.None? then []
    else Anchored(decode(text).value.managementCluster.value)
  }

  method ParseMCNamespaceConfigMap(listed: seq<string>, text: string, decode: Decoder) returns (nsList: seq<string>)
    ensures nsList == ManagementNamespaces(CM_MANAGED in listed, text, decode)
  {
    if CM_MANAGED !in listed {
      return [];
    }
    var decoded := decode(text);
    if decoded.None? {
      return [];
    }
    if decoded.value.managementCluster.None? {
      return [];
    }
    if |decoded.value.managementCluster.value| == 0 {
      return [];
    }
    nsList := Anchor(decoded.value.managementCluster.value);
  }

  /** The patterns to route on. */
  function NamespaceList(view: ConfigMapView, decode: Decoder): seq<string> {
    var managed := BaseNamespaces(CM_MANAGED in view.listed, view.managedText, decode);
    var ocp := BaseNamespaces(CM_OCP in view.listed, view.ocpText, decode);
    if managed == [] || ocp == [] then DEFAULT_NAMESPACES
    else managed + ocp
         + if ReadsManagement(view.facts)
           then ManagementNamespaces(CM_MANAGED in view.listed, view.managementText, decode) else []
  }

  method ParseConfigMaps(view: ConfigMapView, decode: Decoder) returns (namespaceList: seq<string>)
    ensures namespaceList == NamespaceList(view, decode)
  {
    var managed := ParseNamespaceConfigMap(view.listed, CM_MANAGED, view.managedText, decode);
    var ocp := ParseNamespaceConfigMap(view.listed, CM_OCP, view.ocpText, decode);
    var detected := IsManagementCluster(view.facts);
    var readMC := if detected.Err? then true else detected.value;
    var mc: seq<string> := [];
    if readMC {
      mc := ParseMCNamespaceConfigMap(view.listed, view.managementText, decode);
    }
    if |managed| == 0 || |ocp| == 0 {
      return DEFAULT_NAMESPACES;
    }
    namespaceList := [];
    namespaceList := namespaceList + managed;
    namespaceList := namespaceList + ocp;
    namespaceList := namespaceList + mc;
  }

  // ---------- What the list holds ----------

  /** The names that one of the two configmaps lists. */
  function ListedNames(view: ConfigMapView, name: string, text: string, decode: Decoder): seq<string> {
    if name in view.listed && decode(text).Some? then decode(text).value.namespaces else []
  }

  /** The names of the management cluster's own list, unless the cluster is known to be
      ordinary. */
  function ManagementNames(view: ConfigMapView, decode: Decoder): seq<string> {
    var ordinary := && view.facts.infraName.Some? && !("hs-mc" <= view.facts.infraName.value)
                    && view.facts.annotation != Some(Some("management-cluster"));
    if !ordinary && "managed-namespaces" in view.listed && decode(view.managementText).Some?
       && decode(view.managementText).value.managementCluster.Some?
    then decode(view.managementText).value.managementCluster.value else []
  }

  /** Three wide patterns when a list is empty, and otherwise one pattern a name, in order,
      that matches the name alone. */
  lemma PatternsExactly(view: ConfigMapView, decode: Decoder)
    ensures
      var list := NamespaceList(view, decode);
      var managed := ListedNames(view, "managed-namespaces", view.managedText, decode);
      var ocp := ListedNames(view, "ocp-namespaces", view.ocpText, decode);
      var names := managed + ocp + ManagementNames(view, decode);
      if managed == [] || ocp == [] then list == ["^openshift-.*", "^redhat-.*", "^kube-.*"]
      else |list| == |names| && forall i :: 0 <= i < |names| ==> list[i] == "^" + names[i] + "$"
  {
    OrdinaryExactlyWhen(view.facts);
  }

  // ---------- Failing safe ----------

  predicate BaseListMissing(view: ConfigMapView, decode: Decoder) {
    || BaseNamespaces(CM_MANAGED in view.listed, view.managedText, decode) == []
    || BaseNamespaces(CM_OCP in view.listed, view.ocpText, decode) == []
  }

  /** The list is never empty, and is the three defaults exactly when a base list is
      missing, whatever the cluster type: anchored names never spell a default. */
  lemma DefaultsExactlyWhen(view: ConfigMapView, decode: Decoder)
    ensures NamespaceList(view, decode) != []
    ensures NamespaceList(view, decode) == ["^openshift-.*", "^redhat-.*", "^kube-.*"]
        <==> BaseListMissing(view, decode)
  {
    if !BaseListMissing(view, decode) {
      var list := NamespaceList(view, decode);
      var managed := BaseNamespaces(CM_MANAGED in view.listed, view.managedText, decode);
      assert list[0] == managed[0];
      assert list[0][|list[0]| - 1] == '$';
      assert "^openshift-.*"[|"^openshift-.*"| - 1] == '*';
    }
  }

  lemma OrdinaryListIsSmaller(view: ConfigMapView, ordinary: ClusterFacts, decode: Decoder)
    requires !ReadsManagement(ordinary)
    ensures SubsetOf(NamespaceList(view.(facts := ordinary), decode), NamespaceList(view, decode))
  {
  }

  /** Whatever an ordinary cluster notifies, a management cluster, or one whose
      detection failed, notifies to the same receivers. */
  lemma DetectionFailsSafe(
      inp: Inputs, view: ConfigMapView, ordinary: ClusterFacts, decode: Decoder, fedramp: bool, re: Regexp,
      alert: Alert)
    requires !ReadsManagement(ordinary)
    ensures KeepsReceivers(
      Notified(inp.(namespaces := NamespaceList(view.(facts := ordinary), decode)), fedramp, re, alert),
      Notified(inp.(namespaces := NamespaceList(view, decode)), fedramp, re, alert))
  {
    hide NamespaceList, Notified, KeepsReceivers;
    OrdinaryListIsSmaller(view, ordinary, decode);
    var fewer := inp.(namespaces := NamespaceList(view.(facts := ordinary), decode));
    MoreNamespacesKeepDelivery(fewer, NamespaceList(view, decode), fedramp, re, alert);
    assert fewer.(namespaces := NamespaceList(view, decode)) == inp.(namespaces := NamespaceList(view, decode));
  }
}
