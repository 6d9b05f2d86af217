/** The index-mutating pipeline of
    boilerplate/openshift/golang-osd-operator/csv-generate/common-generate-operator-bundle.py. */
module Bundle {
  import opened Wrappers

  datatype Subject = Subject(kind: string, name: string, namespace: Option<string>)

  /** A Kubernetes document. `None` is a missing key, reading which raises. */
  datatype Doc = Doc(
    kind: string,
    namespace: Option<string>,
    name: string,
    roleRef: Option<string>,
    subjects: Option<seq<Subject>>,
    rules: Option<string>)

  datatype Permission = Permission(rules: string, serviceAccountName: string)

  type Index = map<string, seq<Doc>>

  datatype Item = Nothing | All | One(doc: Doc)

  /** Why the script stops: its own exceptions, and Python's for a missing key and for
      a call with the wrong number of arguments. */
  datatype Failure =
    | UnsupportedRegistryResourceKind
    | NoDeploymentFound
    | UndefinedSupplementaryImage
    | NoServiceAccountSubjectInBinding
    | NoAssociatedRoleBinding
    | UndefinedCSVNamespace
    | BindingsNotSupported
    | MissingKey
    | WrongArguments

  const CLUSTER_ROLE := "ClusterRole"
  const CLUSTER_ROLE_BINDING := "ClusterRoleBinding"
  const ROLE := "Role"
  const ROLE_BINDING := "RoleBinding"
  const DEPLOYMENT := "Deployment"
  const SERVICE_ACCOUNT := "ServiceAccount"

  const PERMITTED := {
    "ClusterServiceVersion", "CustomResourceDefinition", DEPLOYMENT, "Secret", CLUSTER_ROLE, CLUSTER_ROLE_BINDING,
    "ConfigMap", SERVICE_ACCOUNT, "Service", ROLE, ROLE_BINDING, "PrometheusRule", "ServiceMonitor",
    "PodDisruptionBudget", "PriorityClass", "VerticalPodAutoscaler", "ConsoleYamlSample"}

  // ---------- The index ----------

  function Of(index: Index, kind: string): seq<Doc> {
    if kind in index then index[kind] else []
  }

  function OfKind(docs: seq<Doc>, kind: string): seq<Doc> {
    if docs == [] then []
    else OfKind(docs[..|docs| - 1], kind) + if docs[|docs| - 1].kind == kind then [docs[|docs| - 1]] else []
  }

  predicate SameKey(a: Doc, b: Doc) {
    a.kind == b.kind && a.name == b.name && a.namespace == b.namespace
  }

  ghost predicate UniqueKeys(docs: seq<Doc>) {
    forall i, j :: 0 <= i < j < |docs| ==> !SameKey(docs[i], docs[j])
  }

  /** The list without its first document of the given name and namespace. */
  function WithoutFirst(docs: seq<Doc>, item: Doc): seq<Doc> {
    if docs == [] then []
    else if docs[0].name == item.name && docs[0].namespace == item.namespace then docs[1..]
    else [docs[0]] + WithoutFirst(docs[1..], item)
  }

  function Trimmed(index: Index, kind: string, item: Item): Index {
    if kind !in index then index
    else match item
      case Nothing => index
      case All => index - {kind}
      case One(doc) => index[kind := WithoutFirst(index[kind], doc)]
  }

  lemma {:induction false} WithoutFirstAt(docs: seq<Doc>, item: Doc, found: nat)
    requires found < |docs| && docs[found].name == item.name && docs[found].namespace == item.namespace
    requires forall i :: 0 <= i < found ==> !(docs[i].name == item.name && docs[i].namespace == item.namespace)
    ensures WithoutFirst(docs, item) == docs[..found] + docs[found + 1..]
  {
    if found > 0 {
      WithoutFirstAt(docs[1..], item, found - 1);
      assert docs[..found] == [docs[0]] + docs[1..][..found - 1];
      assert docs[found + 1..] == docs[1..][found..];
    }
  }

  lemma {:induction false} WithoutMissing(docs: seq<Doc>, item: Doc)
    requires forall i :: 0 <= i < |docs| ==> !(docs[i].name == item.name && docs[i].namespace == item.namespace)
    ensures WithoutFirst(docs, item) == docs
  {
    if docs != [] {
      WithoutMissing(docs[1..], item);
    }
  }

  lemma CutOut(docs: seq<Doc>, found: nat)
    requires found < |docs|
    ensures multiset(docs) == multiset(docs[..found] + docs[found + 1..]) + multiset{docs[found]}
  {
    assert docs == docs[..found] + [docs[found]] + docs[found + 1..];
  }

  lemma CutKeepsUnique(docs: seq<Doc>, found: nat)
    requires found < |docs| && UniqueKeys(docs)
    ensures UniqueKeys(docs[..found] + docs[found + 1..])
  {
    var rest := docs[..found] + docs[found + 1..];
    forall i, j | 0 <= i < j < |rest|
      ensures !SameKey(rest[i], rest[j])
    {
      var i' := if i < found then i else i + 1;
      var j' := if j < found then j else j + 1;
      assert rest[i] == docs[i'] && rest[j] == docs[j'] && i' < j';
    }
  }

  /** Removing a document that is there, where keys are unique, removes just that one. */
  lemma WithoutPresent(docs: seq<Doc>, item: Doc)
    requires UniqueKeys(docs) && item in docs && forall d :: d in docs ==> d.kind == item.kind
    ensures multiset(docs) == multiset(WithoutFirst(docs, item)) + multiset{item}
    ensures UniqueKeys(WithoutFirst(docs, item))
  {
    hide WithoutFirst;
    var found :| 0 <= found < |docs| && docs[found] == item;
    forall i | 0 <= i < found
      ensures !(docs[i].name == item.name && docs[i].namespace == item.namespace)
    {
      assert docs[i] in docs && !SameKey(docs[i], docs[found]);
    }
    WithoutFirstAt(docs, item, found);
    CutOut(docs, found);
    CutKeepsUnique(docs, found);
  }

  /** Removing a document that is not there changes nothing. */
  lemma WithoutAbsent(docs: seq<Doc>, removed: seq<Doc>, all: seq<Doc>, item: Doc)
    requires UniqueKeys(all) && multiset(all) == multiset(docs) + multiset(removed)
    requires item in all && item in removed && forall d :: d in all ==> d.kind == item.kind
    ensures WithoutFirst(docs, item) == docs
  {
    forall i | 0 <= i < |docs|
      ensures !(docs[i].name == item.name && docs[i].namespace == item.namespace)
    {
      if docs[i].name == item.name && docs[i].namespace == item.namespace {
        assert docs[i] in multiset(docs) && item in multiset(removed);
        assert docs[i] in multiset(all) && item in multiset(all);
        SameKeySame(all, docs[i], item);
        UniqueCount(all, item);
      }
    }
    WithoutMissing(docs, item);
  }

  lemma SameKeySame(docs: seq<Doc>, a: Doc, b: Doc)
    requires UniqueKeys(docs) && a in docs && b in docs && SameKey(a, b)
    ensures a == b
  {
    var i :| 0 <= i < |docs| && docs[i] == a;
    var j :| 0 <= j < |docs| && docs[j] == b;
  }

  lemma {:induction false} UniqueCount(docs: seq<Doc>, item: Doc)
    requires UniqueKeys(docs)
    ensures multiset(docs)[item] <= 1
  {
    if docs != [] {
      var front, last := docs[..|docs| - 1], docs[|docs| - 1];
      UniqueCount(front, item);
      assert docs == front + [last];
      assert forall i :: 0 <= i < |front| ==> docs[i] == front[i] && !SameKey(docs[i], docs[|docs| - 1]);
    }
  }

  // ---------- Documents by kind ----------

  lemma {:induction false} OfKindMembers(docs: seq<Doc>, kind: string)
    ensures forall d :: d in OfKind(docs, kind) <==> d in docs && d.kind == kind
  {
    if docs != [] {
      OfKindMembers(docs[..|docs| - 1], kind);
      assert docs == docs[..|docs| - 1] + [docs[|docs| - 1]];
    }
  }

  lemma {:induction false} OfKindUnique(docs: seq<Doc>, kind: string)
    requires UniqueKeys(docs)
    ensures UniqueKeys(OfKind(docs, kind))
  {
    if docs != [] {
      var front, last := docs[..|docs| - 1], docs[|docs| - 1];
      OfKindUnique(front, kind);
      OfKindMembers(front, kind);
      forall d | d in OfKind(front, kind)
        ensures !SameKey(d, last)
      {
        var i :| 0 <= i < |front| && front[i] == d;
        assert !SameKey(docs[i], docs[|docs| - 1]);
      }
    }
  }

  lemma {:induction false} OfKindAppend(xs: seq<Doc>, ys: seq<Doc>, kind: string)
    ensures OfKind(xs + ys, kind) == OfKind(xs, kind) + OfKind(ys, kind)
  {
    if ys == [] {
      assert xs + ys == xs;
    } else {
      var front, last := ys[..|ys| - 1], ys[|ys| - 1];
      OfKindAppend(xs, front, kind);
      assert (xs + ys)[..|xs + ys| - 1] == xs + front;
    }
  }

  /** A list of one kind is its own selection, and nothing else's. */
  lemma {:induction false} OfOneKind(docs: seq<Doc>, kind: string, other: string)
    requires forall d :: d in docs ==> d.kind == kind
    ensures OfKind(docs, other) == if other == kind then docs else []
  {
    if docs != [] {
      var front := docs[..|docs| - 1];
      assert forall d :: d in front ==> d in docs;
      OfOneKind(front, kind, other);
      assert docs == front + [docs[|docs| - 1]];
    }
  }

  // ---------- What the documents call for ----------

  predicate IsBinding(d: Doc) {
    d.kind == CLUSTER_ROLE_BINDING || d.kind == ROLE_BINDING
  }

  predicate Refers(d: Doc, kind: string, name: string) {
    d.kind == kind && d.roleRef == Some(name)
  }

  /** The binding loaded last for roles of this name. */
  function LastBinding(docs: seq<Doc>, kind: string, name: string): Option<Doc> {
    if docs == [] then None
    else if Refers(docs[|docs| - 1], kind, name) then Some(docs[|docs| - 1])
    else LastBinding(docs[..|docs| - 1], kind, name)
  }

  ghost predicate LastAt(docs: seq<Doc>, kind: string, name: string, i: int) {
    0 <= i < |docs| && Refers(docs[i], kind, name) && forall k :: i < k < |docs| ==> !Refers(docs[k], kind, name)
  }

  lemma {:induction false} LastBindingIsLast(docs: seq<Doc>, kind: string, name: string)
    ensures LastBinding(docs, kind, name).None? <==> forall d :: d in docs ==> !Refers(d, kind, name)
    ensures forall i :: LastAt(docs, kind, name, i) ==> LastBinding(docs, kind, name) == Some(docs[i])
    ensures LastBinding(docs, kind, name).Some? ==>
      exists i :: LastAt(docs, kind, name, i) && docs[i] == LastBinding(docs, kind, name).value
  {
    if docs != [] {
      var front, last := docs[..|docs| - 1], docs[|docs| - 1];
      assert docs == front + [last];
      if Refers(last, kind, name) {
        assert LastAt(docs, kind, name, |docs| - 1);
      } else {
        LastBindingIsLast(front, kind, name);
        forall i
          ensures LastAt(docs, kind, name, i) <==> LastAt(front, kind, name, i)
        {
          assert forall k :: 0 <= k < |front| ==> docs[k] == front[k];
          assert docs[|front|] == last;
        }
      }
    }
  }

  lemma LastBindingRefers(docs: seq<Doc>, kind: string, name: string)
    requires LastBinding(docs, kind, name).Some?
    ensures LastBinding(docs, kind, name).value in docs && Refers(LastBinding(docs, kind, name).value, kind, name)
  {
    LastBindingIsLast(docs, kind, name);
  }

  /** A role goes into the CSV when its binding has one subject, a service account of
      the operator's namespace. */
  predicate Injectable(binding: Doc, namespace: string) {
    && binding.subjects.Some? && |binding.subjects.value| == 1
    && binding.subjects.value[0].kind == SERVICE_ACCOUNT
    && (binding.subjects.value[0].namespace == None || binding.subjects.value[0].namespace == Some(namespace))
  }

  predicate RoleInjected(docs: seq<Doc>, namespace: string, role: Doc) {
    var binding := LastBinding(docs, ROLE_BINDING, role.name);
    binding.Some? && Injectable(binding.value, namespace)
  }

  /** The roles, in order, whose last-loaded binding makes them injectable. */
  function Chosen(docs: seq<Doc>, namespace: string, roles: seq<Doc>): seq<Doc> {
    if roles == [] then []
    else
      var last := roles[|roles| - 1];
      Chosen(docs, namespace, roles[..|roles| - 1]) + if RoleInjected(docs, namespace, last) then [last] else []
  }

  /** What a permission in the CSV says. */
  ghost predicate PermissionOf(docs: seq<Doc>, role: Doc, permission: Permission) {
    var binding := LastBinding(docs, ROLE_BINDING, role.name);
    && role.rules == Some(permission.rules)
    && binding.Some? && binding.value.subjects.Some? && |binding.value.subjects.value| == 1
    && permission.serviceAccountName == binding.value.subjects.value[0].name
  }

  function FirstServiceAccount(subjects: seq<Subject>): Option<string> {
    if subjects == [] then None
    else if subjects[0].kind == SERVICE_ACCOUNT then Some(subjects[0].name)
    else FirstServiceAccount(subjects[1..])
  }

  function ServiceAccountOf(operatorName: string, binding: Option<Doc>): Option<string> {
    match binding
    case None => Some(operatorName)
    case Some(b) => if b.subjects.None? then None else FirstServiceAccount(b.subjects.value)
  }

  /** The service account that a cluster role's rules are for. */
  function AccountOf(operatorName: string, docs: seq<Doc>, role: Doc): Option<string> {
    ServiceAccountOf(operatorName, LastBinding(docs, CLUSTER_ROLE_BINDING, role.name))
  }

  /** What a cluster permission in the CSV says. */
  ghost predicate ClusterPermissionOf(operatorName: string, docs: seq<Doc>, role: Doc, permission: Permission) {
    role.rules == Some(permission.rules) && AccountOf(operatorName, docs, role) == Some(permission.serviceAccountName)
  }

  // ---------- Which inputs raise ----------

  function FirstFailure(docs: seq<Doc>, check: Doc -> Option<Failure>): Option<Failure> {
    if docs == [] then None
    else if check(docs[0]).Some? then check(docs[0])
    else FirstFailure(docs[1..], check)
  }

  lemma {:induction false} NoFailure(docs: seq<Doc>, check: Doc -> Option<Failure>)
    ensures FirstFailure(docs, check) == None <==> forall d :: d in docs ==> check(d) == None
    ensures FirstFailure(docs, check).Some? ==> exists d :: d in docs && check(d) == FirstFailure(docs, check)
  {
    if docs != [] {
      NoFailure(docs[1..], check);
      assert docs == [docs[0]] + docs[1..];
    }
  }

  function LoadCheck(): Doc -> Option<Failure> {
    (d: Doc) =>
      if d.kind !in PERMITTED then Some(UnsupportedRegistryResourceKind)
      else if IsBinding(d) && d.roleRef.None? then Some(MissingKey)
      else None
  }

  function ClusterRoleCheck(operatorName: string, docs: seq<Doc>): Doc -> Option<Failure> {
    (role: Doc) =>
      if AccountOf(operatorName, docs, role).None? then Some(NoServiceAccountSubjectInBinding)
      else if role.rules.None? then Some(MissingKey)
      else None
  }

  function RoleCheck(docs: seq<Doc>, namespace: string): Doc -> Option<Failure> {
    (role: Doc) =>
      var binding := LastBinding(docs, ROLE_BINDING, role.name);
      if binding.None? then (if role.namespace.None? then Some(MissingKey) else Some(WrongArguments))
      else if binding.value.subjects.None? then Some(MissingKey)
      else if Injectable(binding.value, namespace) && role.rules.None? then Some(MissingKey)
      else None
  }

  /** The failure a run of the script ends in, if any. */
  function ScriptFailure(
      operatorName: string, csvNamespace: Option<string>, hasSupplementaryImage: bool, docs: seq<Doc>): Option<Failure>
  {
    var loading := FirstFailure(docs, LoadCheck());
    var deployments := OfKind(docs, DEPLOYMENT);
    if loading.Some? then loading
    else if deployments == [] then Some(NoDeploymentFound)
    else if |deployments| > 1 && !hasSupplementaryImage then Some(UndefinedSupplementaryImage)
    else
      var injecting := FirstFailure(OfKind(docs, CLUSTER_ROLE), ClusterRoleCheck(operatorName, docs));
      if injecting.Some? then injecting
      else if csvNamespace.None? then Some(UndefinedCSVNamespace)
      else FirstFailure(OfKind(docs, ROLE), RoleCheck(docs, csvNamespace.value))
  }

  // ---------- Conservation, as a property of the outcome ----------

  /** Which documents went where: injected as cluster permissions, injected as
      permissions, bindings used up by an injected role, copied as they are. */
  datatype Landing = Landing(clusterRoles: seq<Doc>, roles: seq<Doc>, consumed: seq<Doc>, bundled: seq<Doc>)
  {
    function Places(): seq<Doc> { clusterRoles + roles + consumed + bundled }
  }

  predicate Dropped(kind: string) {
    kind == DEPLOYMENT || kind == SERVICE_ACCOUNT
  }

  /** Every document landed exactly once, Deployments and ServiceAccounts not at all. */
  ghost predicate Conserved(docs: seq<Doc>, at: Landing) {
    forall kind: string ::
      multiset(OfKind(at.Places(), kind)) == if Dropped(kind) then multiset{} else multiset(OfKind(docs, kind))
  }

  ghost predicate Injected(roles: seq<Doc>, kind: string) {
    forall r :: r in roles ==> r.kind == kind
  }

  /** Some role in the list is the one this binding is kept for. */
  ghost predicate BindsOneOf(docs: seq<Doc>, kind: string, roles: seq<Doc>, binding: Doc) {
    exists r :: r in roles && LastBinding(docs, kind, r.name) == Some(binding)
  }

  /** Some injected role's last-loaded binding. */
  ghost predicate Uses(docs: seq<Doc>, at: Landing, binding: Doc) {
    || BindsOneOf(docs, CLUSTER_ROLE_BINDING, at.clusterRoles, binding)
    || BindsOneOf(docs, ROLE_BINDING, at.roles, binding)
  }

  /** Nothing else is consumed. */
  ghost predicate Attached(docs: seq<Doc>, at: Landing) {
    forall b :: b in at.consumed ==> Uses(docs, at, b)
  }

  /** None of those stays behind. */
  ghost predicate UsedUp(docs: seq<Doc>, at: Landing) {
    forall b :: Uses(docs, at, b) ==> b in at.consumed
  }

  lemma BindsGrow(docs: seq<Doc>, kind: string, roles: seq<Doc>, role: Doc, binding: Doc)
    ensures BindsOneOf(docs, kind, roles + [role], binding)
       <==> BindsOneOf(docs, kind, roles, binding) || LastBinding(docs, kind, role.name) == Some(binding)
  {
    assert role in roles + [role];
    assert forall r :: r in roles ==> r in roles + [role];
  }

  ghost predicate Adds(consumed: seq<Doc>, before: seq<Doc>, binding: Option<Doc>) {
    forall b :: b in before || binding == Some(b) ==> b in consumed
  }

  ghost predicate AddsAtMost(consumed: seq<Doc>, before: seq<Doc>, binding: Option<Doc>) {
    forall b :: b in consumed ==> b in before || binding == Some(b)
  }

  /** The consumed bindings once a cluster role has been injected. */
  lemma AttachClusterRole(docs: seq<Doc>, at: Landing, role: Doc, consumed: seq<Doc>)
    requires Attached(docs, at)
    requires AddsAtMost(consumed, at.consumed, LastBinding(docs, CLUSTER_ROLE_BINDING, role.name))
    ensures
      var after := at.(clusterRoles := at.clusterRoles + [role], consumed := consumed);
      var binding := LastBinding(docs, CLUSTER_ROLE_BINDING, role.name);
      Attached(docs, after) && (UsedUp(docs, at) && Adds(consumed, at.consumed, binding) ==> UsedUp(docs, after))
  {
    forall b {
      BindsGrow(docs, CLUSTER_ROLE_BINDING, at.clusterRoles, role, b);
    }
  }

  lemma AttachRole(docs: seq<Doc>, at: Landing, role: Doc, consumed: seq<Doc>)
    requires Attached(docs, at)
    requires AddsAtMost(consumed, at.consumed, LastBinding(docs, ROLE_BINDING, role.name))
    ensures
      var after := at.(roles := at.roles + [role], consumed := consumed);
      var binding := LastBinding(docs, ROLE_BINDING, role.name);
      Attached(docs, after) && (UsedUp(docs, at) && Adds(consumed, at.consumed, binding) ==> UsedUp(docs, after))
  {
    forall b {
      BindsGrow(docs, ROLE_BINDING, at.roles, role, b);
    }
  }

  // ---------- File names ----------

  function FilenameFor(doc: Doc): string {
    doc.kind + "_"
    + (if doc.namespace.Some? && doc.namespace.value != "" then doc.namespace.value + "_" else "")
    + doc.name + ".yaml"
  }
}
