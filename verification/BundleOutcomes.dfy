/** How a run of the script ends: what it finishes on, and what each exception means. */
module BundleOutcomes {
  import opened Wrappers
  import opened Bundle
  import opened BundleMeaning

  // ---------- The first document that fails a check ----------

  lemma {:induction false} FirstFailureAppend(xs: seq<Doc>, ys: seq<Doc>, check: Doc -> Option<Failure>)
    ensures FirstFailure(xs + ys, check)
         == if FirstFailure(xs, check).Some? then FirstFailure(xs, check) else FirstFailure(ys, check)
  {
    if xs == [] {
      assert xs + ys == ys;
    } else {
      FirstFailureAppend(xs[1..], ys, check);
      assert (xs + ys)[1..] == xs[1..] + ys;
    }
  }

  /** The document at this position is the first of its kind to fail, and fails so. */
  ghost predicate FailsFirst(docs: seq<Doc>, kind: string, check: Doc -> Option<Failure>, failure: Failure, i: int) {
    && 0 <= i < |docs| && docs[i].kind == kind && check(docs[i]) == Some(failure)
    && forall j :: 0 <= j < i && docs[j].kind == kind ==> check(docs[j]) == None
  }

  lemma {:induction false} FirstFailureOfKind(
      docs: seq<Doc>, kind: string, check: Doc -> Option<Failure>, failure: Failure)
    ensures FirstFailure(OfKind(docs, kind), check) == Some(failure)
       <==> exists i :: FailsFirst(docs, kind, check, failure, i)
    ensures FirstFailure(OfKind(docs, kind), check) == None
       <==> forall d :: d in docs && d.kind == kind ==> check(d) == None
  {
    if docs != [] {
      var front, last := docs[..|docs| - 1], docs[|docs| - 1];
      FirstFailureOfKind(front, kind, check, failure);
      FirstFailureAppend(OfKind(front, kind), if last.kind == kind then [last] else [], check);
      assert docs == front + [last];
      assert [last][1..] == [];
      LastMayFail(docs, kind, check, failure);
    }
  }

  lemma LastMayFail(docs: seq<Doc>, kind: string, check: Doc -> Option<Failure>, failure: Failure)
    requires docs != []
    ensures
      var front, last := docs[..|docs| - 1], docs[|docs| - 1];
      (exists i :: FailsFirst(docs, kind, check, failure, i))
      <==> || (exists i :: FailsFirst(front, kind, check, failure, i))
           || (&& last.kind == kind && check(last) == Some(failure)
               && forall d :: d in front && d.kind == kind ==> check(d) == None)
  {
    var front, last := docs[..|docs| - 1], docs[|docs| - 1];
    assert forall k :: 0 <= k < |front| ==> docs[k] == front[k];
    forall i | 0 <= i < |front|
      ensures FailsFirst(docs, kind, check, failure, i) <==> FailsFirst(front, kind, check, failure, i)
    {
    }
    assert FailsFirst(docs, kind, check, failure, |docs| - 1)
      <==> && last.kind == kind && check(last) == Some(failure)
           && forall d :: d in front && d.kind == kind ==> check(d) == None;
  }

  // ---------- Which inputs finish ----------

  predicate Permitted(kind: string) {
    kind in {"ClusterServiceVersion", "CustomResourceDefinition", "Deployment", "Secret", "ClusterRole",
             "ClusterRoleBinding", "ConfigMap", "ServiceAccount", "Service", "Role", "RoleBinding", "PrometheusRule",
             "ServiceMonitor", "PodDisruptionBudget", "PriorityClass", "VerticalPodAutoscaler", "ConsoleYamlSample"}
  }

  /** The script can index the document. */
  predicate Loads(d: Doc) {
    Permitted(d.kind) && (d.kind in {"ClusterRoleBinding", "RoleBinding"} ==> d.roleRef.Some?)
  }

  predicate AllLoad(docs: seq<Doc>) {
    forall d :: d in docs ==> Loads(d)
  }

  predicate HasDeployment(docs: seq<Doc>) {
    exists d :: d in docs && d.kind == "Deployment"
  }

  predicate HasTwoDeployments(docs: seq<Doc>) {
    exists i, j :: 0 <= i < j < |docs| && docs[i].kind == docs[j].kind == "Deployment"
  }

  /** Everything loads, there is a Deployment, and an image for a second one. */
  predicate Deployable(hasSupplementaryImage: bool, docs: seq<Doc>) {
    AllLoad(docs) && HasDeployment(docs) && (HasTwoDeployments(docs) ==> hasSupplementaryImage)
  }

  ghost predicate ClusterRoleFine(operatorName: string, docs: seq<Doc>, role: Doc) {
    HasAccount(operatorName, docs, role) && role.rules.Some?
  }

  ghost predicate ClusterRolesFine(operatorName: string, docs: seq<Doc>) {
    forall r :: r in docs && r.kind == "ClusterRole" ==> ClusterRoleFine(operatorName, docs, r)
  }

  /** Some binding refers to the Role, the last one has subjects, and the Role has rules
      if they are needed. */
  ghost predicate RoleFine(docs: seq<Doc>, namespace: string, role: Doc) {
    && (exists i :: BoundLastAt(docs, "RoleBinding", role.name, i) && docs[i].subjects.Some?)
    && (GoesToCSV(docs, namespace, role) ==> role.rules.Some?)
  }

  ghost predicate RolesFine(docs: seq<Doc>, namespace: string) {
    forall r :: r in docs && r.kind == "Role" ==> RoleFine(docs, namespace, r)
  }

  // ---------- What each exception means ----------

  predicate UnsupportedFirst(docs: seq<Doc>) {
    exists i :: 0 <= i < |docs| && !Permitted(docs[i].kind) && forall j :: 0 <= j < i ==> Loads(docs[j])
  }

  ghost predicate AccountMissingAt(operatorName: string, docs: seq<Doc>, i: int) {
    && 0 <= i < |docs| && docs[i].kind == "ClusterRole" && !HasAccount(operatorName, docs, docs[i])
    && forall j :: 0 <= j < i && docs[j].kind == "ClusterRole" ==> ClusterRoleFine(operatorName, docs, docs[j])
  }

  /** The first ClusterRole that cannot be injected is one without account. */
  ghost predicate AccountMissingFirst(operatorName: string, docs: seq<Doc>) {
    exists i :: AccountMissingAt(operatorName, docs, i)
  }

  ghost predicate UnboundAt(docs: seq<Doc>, namespace: string, i: int) {
    && 0 <= i < |docs| && docs[i].kind == "Role" && docs[i].namespace.Some?
    && Unbound(docs, "RoleBinding", docs[i].name)
    && forall j :: 0 <= j < i && docs[j].kind == "Role" ==> RoleFine(docs, namespace, docs[j])
  }

  /** The first Role that cannot be handled is one without binding but with a namespace. */
  ghost predicate UnboundFirst(docs: seq<Doc>, namespace: string) {
    exists i :: UnboundAt(docs, namespace, i)
  }

  lemma LoadChecks(d: Doc)
    ensures LoadCheck()(d) == None <==> Loads(d)
    ensures LoadCheck()(d) == Some(UnsupportedRegistryResourceKind) <==> !Permitted(d.kind)
    ensures LoadCheck()(d) in {None, Some(UnsupportedRegistryResourceKind), Some(MissingKey)}
  {
  }

  lemma {:induction false} LoadingFails(docs: seq<Doc>)
    ensures FirstFailure(docs, LoadCheck()) == None <==> AllLoad(docs)
    ensures FirstFailure(docs, LoadCheck()) == Some(UnsupportedRegistryResourceKind) <==> UnsupportedFirst(docs)
    ensures FirstFailure(docs, LoadCheck()) in {None, Some(UnsupportedRegistryResourceKind), Some(MissingKey)}
  {
    hide Loads, Permitted, LoadCheck;
    if docs != [] {
      LoadChecks(docs[0]);
      LoadingFails(docs[1..]);
      assert docs == [docs[0]] + docs[1..];
      UnsupportedLater(docs);
    }
  }

  lemma UnsupportedLater(docs: seq<Doc>)
    requires docs != []
    ensures UnsupportedFirst(docs) <==> !Permitted(docs[0].kind) || (Loads(docs[0]) && UnsupportedFirst(docs[1..]))
  {
    hide Permitted;
    var rest := docs[1..];
    if Loads(docs[0]) && UnsupportedFirst(rest) {
      var i :| 0 <= i < |rest| && !Permitted(rest[i].kind) && forall j :: 0 <= j < i ==> Loads(rest[j]);
      assert docs[i + 1] == rest[i];
      assert forall j :: 0 < j < i + 1 ==> docs[j] == rest[j - 1];
    }
    if UnsupportedFirst(docs) && Permitted(docs[0].kind) {
      var i :| 0 <= i < |docs| && !Permitted(docs[i].kind) && forall j :: 0 <= j < i ==> Loads(docs[j]);
      assert rest[i - 1] == docs[i];
      assert forall j :: 0 <= j < i - 1 ==> rest[j] == docs[j + 1];
    }
  }

  lemma {:induction false} DeploymentCount(docs: seq<Doc>)
    ensures OfKind(docs, "Deployment") == [] <==> !HasDeployment(docs)
    ensures |OfKind(docs, "Deployment")| > 1 <==> HasTwoDeployments(docs)
  {
    if docs != [] {
      var front, last := docs[..|docs| - 1], docs[|docs| - 1];
      DeploymentCount(front);
      assert docs == front + [last];
      assert forall k :: 0 <= k < |front| ==> docs[k] == front[k];
      if HasDeployment(front) {
        var d :| d in front && d.kind == "Deployment";
        var i :| 0 <= i < |front| && front[i] == d;
        assert docs[i].kind == "Deployment";
      }
    }
  }

  lemma ClusterRoleFails(operatorName: string, docs: seq<Doc>, role: Doc)
    ensures
      var failure := ClusterRoleCheck(operatorName, docs)(role);
      && (failure == None <==> ClusterRoleFine(operatorName, docs, role))
      && (failure == Some(NoServiceAccountSubjectInBinding) <==> !HasAccount(operatorName, docs, role))
      && failure in {None, Some(NoServiceAccountSubjectInBinding), Some(MissingKey)}
  {
    hide AccountOf, HasAccount;
    HasAccountExactly(operatorName, docs, role);
  }

  lemma ClusterRolesFail(operatorName: string, docs: seq<Doc>)
    ensures
      var failure := FirstFailure(OfKind(docs, "ClusterRole"), ClusterRoleCheck(operatorName, docs));
      && (failure == None <==> ClusterRolesFine(operatorName, docs))
      && (failure == Some(NoServiceAccountSubjectInBinding) <==> AccountMissingFirst(operatorName, docs))
      && failure in {None, Some(NoServiceAccountSubjectInBinding), Some(MissingKey)}
  {
    hide FirstFailure, OfKind, ClusterRoleCheck, ClusterRoleFine, HasAccount;
    var check := ClusterRoleCheck(operatorName, docs);
    forall role {
      ClusterRoleFails(operatorName, docs, role);
    }
    FirstFailureOfKind(docs, "ClusterRole", check, NoServiceAccountSubjectInBinding);
    forall i
      ensures FailsFirst(docs, "ClusterRole", check, NoServiceAccountSubjectInBinding, i)
         <==> AccountMissingAt(operatorName, docs, i)
    {
    }
    NoFailure(OfKind(docs, "ClusterRole"), check);
  }

  lemma RoleFails(docs: seq<Doc>, namespace: string, role: Doc)
    ensures
      var failure := RoleCheck(docs, namespace)(role);
      && (failure == None <==> RoleFine(docs, namespace, role))
      && (failure == Some(WrongArguments) <==> Unbound(docs, "RoleBinding", role.name) && role.namespace.Some?)
      && failure in {None, Some(WrongArguments), Some(MissingKey)}
  {
    hide LastBinding, BoundLastAt, Unbound, Injectable, SoleAccount;
    LastBindingExactly(docs, "RoleBinding", role.name);
    GoesToCSVExactly(docs, namespace, role);
  }

  lemma RolesFail(docs: seq<Doc>, namespace: string)
    ensures
      var failure := FirstFailure(OfKind(docs, "Role"), RoleCheck(docs, namespace));
      && (failure == None <==> RolesFine(docs, namespace))
      && (failure == Some(WrongArguments) <==> UnboundFirst(docs, namespace))
      && failure in {None, Some(WrongArguments), Some(MissingKey)}
  {
    hide FirstFailure, OfKind, RoleCheck, RoleFine, Unbound;
    var check := RoleCheck(docs, namespace);
    forall role {
      RoleFails(docs, namespace, role);
    }
    FirstFailureOfKind(docs, "Role", check, WrongArguments);
    forall i
      ensures FailsFirst(docs, "Role", check, WrongArguments, i) <==> UnboundAt(docs, namespace, i)
    {
    }
    NoFailure(OfKind(docs, "Role"), check);
  }

  /** A run finishes exactly when every document is permitted and every binding says its
      role, there is a Deployment, and an image for a second one, every ClusterRole has
      rules and an account, the CSV a namespace, and every Role a binding with subjects,
      and rules if it is injected. */
  lemma FinishesExactlyWhen(
      operatorName: string, csvNamespace: Option<string>, hasSupplementaryImage: bool, docs: seq<Doc>)
    ensures ScriptFailure(operatorName, csvNamespace, hasSupplementaryImage, docs) == None <==>
      && Deployable(hasSupplementaryImage, docs) && ClusterRolesFine(operatorName, docs)
      && csvNamespace.Some? && RolesFine(docs, csvNamespace.value)
  {
    hide FirstFailure, LoadCheck, ClusterRoleCheck, RoleCheck, OfKind, AllLoad, HasDeployment, HasTwoDeployments;
    hide ClusterRolesFine, RolesFine, UnsupportedFirst, AccountMissingFirst, UnboundFirst;
    LoadingFails(docs);
    DeploymentCount(docs);
    ClusterRolesFail(operatorName, docs);
    if csvNamespace.Some? {
      RolesFail(docs, csvNamespace.value);
    }
  }

  /** And otherwise which exception ends it; whatever none of these conditions covers is a
      missing key. */
  lemma RaisesExactlyWhen(
      operatorName: string, csvNamespace: Option<string>, hasSupplementaryImage: bool, docs: seq<Doc>)
    ensures
      var failure := ScriptFailure(operatorName, csvNamespace, hasSupplementaryImage, docs);
      var deployable := Deployable(hasSupplementaryImage, docs);
      && (failure == Some(UnsupportedRegistryResourceKind) <==> UnsupportedFirst(docs))
      && (failure == Some(NoDeploymentFound) <==> AllLoad(docs) && !HasDeployment(docs))
      && (failure == Some(UndefinedSupplementaryImage) <==>
            AllLoad(docs) && HasTwoDeployments(docs) && !hasSupplementaryImage)
      && (failure == Some(NoServiceAccountSubjectInBinding) <==> deployable && AccountMissingFirst(operatorName, docs))
      && (failure == Some(UndefinedCSVNamespace) <==>
            deployable && ClusterRolesFine(operatorName, docs) && csvNamespace.None?)
      && (failure == Some(WrongArguments) <==>
            && deployable && ClusterRolesFine(operatorName, docs)
            && csvNamespace.Some? && UnboundFirst(docs, csvNamespace.value))
  {
    hide FirstFailure, LoadCheck, ClusterRoleCheck, RoleCheck, OfKind, AllLoad, HasDeployment, HasTwoDeployments;
    hide ClusterRolesFine, RolesFine, UnsupportedFirst, AccountMissingFirst, UnboundFirst;
    LoadingFails(docs);
    DeploymentCount(docs);
    ClusterRolesFail(operatorName, docs);
    if csvNamespace.Some? {
      RolesFail(docs, csvNamespace.value);
    }
  }

  /** Two of the script's exceptions can never be seen: the check for leftover bindings
      looks at role kinds that are gone, and the exception for a Role without binding
      cannot be constructed as it is called. */
  lemma NeverRaised(operatorName: string, csvNamespace: Option<string>, hasSupplementaryImage: bool, docs: seq<Doc>)
    ensures ScriptFailure(operatorName, csvNamespace, hasSupplementaryImage, docs)
            !in {Some(BindingsNotSupported), Some(NoAssociatedRoleBinding)}
  {
    hide FirstFailure, LoadCheck, ClusterRoleCheck, RoleCheck, OfKind;
    LoadingFails(docs);
    ClusterRolesFail(operatorName, docs);
    if csvNamespace.Some? {
      RolesFail(docs, csvNamespace.value);
    }
  }

  function UnboundRole(namespace: Option<string>): seq<Doc> {
    [Doc("Deployment", None, "operator", None, None, None), Doc("Role", namespace, "reader", None, None, Some("rules"))]
  }

  /** A Role without binding ends the run as the attempt to raise the exception does. */
  lemma UnboundRoleRaises(namespace: Option<string>)
    ensures ScriptFailure("operator", Some("namespace"), false, UnboundRole(namespace))
         == Some(if namespace.None? then MissingKey else WrongArguments)
  {
    hide OfKind, FirstFailure, LastBinding;
    var docs := UnboundRole(namespace);
    var deployment, role := docs[..1], docs[1..];
    assert docs == deployment + role;
    forall kind: string
      ensures OfKind(docs, kind) == if kind == "Deployment" then deployment else if kind == "Role" then role else []
    {
      OfKindAppend(deployment, role, kind);
      OfOneKind(deployment, "Deployment", kind);
      OfOneKind(role, "Role", kind);
    }
    NoFailure(docs, LoadCheck());
    NoFailure([], ClusterRoleCheck("operator", docs));
    LastBindingIsLast(docs, "RoleBinding", "reader");
    FirstOfOne(role[0], RoleCheck(docs, "namespace"));
  }

  lemma FirstOfOne(d: Doc, check: Doc -> Option<Failure>)
    ensures FirstFailure([d], check) == check(d)
  {
    assert [d][1..] == [];
  }
}
