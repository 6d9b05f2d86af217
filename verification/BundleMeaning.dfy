/** What the script promises about the documents, by position and by kind. */
module BundleMeaning {
  import opened Wrappers
  import opened Bundle

  // ---------- Accounts ----------

  /** The last binding that refers to a role of this name is at this position. */
  ghost predicate BoundLastAt(docs: seq<Doc>, kind: string, name: string, i: int) {
    && 0 <= i < |docs| && docs[i].kind == kind && docs[i].roleRef == Some(name)
    && forall k :: i < k < |docs| && docs[k].kind == kind ==> docs[k].roleRef != Some(name)
  }

  predicate Unbound(docs: seq<Doc>, kind: string, name: string) {
    forall d :: d in docs && d.kind == kind ==> d.roleRef != Some(name)
  }

  /** The first subject that is a service account has this name. */
  predicate NamesFirst(subjects: seq<Subject>, account: string) {
    exists k :: && 0 <= k < |subjects| && subjects[k].kind == "ServiceAccount" && subjects[k].name == account
                && forall j :: 0 <= j < k ==> subjects[j].kind != "ServiceAccount"
  }

  /** The account that a ClusterRole's rules are for: the operator's own when nothing binds
      the role, and otherwise the first one of its last binding. */
  ghost predicate AccountIs(operatorName: string, docs: seq<Doc>, role: Doc, account: string) {
    if Unbound(docs, "ClusterRoleBinding", role.name) then account == operatorName
    else exists i :: && BoundLastAt(docs, "ClusterRoleBinding", role.name, i)
                     && docs[i].subjects.Some? && NamesFirst(docs[i].subjects.value, account)
  }

  ghost predicate HasAccount(operatorName: string, docs: seq<Doc>, role: Doc) {
    exists account :: AccountIs(operatorName, docs, role, account)
  }

  ghost predicate ClusterPermissionSays(operatorName: string, docs: seq<Doc>, role: Doc, permission: Permission) {
    role.rules == Some(permission.rules) && AccountIs(operatorName, docs, role, permission.serviceAccountName)
  }

  /** The one subject is a service account of the operator's namespace, or of none. */
  predicate SoleAccount(binding: Doc, namespace: string) {
    match binding.subjects
    case None => false
    case Some(subjects) =>
      |subjects| == 1 && subjects[0].kind == "ServiceAccount"
      && (subjects[0].namespace == None || subjects[0].namespace == Some(namespace))
  }

  /** The rules of the Role go into the CSV. */
  ghost predicate GoesToCSV(docs: seq<Doc>, namespace: string, role: Doc) {
    exists i :: BoundLastAt(docs, "RoleBinding", role.name, i) && SoleAccount(docs[i], namespace)
  }

  ghost predicate PermissionSays(docs: seq<Doc>, role: Doc, permission: Permission) {
    && role.rules == Some(permission.rules)
    && exists i :: && BoundLastAt(docs, "RoleBinding", role.name, i) && docs[i].subjects.Some?
                   && |docs[i].subjects.value| == 1
                   && docs[i].subjects.value[0].name == permission.serviceAccountName
  }

  lemma {:induction false} FirstAccountExactly(subjects: seq<Subject>, account: string)
    ensures FirstServiceAccount(subjects) == Some(account) <==> NamesFirst(subjects, account)
  {
    if subjects != [] {
      var rest := subjects[1..];
      FirstAccountExactly(rest, account);
      if NamesFirst(rest, account) && subjects[0].kind != "ServiceAccount" {
        var k :| 0 <= k < |rest| && rest[k].kind == "ServiceAccount" && rest[k].name == account
                 && forall j :: 0 <= j < k ==> rest[j].kind != "ServiceAccount";
        assert subjects[k + 1] == rest[k];
        assert forall j :: 0 < j < k + 1 ==> subjects[j] == rest[j - 1];
      }
      if NamesFirst(subjects, account) && subjects[0].kind != "ServiceAccount" {
        var k :| 0 <= k < |subjects| && subjects[k].kind == "ServiceAccount" && subjects[k].name == account
                 && forall j :: 0 <= j < k ==> subjects[j].kind != "ServiceAccount";
        assert rest[k - 1] == subjects[k];
        assert forall j :: 0 <= j < k - 1 ==> rest[j] == subjects[j + 1];
      }
    }
  }

  lemma LastBindingExactly(docs: seq<Doc>, kind: string, name: string)
    ensures LastBinding(docs, kind, name).None? <==> Unbound(docs, kind, name)
    ensures forall i :: BoundLastAt(docs, kind, name, i) ==> LastBinding(docs, kind, name) == Some(docs[i])
    ensures LastBinding(docs, kind, name).Some? ==>
      exists i :: BoundLastAt(docs, kind, name, i) && docs[i] == LastBinding(docs, kind, name).value
  {
    LastBindingIsLast(docs, kind, name);
    forall i
      ensures BoundLastAt(docs, kind, name, i) <==> LastAt(docs, kind, name, i)
    {
    }
  }

  lemma AccountExactly(operatorName: string, docs: seq<Doc>, role: Doc, account: string)
    ensures AccountOf(operatorName, docs, role) == Some(account) <==> AccountIs(operatorName, docs, role, account)
  {
    hide LastBinding, NamesFirst, BoundLastAt, Unbound, FirstServiceAccount;
    LastBindingExactly(docs, "ClusterRoleBinding", role.name);
    var binding := LastBinding(docs, "ClusterRoleBinding", role.name);
    if binding.Some? && binding.value.subjects.Some? {
      FirstAccountExactly(binding.value.subjects.value, account);
    }
  }

  lemma HasAccountExactly(operatorName: string, docs: seq<Doc>, role: Doc)
    ensures AccountOf(operatorName, docs, role).Some? <==> HasAccount(operatorName, docs, role)
  {
    hide AccountOf, AccountIs;
    forall account {
      AccountExactly(operatorName, docs, role, account);
    }
    var account := AccountOf(operatorName, docs, role);
    assert account.Some? ==> AccountIs(operatorName, docs, role, account.value);
  }

  /** Which cluster permission a ClusterRole gets. */
  lemma ClusterPermissionExactly(operatorName: string, docs: seq<Doc>, role: Doc, permission: Permission)
    ensures ClusterPermissionOf(operatorName, docs, role, permission)
       <==> ClusterPermissionSays(operatorName, docs, role, permission)
  {
    hide AccountOf, AccountIs;
    AccountExactly(operatorName, docs, role, permission.serviceAccountName);
  }

  /** Which Roles are injected, and as what. */
  lemma GoesToCSVExactly(docs: seq<Doc>, namespace: string, role: Doc)
    ensures RoleInjected(docs, namespace, role) <==> GoesToCSV(docs, namespace, role)
  {
    hide LastBinding, BoundLastAt;
    LastBindingExactly(docs, "RoleBinding", role.name);
  }

  lemma PermissionExactly(docs: seq<Doc>, role: Doc, permission: Permission)
    ensures PermissionOf(docs, role, permission) <==> PermissionSays(docs, role, permission)
  {
    hide LastBinding, BoundLastAt;
    LastBindingExactly(docs, "RoleBinding", role.name);
  }

  // ---------- Selections keep the order ----------

  /** Two places of the part are two places of the whole, in the same order. */
  ghost predicate Ordered(part: seq<Doc>, whole: seq<Doc>) {
    forall i, j :: 0 <= i < j < |part| ==> ComesBefore(whole, part[i], part[j])
  }

  ghost predicate ComesBefore(docs: seq<Doc>, first: Doc, second: Doc) {
    exists p, q :: 0 <= p < q < |docs| && docs[p] == first && docs[q] == second
  }

  lemma OrderedGrows(part: seq<Doc>, whole: seq<Doc>, next: Doc)
    requires Ordered(part, whole) && forall d :: d in part ==> d in whole
    ensures Ordered(part, whole + [next]) && Ordered(part + [next], whole + [next])
  {
    var longer := whole + [next];
    forall i, j | 0 <= i < j < |part|
      ensures ComesBefore(longer, part[i], part[j])
    {
      assert ComesBefore(whole, part[i], part[j]);
      var p, q :| 0 <= p < q < |whole| && whole[p] == part[i] && whole[q] == part[j];
      assert longer[p] == part[i] && longer[q] == part[j];
    }
    forall i | 0 <= i < |part|
      ensures ComesBefore(longer, part[i], next)
    {
      assert part[i] in part;
      var p :| 0 <= p < |whole| && whole[p] == part[i];
      assert longer[p] == part[i] && longer[|whole|] == next;
    }
  }

  lemma {:induction false} OfKindOrdered(docs: seq<Doc>, kind: string)
    ensures Ordered(OfKind(docs, kind), docs)
  {
    if docs != [] {
      var front, last := docs[..|docs| - 1], docs[|docs| - 1];
      OfKindOrdered(front, kind);
      OfKindMembers(front, kind);
      OrderedGrows(OfKind(front, kind), front, last);
      assert docs == front + [last];
    }
  }

  lemma {:induction false} ChosenOrdered(docs: seq<Doc>, namespace: string, roles: seq<Doc>)
    ensures Ordered(Chosen(docs, namespace, roles), roles)
    ensures forall r :: r in Chosen(docs, namespace, roles) ==> r in roles
  {
    if roles != [] {
      var front, last := roles[..|roles| - 1], roles[|roles| - 1];
      ChosenOrdered(docs, namespace, front);
      OrderedGrows(Chosen(docs, namespace, front), front, last);
      assert roles == front + [last];
    }
  }

  lemma OrderedTwice(part: seq<Doc>, middle: seq<Doc>, whole: seq<Doc>)
    requires Ordered(part, middle) && Ordered(middle, whole)
    ensures Ordered(part, whole)
  {
    forall i, j | 0 <= i < j < |part|
      ensures ComesBefore(whole, part[i], part[j])
    {
      assert ComesBefore(middle, part[i], part[j]);
      var p, q :| 0 <= p < q < |middle| && middle[p] == part[i] && middle[q] == part[j];
      assert ComesBefore(whole, middle[p], middle[q]);
    }
  }

  // ---------- Deployments ----------

  predicate FirstFrom(docs: seq<Doc>, kind: string, from: nat, i: int) {
    from <= i < |docs| && docs[i].kind == kind && forall k :: from <= k < i ==> docs[k].kind != kind
  }

  /** The first document of kind Deployment, and the second if there is one. */
  ghost predicate DeploymentsAre(docs: seq<Doc>, deployments: seq<Doc>) {
    exists i :: FirstFrom(docs, "Deployment", 0, i) && NextIs(docs, i, deployments)
  }

  ghost predicate NextIs(docs: seq<Doc>, i: nat, deployments: seq<Doc>)
    requires i < |docs|
  {
    || (deployments == [docs[i]] && forall k :: i < k < |docs| ==> docs[k].kind != "Deployment")
    || (exists j :: FirstFrom(docs, "Deployment", i + 1, j) && deployments == [docs[i], docs[j]])
  }

  lemma {:induction false} SkipToFirst(docs: seq<Doc>, kind: string, from: nat) returns (i: nat)
    requires from <= |docs|
    ensures from <= i <= |docs| && forall k :: from <= k < i ==> docs[k].kind != kind
    ensures i < |docs| ==> docs[i].kind == kind && OfKind(docs[from..], kind) == [docs[i]] + OfKind(docs[i + 1..], kind)
    ensures i == |docs| ==> OfKind(docs[from..], kind) == []
    decreases |docs| - from
  {
    i := from;
    if from < |docs| {
      assert docs[from..] == [docs[from]] + docs[from + 1..];
      OfKindAppend([docs[from]], docs[from + 1..], kind);
      OfOneKind([docs[from]], docs[from].kind, kind);
      if docs[from].kind != kind {
        i := SkipToFirst(docs, kind, from + 1);
      }
    }
  }

  lemma FirstTwoAre(docs: seq<Doc>, deployments: seq<Doc>)
    requires OfKind(docs, "Deployment") != []
    requires deployments == if |OfKind(docs, "Deployment")| > 2 then OfKind(docs, "Deployment")[..2]
                            else OfKind(docs, "Deployment")
    ensures DeploymentsAre(docs, deployments)
  {
    hide OfKind;
    var i := SkipToFirst(docs, "Deployment", 0);
    assert docs[0..] == docs;
    assert FirstFrom(docs, "Deployment", 0, i);
    var j := SkipToFirst(docs, "Deployment", i + 1);
    if j < |docs| {
      assert FirstFrom(docs, "Deployment", i + 1, j);
      assert deployments == [docs[i], docs[j]];
    }
  }
}
