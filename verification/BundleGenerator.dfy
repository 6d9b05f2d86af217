/** The script's top-level steps, in order, over the dictionaries it shrinks in place. */
module BundleGenerator {
  import opened Wrappers
  import opened Bundle
  import opened BundleBooks
  import opened BundleMeaning

  function Lookup(entries: map<string, Doc>, name: string): Option<Doc> {
    if name in entries then Some(entries[name]) else None
  }

  /** The dictionary finds, by role name, the binding loaded last, and nothing else. */
  ghost predicate BindingMap(entries: map<string, Doc>, docs: seq<Doc>, kind: string) {
    forall n :: Lookup(entries, n) == LastBinding(docs, kind, n)
  }

  lemma BindingMapGrows(entries: map<string, Doc>, docs: seq<Doc>, kind: string, doc: Doc)
    requires BindingMap(entries, docs, kind)
    ensures doc.kind != kind ==> BindingMap(entries, docs + [doc], kind)
    ensures doc.kind == kind && doc.roleRef.Some? ==> BindingMap(entries[doc.roleRef.value := doc], docs + [doc], kind)
  {
    assert (docs + [doc])[..|docs + [doc]| - 1] == docs;
    if doc.kind != kind {
      assert forall n :: LastBinding(docs + [doc], kind, n) == LastBinding(docs, kind, n);
    } else if doc.roleRef.Some? {
      forall n
        ensures Lookup(entries[doc.roleRef.value := doc], n) == LastBinding(docs + [doc], kind, n)
      {
        assert Lookup(entries, n) == LastBinding(docs, kind, n);
      }
    }
  }

  lemma {:induction false} ChosenMembers(docs: seq<Doc>, namespace: string, roles: seq<Doc>)
    ensures forall r :: r in Chosen(docs, namespace, roles) <==> r in roles && RoleInjected(docs, namespace, r)
  {
    if roles != [] {
      ChosenMembers(docs, namespace, roles[..|roles| - 1]);
      assert roles == roles[..|roles| - 1] + [roles[|roles| - 1]];
    }
  }

  lemma ChosenStep(docs: seq<Doc>, namespace: string, roles: seq<Doc>, i: nat)
    requires i < |roles|
    ensures Chosen(docs, namespace, roles[..i + 1])
         == Chosen(docs, namespace, roles[..i]) + if RoleInjected(docs, namespace, roles[i]) then [roles[i]] else []
  {
    assert roles[..i + 1][..i] == roles[..i];
  }

  lemma NotYetChosen(docs: seq<Doc>, namespace: string, roles: seq<Doc>, i: nat)
    requires i < |roles| && UniqueKeys(roles)
    ensures roles[i] !in Chosen(docs, namespace, roles[..i])
  {
    ChosenMembers(docs, namespace, roles[..i]);
    assert forall k :: 0 <= k < i ==> roles[..i][k] == roles[k] && !SameKey(roles[k], roles[i]);
  }

  /** Where the documents are at the end of a run that does not raise. */
  ghost predicate Finished(docs: seq<Doc>, namespace: string, at: Landing) {
    && at.clusterRoles == OfKind(docs, CLUSTER_ROLE)
    && at.roles == Chosen(docs, namespace, OfKind(docs, ROLE))
    && Attached(docs, at)
    && (UniqueKeys(docs) ==> Conserved(docs, at) && UsedUp(docs, at))
  }

  /** No binding of an injected role is left in the index, and no injected Role. */
  ghost predicate Trims(docs: seq<Doc>, index: Index, at: Landing) {
    && (forall b :: Uses(docs, at, b) ==> b !in Of(index, b.kind))
    && (forall r :: r in at.roles ==> r !in Of(index, ROLE))
  }

  lemma OrderTrims(docs: seq<Doc>, index: Index, at: Landing)
    requires UniqueKeys(docs) && Balanced(docs, index, at.consumed, at.roles)
    requires Injected(at.roles, ROLE) && OnlyBindings(at.consumed) && UsedUp(docs, at)
    ensures Trims(docs, index, at)
  {
    TrimmedAway(docs, index, at);
  }

  function Subjects(binding: Doc): seq<Subject> {
    if binding.subjects.Some? then binding.subjects.value else []
  }

  function FirstTwo(docs: seq<Doc>): seq<Doc> {
    if |docs| > 2 then docs[..2] else docs
  }

  class Generator {
    const operatorName: string
    const csvNamespace: Option<string>
    const hasSupplementaryImage: bool
    var byKind: Index
    var crbByCr: map<string, Doc>
    var rbByRole: map<string, Doc>
    var clusterPermissions: seq<Permission>
    var permissions: seq<Permission>
    var deployments: seq<Doc>
    var files: map<string, Doc>
    ghost var at: Landing

    constructor (operatorName: string, csvNamespace: Option<string>, hasSupplementaryImage: bool)
      ensures IsEmpty()
    {
      this.operatorName, this.csvNamespace := operatorName, csvNamespace;
      this.hasSupplementaryImage := hasSupplementaryImage;
      byKind, crbByCr, rbByRole, files := map[], map[], map[], map[];
      clusterPermissions, permissions, deployments := [], [], [];
      at := Landing([], [], [], []);
    }

    ghost predicate IsEmpty()
      reads this
    {
      && byKind == map[] && crbByCr == map[] && rbByRole == map[] && files == map[]
      && at == Landing([], [], [], [])
    }

    ghost predicate Loaded(docs: seq<Doc>)
      reads this
    {
      && (forall kind :: Of(byKind, kind) == OfKind(docs, kind))
      && BindingMap(crbByCr, docs, CLUSTER_ROLE_BINDING)
      && BindingMap(rbByRole, docs, ROLE_BINDING)
    }

    method Load(docs: seq<Doc>) returns (failure: Option<Failure>)
      requires IsEmpty()
      modifies this`byKind, this`crbByCr, this`rbByRole
      ensures failure == FirstFailure(docs, LoadCheck())
      ensures failure.None? ==> Loaded(docs)
    {
      hide BindingMap, OfKind, Indexed;
      EmptyMaps();
      for i := 0 to |docs|
        invariant Loaded(docs[..i])
        invariant FirstFailure(docs, LoadCheck()) == FirstFailure(docs[i..], LoadCheck())
      {
        var doc := docs[i];
        assert docs[..i + 1] == docs[..i] + [doc];
        ghost var loaded := byKind;
        if doc.kind !in PERMITTED {
          return Some(UnsupportedRegistryResourceKind);
        }
        if doc.kind !in byKind {
          byKind := byKind[doc.kind := []];
        }
        byKind := byKind[doc.kind := byKind[doc.kind] + [doc]];
        AppendIsIndexed(loaded, doc);
        IndexedOfKind(docs[..i], loaded, doc);
        BindingMapGrows(crbByCr, docs[..i], CLUSTER_ROLE_BINDING, doc);
        BindingMapGrows(rbByRole, docs[..i], ROLE_BINDING, doc);
        if doc.kind == CLUSTER_ROLE_BINDING {
          if doc.roleRef.None? {
            return Some(MissingKey);
          }
          crbByCr := crbByCr[doc.roleRef.value := doc];
        }
        if doc.kind == ROLE_BINDING {
          if doc.roleRef.None? {
            return Some(MissingKey);
          }
          rbByRole := rbByRole[doc.roleRef.value := doc];
        }
      }
      assert docs[..|docs|] == docs;
      failure := None;
    }

    method TrimIndex(kind: string, item: Item)
      modifies this`byKind
      ensures byKind == Trimmed(old(byKind), kind, item)
    {
      if kind !in byKind {
        return;
      }
      if item == Nothing {
        return;
      }
      if item == All {
        byKind := byKind - {kind};
        return;
      }
      var name, ns := item.doc.name, item.doc.namespace;
      var docs := byKind[kind];
      var found := 0;
      while found < |docs|
        invariant 0 <= found <= |docs|
        invariant forall i :: 0 <= i < found ==> !(docs[i].name == name && docs[i].namespace == ns)
      {
        if docs[found].name == name && docs[found].namespace == ns {
          break;
        }
        found := found + 1;
      }
      if found == |docs| {
        WithoutMissing(docs, item.doc);
        return;
      }
      WithoutFirstAt(docs, item.doc, found);
      byKind := byKind[kind := docs[..found] + docs[found + 1..]];
    }

    method DiscoverServiceAccount(binding: Option<Doc>) returns (sa: Option<string>)
      ensures sa == ServiceAccountOf(operatorName, binding)
      ensures binding.None? ==> sa == Some(operatorName)
      ensures binding.Some? ==>
        && (sa.Some? <==> exists s :: s in Subjects(binding.value) && s.kind == "ServiceAccount")
        && (sa.Some? ==> NamesFirst(Subjects(binding.value), sa.value))
    {
      if binding.None? {
        return Some(operatorName);
      }
      var subjects := Subjects(binding.value);
      for i := 0 to |subjects|
        invariant FirstServiceAccount(subjects) == FirstServiceAccount(subjects[i..])
        invariant forall k :: 0 <= k < i ==> subjects[k].kind != "ServiceAccount"
      {
        if subjects[i].kind == SERVICE_ACCOUNT {
          return Some(subjects[i].name);
        }
      }
      return None;
    }

    /** The books while roles are processed. */
    ghost predicate InOrder(docs: seq<Doc>)
      reads this
    {
      && (UniqueKeys(docs) ==> Balanced(docs, byKind, at.consumed, at.roles) && UsedUp(docs, at)) && WellKinded(byKind)
      && Of(byKind, DEPLOYMENT) == OfKind(docs, DEPLOYMENT)
      && BindingMap(crbByCr, docs, CLUSTER_ROLE_BINDING) && BindingMap(rbByRole, docs, ROLE_BINDING)
      && Injected(at.roles, ROLE) && OnlyBindings(at.consumed) && Attached(docs, at) && at.bundled == []
    }

    /** One turn of the loop over cluster roles. */
    method InjectClusterRole(ghost docs: seq<Doc>, role: Doc) returns (failure: Option<Failure>)
      requires InOrder(docs)
      modifies this`byKind, this`clusterPermissions, this`at
      ensures failure == ClusterRoleCheck(operatorName, docs)(role)
      ensures failure.None? ==>
        && InOrder(docs) && at.roles == old(at.roles)
        && at.clusterRoles == old(at.clusterRoles) + [role]
        && Of(byKind, CLUSTER_ROLE) == old(Of(byKind, CLUSTER_ROLE)) && Of(byKind, ROLE) == old(Of(byKind, ROLE))
        && |clusterPermissions| == |old(clusterPermissions)| + 1 && old(clusterPermissions) <= clusterPermissions
        && ClusterPermissionOf(operatorName, docs, role, clusterPermissions[|old(clusterPermissions)|])
    {
      hide UniqueKeys, Balanced, WellKinded, Trimmed, LastBinding, Attached, UsedUp;
      var binding := Lookup(crbByCr, role.name);
      assert binding == LastBinding(docs, CLUSTER_ROLE_BINDING, role.name);
      if binding.Some? {
        LastBindingRefers(docs, CLUSTER_ROLE_BINDING, role.name);
      }
      var sa := DiscoverServiceAccount(binding);
      if sa.None? {
        return Some(NoServiceAccountSubjectInBinding);
      }
      ghost var before, consumed := byKind, at.consumed;
      if binding.Some? {
        if UniqueKeys(docs) {
          ConsumeKeepsBalanced(docs, byKind, at.consumed, at.roles, binding.value);
        }
        TrimWellKinded(byKind, CLUSTER_ROLE_BINDING, One(binding.value));
        TrimIndex(CLUSTER_ROLE_BINDING, One(binding.value));
        TrimOther(before, CLUSTER_ROLE_BINDING, One(binding.value), CLUSTER_ROLE);
        TrimOther(before, CLUSTER_ROLE_BINDING, One(binding.value), DEPLOYMENT);
        TrimOther(before, CLUSTER_ROLE_BINDING, One(binding.value), ROLE);
        consumed := ConsumedAfter(before, at.consumed, binding.value);
        if UniqueKeys(docs) {
          ConsumedOnceTrimmed(docs, before, at.consumed, at.roles, binding.value);
        }
      } else {
        TrimIndex(CLUSTER_ROLE_BINDING, Nothing);
        TrimNothing(before, CLUSTER_ROLE_BINDING);
      }
      if role.rules.None? {
        return Some(MissingKey);
      }
      clusterPermissions := clusterPermissions + [Permission(role.rules.value, sa.value)];
      AttachClusterRole(docs, at, role, consumed);
      at := at.(clusterRoles := at.clusterRoles + [role], consumed := consumed);
      failure := None;
    }

    method DropClusterRoles(ghost docs: seq<Doc>)
      requires InOrder(docs)
      modifies this`byKind
      ensures InOrder(docs) && CLUSTER_ROLE !in byKind && Of(byKind, ROLE) == old(Of(byKind, ROLE))
    {
      hide Balanced, WellKinded, UniqueKeys;
      ghost var before := byKind;
      TrimWellKinded(byKind, CLUSTER_ROLE, All);
      TrimIndex(CLUSTER_ROLE, All);
      TrimOther(before, CLUSTER_ROLE, All, DEPLOYMENT);
      TrimOther(before, CLUSTER_ROLE, All, ROLE);
      if UniqueKeys(docs) {
        TrimAllKeepsBalanced(docs, before, CLUSTER_ROLE, at.consumed, at.roles);
      }
    }

    method ProcessClusterRoles(ghost docs: seq<Doc>) returns (failure: Option<Failure>)
      requires Loaded(docs) && at == Landing([], [], [], []) && clusterPermissions == []
      modifies this`byKind, this`clusterPermissions, this`at
      ensures failure == FirstFailure(OfKind(docs, CLUSTER_ROLE), ClusterRoleCheck(operatorName, docs))
      ensures failure.None? ==>
        && InOrder(docs) && CLUSTER_ROLE !in byKind && at.roles == [] && Of(byKind, ROLE) == OfKind(docs, ROLE)
        && at.clusterRoles == OfKind(docs, CLUSTER_ROLE) && (UniqueKeys(docs) ==> Trims(docs, byKind, at))
        && |clusterPermissions| == |at.clusterRoles|
        && forall i :: 0 <= i < |clusterPermissions| ==>
             ClusterPermissionOf(operatorName, docs, at.clusterRoles[i], clusterPermissions[i])
    {
      hide UniqueKeys, Balanced, WellKinded, ClusterPermissionOf, Attached, UsedUp, BindingMap, Trimmed, OfKind;
      hide ClusterRoleCheck, Trims, OnlyBindings;
      LoadedBalanced(docs, byKind);
      NothingAttached(docs);
      var roles := Of(byKind, CLUSTER_ROLE);
      assert roles == OfKind(docs, CLUSTER_ROLE);
      for i := 0 to |roles|
        invariant InOrder(docs) && at.roles == [] && at.clusterRoles == roles[..i]
        invariant FirstFailure(roles, ClusterRoleCheck(operatorName, docs))
               == FirstFailure(roles[i..], ClusterRoleCheck(operatorName, docs))
        invariant Of(byKind, CLUSTER_ROLE) == roles && Of(byKind, ROLE) == OfKind(docs, ROLE)
        invariant |clusterPermissions| == i
        invariant forall k :: 0 <= k < i ==> ClusterPermissionOf(operatorName, docs, roles[k], clusterPermissions[k])
      {
        failure := InjectClusterRole(docs, roles[i]);
        if failure.Some? {
          return;
        }
        assert roles[..i + 1] == roles[..i] + [roles[i]];
      }
      assert roles[..|roles|] == roles;
      DropClusterRoles(docs);
      if UniqueKeys(docs) {
        OrderTrims(docs, byKind, at);
      }
      failure := None;
    }

    /** One turn of the loop over roles. */
    method InjectRole(ghost docs: seq<Doc>, role: Doc, namespace: string) returns (failure: Option<Failure>)
      requires InOrder(docs) && CLUSTER_ROLE !in byKind && role in OfKind(docs, ROLE)
      requires UniqueKeys(docs) ==> role !in at.roles
      modifies this`byKind, this`permissions, this`at
      ensures failure == RoleCheck(docs, namespace)(role)
      ensures failure.None? ==>
        && InOrder(docs) && CLUSTER_ROLE !in byKind && at.clusterRoles == old(at.clusterRoles)
        && (if RoleInjected(docs, namespace, role) then
              && at.roles == old(at.roles) + [role]
              && |permissions| == |old(permissions)| + 1 && old(permissions) <= permissions
              && PermissionOf(docs, role, permissions[|old(permissions)|])
            else at.roles == old(at.roles) && permissions == old(permissions))
    {
      hide UniqueKeys, Balanced, WellKinded, Trimmed, OfKind, LastBinding, Attached, UsedUp;
      assert Lookup(rbByRole, role.name) == LastBinding(docs, ROLE_BINDING, role.name);
      if role.name !in rbByRole {
        // Raising NoAssociatedRoleBinding reads the role's namespace, and then fails itself.
        return if role.namespace.None? then Some(MissingKey) else Some(WrongArguments);
      }
      LastBindingRefers(docs, ROLE_BINDING, role.name);
      var binding := rbByRole[role.name];
      if binding.subjects.None? {
        return Some(MissingKey);
      }
      if Injectable(binding, namespace) {
        if role.rules.None? {
          return Some(MissingKey);
        }
        permissions := permissions + [Permission(role.rules.value, binding.subjects.value[0].name)];
        OfKindMembers(docs, ROLE);
        ghost var before := byKind;
        if UniqueKeys(docs) {
          RoleInIndex(docs, byKind, at.consumed, at.roles, role);
          InjectKeepsBalanced(docs, byKind, at.consumed, at.roles, role);
        }
        TrimWellKinded(byKind, ROLE, One(role));
        TrimIndex(ROLE, One(role));
        TrimOther(before, ROLE, One(role), DEPLOYMENT);
        TrimmedKeys(before, ROLE, One(role));
        ghost var middle := byKind;
        if UniqueKeys(docs) {
          ConsumeKeepsBalanced(docs, byKind, at.consumed, at.roles + [role], binding);
          ConsumedOnceTrimmed(docs, byKind, at.consumed, at.roles + [role], binding);
        }
        TrimWellKinded(byKind, ROLE_BINDING, One(binding));
        TrimIndex(ROLE_BINDING, One(binding));
        TrimOther(middle, ROLE_BINDING, One(binding), DEPLOYMENT);
        TrimmedKeys(middle, ROLE_BINDING, One(binding));
        ghost var consumed := ConsumedAfter(middle, at.consumed, binding);
        AttachRole(docs, at, role, consumed);
        at := at.(roles := at.roles + [role], consumed := consumed);
      }
      failure := None;
    }

    method ProcessRoles(ghost docs: seq<Doc>, namespace: string) returns (failure: Option<Failure>)
      requires InOrder(docs) && CLUSTER_ROLE !in byKind && at.roles == [] && permissions == []
      requires Of(byKind, ROLE) == OfKind(docs, ROLE)
      modifies this`byKind, this`permissions, this`at
      ensures failure == FirstFailure(OfKind(docs, ROLE), RoleCheck(docs, namespace))
      ensures failure.None? ==>
        && InOrder(docs) && CLUSTER_ROLE !in byKind && at.clusterRoles == old(at.clusterRoles)
        && at.roles == Chosen(docs, namespace, OfKind(docs, ROLE)) && (UniqueKeys(docs) ==> Trims(docs, byKind, at))
        && |permissions| == |at.roles|
        && forall i :: 0 <= i < |permissions| ==> PermissionOf(docs, at.roles[i], permissions[i])
    {
      hide UniqueKeys, Balanced, WellKinded, Trimmed, OfKind, Attached, UsedUp, BindingMap, Chosen, PermissionOf;
      hide OnlyBindings, RoleCheck, RoleInjected, Trims;
      if UniqueKeys(docs) {
        OfKindUnique(docs, ROLE);
      }
      NothingChosen(docs, namespace);
      // The loop walks the list object it started with; trimming makes new lists.
      var roles := Of(byKind, ROLE);
      for i := 0 to |roles|
        invariant InOrder(docs) && CLUSTER_ROLE !in byKind && at.clusterRoles == old(at.clusterRoles)
        invariant at.roles == Chosen(docs, namespace, roles[..i])
        invariant FirstFailure(roles, RoleCheck(docs, namespace))
            == FirstFailure(roles[i..], RoleCheck(docs, namespace))
        invariant |permissions| == |at.roles|
        invariant forall k :: 0 <= k < |permissions| ==> PermissionOf(docs, at.roles[k], permissions[k])
      {
        if UniqueKeys(docs) {
          NotYetChosen(docs, namespace, roles, i);
        }
        failure := InjectRole(docs, roles[i], namespace);
        if failure.Some? {
          return;
        }
        ChosenStep(docs, namespace, roles, i);
      }
      assert roles[..|roles|] == roles;
      if UniqueKeys(docs) {
        OrderTrims(docs, byKind, at);
      }
      failure := None;
    }

    /** At most two deployments reach the CSV. */
    method AddDeployments()
      requires Of(byKind, DEPLOYMENT) != []
      modifies this`deployments
      ensures deployments == FirstTwo(Of(byKind, DEPLOYMENT))
    {
      var all := Of(byKind, DEPLOYMENT);
      deployments := [all[0]];
      if |all| > 1 {
        deployments := deployments + [all[1]];
      }
    }

    method BundleDocs(docs: seq<Doc>)
      requires FilesOf(files, at.bundled)
      modifies this`files, this`at
      ensures at == old(at).(bundled := old(at.bundled) + docs) && FilesOf(files, at.bundled)
    {
      for i := 0 to |docs|
        invariant at == old(at).(bundled := old(at.bundled) + docs[..i]) && FilesOf(files, at.bundled)
      {
        FilesGrow(files, at.bundled, docs[i]);
        files := files[FilenameFor(docs[i]) := docs[i]];
        assert old(at.bundled) + docs[..i + 1] == (old(at.bundled) + docs[..i]) + [docs[i]];
        at := at.(bundled := at.bundled + [docs[i]]);
      }
      assert docs[..|docs|] == docs;
    }

    /** Copies what is left, one file a document. */
    method BundleRest()
      requires WellKinded(byKind) && at.bundled == [] && files == map[]
      modifies this`files, this`at
      ensures at == old(at).(bundled := at.bundled)
      ensures BundledBut(at.bundled, byKind, {}) && FilesOf(files, at.bundled)
    {
      var kinds := byKind.Keys;
      NothingBundled(byKind);
      while kinds != {}
        invariant kinds <= byKind.Keys && at == old(at).(bundled := at.bundled)
        invariant BundledBut(at.bundled, byKind, kinds) && FilesOf(files, at.bundled)
        decreases |kinds|
      {
        var kind :| kind in kinds;
        BundledStep(at.bundled, byKind, kinds, kind);
        BundleDocs(byKind[kind]);
        kinds := kinds - {kind};
      }
    }

    /** The whole script, from the loaded documents to the bundle. */
    method Generate(docs: seq<Doc>) returns (failure: Option<Failure>)
      requires IsEmpty() && clusterPermissions == [] && permissions == []
      modifies this
      ensures failure == ScriptFailure(operatorName, csvNamespace, hasSupplementaryImage, docs)
      ensures failure.None? ==>
        && csvNamespace.Some? && Finished(docs, csvNamespace.value, at)
        && |clusterPermissions| == |at.clusterRoles| && |permissions| == |at.roles|
        && (forall i :: 0 <= i < |clusterPermissions| ==>
              ClusterPermissionSays(operatorName, docs, at.clusterRoles[i], clusterPermissions[i]))
        && (forall i :: 0 <= i < |permissions| ==> PermissionSays(docs, at.roles[i], permissions[i]))
        && FilesOf(files, at.bundled)
        && DeploymentsAre(docs, deployments)
    {
      hide UniqueKeys, Balanced, WellKinded, Trimmed, OfKind, Attached, UsedUp, BindingMap, Chosen, PermissionOf;
      hide ClusterPermissionOf, ClusterPermissionSays, PermissionSays, Conserved, FilesOf, OnlyBindings, Trims;
      hide FirstFailure, LoadCheck, ClusterRoleCheck, RoleCheck, DeploymentsAre;
      failure := Load(docs);
      if failure.Some? {
        return;
      }
      if |Of(byKind, DEPLOYMENT)| == 0 {
        return Some(NoDeploymentFound);
      }
      if |byKind[DEPLOYMENT]| > 1 && !hasSupplementaryImage {
        return Some(UndefinedSupplementaryImage);
      }
      failure := ProcessClusterRoles(docs);
      if failure.Some? {
        return;
      }
      if csvNamespace.None? {
        return Some(UndefinedCSVNamespace);
      }
      failure := ProcessRoles(docs, csvNamespace.value);
      if failure.Some? {
        return;
      }
      failure := Finish(docs);
      PermissionsMean(operatorName, docs, at, clusterPermissions, permissions);
    }

    /** From the deployments to the last file. */
    method Finish(ghost docs: seq<Doc>) returns (failure: Option<Failure>)
      requires InOrder(docs) && CLUSTER_ROLE !in byKind && Of(byKind, DEPLOYMENT) != [] && files == map[]
      requires at.clusterRoles == OfKind(docs, CLUSTER_ROLE)
      modifies this`byKind, this`deployments, this`files, this`at
      ensures failure.None?
      ensures UniqueKeys(docs) ==> Conserved(docs, at) && UsedUp(docs, at)
      ensures at == old(at).(bundled := at.bundled) && Attached(docs, at) && FilesOf(files, at.bundled)
      ensures DeploymentsAre(docs, deployments)
    {
      hide UniqueKeys, Balanced, WellKinded, Trimmed, OfKind, BindingMap, Conserved, BundledBut, FilesOf, OnlyBindings;
      AddDeployments();
      FirstTwoAre(docs, deployments);
      DropIgnored(docs);
      // The script's last check looks at the role kinds again, and those are gone.
      var leftover := Of(byKind, CLUSTER_ROLE);
      if leftover != [] {
        return Some(BindingsNotSupported);
      }
      BundleRest();
      if UniqueKeys(docs) {
        CloseBooks(docs, byKind, at);
      }
      failure := None;
    }

    /** Trims Deployments and ServiceAccounts. */
    method DropIgnored(ghost docs: seq<Doc>)
      requires InOrder(docs) && CLUSTER_ROLE !in byKind
      modifies this`byKind
      ensures (UniqueKeys(docs) ==> Balanced(docs, byKind, at.consumed, at.roles)) && WellKinded(byKind)
      ensures CLUSTER_ROLE !in byKind && DEPLOYMENT !in byKind && SERVICE_ACCOUNT !in byKind
    {
      hide Balanced, WellKinded, UniqueKeys;
      TrimWellKinded(byKind, DEPLOYMENT, All);
      if UniqueKeys(docs) {
        TrimAllKeepsBalanced(docs, byKind, DEPLOYMENT, at.consumed, at.roles);
      }
      TrimIndex(DEPLOYMENT, All);
      TrimWellKinded(byKind, SERVICE_ACCOUNT, All);
      if UniqueKeys(docs) {
        TrimAllKeepsBalanced(docs, byKind, SERVICE_ACCOUNT, at.consumed, at.roles);
      }
      TrimIndex(SERVICE_ACCOUNT, All);
    }
  }

  lemma PermissionsMean(
      operatorName: string, docs: seq<Doc>, at: Landing, forClusterRoles: seq<Permission>, forRoles: seq<Permission>)
    requires |forClusterRoles| == |at.clusterRoles| && |forRoles| == |at.roles|
    requires forall i :: 0 <= i < |forClusterRoles| ==>
      ClusterPermissionOf(operatorName, docs, at.clusterRoles[i], forClusterRoles[i])
    requires forall i :: 0 <= i < |forRoles| ==> PermissionOf(docs, at.roles[i], forRoles[i])
    ensures forall i :: 0 <= i < |forClusterRoles| ==>
      ClusterPermissionSays(operatorName, docs, at.clusterRoles[i], forClusterRoles[i])
    ensures forall i :: 0 <= i < |forRoles| ==> PermissionSays(docs, at.roles[i], forRoles[i])
  {
    hide ClusterPermissionOf, ClusterPermissionSays, PermissionOf, PermissionSays;
    forall i | 0 <= i < |forClusterRoles|
      ensures ClusterPermissionSays(operatorName, docs, at.clusterRoles[i], forClusterRoles[i])
    {
      ClusterPermissionExactly(operatorName, docs, at.clusterRoles[i], forClusterRoles[i]);
    }
    forall i | 0 <= i < |forRoles|
      ensures PermissionSays(docs, at.roles[i], forRoles[i])
    {
      PermissionExactly(docs, at.roles[i], forRoles[i]);
    }
  }

  /** Every kind outside `pending` has been bundled in full, and no other. */
  ghost predicate BundledBut(bundled: seq<Doc>, index: Index, pending: set<string>) {
    forall kind :: multiset(OfKind(bundled, kind)) == multiset(if kind in pending then [] else Of(index, kind))
  }

  lemma NothingBundled(index: Index)
    ensures BundledBut([], index, index.Keys)
  {
  }

  lemma BundledStep(bundled: seq<Doc>, index: Index, pending: set<string>, kind: string)
    requires BundledBut(bundled, index, pending) && WellKinded(index) && kind in pending && kind in index
    ensures BundledBut(bundled + index[kind], index, pending - {kind})
  {
    forall other
      ensures multiset(OfKind(bundled + index[kind], other))
           == multiset(if other in pending - {kind} then [] else Of(index, other))
    {
      OfKindAppend(bundled, index[kind], other);
      OfOneKind(index[kind], kind, other);
      assert multiset(OfKind(bundled, other)) == multiset(if other in pending then [] else Of(index, other));
    }
  }

  lemma CloseBooks(docs: seq<Doc>, index: Index, at: Landing)
    requires Balanced(docs, index, at.consumed, at.roles) && BundledBut(at.bundled, index, {})
    requires at.clusterRoles == OfKind(docs, CLUSTER_ROLE) && Injected(at.roles, ROLE) && OnlyBindings(at.consumed)
    requires CLUSTER_ROLE !in index && DEPLOYMENT !in index && SERVICE_ACCOUNT !in index
    ensures Conserved(docs, at)
  {
    forall kind
      ensures multiset(OfKind(at.bundled, kind)) == multiset(Of(index, kind))
    {
      assert multiset(OfKind(at.bundled, kind)) == multiset(if kind in {} then [] else Of(index, kind));
    }
    BooksClose(docs, index, at);
  }

  /** Every bundled document was written to its file; a file holds one written to it. */
  ghost predicate FilesOf(files: map<string, Doc>, bundled: seq<Doc>) {
    && (forall d :: d in bundled ==> FilenameFor(d) in files)
    && (forall f :: f in files ==> files[f] in bundled && FilenameFor(files[f]) == f)
  }

  lemma FilesGrow(files: map<string, Doc>, bundled: seq<Doc>, doc: Doc)
    requires FilesOf(files, bundled)
    ensures FilesOf(files[FilenameFor(doc) := doc], bundled + [doc])
  {
  }

  lemma RoleInIndex(docs: seq<Doc>, index: Index, consumed: seq<Doc>, roles: seq<Doc>, role: Doc)
    requires UniqueKeys(docs) && Balanced(docs, index, consumed, roles) && OnlyBindings(consumed)
    requires role in OfKind(docs, ROLE) && role !in roles && Injected(roles, ROLE)
    ensures role in Of(index, ROLE)
  {
    assert KeptKind(ROLE);
    RoleStillThere(docs, index, consumed, roles, role);
  }

  lemma TrimmedKeys(index: Index, kind: string, item: Item)
    ensures forall k :: k in Trimmed(index, kind, item) ==> k in index
  {
  }

  lemma NothingChosen(docs: seq<Doc>, namespace: string)
    ensures Chosen(docs, namespace, []) == []
  {
  }

  lemma AppendIsIndexed(index: Index, doc: Doc)
    ensures
      var started := if doc.kind !in index then index[doc.kind := []] else index;
      started[doc.kind := started[doc.kind] + [doc]] == Indexed(index, doc)
  {
    if doc.kind !in index {
      assert index[doc.kind := []][doc.kind := [doc]] == index[doc.kind := [doc]];
      assert [] + [doc] == [doc];
    }
  }

  lemma EmptyMaps()
    ensures BindingMap(map[], [], CLUSTER_ROLE_BINDING) && BindingMap(map[], [], ROLE_BINDING)
    ensures forall kind :: OfKind([], kind) == []
  {
  }

  lemma NothingAttached(docs: seq<Doc>)
    ensures Attached(docs, Landing([], [], [], [])) && UsedUp(docs, Landing([], [], [], [])) && OnlyBindings([])
  {
  }

  lemma TrimNothing(index: Index, kind: string)
    ensures Trimmed(index, kind, Nothing) == index
  {
  }

  lemma TrimAllKeepsBalanced(docs: seq<Doc>, index: Index, gone: string, consumed: seq<Doc>, roles: seq<Doc>)
    requires Balanced(docs, index, consumed, roles) && !KeptKind(gone)
    ensures Balanced(docs, Trimmed(index, gone, All), consumed, roles)
  {
    forall kind: string | KeptKind(kind)
      ensures BalancedAt(docs, Trimmed(index, gone, All), consumed, roles, kind)
    {
      assert BalancedAt(docs, index, consumed, roles, kind);
      TrimOther(index, gone, All, kind);
    }
  }
}
