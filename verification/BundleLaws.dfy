/** What conservation means for single documents and for the files written. */
module BundleLaws {
  import opened Wrappers
  import opened Bundle
  import opened BundleMeaning
  import opened BundleGenerator
  import opened BundleOutcomes

  lemma {:induction false} CountByKind(docs: seq<Doc>, d: Doc)
    ensures multiset(docs)[d] == multiset(OfKind(docs, d.kind))[d]
  {
    if docs != [] {
      var front, last := docs[..|docs| - 1], docs[|docs| - 1];
      CountByKind(front, d);
      assert docs == front + [last];
    }
  }

  /** Each document of a kept kind lands exactly as often as it was loaded, which is
      once when keys are unique; the others land nowhere. */
  lemma EachLandsOnce(docs: seq<Doc>, at: Landing, d: Doc)
    requires Conserved(docs, at) && UniqueKeys(docs)
    ensures multiset(at.Places())[d] == if d in docs && d.kind !in {"Deployment", "ServiceAccount"} then 1 else 0
  {
    CountByKind(at.Places(), d);
    CountByKind(docs, d);
    UniqueCount(docs, d);
    assert multiset(OfKind(at.Places(), d.kind))
        == if Dropped(d.kind) then multiset{} else multiset(OfKind(docs, d.kind));
    assert d in docs <==> d in multiset(docs);
  }

  // ---------- Where a finished run puts each document ----------

  predicate Binds(d: Doc) {
    d.kind == "ClusterRoleBinding" || d.kind == "RoleBinding"
  }

  ghost predicate HasRole(docs: seq<Doc>, kind: string, b: Doc) {
    exists r :: r in docs && r.kind == kind && b.roleRef == Some(r.name)
  }

  /** The role that the binding refers to is among the documents. */
  ghost predicate Provided(docs: seq<Doc>, b: Doc) {
    HasRole(docs, if b.kind == "ClusterRoleBinding" then "ClusterRole" else "Role", b)
  }

  /** A binding of the same role was loaded after this one. */
  ghost predicate Superseded(docs: seq<Doc>, b: Doc) {
    exists i, j :: 0 <= i < j < |docs| && docs[i] == b && docs[j].kind == b.kind && docs[j].roleRef == b.roleRef
  }

  /** The bindings whose content reaches the CSV. */
  ghost predicate Absorbed(docs: seq<Doc>, namespace: string, b: Doc) {
    && b in docs && Binds(b) && Provided(docs, b) && !Superseded(docs, b)
    && (b.kind == "RoleBinding" ==> SoleAccount(b, namespace))
  }

  lemma {:induction false} PlaceOf(docs: seq<Doc>, d: Doc) returns (i: nat)
    requires d in docs
    ensures i < |docs| && docs[i] == d
  {
    i :| 0 <= i < |docs| && docs[i] == d;
  }

  /** Among documents of unique keys, being the last binding means not being superseded. */
  lemma LastUnlessSuperseded(docs: seq<Doc>, b: Doc, name: string)
    requires UniqueKeys(docs) && b in docs && Binds(b) && b.roleRef == Some(name)
    ensures LastBinding(docs, b.kind, name) == Some(b) <==> !Superseded(docs, b)
  {
    LastBindingIsLast(docs, b.kind, name);
    var place := PlaceOf(docs, b);
    assert forall i :: 0 <= i < |docs| && docs[i] == b ==> i == place by {
      assert SameKey(b, b);
    }
    assert LastAt(docs, b.kind, name, place) <==> !Superseded(docs, b);
  }

  lemma UsesExactlyWhen(docs: seq<Doc>, namespace: string, at: Landing, b: Doc)
    requires UniqueKeys(docs) && at.clusterRoles == OfKind(docs, "ClusterRole")
    requires at.roles == Chosen(docs, namespace, OfKind(docs, "Role"))
    ensures Uses(docs, at, b) <==> Absorbed(docs, namespace, b)
  {
    OfKindMembers(docs, "ClusterRole");
    OfKindMembers(docs, "Role");
    ChosenMembers(docs, namespace, OfKind(docs, "Role"));
    forall name: string, kind: string | LastBinding(docs, kind, name) == Some(b)
      ensures b in docs && Refers(b, kind, name)
    {
      LastBindingRefers(docs, kind, name);
    }
    if b in docs && Binds(b) && b.roleRef.Some? {
      LastUnlessSuperseded(docs, b, b.roleRef.value);
    }
  }

  /** A finished run consumes a binding exactly when its role is there, no later binding
      of that role is, and, for a RoleBinding, its subject makes the role injectable. */
  lemma ConsumedExactlyWhen(docs: seq<Doc>, namespace: string, at: Landing, b: Doc)
    requires UniqueKeys(docs) && Finished(docs, namespace, at)
    ensures b in at.consumed <==> Absorbed(docs, namespace, b)
  {
    hide Conserved, Uses, Absorbed, OfKind, Chosen;
    UsesExactlyWhen(docs, namespace, at, b);
  }

  lemma LandedSomewhere(docs: seq<Doc>, at: Landing, d: Doc)
    requires Conserved(docs, at) && UniqueKeys(docs)
    ensures d in docs && !Dropped(d.kind)
        <==> d in at.clusterRoles || d in at.roles || d in at.consumed || d in at.bundled
    ensures d in at.bundled ==> d !in at.clusterRoles && d !in at.roles && d !in at.consumed
  {
    EachLandsOnce(docs, at, d);
    assert d in at.Places() <==> d in multiset(at.Places());
    assert multiset(at.Places())
        == multiset(at.clusterRoles) + multiset(at.roles) + multiset(at.consumed) + multiset(at.bundled);
  }

  /** The documents a finished run copies into the bundle. */
  lemma BundledExactlyWhen(docs: seq<Doc>, namespace: string, at: Landing, d: Doc)
    requires UniqueKeys(docs) && Finished(docs, namespace, at)
    ensures d in at.bundled <==>
      && d in docs && d.kind !in {"Deployment", "ServiceAccount", "ClusterRole"}
      && !(d.kind == "Role" && GoesToCSV(docs, namespace, d))
      && !Absorbed(docs, namespace, d)
  {
    hide Conserved, Absorbed, RoleInjected, GoesToCSV, Attached, UsedUp, Landing.Places, OfKind, Chosen;
    LandedSomewhere(docs, at, d);
    GoesToCSVExactly(docs, namespace, d);
    ConsumedExactlyWhen(docs, namespace, at, d);
    OfKindMembers(docs, "ClusterRole");
    OfKindMembers(docs, "Role");
    ChosenMembers(docs, namespace, OfKind(docs, "Role"));
  }

  /** A Role is in the CSV's permissions or in the bundle, never in both, as its last
      binding decides. */
  lemma RolesLandOnce(docs: seq<Doc>, namespace: string, at: Landing, role: Doc)
    requires UniqueKeys(docs) && Finished(docs, namespace, at) && role in docs && role.kind == "Role"
    ensures role in at.roles <==> GoesToCSV(docs, namespace, role)
    ensures role in at.bundled <==> !GoesToCSV(docs, namespace, role)
  {
    hide RoleInjected, GoesToCSV, Conserved, Attached, UsedUp, OfKind, Chosen;
    BundledExactlyWhen(docs, namespace, at, role);
    GoesToCSVExactly(docs, namespace, role);
    OfKindMembers(docs, "Role");
    ChosenMembers(docs, namespace, OfKind(docs, "Role"));
  }

  /** Every ClusterRole is injected, and of the Roles those whose last binding says so, in
      the order of the documents. */
  lemma InjectedInOrder(docs: seq<Doc>, namespace: string, at: Landing)
    requires Finished(docs, namespace, at)
    ensures forall r :: r in at.clusterRoles <==> r in docs && r.kind == "ClusterRole"
    ensures forall r :: r in at.roles <==> r in docs && r.kind == "Role" && GoesToCSV(docs, namespace, r)
    ensures Ordered(at.clusterRoles, docs) && Ordered(at.roles, docs)
  {
    hide Conserved, Attached, UsedUp, OfKind, Chosen, Ordered, RoleInjected, GoesToCSV;
    OfKindMembers(docs, "ClusterRole");
    OfKindMembers(docs, "Role");
    ChosenMembers(docs, namespace, OfKind(docs, "Role"));
    forall r {
      GoesToCSVExactly(docs, namespace, r);
    }
    OfKindOrdered(docs, "ClusterRole");
    OfKindOrdered(docs, "Role");
    ChosenOrdered(docs, namespace, OfKind(docs, "Role"));
    OrderedTwice(at.roles, OfKind(docs, "Role"), docs);
  }

  /** The script announces an error for bindings left over, yet finishes with them in
      the bundle: those without their role, those that a later binding of the role
      replaced, and RoleBindings that do not make their role injectable. */
  lemma LeftOverExactlyWhen(docs: seq<Doc>, namespace: string, at: Landing, b: Doc)
    requires UniqueKeys(docs) && Finished(docs, namespace, at) && b in docs && Binds(b)
    ensures b in at.bundled <==>
      !Provided(docs, b) || Superseded(docs, b) || (b.kind == "RoleBinding" && !SoleAccount(b, namespace))
  {
    hide Finished, Provided, Superseded, SoleAccount;
    BundledExactlyWhen(docs, namespace, at, b);
  }

  function Binding(kind: string, name: string, role: string): Doc {
    Doc(kind, None, name, Some(role), Some([Subject("ServiceAccount", "sa", None)]), None)
  }

  function LooseEnds(): seq<Doc> {
    [Doc("Deployment", None, "operator", None, None, None),
     Doc("ClusterRole", None, "reader", None, None, Some("rules")),
     Binding("ClusterRoleBinding", "first", "reader"), Binding("ClusterRoleBinding", "second", "reader"),
     Binding("ClusterRoleBinding", "orphan", "missing"), Binding("RoleBinding", "orphan", "missing")]
  }

  /** A run that does not raise leaves three bindings over: one of two for a role that
      is there, and two without their role. */
  lemma LooseEndsAreBundled(at: Landing)
    ensures UniqueKeys(LooseEnds()) && ScriptFailure("operator", Some("namespace"), false, LooseEnds()) == None
    ensures Finished(LooseEnds(), "namespace", at) ==>
      && LooseEnds()[2] in at.bundled && Provided(LooseEnds(), LooseEnds()[2])
      && LooseEnds()[3] in at.consumed
      && LooseEnds()[4] in at.bundled && LooseEnds()[5] in at.bundled
  {
    LooseEndsUnique();
    LooseEndsFinish();
    LooseEndsProvided();
    if Finished(LooseEnds(), "namespace", at) {
      LooseEndsLand(LooseEnds(), at);
    }
  }

  /** What the example shows, whatever the documents are called. */
  lemma LooseEndsLand(docs: seq<Doc>, at: Landing)
    requires UniqueKeys(docs) && Finished(docs, "namespace", at) && |docs| == 6
    requires forall i :: 2 <= i < 6 ==> Binds(docs[i])
    requires Superseded(docs, docs[2]) && Absorbed(docs, "namespace", docs[3])
    requires !Provided(docs, docs[4]) && !Provided(docs, docs[5])
    ensures docs[2] in at.bundled && docs[3] in at.consumed && docs[4] in at.bundled && docs[5] in at.bundled
  {
    hide Finished, Superseded, Absorbed, Provided, UniqueKeys;
    LeftOverExactlyWhen(docs, "namespace", at, docs[2]);
    ConsumedExactlyWhen(docs, "namespace", at, docs[3]);
    LeftOverExactlyWhen(docs, "namespace", at, docs[4]);
    LeftOverExactlyWhen(docs, "namespace", at, docs[5]);
  }

  lemma LooseEndsUnique()
    ensures UniqueKeys(LooseEnds())
  {
  }

  /** What matters of the example. */
  ghost predicate Loose(docs: seq<Doc>) {
    && |docs| == 6 && docs[0].kind == "Deployment" && docs[1].kind == "ClusterRole" && docs[1].name == "reader"
    && docs[2].kind == docs[3].kind == docs[4].kind == "ClusterRoleBinding" && docs[5].kind == "RoleBinding"
    && docs[2].roleRef == docs[3].roleRef == Some("reader") && docs[4].roleRef == docs[5].roleRef == Some("missing")
    && docs[2] != docs[3] && docs[3] != docs[4]
  }

  lemma LooseEndsProvided()
    ensures var docs := LooseEnds();
      && |docs| == 6 && (forall i :: 2 <= i < 6 ==> Binds(docs[i]))
      && Provided(docs, docs[2]) && Superseded(docs, docs[2]) && Absorbed(docs, "namespace", docs[3])
      && !Provided(docs, docs[4]) && !Provided(docs, docs[5])
  {
    hide Provided, Superseded;
    assert Loose(LooseEnds());
    LooseProvided(LooseEnds());
  }

  lemma LooseProvided(docs: seq<Doc>)
    requires Loose(docs)
    ensures Provided(docs, docs[2]) && Superseded(docs, docs[2])
    ensures docs[3] in docs && Provided(docs, docs[3]) && !Superseded(docs, docs[3])
    ensures !Provided(docs, docs[4]) && !Provided(docs, docs[5])
  {
    assert docs[1] in docs;
    assert "missing" != "reader";
  }

  lemma LooseEndsFinish()
    ensures ScriptFailure("operator", Some("namespace"), false, LooseEnds()) == None
  {
    hide ScriptFailure, HasAccount;
    var docs := LooseEnds();
    LooseEndsAccount();
    assert docs[0] in docs;
    FinishesExactlyWhen("operator", Some("namespace"), false, docs);
  }

  lemma LooseEndsAccount()
    ensures HasAccount("operator", LooseEnds(), LooseEnds()[1])
  {
    var docs := LooseEnds();
    assert docs[3] in docs;
    assert BoundLastAt(docs, "ClusterRoleBinding", "reader", 3);
    assert docs[3].subjects.value[0].name == "sa" && NamesFirst(docs[3].subjects.value, "sa");
    assert AccountIs("operator", docs, docs[1], "sa");
  }

  // ---------- Files ----------

  predicate Namespaced(d: Doc) {
    d.namespace.Some? && d.namespace.value != ""
  }

  /** The reading of a file name that takes the first underscore to end the kind, and
      the next one, unless nothing precedes it, to end the namespace. */
  predicate Separable(d: Doc) {
    && '_' !in d.kind && d.namespace != Some("")
    && (if Namespaced(d) then '_' !in d.namespace.value else '_' !in d.name || d.name[0] == '_')
  }

  lemma {:induction false} FirstSeparator(a: string, x: string, b: string, y: string)
    requires '_' !in a && '_' !in b && a + "_" + x == b + "_" + y
    ensures a == b && x == y
  {
    var whole, other := a + "_" + x, b + "_" + y;
    assert whole[0] == if a == "" then '_' else a[0];
    assert other[0] == if b == "" then '_' else b[0];
    if a == "" {
      assert b == "" && whole[1..] == x && other[1..] == y;
    } else {
      assert b != "" && whole[1..] == a[1..] + "_" + x && other[1..] == b[1..] + "_" + y;
      FirstSeparator(a[1..], x, b[1..], y);
      assert a == [a[0]] + a[1..] && b == [b[0]] + b[1..];
    }
  }

  lemma SameEnding(x: string, y: string)
    requires x + ".yaml" == y + ".yaml"
    ensures x == y
  {
    assert x == (x + ".yaml")[..|x|] && y == (y + ".yaml")[..|y|];
  }

  function Tail(d: Doc): string {
    (if Namespaced(d) then d.namespace.value + "_" else "") + d.name + ".yaml"
  }

  /** The file name determines kind, namespace and name. */
  lemma FilenameIdentifies(d: Doc, e: Doc)
    requires Separable(d) && Separable(e) && FilenameFor(d) == FilenameFor(e)
    ensures SameKey(d, e)
  {
    assert FilenameFor(d) == d.kind + "_" + Tail(d) && FilenameFor(e) == e.kind + "_" + Tail(e);
    FirstSeparator(d.kind, Tail(d), e.kind, Tail(e));
    if Namespaced(d) && Namespaced(e) {
      assert Tail(d) == d.namespace.value + "_" + (d.name + ".yaml");
      assert Tail(e) == e.namespace.value + "_" + (e.name + ".yaml");
      FirstSeparator(d.namespace.value, d.name + ".yaml", e.namespace.value, e.name + ".yaml");
      SameEnding(d.name, e.name);
    } else if !Namespaced(d) && !Namespaced(e) {
      assert Tail(d) == d.name + ".yaml" && Tail(e) == e.name + ".yaml";
      SameEnding(d.name, e.name);
    } else if Namespaced(d) {
      SeparatorMissing(d, e);
    } else {
      SeparatorMissing(e, d);
    }
  }

  lemma SeparatorMissing(d: Doc, e: Doc)
    requires Separable(d) && Separable(e) && Namespaced(d) && !Namespaced(e)
    ensures Tail(d) != Tail(e)
  {
    assert Tail(d)[|d.namespace.value|] == '_' && Tail(d)[0] == d.namespace.value[0];
    assert Tail(e) == e.name + ".yaml";
    if '_' in e.name {
      assert Tail(e)[0] == '_';
    } else {
      assert '_' !in ".yaml";
      assert '_' in Tail(d) && '_' !in Tail(e);
    }
  }

  function Before(s: string): string {
    if s == "" || s[0] == '_' then "" else [s[0]] + Before(s[1..])
  }

  function After(s: string): string
    requires '_' in s
  {
    if s[0] == '_' then s[1..] else After(s[1..])
  }

  lemma {:induction false} CutAtSeparator(s: string)
    requires '_' in s
    ensures Before(s) + "_" + After(s) == s && '_' !in Before(s)
    ensures Before(s) == "" <==> s[0] == '_'
  {
    if s[0] == '_' {
      assert s == "_" + s[1..];
    } else {
      CutAtSeparator(s[1..]);
      assert s == [s[0]] + s[1..];
    }
  }

  /** Every file name has such a reading. */
  lemma FilenameReadable(d: Doc) returns (e: Doc)
    ensures Separable(e) && FilenameFor(e) == FilenameFor(d)
  {
    var rest := (if Namespaced(d) then d.namespace.value + "_" else "") + d.name;
    Assemble(d, rest);
    var stem := d.kind + "_" + rest;
    assert stem[|d.kind|] == '_';
    CutAtSeparator(stem);
    e := ReadRest(Before(stem), After(stem));
  }

  lemma Assemble(d: Doc, rest: string)
    requires rest == (if Namespaced(d) then d.namespace.value + "_" else "") + d.name
    ensures FilenameFor(d) == d.kind + "_" + rest + ".yaml"
  {
    if Namespaced(d) {
      assert d.kind + "_" + (d.namespace.value + "_") + d.name == d.kind + "_" + (d.namespace.value + "_" + d.name);
    } else {
      assert d.kind + "_" + "" + d.name == d.kind + "_" + d.name;
      assert "" + d.name == d.name;
    }
  }

  lemma ReadRest(kind: string, rest: string) returns (e: Doc)
    requires '_' !in kind
    ensures Separable(e) && FilenameFor(e) == kind + "_" + rest + ".yaml"
  {
    if '_' in rest && rest[0] != '_' {
      CutAtSeparator(rest);
      e := Doc(kind, Some(Before(rest)), After(rest), None, None, None);
      Assemble(e, rest);
    } else {
      e := Doc(kind, None, rest, None, None, None);
      assert "" + rest == rest;
      Assemble(e, rest);
    }
  }

  ghost predicate SharesFile(d: Doc, e: Doc) {
    !SameKey(d, e) && FilenameFor(d) == FilenameFor(e)
  }

  /** Separable documents are a largest family in which file names are unique: any other
      document takes the file of one of them. */
  lemma SharesFileExactlyWhen(d: Doc)
    ensures (exists e :: Separable(e) && SharesFile(d, e)) <==> !Separable(d)
  {
    if Separable(d) {
      forall e | Separable(e) && SharesFile(d, e)
        ensures false
      {
        FilenameIdentifies(d, e);
      }
    } else {
      var e := FilenameReadable(d);
      assert SharesFile(d, e);
    }
  }

  /** Two documents with different keys that share a file, one of them not separable. */
  lemma UnderscoreCollides()
    ensures
      var namespaced := Doc("Role", Some("a"), "b", None, None, None);
      var plain := Doc("Role", None, "a_b", None, None, None);
      && FilenameFor(namespaced) == FilenameFor(plain) == "Role_a_b.yaml"
      && SharesFile(namespaced, plain) && Separable(namespaced) && !Separable(plain)
  {
    assert "a" + "_" + "b" == "a_b";
    assert "a_b"[1] == '_';
  }

  /** And no document at all is alone with its file name. */
  lemma NoFilenameIsUnique(d: Doc)
    ensures exists e :: SharesFile(d, e)
  {
    var e :=
      if Namespaced(d) then d.(namespace := None, name := d.namespace.value + "_" + d.name)
      else d.(namespace := if d.namespace == None then Some("") else None);
    assert FilenameFor(e) == FilenameFor(d) by {
      assert d.kind + "_" + "" == d.kind + "_";
      if Namespaced(d) {
        assert FilenameFor(d) == d.kind + "_" + (d.namespace.value + "_" + d.name) + ".yaml";
      }
    }
    assert SharesFile(d, e);
  }

  /** Every bundled document survives in its own file. */
  lemma NoFileLost(files: map<string, Doc>, bundled: seq<Doc>, d: Doc)
    requires FilesOf(files, bundled) && d in bundled
    requires forall a, b :: a in bundled && b in bundled && SameKey(a, b) ==> a == b
    requires forall a :: a in bundled ==> Separable(a)
    ensures
      var file := d.kind + "_" + (if Namespaced(d) then d.namespace.value + "_" else "") + d.name + ".yaml";
      file in files && files[file] == d
  {
    FilenameIdentifies(files[FilenameFor(d)], d);
  }
}
