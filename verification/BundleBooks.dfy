/** The books that show conservation while the index shrinks: what was loaded is in the
    index, consumed or injected. */
module BundleBooks {
  import opened Wrappers
  import opened Bundle

  ghost predicate KeptKind(kind: string) {
    kind != CLUSTER_ROLE && !Dropped(kind)
  }

  ghost predicate BalancedAt(docs: seq<Doc>, index: Index, consumed: seq<Doc>, roles: seq<Doc>, kind: string) {
    multiset(OfKind(docs, kind))
    == multiset(Of(index, kind)) + (multiset(OfKind(consumed, kind)) + multiset(OfKind(roles, kind)))
  }

  /** Kind by kind, what was loaded is in the index, consumed or injected. */
  ghost predicate Balanced(docs: seq<Doc>, index: Index, consumed: seq<Doc>, roles: seq<Doc>) {
    forall kind: string | KeptKind(kind) :: BalancedAt(docs, index, consumed, roles, kind)
  }

  ghost predicate OnlyBindings(consumed: seq<Doc>) {
    forall b :: b in consumed ==> IsBinding(b)
  }

  lemma SubUnique(all: seq<Doc>, part: seq<Doc>, rest: multiset<Doc>)
    requires UniqueKeys(all) && multiset(all) == multiset(part) + rest
    ensures UniqueKeys(part) && forall d :: d in part ==> d in all
  {
    forall d | d in part
      ensures d in all
    {
      assert d in multiset(part);
      assert d in multiset(all);
    }
    forall i, j | 0 <= i < j < |part|
      ensures !SameKey(part[i], part[j])
    {
      if SameKey(part[i], part[j]) {
        SameKeySame(all, part[i], part[j]);
        TwiceCounted(part, i, j);
        UniqueCount(all, part[i]);
      }
    }
  }

  lemma TwiceCounted(docs: seq<Doc>, i: nat, j: nat)
    requires i < j < |docs| && docs[i] == docs[j]
    ensures multiset(docs)[docs[i]] >= 2
  {
    assert docs == docs[..j] + docs[j..];
    assert docs[..j][i] == docs[i] && docs[j..][0] == docs[i];
    assert docs[i] in multiset(docs[..j]) && docs[i] in multiset(docs[j..]);
  }

  lemma TrimOther(index: Index, kind: string, item: Item, other: string)
    requires other != kind
    ensures Of(Trimmed(index, kind, item), other) == Of(index, other)
  {
  }

  lemma TrimOwn(index: Index, kind: string, item: Doc)
    ensures Of(Trimmed(index, kind, One(item)), kind) == WithoutFirst(Of(index, kind), item)
  {
  }

  /** The binding leaves the index and is consumed, or had been before. */
  function ConsumedAfter(index: Index, consumed: seq<Doc>, b: Doc): seq<Doc> {
    if b in Of(index, b.kind) then consumed + [b] else consumed
  }

  lemma MoveToFirst(all: multiset<Doc>, here: multiset<Doc>, rest: multiset<Doc>, first: multiset<Doc>,
                    second: multiset<Doc>, d: Doc)
    requires all == here + (first + second) && here == rest + multiset{d}
    ensures all == rest + ((first + multiset{d}) + second)
    ensures all == rest + (first + (second + multiset{d}))
  {
  }

  lemma SelectOne(docs: seq<Doc>, d: Doc, kind: string)
    ensures multiset(OfKind(docs + [d], kind))
         == if kind == d.kind then multiset(OfKind(docs, kind)) + multiset{d} else multiset(OfKind(docs, kind))
  {
    OfKindAppend(docs, [d], kind);
    OfOneKind([d], d.kind, kind);
  }

  /** A binding still in the index moves to the consumed ones. */
  lemma ConsumePresent(docs: seq<Doc>, index: Index, consumed: seq<Doc>, roles: seq<Doc>, b: Doc)
    requires UniqueKeys(docs) && BalancedAt(docs, index, consumed, roles, b.kind) && b in Of(index, b.kind)
    ensures BalancedAt(docs, Trimmed(index, b.kind, One(b)), consumed + [b], roles, b.kind)
    ensures BalancedAt(docs, Trimmed(index, b.kind, One(b)), consumed, roles + [b], b.kind)
  {
    hide Of, OfKind, Trimmed, WithoutFirst;
    var all, here := OfKind(docs, b.kind), Of(index, b.kind);
    OfKindMembers(docs, b.kind);
    OfKindUnique(docs, b.kind);
    SubUnique(all, here, multiset(OfKind(consumed, b.kind)) + multiset(OfKind(roles, b.kind)));
    TrimOwn(index, b.kind, b);
    WithoutPresent(here, b);
    MoveToFirst(multiset(all), multiset(here), multiset(WithoutFirst(here, b)),
                multiset(OfKind(consumed, b.kind)), multiset(OfKind(roles, b.kind)), b);
    SelectOne(consumed, b, b.kind);
    SelectOne(roles, b, b.kind);
  }

  /** A binding consumed before is no longer there to trim. */
  lemma ConsumeAbsent(docs: seq<Doc>, index: Index, consumed: seq<Doc>, roles: seq<Doc>, b: Doc)
    requires UniqueKeys(docs) && BalancedAt(docs, index, consumed, roles, b.kind) && Injected(roles, ROLE)
    requires b in docs && b.kind != ROLE && b !in Of(index, b.kind)
    ensures Of(Trimmed(index, b.kind, One(b)), b.kind) == Of(index, b.kind)
  {
    hide Of, OfKind, Trimmed, WithoutFirst;
    var all, here := OfKind(docs, b.kind), Of(index, b.kind);
    OfKindMembers(docs, b.kind);
    OfKindUnique(docs, b.kind);
    OfOneKind(roles, ROLE, b.kind);
    TrimOwn(index, b.kind, b);
    assert b in multiset(all) && multiset(all) == multiset(here) + multiset(OfKind(consumed, b.kind));
    WithoutAbsent(here, OfKind(consumed, b.kind), all, b);
  }

  /** A binding is consumed once it has been trimmed, by this role or an earlier one. */
  lemma ConsumedOnceTrimmed(docs: seq<Doc>, index: Index, consumed: seq<Doc>, roles: seq<Doc>, b: Doc)
    requires Balanced(docs, index, consumed, roles) && Injected(roles, ROLE)
    requires b in docs && IsBinding(b)
    ensures forall x :: x in ConsumedAfter(index, consumed, b) <==> x in consumed || x == b
  {
    assert BalancedAt(docs, index, consumed, roles, b.kind);
    if b !in Of(index, b.kind) {
      OfKindMembers(docs, b.kind);
      OfKindMembers(consumed, b.kind);
      OfOneKind(roles, ROLE, b.kind);
      assert b in multiset(OfKind(docs, b.kind));
      assert b in multiset(OfKind(consumed, b.kind));
    }
  }

  lemma ConsumeKeepsBalanced(docs: seq<Doc>, index: Index, consumed: seq<Doc>, roles: seq<Doc>, b: Doc)
    requires UniqueKeys(docs) && Balanced(docs, index, consumed, roles) && Injected(roles, ROLE)
    requires b in docs && IsBinding(b)
    ensures Balanced(docs, Trimmed(index, b.kind, One(b)), ConsumedAfter(index, consumed, b), roles)
  {
    hide Of, OfKind, Trimmed;
    forall kind: string | KeptKind(kind)
      ensures BalancedAt(docs, Trimmed(index, b.kind, One(b)), ConsumedAfter(index, consumed, b), roles, kind)
    {
      assert BalancedAt(docs, index, consumed, roles, kind);
      if kind != b.kind {
        TrimOther(index, b.kind, One(b), kind);
        SelectOne(consumed, b, kind);
      } else if b in Of(index, kind) {
        ConsumePresent(docs, index, consumed, roles, b);
      } else {
        ConsumeAbsent(docs, index, consumed, roles, b);
      }
    }
  }

  lemma CountedElsewhere(all: seq<Doc>, here: seq<Doc>, elsewhere: multiset<Doc>, d: Doc)
    requires UniqueKeys(all) && multiset(all) == multiset(here) + elsewhere && d in elsewhere
    ensures d !in here
  {
    UniqueCount(all, d);
    assert d in here ==> d in multiset(here);
  }

  /** What was consumed or injected is no longer in the index. */
  lemma TrimmedAway(docs: seq<Doc>, index: Index, at: Landing)
    requires UniqueKeys(docs) && Balanced(docs, index, at.consumed, at.roles) && Injected(at.roles, ROLE)
    ensures forall b :: b in at.consumed && IsBinding(b) ==> b !in Of(index, b.kind)
    ensures forall r :: r in at.roles ==> r !in Of(index, ROLE)
  {
    hide UniqueKeys, Of, OfKind;
    forall d | (d in at.consumed && IsBinding(d)) || d in at.roles
      ensures d !in Of(index, d.kind)
    {
      assert BalancedAt(docs, index, at.consumed, at.roles, d.kind);
      OfKindUnique(docs, d.kind);
      OfKindMembers(at.consumed, d.kind);
      OfKindMembers(at.roles, d.kind);
      var elsewhere := multiset(OfKind(at.consumed, d.kind)) + multiset(OfKind(at.roles, d.kind));
      assert d in elsewhere by {
        assert d in OfKind(at.consumed, d.kind) || d in OfKind(at.roles, d.kind);
      }
      CountedElsewhere(OfKind(docs, d.kind), Of(index, d.kind), elsewhere, d);
    }
  }

  lemma InjectKeepsBalanced(docs: seq<Doc>, index: Index, consumed: seq<Doc>, roles: seq<Doc>, role: Doc)
    requires UniqueKeys(docs) && Balanced(docs, index, consumed, roles)
    requires role.kind == ROLE && role in Of(index, ROLE)
    ensures Balanced(docs, Trimmed(index, ROLE, One(role)), consumed, roles + [role])
  {
    hide Of, OfKind, Trimmed;
    forall kind: string | KeptKind(kind)
      ensures BalancedAt(docs, Trimmed(index, ROLE, One(role)), consumed, roles + [role], kind)
    {
      assert BalancedAt(docs, index, consumed, roles, kind);
      if kind != ROLE {
        TrimOther(index, ROLE, One(role), kind);
        SelectOne(roles, role, kind);
      } else {
        ConsumePresent(docs, index, consumed, roles, role);
      }
    }
  }

  ghost predicate WellKinded(index: Index) {
    forall kind, d :: kind in index && d in index[kind] ==> d.kind == kind
  }

  lemma {:induction false} WithoutFirstMembers(docs: seq<Doc>, item: Doc)
    ensures forall d :: d in WithoutFirst(docs, item) ==> d in docs
  {
    if docs != [] {
      WithoutFirstMembers(docs[1..], item);
    }
  }

  lemma TrimWellKinded(index: Index, kind: string, item: Item)
    requires WellKinded(index)
    ensures WellKinded(Trimmed(index, kind, item))
  {
    if kind in index && item.One? {
      WithoutFirstMembers(index[kind], item.doc);
    }
  }

  /** Appending a document to its kind's list, made first if missing. */
  function Indexed(index: Index, doc: Doc): Index {
    index[doc.kind := Of(index, doc.kind) + [doc]]
  }

  lemma IndexedOfKind(docs: seq<Doc>, index: Index, doc: Doc)
    requires forall kind :: Of(index, kind) == OfKind(docs, kind)
    ensures forall kind :: Of(Indexed(index, doc), kind) == OfKind(docs + [doc], kind)
  {
    assert (docs + [doc])[..|docs + [doc]| - 1] == docs;
  }

  lemma LoadedBalanced(docs: seq<Doc>, index: Index)
    requires forall kind :: Of(index, kind) == OfKind(docs, kind)
    ensures Balanced(docs, index, [], []) && WellKinded(index)
  {
    forall kind, d | kind in index && d in index[kind]
      ensures d.kind == kind
    {
      assert Of(index, kind) == OfKind(docs, kind);
      OfKindMembers(docs, kind);
    }
    forall kind: string | KeptKind(kind)
      ensures BalancedAt(docs, index, [], [], kind)
    {
      assert Of(index, kind) == OfKind(docs, kind);
    }
  }

  /** A role whose turn has not come is still in the index. */
  lemma RoleStillThere(docs: seq<Doc>, index: Index, consumed: seq<Doc>, roles: seq<Doc>, role: Doc)
    requires UniqueKeys(docs) && BalancedAt(docs, index, consumed, roles, ROLE) && OnlyBindings(consumed)
    requires role in OfKind(docs, ROLE) && role !in roles && Injected(roles, ROLE)
    ensures role in Of(index, ROLE)
  {
    OfOneKind(roles, ROLE, ROLE);
    NoRolesConsumed(consumed);
    assert role in multiset(OfKind(docs, ROLE));
    assert role !in multiset(roles);
  }

  lemma {:induction false} NoRolesConsumed(consumed: seq<Doc>)
    requires OnlyBindings(consumed)
    ensures OfKind(consumed, ROLE) == [] && OfKind(consumed, CLUSTER_ROLE) == []
    ensures OfKind(consumed, DEPLOYMENT) == [] && OfKind(consumed, SERVICE_ACCOUNT) == []
  {
    if consumed != [] {
      var front := consumed[..|consumed| - 1];
      assert forall b :: b in front ==> b in consumed;
      assert IsBinding(consumed[|consumed| - 1]);
      NoRolesConsumed(front);
    }
  }

  lemma PlacesOfKind(at: Landing, kind: string)
    ensures OfKind(at.Places(), kind)
         == OfKind(at.clusterRoles, kind) + OfKind(at.roles, kind) + OfKind(at.consumed, kind)
            + OfKind(at.bundled, kind)
  {
    OfKindAppend(at.clusterRoles + at.roles + at.consumed, at.bundled, kind);
    OfKindAppend(at.clusterRoles + at.roles, at.consumed, kind);
    OfKindAppend(at.clusterRoles, at.roles, kind);
  }

  lemma FourParts(a: seq<Doc>, b: seq<Doc>, c: seq<Doc>, d: seq<Doc>)
    ensures multiset(a + b + c + d) == multiset(a) + (multiset(d) + (multiset(c) + multiset(b)))
  {
  }

  lemma KeptBooksClose(docs: seq<Doc>, index: Index, at: Landing, kind: string)
    requires KeptKind(kind) && BalancedAt(docs, index, at.consumed, at.roles, kind)
    requires at.clusterRoles == OfKind(docs, CLUSTER_ROLE)
    requires multiset(OfKind(at.bundled, kind)) == multiset(Of(index, kind))
    ensures multiset(OfKind(at.Places(), kind)) == multiset(OfKind(docs, kind))
  {
    hide OfKind, Of, Landing.Places;
    PlacesOfKind(at, kind);
    FourParts(OfKind(at.clusterRoles, kind), OfKind(at.roles, kind), OfKind(at.consumed, kind),
              OfKind(at.bundled, kind));
    OfKindMembers(docs, CLUSTER_ROLE);
    OfOneKind(at.clusterRoles, CLUSTER_ROLE, kind);
  }

  lemma OtherBooksClose(docs: seq<Doc>, index: Index, at: Landing, kind: string)
    requires !KeptKind(kind)
    requires at.clusterRoles == OfKind(docs, CLUSTER_ROLE) && Injected(at.roles, ROLE) && OnlyBindings(at.consumed)
    requires CLUSTER_ROLE !in index && DEPLOYMENT !in index && SERVICE_ACCOUNT !in index
    requires multiset(OfKind(at.bundled, kind)) == multiset(Of(index, kind))
    ensures multiset(OfKind(at.Places(), kind)) == if Dropped(kind) then multiset{} else multiset(OfKind(docs, kind))
  {
    hide OfKind, Landing.Places;
    NothingElsewhere(index, at, kind);
    PlacesOfKind(at, kind);
    OfKindMembers(docs, CLUSTER_ROLE);
    OfOneKind(at.clusterRoles, CLUSTER_ROLE, kind);
    assert OfKind(at.Places(), kind) == OfKind(at.clusterRoles, kind);
  }

  lemma NothingElsewhere(index: Index, at: Landing, kind: string)
    requires !KeptKind(kind) && Injected(at.roles, ROLE) && OnlyBindings(at.consumed)
    requires CLUSTER_ROLE !in index && DEPLOYMENT !in index && SERVICE_ACCOUNT !in index
    requires multiset(OfKind(at.bundled, kind)) == multiset(Of(index, kind))
    ensures OfKind(at.roles, kind) == OfKind(at.consumed, kind) == OfKind(at.bundled, kind) == []
  {
    hide OfKind;
    OfOneKind(at.roles, ROLE, kind);
    NoRolesConsumed(at.consumed);
    assert |multiset(OfKind(at.bundled, kind))| == |multiset(Of(index, kind))| == 0;
  }

  /** The books at the end: everything left in the index was bundled. */
  lemma BooksClose(docs: seq<Doc>, index: Index, at: Landing)
    requires Balanced(docs, index, at.consumed, at.roles)
    requires at.clusterRoles == OfKind(docs, CLUSTER_ROLE) && Injected(at.roles, ROLE) && OnlyBindings(at.consumed)
    requires CLUSTER_ROLE !in index && DEPLOYMENT !in index && SERVICE_ACCOUNT !in index
    requires forall kind :: multiset(OfKind(at.bundled, kind)) == multiset(Of(index, kind))
    ensures Conserved(docs, at)
  {
    forall kind: string
      ensures multiset(OfKind(at.Places(), kind)) == if Dropped(kind) then multiset{} else multiset(OfKind(docs, kind))
    {
      assert multiset(OfKind(at.bundled, kind)) == multiset(Of(index, kind));
      if KeptKind(kind) {
        assert BalancedAt(docs, index, at.consumed, at.roles, kind);
        KeptBooksClose(docs, index, at, kind);
      } else {
        OtherBooksClose(docs, index, at, kind);
      }
    }
  }
}
