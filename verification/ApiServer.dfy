/** The part of the Kubernetes API server the controller talks to. Every call is atomic; a
    status write changes a status only, a spec write changes a spec only. */
module ApiServer {
  import opened Crds
  import opened Merge
  import opened MergeTheorems
  import Ordered

  datatype BindingId = BindingId(namespace: string, name: string)

  datatype Store = Store(bindings: map<BindingId, CloudRoleBinding>, resolved: map<Key, Resolved>)

  /** A stored binding carries its own name. */
  predicate WellNamed(st: Store) {
    forall id :: id in st.bindings ==> st.bindings[id].name == Some(id.name)
  }

  // ---------- Calls ----------

  function IdOf(namespace: string, c: CloudRoleBinding): BindingId {
    BindingId(namespace, c.NameOrEmpty())
  }

  /** `replace_status`: fails on a binding that is gone. */
  function ReplaceStatus(st: Store, namespace: string, updated: CloudRoleBinding): Store
    requires IdOf(namespace, updated) in st.bindings
  {
    var id := IdOf(namespace, updated);
    st.(bindings := st.bindings[id := st.bindings[id].(status := updated.status)])
  }

  /** Applying the object itself: creates it without a status, or replaces its spec. */
  function PatchSpec(st: Store, k: Key, r: Resolved): Store {
    st.(resolved := st.resolved[k := Resolved(r.spec, if k in st.resolved then st.resolved[k].status else None)])
  }

  /** Applying its status sub-resource. */
  function PatchStatus(st: Store, k: Key, r: Resolved): Store
    requires k in st.resolved
  {
    st.(resolved := st.resolved[k := st.resolved[k].(status := r.status)])
  }

  // ---------- Listings ----------

  predicate IsRelevant(k: Key, id: BindingId, c: CloudRoleBinding) {
    id.namespace == k.namespace && c.spec.subject.serviceAccountName == k.serviceAccountName
  }

  predicate DistinctNames(s: Bindings) {
    forall i, j :: 0 <= i < j < |s| ==> s[i].name != s[j].name
  }

  /** `all` is what listing the namespace returns, in any order. */
  predicate IsListing(st: Store, namespace: string, all: Bindings) {
    && DistinctNames(all)
    && (forall c :: c in all ==>
         c.name.Some? && IdOf(namespace, c) in st.bindings && st.bindings[IdOf(namespace, c)] == c)
    && (forall id :: id in st.bindings && id.namespace == namespace ==> st.bindings[id] in all)
  }

  /** The bindings of one ServiceAccount. */
  function Select(all: Bindings, sa: string): Bindings {
    if all == [] then []
    else (if all[0].spec.subject.serviceAccountName == sa then [all[0]] else []) + Select(all[1..], sa)
  }

  /** The snapshot still shows exactly the bindings of k as they are, statuses aside. */
  predicate Current(st: Store, k: Key, snap: Bindings) {
    && DistinctNames(snap)
    && (forall c :: c in snap ==>
          c.name.Some? && IdOf(k.namespace, c) in st.bindings
          && Core(st.bindings[IdOf(k.namespace, c)]) == Core(c) && IsRelevant(k, IdOf(k.namespace, c), c))
    && (forall id :: id in st.bindings && IsRelevant(k, id, st.bindings[id]) ==>
         exists c :: c in snap && IdOf(k.namespace, c) == id)
  }

  lemma {:induction false} SelectMeans(all: Bindings, sa: string)
    ensures forall c :: c in Select(all, sa) <==> c in all && c.spec.subject.serviceAccountName == sa
    ensures DistinctNames(all) ==> DistinctNames(Select(all, sa))
  {
    if all != [] {
      SelectMeans(all[1..], sa);
      assert all == [all[0]] + all[1..];
      var rest := Select(all[1..], sa);
      if DistinctNames(all) {
        forall i | 0 <= i < |rest| ensures rest[i].name != all[0].name {
          assert rest[i] in all[1..];
        }
      }
    }
  }

  /** A fresh listing, filtered, is current. */
  lemma ListingIsCurrent(st: Store, k: Key, all: Bindings)
    requires WellNamed(st) && IsListing(st, k.namespace, all)
    ensures Current(st, k, Select(all, k.serviceAccountName))
  {
    SelectMeans(all, k.serviceAccountName);
    var snap := Select(all, k.serviceAccountName);
    forall id | id in st.bindings && IsRelevant(k, id, st.bindings[id])
      ensures exists c :: c in snap && IdOf(k.namespace, c) == id
    {
      assert st.bindings[id] in snap && IdOf(k.namespace, st.bindings[id]) == id;
    }
  }

  /** The names of the bindings of k. */
  function RelevantNames(st: Store, k: Key): set<string> {
    set id | id in st.bindings && IsRelevant(k, id, st.bindings[id]) :: id.name
  }

  /** The bindings of k, by name: one particular current snapshot. */
  function Now(st: Store, k: Key): Bindings {
    var names := Ordered.Sorted(RelevantNames(st, k));
    seq(|names|, i requires 0 <= i < |names| =>
      assert names[i] in RelevantNames(st, k);
      st.bindings[BindingId(k.namespace, names[i])])
  }

  lemma NowIsCurrent(st: Store, k: Key)
    requires WellNamed(st)
    ensures Current(st, k, Now(st, k))
  {
    var names := Ordered.Sorted(RelevantNames(st, k));
    Ordered.SortedDistinct(RelevantNames(st, k));
    var snap := Now(st, k);
    forall i | 0 <= i < |snap| ensures snap[i].name == Some(names[i]) && IdOf(k.namespace, snap[i]) in st.bindings
        && st.bindings[IdOf(k.namespace, snap[i])] == snap[i] && IsRelevant(k, IdOf(k.namespace, snap[i]), snap[i]) {
      assert names[i] in RelevantNames(st, k);
    }
    forall id | id in st.bindings && IsRelevant(k, id, st.bindings[id])
      ensures exists c :: c in snap && IdOf(k.namespace, c) == id
    {
      assert id.name in names;
      var i :| 0 <= i < |names| && names[i] == id.name;
      assert snap[i] in snap && IdOf(k.namespace, snap[i]) == id;
    }
  }

  /** Two current snapshots are the same bag, statuses aside. */
  lemma CurrentSameBag(st: Store, k: Key, a: Bindings, b: Bindings)
    requires Current(st, k, a) && Current(st, k, b)
    ensures multiset(Cores(a)) == multiset(Cores(b))
  {
    CoreIn(st, k, a, b);
    CoreIn(st, k, b, a);
    forall i, j | 0 <= i < j < |a| ensures Cores(a)[i] != Cores(a)[j] { assert a[i].name != a[j].name; }
    forall i, j | 0 <= i < j < |b| ensures Cores(b)[i] != Cores(b)[j] { assert b[i].name != b[j].name; }
    forall x ensures multiset(Cores(a))[x] == multiset(Cores(b))[x] {
      DistinctCount(Cores(a), x);
      DistinctCount(Cores(b), x);
    }
  }

  lemma CoreIn(st: Store, k: Key, a: Bindings, b: Bindings)
    requires Current(st, k, a) && Current(st, k, b)
    ensures forall x :: x in Cores(a) ==> x in Cores(b)
  {
    forall x | x in Cores(a) ensures x in Cores(b) {
      var i :| 0 <= i < |a| && Core(a[i]) == x;
      var id := IdOf(k.namespace, a[i]);
      assert a[i] in a;
      assert IsRelevant(k, id, st.bindings[id]) by { assert Core(st.bindings[id]) == Core(a[i]); }
      var c :| c in b && IdOf(k.namespace, c) == id;
      var j :| 0 <= j < |b| && b[j] == c;
      assert Cores(b)[j] == x;
    }
  }

  lemma {:induction false} DistinctCount(s: Bindings, x: CloudRoleBinding)
    requires forall i, j :: 0 <= i < j < |s| ==> s[i] != s[j]
    ensures multiset(s)[x] == if x in s then 1 else 0
  {
    if s != [] {
      DistinctCount(s[1..], x);
      assert s == [s[0]] + s[1..];
      assert x == s[0] ==> x !in s[1..];
    }
  }

  /** A write to a status leaves every snapshot as current as it was. */
  lemma StatusWriteKeepsCurrent(st: Store, namespace: string, updated: CloudRoleBinding, k: Key, snap: Bindings)
    requires IdOf(namespace, updated) in st.bindings
    ensures Current(ReplaceStatus(st, namespace, updated), k, snap) <==> Current(st, k, snap)
  {
    var st' := ReplaceStatus(st, namespace, updated);
    forall id ensures id in st'.bindings <==> id in st.bindings {}
    forall id | id in st.bindings ensures Core(st'.bindings[id]) == Core(st.bindings[id]) {}
  }
}
