/** One reconcile of one ServiceAccount, run without interference
    (app/crates/kif-webhook/src/reconcile.rs, `reconcile`, and `upsert_resolved` of merge.rs).
    The server answers a given number of further calls and fails the next one; a write to a
    missing binding fails too. */
module Reconcile {
  import opened Crds
  import opened Merge
  import opened MergeTheorems
  import opened Build
  import opened ApiServer

  // ---------- Specification ----------

  /** The state after a run of calls, the calls still to be answered, and whether all went well. */
  datatype Run = Run(store: Store, calls: nat, ok: bool)

  function IssueOf(o: Result<BindingSpec, MergeIssue>): Option<MergeIssue> {
    if o.Ok? then None else Some(o.error)
  }

  /** Which bindings get a status: the named ones, after a failure only those blamed. */
  predicate Touched(c: CloudRoleBinding, issue: Option<MergeIssue>) {
    c.NameOrEmpty() != "" && (issue.Some? ==> c.NameOrEmpty() in issue.value.affected)
  }

  /** The status writes of a reconcile, in order. */
  function Updates(snap: Bindings, issue: Option<MergeIssue>): Bindings {
    if snap == [] then []
    else
      (if Touched(snap[0], issue) then [snap[0].(status := Some(StatusFor(snap[0], issue)))] else [])
      + Updates(snap[1..], issue)
  }

  function WriteAll(st: Store, namespace: string, todo: Bindings, calls: nat): Run
    decreases |todo|
  {
    if todo == [] then Run(st, calls, true)
    else if calls == 0 || IdOf(namespace, todo[0]) !in st.bindings then
      Run(st, if calls == 0 then 0 else calls - 1, false)
    else WriteAll(ReplaceStatus(st, namespace, todo[0]), namespace, todo[1..], calls - 1)
  }

  function Upsert(st: Store, k: Key, r: Resolved, calls: nat): Run {
    if k.serviceAccountName == "" then Run(st, calls, false)
    else if calls == 0 then Run(st, 0, false)
    else if calls == 1 then Run(PatchSpec(st, k, r), 0, false)
    else Run(PatchStatus(PatchSpec(st, k, r), k, r), calls - 2, true)
  }

  function Reconciled(hash: Hash, st: Store, k: Key, all: Bindings, calls: nat): Run {
    if calls == 0 then Run(st, 0, false)
    else
      var snap := Select(all, k.serviceAccountName);
      var written := WriteAll(st, k.namespace, Updates(snap, IssueOf(Outcome(k.serviceAccountName, snap))), calls - 1);
      if !written.ok then written
      else Upsert(written.store, k, Built(hash, k.serviceAccountName, snap), written.calls)
  }

  // ---------- The code ----------

  class Server {
    var bindings: map<BindingId, CloudRoleBinding>
    var resolved: map<Key, Resolved>
    var calls: nat

    constructor (st: Store, calls: nat)
      ensures View() == st && this.calls == calls
    {
      this.bindings, this.resolved, this.calls := st.bindings, st.resolved, calls;
    }

    function View(): Store
      reads this
    {
      Store(bindings, resolved)
    }

    /** Spend one call; false when the server fails it. */
    method Answer() returns (ok: bool)
      modifies this`calls
      ensures ok == (old(calls) > 0) && calls == if ok then old(calls) - 1 else 0
    {
      ok := calls > 0;
      calls := if ok then calls - 1 else 0;
    }

    method ReplaceStatus(namespace: string, updated: CloudRoleBinding) returns (ok: bool)
      modifies this
      ensures ok == (old(calls) > 0 && IdOf(namespace, updated) in old(bindings))
      ensures View() == if ok then ApiServer.ReplaceStatus(old(View()), namespace, updated) else old(View())
      ensures calls == if old(calls) > 0 then old(calls) - 1 else 0
    {
      ok := Answer();
      var id := IdOf(namespace, updated);
      ok := ok && id in bindings;
      if ok {
        bindings := bindings[id := bindings[id].(status := updated.status)];
      }
    }

    /** `upsert_resolved`: two patches, the second only after the first. */
    method UpsertResolved(k: Key, r: Resolved) returns (ok: bool)
      modifies this
      ensures Run(View(), calls, ok) == Upsert(old(View()), k, r, old(calls))
    {
      if k.serviceAccountName == "" {
        return false;
      }
      ok := Answer();
      if !ok { return; }
      resolved := resolved[k := Resolved(r.spec, if k in resolved then resolved[k].status else None)];
      ok := Answer();
      if !ok { return; }
      resolved := resolved[k := resolved[k].(status := r.status)];
    }
  }

  /** The next binding gets a status, */
  lemma UpdatesNext(snap: Bindings, issue: Option<MergeIssue>, i: nat)
    requires i < |snap| && Touched(snap[i], issue)
    ensures var todo := Updates(snap[i..], issue);
      && todo != [] && todo[0] == snap[i].(status := Some(StatusFor(snap[i], issue)))
      && todo[1..] == Updates(snap[i + 1..], issue)
  {
    assert snap[i..][0] == snap[i] && snap[i..][1..] == snap[i + 1..];
  }

  /** or is passed over. */
  lemma UpdatesSkip(snap: Bindings, issue: Option<MergeIssue>, i: nat)
    requires i < |snap| && !Touched(snap[i], issue)
    ensures Updates(snap[i..], issue) == Updates(snap[i + 1..], issue)
  {
    assert snap[i..][0] == snap[i] && snap[i..][1..] == snap[i + 1..];
  }

  /** The loops over the relevant bindings that write their statuses. */
  method WriteStatuses(api: Server, namespace: string, relevant: Bindings, issue: Option<MergeIssue>) returns (ok: bool)
    modifies api
    ensures Run(api.View(), api.calls, ok) ==
      WriteAll(old(api.View()), namespace, Updates(relevant, issue), old(api.calls))
  {
    assert relevant[0..] == relevant;
    var i := 0;
    while i < |relevant|
      invariant 0 <= i <= |relevant|
      invariant WriteAll(api.View(), namespace, Updates(relevant[i..], issue), api.calls)
             == WriteAll(old(api.View()), namespace, Updates(relevant, issue), old(api.calls))
    {
      var c := relevant[i];
      var name := c.NameOrEmpty();
      if name != "" && (issue.None? || name in issue.value.affected) {
        var status := BuildCrbStatus(c, issue.None?, issue);
        var updated := c.(status := Some(status));
        UpdatesNext(relevant, issue, i);
        ok := api.ReplaceStatus(namespace, updated);
        if !ok { return; }
      } else {
        UpdatesSkip(relevant, issue, i);
      }
      i := i + 1;
    }
    ok := true;
  }

  /** `reconcile`; `all` is what its list call returns. */
  method ReconcileKey(hash: Hash, api: Server, k: Key, all: Bindings) returns (ok: bool)
    modifies api
    ensures Run(api.View(), api.calls, ok) == Reconciled(hash, old(api.View()), k, all, old(api.calls))
  {
    ok := api.Answer();
    if !ok { return; }
    var relevant := Select(all, k.serviceAccountName);
    var inputs: Bindings := [];
    var sources: seq<BindingRef> := [];
    var i := 0;
    while i < |relevant|
      invariant 0 <= i <= |relevant| && inputs == relevant[..i] && sources == Sources(relevant[..i])
    {
      assert relevant[..i + 1] == relevant[..i] + [relevant[i]];
      inputs := inputs + [relevant[i]];
      sources := sources + [BindingRef(relevant[i].NameOrEmpty(), relevant[i].generation)];
      i := i + 1;
    }
    assert relevant[..i] == relevant;
    var outcome := MergeInputs(k.serviceAccountName, inputs);
    ok := WriteStatuses(api, k.namespace, relevant, IssueOf(outcome));
    if !ok { return; }
    var resolved := match outcome
      case Ok(merged) => BuildResolved(hash, sources, merged)
      case Err(issue) => BuildFailed(k.serviceAccountName, sources, issue);
    ok := api.UpsertResolved(k, resolved);
  }

  // ---------- What a reconcile does ----------

  /** Status writes change nothing but statuses. */
  lemma {:induction false} WritesFrame(st: Store, namespace: string, todo: Bindings, calls: nat)
    ensures var st' := WriteAll(st, namespace, todo, calls).store;
      && st'.resolved == st.resolved && st'.bindings.Keys == st.bindings.Keys
      && (forall id :: id in st.bindings ==> Core(st'.bindings[id]) == Core(st.bindings[id]))
      && (forall id :: id in st.bindings && (forall c :: c in todo ==> IdOf(namespace, c) != id) ==>
           st'.bindings[id] == st.bindings[id])
    decreases |todo|
  {
    if todo != [] && calls > 0 && IdOf(namespace, todo[0]) in st.bindings {
      WritesFrame(ReplaceStatus(st, namespace, todo[0]), namespace, todo[1..], calls - 1);
      assert todo == [todo[0]] + todo[1..];
    }
  }

  /** A binding written once, by a run that goes well, ends up with the status written. */
  lemma {:induction false} WritesLand(st: Store, namespace: string, todo: Bindings, calls: nat, i: nat)
    requires i < |todo| && WriteAll(st, namespace, todo, calls).ok && DistinctNames(todo)
    requires forall c :: c in todo ==> c.name.Some?
    ensures IdOf(namespace, todo[i]) in st.bindings
    ensures IdOf(namespace, todo[i]) in WriteAll(st, namespace, todo, calls).store.bindings
    ensures WriteAll(st, namespace, todo, calls).store.bindings[IdOf(namespace, todo[i])]
         == st.bindings[IdOf(namespace, todo[i])].(status := todo[i].status)
    decreases |todo|
  {
    var st' := ReplaceStatus(st, namespace, todo[0]);
    if i == 0 {
      WritesFrame(st', namespace, todo[1..], calls - 1);
      forall c | c in todo[1..] ensures IdOf(namespace, c) != IdOf(namespace, todo[0]) {
        var j :| 1 <= j < |todo| && todo[j] == c;
        assert todo[0].name != todo[j].name && todo[0] in todo && todo[j] in todo;
      }
    } else {
      assert todo[1..][i - 1] == todo[i] && todo[0] in todo && todo[i] in todo;
      WritesLand(st', namespace, todo[1..], calls - 1, i - 1);
      assert todo[0].name != todo[i].name;
    }
  }

  lemma {:induction false} UpdatesMeans(snap: Bindings, issue: Option<MergeIssue>)
    ensures forall u :: u in Updates(snap, issue) <==>
      exists c :: c in snap && Touched(c, issue) && u == c.(status := Some(StatusFor(c, issue)))
    ensures DistinctNames(snap) ==> DistinctNames(Updates(snap, issue))
  {
    if snap != [] {
      UpdatesMeans(snap[1..], issue);
      assert snap == [snap[0]] + snap[1..];
      var rest := Updates(snap[1..], issue);
      forall u | u in Updates(snap, issue)
        ensures exists c :: c in snap && Touched(c, issue) && u == c.(status := Some(StatusFor(c, issue)))
      {
        if u in rest {
          var c :| c in snap[1..] && Touched(c, issue) && u == c.(status := Some(StatusFor(c, issue)));
          assert c in snap;
        } else {
          assert snap[0] in snap;
        }
      }
      forall c | c in snap && Touched(c, issue)
        ensures c.(status := Some(StatusFor(c, issue))) in Updates(snap, issue)
      {
        if c != snap[0] { assert c in snap[1..]; }
      }
      if DistinctNames(snap) {
        forall i | 0 <= i < |rest| ensures rest[i].name != snap[0].name {
          assert rest[i] in rest;
          var c :| c in snap[1..] && rest[i] == c.(status := Some(StatusFor(c, issue)));
        }
      }
    }
  }

  /** The status of one binding after all writes of a reconcile went well. */
  lemma StatusAfter(st: Store, k: Key, all: Bindings, issue: Option<MergeIssue>, calls: nat, id: BindingId)
    requires WellNamed(st) && IsListing(st, k.namespace, all) && id in st.bindings
    requires WriteAll(st, k.namespace, Updates(Select(all, k.serviceAccountName), issue), calls).ok
    ensures var after := WriteAll(st, k.namespace, Updates(Select(all, k.serviceAccountName), issue), calls).store;
      && id in after.bindings
      && after.bindings[id].status ==
           if IsRelevant(k, id, st.bindings[id]) && Touched(st.bindings[id], issue)
           then Some(StatusFor(st.bindings[id], issue)) else st.bindings[id].status
  {
    var snap := Select(all, k.serviceAccountName);
    var todo := Updates(snap, issue);
    var c := st.bindings[id];
    WritesFrame(st, k.namespace, todo, calls);
    if IsRelevant(k, id, c) && Touched(c, issue) {
      var i := TouchedWritten(st, k, all, issue, id);
      WritesLand(st, k.namespace, todo, calls, i);
    } else {
      OthersNotWritten(st, k, all, issue, id);
    }
  }

  lemma TouchedWritten(st: Store, k: Key, all: Bindings, issue: Option<MergeIssue>, id: BindingId) returns (i: nat)
    requires WellNamed(st) && IsListing(st, k.namespace, all) && id in st.bindings
    requires IsRelevant(k, id, st.bindings[id]) && Touched(st.bindings[id], issue)
    ensures var todo := Updates(Select(all, k.serviceAccountName), issue); var c := st.bindings[id];
      && i < |todo| && todo[i] == c.(status := Some(StatusFor(c, issue))) && IdOf(k.namespace, todo[i]) == id
      && DistinctNames(todo) && forall u :: u in todo ==> u.name.Some?
  {
    var snap := Select(all, k.serviceAccountName);
    var todo := Updates(snap, issue);
    var c := st.bindings[id];
    SelectMeans(all, k.serviceAccountName);
    UpdatesMeans(snap, issue);
    assert c in snap;
    assert c.(status := Some(StatusFor(c, issue))) in todo;
    i :| 0 <= i < |todo| && todo[i] == c.(status := Some(StatusFor(c, issue)));
  }

  lemma OthersNotWritten(st: Store, k: Key, all: Bindings, issue: Option<MergeIssue>, id: BindingId)
    requires WellNamed(st) && IsListing(st, k.namespace, all) && id in st.bindings
    requires !(IsRelevant(k, id, st.bindings[id]) && Touched(st.bindings[id], issue))
    ensures forall u :: u in Updates(Select(all, k.serviceAccountName), issue) ==> IdOf(k.namespace, u) != id
  {
    var snap := Select(all, k.serviceAccountName);
    SelectMeans(all, k.serviceAccountName);
    UpdatesMeans(snap, issue);
    forall u | u in Updates(snap, issue) ensures IdOf(k.namespace, u) != id {
      var d :| d in snap && Touched(d, issue) && u == d.(status := Some(StatusFor(d, issue)));
      assert d in all;
    }
  }

  /** What a reconcile leaves behind: the accounts' bindings touched by the issue (or by its absence)
      have the corresponding status, and nothing else of any binding moves; the resolved object of
      the account is the one built, and no other moves. */
  ghost predicate LeavesBehind(st: Store, k: Key, issue: Option<MergeIssue>, built: Resolved, st': Store) {
    && st'.bindings.Keys == st.bindings.Keys
    && (forall id :: id in st.bindings ==>
          st'.bindings[id] ==
            if IsRelevant(k, id, st.bindings[id]) && Touched(st.bindings[id], issue)
            then st.bindings[id].(status := Some(StatusFor(st.bindings[id], issue))) else st.bindings[id])
    && st'.resolved == st.resolved[k := built]
  }

  lemma WritesAndUpsert(st: Store, k: Key, all: Bindings, issue: Option<MergeIssue>, built: Resolved, calls: nat)
    requires WellNamed(st) && IsListing(st, k.namespace, all) && built.status.Some?
    requires var written := WriteAll(st, k.namespace, Updates(Select(all, k.serviceAccountName), issue), calls);
      written.ok && Upsert(written.store, k, built, written.calls).ok
    ensures var written := WriteAll(st, k.namespace, Updates(Select(all, k.serviceAccountName), issue), calls);
      LeavesBehind(st, k, issue, built, Upsert(written.store, k, built, written.calls).store)
  {
    var todo := Updates(Select(all, k.serviceAccountName), issue);
    var after := WriteAll(st, k.namespace, todo, calls);
    UpsertMeans(after.store, k, built, after.calls);
    WritesFrame(st, k.namespace, todo, calls);
    forall id | id in st.bindings
      ensures after.store.bindings[id] ==
        if IsRelevant(k, id, st.bindings[id]) && Touched(st.bindings[id], issue)
        then st.bindings[id].(status := Some(StatusFor(st.bindings[id], issue))) else st.bindings[id]
    {
      StatusAfter(st, k, all, issue, calls, id);
      assert Core(after.store.bindings[id]) == Core(st.bindings[id]);
    }
  }

  /** After a reconcile that goes well from a fresh listing: if the merge succeeded every named
      binding of the account is marked Ready, else exactly the blamed ones are marked otherwise,
      with one condition a type. No spec moves, no binding of another account, no other resolved
      object; the resolved object is the one built from the listing. */
  lemma ReconcileMeans(hash: Hash, st: Store, k: Key, all: Bindings, calls: nat)
    requires WellNamed(st) && IsListing(st, k.namespace, all)
    requires Reconciled(hash, st, k, all, calls).ok
    ensures var snap := Select(all, k.serviceAccountName);
      LeavesBehind(st, k, IssueOf(Outcome(k.serviceAccountName, snap)), Built(hash, k.serviceAccountName, snap),
                   Reconciled(hash, st, k, all, calls).store)
  {
    var snap := Select(all, k.serviceAccountName);
    BuiltCoherent(hash, k.serviceAccountName, snap);
    WritesAndUpsert(st, k, all, IssueOf(Outcome(k.serviceAccountName, snap)), Built(hash, k.serviceAccountName, snap),
      calls - 1);
  }

  lemma UpsertMeans(st: Store, k: Key, r: Resolved, calls: nat)
    requires Upsert(st, k, r, calls).ok && r.status.Some?
    ensures Upsert(st, k, r, calls).store == st.(resolved := st.resolved[k := r])
  {
  }

  lemma {:induction false} CoresSelect(all: Bindings, sa: string)
    ensures Cores(Select(all, sa)) == Select(Cores(all), sa)
  {
    if all != [] {
      CoresSelect(all[1..], sa);
      assert Cores(all)[1..] == Cores(all[1..]);
    }
  }

  lemma BuiltIgnoresStatuses(hash: Hash, sa: string, a: Bindings, b: Bindings)
    requires Cores(a) == Cores(b)
    ensures Built(hash, sa, a) == Built(hash, sa, b)
  {
    StatusesIgnored(sa, a, b);
    assert |a| == |b|;
    forall i | 0 <= i < |a| ensures a[i].name == b[i].name && a[i].generation == b[i].generation {
      assert Core(a[i]) == Core(b[i]);
    }
    assert Sources(a) == Sources(b);
  }

  /** The same effect applied once more changes nothing. */
  lemma LeavesBehindTwice(st: Store, k: Key, issue: Option<MergeIssue>, built: Resolved, st': Store, st'': Store)
    requires LeavesBehind(st, k, issue, built, st') && LeavesBehind(st', k, issue, built, st'')
    ensures st'' == st'
  {
    forall id | id in st'.bindings ensures st''.bindings[id] == st'.bindings[id] {
      assert StatusFor(st.bindings[id], issue) == StatusFor(st'.bindings[id], issue);
    }
    assert st''.bindings == st'.bindings;
  }

  /** Reconciling twice, the second time from a listing in the same order, changes nothing more. */
  lemma ReconcileIdempotent(hash: Hash, st: Store, k: Key, all: Bindings, calls: nat, again: Bindings, calls': nat)
    requires WellNamed(st) && IsListing(st, k.namespace, all)
    requires Reconciled(hash, st, k, all, calls).ok
    requires var st' := Reconciled(hash, st, k, all, calls).store;
      IsListing(st', k.namespace, again) && Cores(again) == Cores(all) && Reconciled(hash, st', k, again, calls').ok
    ensures Reconciled(hash, Reconciled(hash, st, k, all, calls).store, k, again, calls').store ==
      Reconciled(hash, st, k, all, calls).store
  {
    var sa := k.serviceAccountName;
    var st' := Reconciled(hash, st, k, all, calls).store;
    ReconcileMeans(hash, st, k, all, calls);
    ReconcileMeans(hash, st', k, again, calls');
    CoresSelect(all, sa);
    CoresSelect(again, sa);
    BuiltIgnoresStatuses(hash, sa, Select(all, sa), Select(again, sa));
    StatusesIgnored(sa, Select(all, sa), Select(again, sa));
    LeavesBehindTwice(st, k, IssueOf(Outcome(sa, Select(all, sa))), Built(hash, sa, Select(all, sa)), st',
                      Reconciled(hash, st', k, again, calls').store);
  }

  // ---------- In another order ----------

  /** The same but for the order in which the sources are listed. */
  predicate SameButSources(a: Resolved, b: Resolved) {
    && a.spec == b.spec && a.status.Some? && b.status.Some?
    && multiset(a.status.value.sources) == multiset(b.status.value.sources)
    && a.status.value.(sources := []) == b.status.value.(sources := [])
  }

  lemma TakenOut(b: Bindings, i: nat, rest: Bindings)
    requires i < |b| && rest == b[..i] + b[i + 1..]
    ensures multiset(rest) == multiset(b) - multiset{b[i]}
    ensures multiset(Sources(b)) == multiset(Sources(rest)) + multiset(Sources([b[i]]))
  {
    assert b == b[..i] + ([b[i]] + b[i + 1..]);
    assert Sources(b) == Sources(b[..i]) + (Sources([b[i]]) + Sources(b[i + 1..]));
    assert Sources(rest) == Sources(b[..i]) + Sources(b[i + 1..]);
  }

  lemma {:induction false} SourcesOfBag(a: Bindings, b: Bindings)
    requires multiset(a) == multiset(b)
    ensures multiset(Sources(a)) == multiset(Sources(b))
    decreases |a|
  {
    if a == [] {
      assert |multiset(b)| == 0;
    } else {
      assert a[0] in multiset(b);
      var i :| 0 <= i < |b| && b[i] == a[0];
      var rest := b[..i] + b[i + 1..];
      TakenOut(a, 0, a[1..]);
      TakenOut(b, i, rest);
      SourcesOfBag(a[1..], rest);
    }
  }

  lemma BuiltOfBag(hash: Hash, sa: string, a: Bindings, b: Bindings)
    requires multiset(a) == multiset(b) && Outcome(sa, a).Ok?
    ensures Outcome(sa, b).Ok? && SameButSources(Built(hash, sa, a), Built(hash, sa, b))
  {
    OrderIndependent(sa, a, b);
    SourcesOfBag(a, b);
    assert SourceGenerations(Sources(a)) == Generations(a);
    assert SourceGenerations(Sources(b)) == Generations(b);
  }

  lemma BuiltFromCores(hash: Hash, sa: string, a: Bindings)
    ensures Outcome(sa, Cores(a)) == Outcome(sa, a) && Built(hash, sa, Cores(a)) == Built(hash, sa, a)
  {
    CoresTwice(a);
    StatusesIgnored(sa, a, Cores(a));
    BuiltIgnoresStatuses(hash, sa, a, Cores(a));
  }

  lemma BuiltReordered(hash: Hash, sa: string, a: Bindings, b: Bindings)
    requires multiset(Cores(a)) == multiset(Cores(b)) && Outcome(sa, a).Ok?
    ensures Outcome(sa, b).Ok? && SameButSources(Built(hash, sa, a), Built(hash, sa, b))
  {
    BuiltFromCores(hash, sa, a);
    BuiltFromCores(hash, sa, b);
    BuiltOfBag(hash, sa, Cores(a), Cores(b));
  }

  /** A reconcile changes no specs, so a listing is as current afterwards as before. */
  lemma StillCurrent(st: Store, k: Key, issue: Option<MergeIssue>, built: Resolved, st': Store, snap: Bindings)
    requires LeavesBehind(st, k, issue, built, st') && Current(st, k, snap)
    ensures Current(st', k, snap)
  {
    forall id | id in st.bindings ensures Core(st'.bindings[id]) == Core(st.bindings[id]) {}
  }

  /** Reconciling twice, the second time from a listing in any order, when the bindings can be merged:
      no binding changes any more, and the resolved object but in the order of its sources. */
  lemma ReconcileReordered(hash: Hash, st: Store, k: Key, all: Bindings, calls: nat, again: Bindings, calls': nat)
    requires WellNamed(st) && IsListing(st, k.namespace, all)
    requires Reconciled(hash, st, k, all, calls).ok
    requires Outcome(k.serviceAccountName, Select(all, k.serviceAccountName)).Ok?
    requires var st' := Reconciled(hash, st, k, all, calls).store;
      IsListing(st', k.namespace, again) && Reconciled(hash, st', k, again, calls').ok
    ensures var st' := Reconciled(hash, st, k, all, calls).store;
      var st'' := Reconciled(hash, st', k, again, calls').store;
      && st''.bindings == st'.bindings && k in st'.resolved && k in st''.resolved
      && st''.resolved == st'.resolved[k := st''.resolved[k]]
      && SameButSources(st'.resolved[k], st''.resolved[k])
  {
    var sa := k.serviceAccountName;
    var st' := Reconciled(hash, st, k, all, calls).store;
    var a, b := Select(all, sa), Select(again, sa);
    ReconcileMeans(hash, st, k, all, calls);
    ReconcileMeans(hash, st', k, again, calls');
    ListingIsCurrent(st, k, all);
    StillCurrent(st, k, None, Built(hash, sa, a), st', a);
    ListingIsCurrent(st', k, again);
    CurrentSameBag(st', k, a, b);
    BuiltReordered(hash, sa, a, b);
    var st'' := Reconciled(hash, st', k, again, calls').store;
    ReorderedTwice(st, k, Built(hash, sa, a), Built(hash, sa, b), st', st'');
  }

  lemma ReorderedTwice(st: Store, k: Key, built: Resolved, built': Resolved, st': Store, st'': Store)
    requires LeavesBehind(st, k, None, built, st') && LeavesBehind(st', k, None, built', st'')
    ensures st''.bindings == st'.bindings && st''.resolved == st'.resolved[k := built']
  {
    LeavesBehindTwice(st, k, None, built, st', st''.(resolved := st'.resolved[k := built]));
  }
}
