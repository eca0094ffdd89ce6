/** What users and other components find after a reconcile, in the fields of the objects alone
    (app/crates/kif-webhook/src/reconcile.rs, and the builders of merge.rs). */
module Effects {
  import opened Crds
  import opened Merge
  import opened MergeTheorems
  import opened Encoding
  import opened Build
  import opened ApiServer
  import opened Reconcile
  import Ordered

  // ---------- The words ----------

  /** The one condition of its type is this one. */
  predicate Says(conditions: seq<Condition>, d: Condition) {
    d in conditions && forall e :: e in conditions && e.kind == d.kind ==> e == d
  }

  /** The names of the providers that are set, each once, in alphabetical order. */
  predicate Summarises(names: seq<string>, p: ProvidersSpec) {
    && (forall n :: n in names ==> n in ["aws", "azure", "gcp"])
    && ("aws" in names <==> p.aws.Some?) && ("azure" in names <==> p.azure.Some?) && ("gcp" in names <==> p.gcp.Some?)
    && forall i, j :: 0 <= i < j < |names| ==> Ordered.Less(names[i], names[j])
  }

  function Observed(c: CloudRoleBinding): int {
    if c.generation.Some? then c.generation.value else 0
  }

  /** The status of a binding whose account was merged, */
  predicate MarkedGood(c: CloudRoleBinding, s: Option<BindingStatus>) {
    && s.Some? && |s.value.conditions| == 3
    && Says(s.value.conditions, Condition(Ready, True, Validated, Healthy, Observed(c)))
    && Says(s.value.conditions, Condition(Conflict, False, Validated, NoConflicts, Observed(c)))
    && Says(s.value.conditions, Condition(InvalidSpec, False, Validated, SpecIsValid, Observed(c)))
    && s.value.lastError == None && Summarises(s.value.providers, c.spec.providers)
  }

  /** and of one that is blamed for an error. */
  predicate MarkedBad(c: CloudRoleBinding, s: Option<BindingStatus>, e: MergeIssue) {
    && s.Some? && |s.value.conditions| == 2
    && Says(s.value.conditions, Condition(Ready, False, e.reason, e.message, Observed(c)))
    && Says(s.value.conditions, Condition(e.conditionType, True, e.reason, e.message, Observed(c)))
    && s.value.lastError == Some(e.message) && Summarises(s.value.providers, c.spec.providers)
  }

  /** What happens to a binding of the account: nothing if it has no name; it is marked good if the
      merge succeeded, and bad if the merge failed and blames it; else nothing. */
  predicate Marked(b: CloudRoleBinding, o: Result<BindingSpec, MergeIssue>, s: Option<BindingStatus>) {
    if b.name == None || b.name == Some("") then s == b.status
    else if o.Ok? then MarkedGood(b, s)
    else if b.name.value in o.error.affected then MarkedBad(b, s, o.error)
    else s == b.status
  }

  /** The largest generation, 0 if there is none. */
  ghost predicate Newest(inputs: Bindings, g: int) {
    && (forall c :: c in inputs && c.generation.Some? ==> c.generation.value <= g)
    && ((exists c :: c in inputs && c.generation == Some(g))
         || (g == 0 && forall c :: c in inputs ==> c.generation == None))
  }

  /** One source a binding, with its name and generation. */
  predicate Credits(sources: seq<BindingRef>, inputs: Bindings) {
    && |sources| == |inputs|
    && forall i :: 0 <= i < |inputs| ==>
         sources[i] == BindingRef(if inputs[i].name.Some? then inputs[i].name.value else "", inputs[i].generation)
  }

  /** The object that records a merge of these bindings: its spec with its hash, or the error. */
  ghost predicate Records(hash: Hash, sa: string, inputs: Bindings, o: Result<BindingSpec, MergeIssue>, r: Resolved,
                          g: int) {
    && r.status.Some? && Newest(inputs, g) && Credits(r.status.value.sources, inputs)
    && match o
       case Ok(spec) =>
         && r.spec == spec && r.status.value.providers == ["aws"]
         && r.status.value.conditions == [Condition(Ready, True, Validated, ResolvedAndValidated, g)]
         && r.status.value.configHash == Some(hash(Encode(spec))) && r.status.value.lastError == None
       case Err(e) =>
         && r.spec == BindingSpec(SubjectRef(sa), None, ProvidersSpec(None, None, None))
         && r.status.value.providers == [] && r.status.value.configHash == None
         && r.status.value.conditions == [Condition(Ready, False, e.reason, e.message, g)]
         && r.status.value.lastError == Some(e.message)
  }

  // ---------- Listings ----------

  /** The bindings of an account are picked from a listing one by one, in its order. */
  lemma {:induction false} SelectPicks(a: Bindings, b: Bindings, c: CloudRoleBinding, sa: string)
    ensures Select(a + b, sa) == Select(a, sa) + Select(b, sa)
    ensures Select([c], sa) == if c.spec.subject == SubjectRef(sa) then [c] else []
  {
    assert [c][1..] == [];
    if a == [] {
      assert a + b == b;
    } else {
      assert (a + b)[1..] == a[1..] + b;
      SelectPicks(a[1..], b, c, sa);
    }
  }

  // ---------- Statuses ----------

  lemma NamesSummarise(p: ProvidersSpec)
    ensures Summarises(ProviderNames(p), p)
  {
    SummaryNames(p);
    var names := ProviderNames(p);
    assert Ordered.Less("aws"[1..], "azure"[1..]) && Ordered.Less("aws", "gcp") && Ordered.Less("azure", "gcp");
    assert forall n :: n in names ==> n in ["aws", "azure", "gcp"];
  }

  lemma SaysThree(g: int)
    ensures var a, b, c := Condition(Ready, True, Validated, Healthy, g),
        Condition(Conflict, False, Validated, NoConflicts, g), Condition(InvalidSpec, False, Validated, SpecIsValid, g);
      Says([a, b, c], a) && Says([a, b, c], b) && Says([a, b, c], c)
  {
  }

  lemma GoodMarked(c: CloudRoleBinding)
    ensures MarkedGood(c, Some(StatusFor(c, None)))
  {
    NamesSummarise(c.spec.providers);
    SaysThree(Observed(c));
    assert StatusFor(c, None).conditions == [Condition(Ready, True, Validated, Healthy, Observed(c)),
      Condition(Conflict, False, Validated, NoConflicts, Observed(c)),
      Condition(InvalidSpec, False, Validated, SpecIsValid, Observed(c))];
  }

  lemma BadMarked(c: CloudRoleBinding, e: MergeIssue)
    requires e.conditionType != Ready
    ensures MarkedBad(c, Some(StatusFor(c, Some(e))), e)
  {
    NamesSummarise(c.spec.providers);
    var conditions := StatusFor(c, Some(e)).conditions;
    assert conditions == [Condition(Ready, False, e.reason, e.message, Observed(c)),
      Condition(e.conditionType, True, e.reason, e.message, Observed(c))];
  }

  /** An error is never about readiness. */
  lemma ErrorKind(sa: string, inputs: Bindings)
    requires Outcome(sa, inputs).Err?
    ensures Outcome(sa, inputs).error.conditionType != Ready
  {
    var i := FailureJustified(sa, inputs);
  }

  lemma StatusMarks(sa: string, inputs: Bindings, b: CloudRoleBinding)
    ensures var o := Outcome(sa, inputs); var issue := IssueOf(o);
      Marked(b, o, if Touched(b, issue) then Some(StatusFor(b, issue)) else b.status)
  {
    var o := Outcome(sa, inputs);
    if o.Err? {
      ErrorKind(sa, inputs);
      BadMarked(b, o.error);
    } else {
      GoodMarked(b);
    }
  }

  // ---------- Resolved objects ----------

  lemma ObservedIsNewest(inputs: Bindings)
    ensures Newest(inputs, ObservedGeneration(SourceGenerations(Sources(inputs))))
  {
    var gs := Generations(inputs);
    assert SourceGenerations(Sources(inputs)) == gs;
    MaxMeans(gs);
    forall c | c in inputs ensures c.generation in gs {
      var i :| 0 <= i < |inputs| && inputs[i] == c;
      assert gs[i] == c.generation;
    }
    if MaxGeneration(gs).Some? {
      var i :| 0 <= i < |gs| && gs[i] == MaxGeneration(gs);
      assert inputs[i] in inputs && inputs[i].generation == gs[i];
    }
  }

  /** What is built from a listing records it. */
  lemma BuiltRecords(hash: Hash, sa: string, inputs: Bindings) returns (g: int)
    ensures Records(hash, sa, inputs, Outcome(sa, inputs), Built(hash, sa, inputs), g)
  {
    g := ObservedGeneration(SourceGenerations(Sources(inputs)));
    ObservedIsNewest(inputs);
    SourcesCredit(inputs);
    if Outcome(sa, inputs).Ok? { OnlyAws(sa, inputs); }
  }

  lemma SourcesCredit(inputs: Bindings)
    ensures Credits(Sources(inputs), inputs)
  {
  }

  lemma OnlyAws(sa: string, inputs: Bindings)
    requires Outcome(sa, inputs).Ok?
    ensures ProviderNames(Outcome(sa, inputs).value.providers) == ["aws"]
  {
  }

  // ---------- Reconciling ----------

  /** After a reconcile that goes well, from a listing of the namespace: each binding of the account is
      marked as the merge demands, no spec, name or generation changes, no binding of another account,
      and no binding comes or goes; the object of the account records the merge, and no other object
      changes. */
  lemma ReconcileLeaves(hash: Hash, st: Store, k: Key, all: Bindings, calls: nat) returns (g: int)
    requires WellNamed(st) && IsListing(st, k.namespace, all) && Reconciled(hash, st, k, all, calls).ok
    ensures var inputs := Select(all, k.serviceAccountName); var o := Outcome(k.serviceAccountName, inputs);
      var st' := Reconciled(hash, st, k, all, calls).store;
      && st'.bindings.Keys == st.bindings.Keys
      && (forall id :: id in st.bindings ==>
            var b, b' := st.bindings[id], st'.bindings[id];
            && b' == b.(status := b'.status)
            && if id.namespace == k.namespace && b.spec.subject.serviceAccountName == k.serviceAccountName
               then Marked(b, o, b'.status) else b' == b)
      && k in st'.resolved && Records(hash, k.serviceAccountName, inputs, o, st'.resolved[k], g)
      && st'.resolved == st.resolved[k := st'.resolved[k]]
  {
    var sa := k.serviceAccountName;
    var inputs := Select(all, sa);
    ReconcileMeans(hash, st, k, all, calls);
    g := BuiltRecords(hash, sa, inputs);
    forall id | id in st.bindings
      ensures Marked(st.bindings[id], Outcome(sa, inputs),
                if Touched(st.bindings[id], IssueOf(Outcome(sa, inputs)))
                then Some(StatusFor(st.bindings[id], IssueOf(Outcome(sa, inputs)))) else st.bindings[id].status)
    {
      StatusMarks(sa, inputs, st.bindings[id]);
    }
  }

  lemma {:induction false} AllWritten(st: Store, namespace: string, todo: Bindings, calls: nat)
    requires forall c :: c in todo ==> IdOf(namespace, c) in st.bindings
    ensures calls >= |todo| ==>
      WriteAll(st, namespace, todo, calls).ok && WriteAll(st, namespace, todo, calls).calls == calls - |todo|
    ensures calls < |todo| ==> !WriteAll(st, namespace, todo, calls).ok
    decreases |todo|
  {
    if todo != [] && calls > 0 {
      assert todo[0] in todo && todo == [todo[0]] + todo[1..];
      AllWritten(ReplaceStatus(st, namespace, todo[0]), namespace, todo[1..], calls - 1);
    }
  }

  /** The names of the bindings that are marked. */
  function ToMark(inputs: Bindings, o: Result<BindingSpec, MergeIssue>): set<string> {
    set c | c in inputs && c.name.Some? && c.name.value != "" && (o.Err? ==> c.name.value in o.error.affected) ::
      c.name.value
  }

  lemma {:induction false} UpdatesCount(inputs: Bindings, o: Result<BindingSpec, MergeIssue>)
    requires DistinctNames(inputs)
    ensures |Updates(inputs, IssueOf(o))| == |ToMark(inputs, o)|
  {
    if inputs != [] {
      var c, rest := inputs[0], inputs[1..];
      UpdatesCount(rest, o);
      assert inputs == [c] + rest;
      if Touched(c, IssueOf(o)) {
        forall d | d in rest ensures d.name != c.name { var j :| 1 <= j < |inputs| && inputs[j] == d; }
        assert ToMark(inputs, o) == ToMark(rest, o) + {c.name.value};
      } else {
        assert ToMark(inputs, o) == ToMark(rest, o);
      }
    }
  }

  lemma UpsertEnds(st: Store, k: Key, r: Resolved, calls: nat)
    ensures Upsert(st, k, r, calls).ok <==> k.serviceAccountName != "" && calls >= 2
  {
  }

  lemma WritesAndUpsertEnd(st: Store, k: Key, todo: Bindings, r: Resolved, calls: nat)
    requires forall u :: u in todo ==> IdOf(k.namespace, u) in st.bindings
    ensures var written := WriteAll(st, k.namespace, todo, calls);
      written.ok && Upsert(written.store, k, r, written.calls).ok <==>
        k.serviceAccountName != "" && calls >= |todo| + 2
  {
    AllWritten(st, k.namespace, todo, calls);
    var written := WriteAll(st, k.namespace, todo, calls);
    UpsertEnds(written.store, k, r, written.calls);
  }

  lemma RunEnds(hash: Hash, st: Store, k: Key, all: Bindings, calls: nat, todo: Bindings)
    requires var inputs := Select(all, k.serviceAccountName);
      todo == Updates(inputs, IssueOf(Outcome(k.serviceAccountName, inputs)))
    requires forall u :: u in todo ==> IdOf(k.namespace, u) in st.bindings
    ensures Reconciled(hash, st, k, all, calls).ok <==> k.serviceAccountName != "" && calls >= |todo| + 3
  {
    if calls > 0 {
      WritesAndUpsertEnd(st, k, todo, Built(hash, k.serviceAccountName, Select(all, k.serviceAccountName)), calls - 1);
    }
  }

  lemma MarkedCount(st: Store, k: Key, all: Bindings, o: Result<BindingSpec, MergeIssue>)
    requires IsListing(st, k.namespace, all)
    ensures |Updates(Select(all, k.serviceAccountName), IssueOf(o))| == |ToMark(Select(all, k.serviceAccountName), o)|
  {
    SelectMeans(all, k.serviceAccountName);
    UpdatesCount(Select(all, k.serviceAccountName), o);
  }

  /** It goes well exactly if the account has a name and the server answers every call: the listing, a
      write for each binding that is marked, and the two patches. */
  lemma EndsWellExactly(hash: Hash, st: Store, k: Key, all: Bindings, calls: nat)
    requires WellNamed(st) && IsListing(st, k.namespace, all)
    ensures var inputs := Select(all, k.serviceAccountName);
      Reconciled(hash, st, k, all, calls).ok <==>
        k.serviceAccountName != "" && calls >= 1 + |ToMark(inputs, Outcome(k.serviceAccountName, inputs))| + 2
  {
    var inputs := Select(all, k.serviceAccountName);
    var o := Outcome(k.serviceAccountName, inputs);
    UpdatesStored(st, k, all, IssueOf(o));
    MarkedCount(st, k, all, o);
    RunEnds(hash, st, k, all, calls, Updates(inputs, IssueOf(o)));
  }

  lemma UpdatesStored(st: Store, k: Key, all: Bindings, issue: Option<MergeIssue>)
    requires IsListing(st, k.namespace, all)
    ensures forall u :: u in Updates(Select(all, k.serviceAccountName), issue) ==> IdOf(k.namespace, u) in st.bindings
  {
    var inputs := Select(all, k.serviceAccountName);
    UpdatesMeans(inputs, issue);
    SelectMeans(all, k.serviceAccountName);
    forall u | u in Updates(inputs, issue) ensures IdOf(k.namespace, u) in st.bindings {
      var c :| c in inputs && u == c.(status := Some(StatusFor(c, issue)));
      assert c in all;
    }
  }
}
