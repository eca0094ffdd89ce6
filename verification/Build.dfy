/** The objects and statuses a merge gives rise to (app/crates/kif-webhook/src/merge.rs).
    SHA-256 is a parameter. */
module Build {
  import opened Crds
  import opened Merge
  import opened MergeTheorems
  import opened Encoding

  type Hash = string -> string

  function Sources(inputs: Bindings): seq<BindingRef> {
    seq(|inputs|, i requires 0 <= i < |inputs| => BindingRef(inputs[i].NameOrEmpty(), inputs[i].generation))
  }

  function SourceGenerations(sources: seq<BindingRef>): seq<Option<int>> {
    seq(|sources|, i requires 0 <= i < |sources| => sources[i].generation)
  }

  // ---------- Resolved objects ----------

  function BuildResolved(hash: Hash, sources: seq<BindingRef>, merged: BindingSpec): Resolved {
    var generation := ObservedGeneration(SourceGenerations(sources));
    Resolved(merged, Some(ResolvedStatus(
      ProviderNames(merged.providers), [Condition(Ready, True, Validated, ResolvedAndValidated, generation)],
      sources, Some(hash(Encode(merged))), None)))
  }

  function FailedSpec(sa: string): BindingSpec {
    BindingSpec(SubjectRef(sa), None, NO_PROVIDERS)
  }

  function BuildFailed(sa: string, sources: seq<BindingRef>, issue: MergeIssue): Resolved {
    var generation := ObservedGeneration(SourceGenerations(sources));
    Resolved(FailedSpec(sa), Some(ResolvedStatus(
      [], [Condition(Ready, False, issue.reason, issue.message, generation)], sources, None, Some(issue.message))))
  }

  /** What a reconcile of these bindings stores. */
  function Built(hash: Hash, sa: string, inputs: Bindings): Resolved {
    var o := Outcome(sa, inputs);
    if o.Ok? then BuildResolved(hash, Sources(inputs), o.value) else BuildFailed(sa, Sources(inputs), o.error)
  }

  /** The part of it that depends on the bag of bindings only. */
  function BuiltSpec(sa: string, inputs: Bindings): BindingSpec {
    var o := Outcome(sa, inputs);
    if o.Ok? then o.value else FailedSpec(sa)
  }

  lemma BuiltSpecOrderFree(sa: string, a: Bindings, b: Bindings)
    requires multiset(Cores(a)) == multiset(Cores(b))
    ensures BuiltSpec(sa, a) == BuiltSpec(sa, b)
  {
    CoresTwice(a);
    CoresTwice(b);
    StatusesIgnored(sa, a, Cores(a));
    StatusesIgnored(sa, b, Cores(b));
    OrderIndependent(sa, Cores(a), Cores(b));
  }

  lemma CoresTwice(a: Bindings)
    ensures Cores(Cores(a)) == Cores(a)
  {
  }

  // ---------- Coherence of spec and status ----------

  /** `is_ready` (app/crates/kif-webhook/src/admission.rs). */
  predicate IsReady(r: Resolved) {
    r.status.Some? && exists c :: c in r.status.value.conditions && c.kind == Ready && c.status == True
  }

  function HashOf(r: Resolved): Option<string> {
    if r.status.Some? then r.status.value.configHash else None
  }

  /** Ready exactly when a hash is present. */
  predicate ReadyMeansHash(r: Resolved) {
    IsReady(r) <==> HashOf(r).Some?
  }

  /** Spec and status are those of one build: ready, with the hash of this very spec and an AWS
      block; or not ready, with neither hash nor providers. */
  predicate Coherent(hash: Hash, sa: string, r: Resolved) {
    && r.status.Some?
    && (if IsReady(r)
        then HashOf(r) == Some(hash(Encode(r.spec))) && r.spec.providers.aws.Some?
        else HashOf(r).None? && r.status.value.providers == [] && r.spec == FailedSpec(sa))
  }

  predicate IsBuild(hash: Hash, sa: string, snap: Bindings, r: Resolved) {
    r == Built(hash, sa, snap)
  }

  /** Spec and status were built together, from one listing. */
  ghost predicate FromOneBuild(hash: Hash, sa: string, r: Resolved) {
    exists snap :: IsBuild(hash, sa, snap, r)
  }

  /** The spec is that of a build from one listing, the status, if any, that of a build from another. */
  predicate Parts(hash: Hash, sa: string, r: Resolved, snap: Bindings, prior: Option<Bindings>) {
    && r.spec == BuiltSpec(sa, snap)
    && if prior.Some? then r.status == Built(hash, sa, prior.value).status else r.status == None
  }

  ghost predicate MadeOfParts(hash: Hash, sa: string, r: Resolved) {
    exists snap, prior :: Parts(hash, sa, r, snap, prior)
  }

  predicate Collide(hash: Hash, a: string, b: string) {
    a != b && hash(a) == hash(b)
  }

  ghost predicate CollisionFree(hash: Hash) {
    forall a, b :: !Collide(hash, a, b)
  }

  /** The hash of a spec tells the spec. */
  lemma HashTells(hash: Hash, s: BindingSpec, t: BindingSpec)
    requires CollisionFree(hash) && hash(Encode(s)) == hash(Encode(t))
    ensures s == t
  {
    assert !Collide(hash, Encode(s), Encode(t));
    EncodeInjective(s, t);
  }

  lemma BuiltCoherent(hash: Hash, sa: string, inputs: Bindings)
    ensures Coherent(hash, sa, Built(hash, sa, inputs)) && Built(hash, sa, inputs).spec == BuiltSpec(sa, inputs)
    ensures IsReady(Built(hash, sa, inputs)) <==> Mergeable(multiset(inputs))
  {
    var r := Built(hash, sa, inputs);
    SucceedsIffMergeable(sa, inputs);
    match Outcome(sa, inputs) {
      case Ok(merged) =>
        assert r.status.value.conditions[0].kind == Ready && r.status.value.conditions[0].status == True;
        assert r.status.value.conditions[0] in r.status.value.conditions;
        ResultIsMerge(sa, inputs);
      case Err(_) =>
    }
  }

  /** What is built together is coherent. */
  lemma OneBuildCoherent(hash: Hash, sa: string, r: Resolved, snap: Bindings)
    requires IsBuild(hash, sa, snap, r)
    ensures Coherent(hash, sa, r)
  {
    BuiltCoherent(hash, sa, snap);
  }

  lemma OneBuildIsParts(hash: Hash, sa: string, r: Resolved, snap: Bindings)
    requires IsBuild(hash, sa, snap, r)
    ensures FromOneBuild(hash, sa, r) && MadeOfParts(hash, sa, r)
  {
    BuiltCoherent(hash, sa, snap);
    assert Parts(hash, sa, r, snap, Some(snap));
  }

  /** Readiness and hash are those of the build the status comes from. */
  lemma PartsSay(hash: Hash, sa: string, r: Resolved, snap: Bindings, prior: Option<Bindings>)
    requires Parts(hash, sa, r, snap, prior)
    ensures ReadyMeansHash(r)
    ensures IsReady(r) <==> prior.Some? && Mergeable(multiset(prior.value))
    ensures HashOf(r) == if IsReady(r) then Some(hash(Encode(BuiltSpec(sa, prior.value)))) else None
    ensures r.spec.providers.aws.Some? <==> Mergeable(multiset(snap))
  {
    BuiltCoherent(hash, sa, snap);
    if prior.Some? {
      BuiltCoherent(hash, sa, prior.value);
      SameStatus(r, Built(hash, sa, prior.value));
    }
  }

  lemma SameStatus(a: Resolved, b: Resolved)
    requires a.status == b.status
    ensures IsReady(a) <==> IsReady(b)
    ensures HashOf(a) == HashOf(b)
  {
  }

  /** Parts of two builds make up one build exactly when both merges have the same result, and
      exactly then the object is coherent. */
  lemma PartsExactly(hash: Hash, sa: string, r: Resolved, snap: Bindings, prior: Option<Bindings>)
    requires CollisionFree(hash) && Parts(hash, sa, r, snap, prior)
    ensures FromOneBuild(hash, sa, r) <==> prior.Some? && BuiltSpec(sa, prior.value) == BuiltSpec(sa, snap)
    ensures Coherent(hash, sa, r) <==> FromOneBuild(hash, sa, r)
  {
    PartsSay(hash, sa, r, snap, prior);
    if prior.Some? && BuiltSpec(sa, prior.value) == BuiltSpec(sa, snap) {
      BuiltCoherent(hash, sa, prior.value);
      assert IsBuild(hash, sa, prior.value, r);
    }
    if x :| IsBuild(hash, sa, x, r) { OneBuildCoherent(hash, sa, r, x); }
    if Coherent(hash, sa, r) { CoherentParts(hash, sa, r, snap, prior); }
  }

  lemma CoherentParts(hash: Hash, sa: string, r: Resolved, snap: Bindings, prior: Option<Bindings>)
    requires CollisionFree(hash) && Parts(hash, sa, r, snap, prior) && Coherent(hash, sa, r)
    ensures prior.Some? && BuiltSpec(sa, prior.value) == BuiltSpec(sa, snap)
  {
    PartsSay(hash, sa, r, snap, prior);
    BuiltCoherent(hash, sa, prior.value);
    if IsReady(r) {
      HashTells(hash, BuiltSpec(sa, prior.value), BuiltSpec(sa, snap));
    }
  }

  // ---------- Statuses of the bindings ----------

  function ProviderNames(p: ProvidersSpec): seq<string> {
    (if p.aws.Some? then ["aws"] else [])
    + (if p.azure.Some? then ["azure"] else [])
    + (if p.gcp.Some? then ["gcp"] else [])
  }

  /** The summary tells exactly which providers are set. */
  lemma SummaryTells(p: ProvidersSpec, q: ProvidersSpec)
    ensures "aws" in ProviderNames(p) <==> p.aws.Some?
    ensures "azure" in ProviderNames(p) <==> p.azure.Some?
    ensures "gcp" in ProviderNames(p) <==> p.gcp.Some?
    ensures ProviderNames(p) == ProviderNames(q) <==>
      (p.aws.Some? <==> q.aws.Some?) && (p.azure.Some? <==> q.azure.Some?) && (p.gcp.Some? <==> q.gcp.Some?)
  {
    assert |"aws"| == 3 && |"azure"| == 5 && |"gcp"| == 3 && "aws"[0] != "gcp"[0];
    SummaryNames(p);
    SummaryNames(q);
  }

  lemma SummaryNames(p: ProvidersSpec)
    ensures "aws" in ProviderNames(p) <==> p.aws.Some?
    ensures "azure" in ProviderNames(p) <==> p.azure.Some?
    ensures "gcp" in ProviderNames(p) <==> p.gcp.Some?
  {
    assert |"aws"| == 3 && |"azure"| == 5 && |"gcp"| == 3 && "aws"[0] != "gcp"[0];
    var names := ProviderNames(p);
    if p.aws.Some? { assert names[0] == "aws"; }
    if p.azure.Some? { assert names[if p.aws.Some? then 1 else 0] == "azure"; }
    if p.gcp.Some? { assert names[|names| - 1] == "gcp"; }
  }

  /** `providers_summary`, before the names are joined. */
  method ProvidersSummary(p: ProvidersSpec) returns (providers: seq<string>)
    ensures providers == ProviderNames(p)
  {
    providers := [];
    if p.aws.Some? { providers := providers + ["aws"]; }
    if p.azure.Some? { providers := providers + ["azure"]; }
    if p.gcp.Some? { providers := providers + ["gcp"]; }
  }

  function IssueConditions(issue: Option<MergeIssue>, generation: int): seq<Condition> {
    match issue
    case None => [Condition(Conflict, False, Validated, NoConflicts, generation),
                  Condition(InvalidSpec, False, Validated, SpecIsValid, generation)]
    case Some(i) =>
      if i.conditionType == Ready then [] else [Condition(i.conditionType, True, i.reason, i.message, generation)]
  }

  /** The status of a binding: a Ready condition, then one for the issue or two for its absence. */
  function CrbStatus(c: CloudRoleBinding, ready: bool, issue: Option<MergeIssue>): BindingStatus {
    var generation := if c.generation.Some? then c.generation.value else 0;
    BindingStatus(
      ProviderNames(c.spec.providers),
      [if ready then Condition(Ready, True, Validated, Healthy, generation)
       else if issue.Some? then Condition(Ready, False, issue.value.reason, issue.value.message, generation)
       else Condition(Ready, False, Error, NotReady, generation)] + IssueConditions(issue, generation),
      if !ready && issue.Some? then Some(issue.value.message) else None)
  }

  /** The two ways in which reconciling calls it: no issue, or blamed for one. */
  function StatusFor(c: CloudRoleBinding, issue: Option<MergeIssue>): BindingStatus {
    CrbStatus(c, issue.None?, issue)
  }

  /** `build_crb_status`. */
  method BuildCrbStatus(c: CloudRoleBinding, ready: bool, issue: Option<MergeIssue>) returns (s: BindingStatus)
    ensures s == CrbStatus(c, ready, issue)
  {
    var providers := ProvidersSummary(c.spec.providers);
    var generation := if c.generation.Some? then c.generation.value else 0;
    var conditions := [];
    conditions := conditions + [Condition(Ready, if ready then True else False,
      if ready then Validated else if issue.Some? then issue.value.reason else Error,
      if ready then Healthy else if issue.Some? then issue.value.message else NotReady, generation)];
    if issue.Some? {
      var i := issue.value;
      match i.conditionType
      case InvalidSpec => conditions := conditions + [Condition(InvalidSpec, True, i.reason, i.message, generation)];
      case Conflict => conditions := conditions + [Condition(Conflict, True, i.reason, i.message, generation)];
      case Ready =>
    } else {
      conditions := conditions + [Condition(Conflict, False, Validated, NoConflicts, generation)];
      conditions := conditions + [Condition(InvalidSpec, False, Validated, SpecIsValid, generation)];
    }
    s := BindingStatus(providers, conditions,
      if ready then None else if issue.Some? then Some(issue.value.message) else None);
  }

  predicate MarkedReady(s: BindingStatus) {
    exists c :: c in s.conditions && c.kind == Ready && c.status == True
  }

  predicate DistinctKinds(s: BindingStatus) {
    forall i, j :: 0 <= i < j < |s.conditions| ==> s.conditions[i].kind != s.conditions[j].kind
  }

  /** A binding's status says Ready exactly when there is no issue; it has one condition a type,
      and everything it tells about the issue is the issue's. */
  lemma StatusMeans(c: CloudRoleBinding, issue: Option<MergeIssue>)
    ensures var s := StatusFor(c, issue);
      && (MarkedReady(s) <==> issue.None?) && DistinctKinds(s)
      && (s.lastError == if issue.None? then None else Some(issue.value.message))
      && (issue.Some? && issue.value.conditionType != Ready ==>
            exists d :: d in s.conditions && d.kind == issue.value.conditionType && d.status == True
              && d.reason == issue.value.reason)
  {
    var s := StatusFor(c, issue);
    assert s.conditions[0] in s.conditions;
    if issue.Some? && issue.value.conditionType != Ready { assert s.conditions[1] in s.conditions; }
  }
}
