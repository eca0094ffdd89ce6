/** What a merge does, in the fields of the bindings alone
    (app/crates/kif-webhook/src/merge.rs, `merge_inputs`). */
module MergeMeaning {
  import opened Crds
  import opened Merge
  import opened MergeTheorems
  import Ordered

  // ---------- The words ----------

  predicate GivesBlock(c: CloudRoleBinding) {
    c.spec.providers.aws.Some? || c.spec.providers.azure.Some? || c.spec.providers.gcp.Some?
  }

  predicate GivesFlag(c: CloudRoleBinding, flag: bool) {
    c.spec.attributes.Some? && c.spec.attributes.value.includeProvenance == Some(flag)
  }

  predicate GivesExtra(c: CloudRoleBinding, key: string, value: string) {
    c.spec.attributes.Some? && c.spec.attributes.value.extra.Some?
    && key in c.spec.attributes.value.extra.value && c.spec.attributes.value.extra.value[key] == value
  }

  predicate BothAws(x: CloudRoleBinding, y: CloudRoleBinding) {
    x.spec.providers.aws.Some? && y.spec.providers.aws.Some?
  }

  predicate OppositeFlags(x: CloudRoleBinding, y: CloudRoleBinding) {
    (GivesFlag(x, true) && GivesFlag(y, false)) || (GivesFlag(x, false) && GivesFlag(y, true))
  }

  ghost predicate BothGive(x: CloudRoleBinding, y: CloudRoleBinding, key: string) {
    exists v, w :: GivesExtra(x, key, v) && GivesExtra(y, key, w)
  }

  ghost predicate Clashes(x: CloudRoleBinding, y: CloudRoleBinding) {
    BothAws(x, y) || OppositeFlags(x, y) || exists key :: BothGive(x, y, key)
  }

  /** The first n bindings can stand together. */
  ghost predicate Peaceful(inputs: Bindings, n: nat)
    requires n <= |inputs|
  {
    && (forall j :: 0 <= j < n ==> GivesBlock(inputs[j]))
    && (forall h, j :: 0 <= h < j < n ==> !Clashes(inputs[h], inputs[j]))
  }

  lemma BothGiveMeans(x: CloudRoleBinding, y: CloudRoleBinding, key: string)
    ensures BothGive(x, y, key) <==> key in Extra(x) && key in Extra(y)
  {
    if key in Extra(x) && key in Extra(y) {
      assert GivesExtra(x, key, Extra(x)[key]) && GivesExtra(y, key, Extra(y)[key]);
    }
  }

  lemma OppositeMeans(x: CloudRoleBinding, y: CloudRoleBinding)
    ensures OppositeFlags(x, y) <==> Flag(x).Some? && Flag(y).Some? && Flag(x) != Flag(y)
  {
    if Flag(x).Some? && Flag(y).Some? {
      assert GivesFlag(x, Flag(x).value) && GivesFlag(y, Flag(y).value);
    }
  }

  lemma ClashesMeans(x: CloudRoleBinding, y: CloudRoleBinding)
    ensures Compatible(x, y) <==> !Clashes(x, y)
  {
    OppositeMeans(x, y);
    forall key ensures BothGive(x, y, key) <==> key in Extra(x).Keys && key in Extra(y).Keys {
      BothGiveMeans(x, y, key);
    }
  }

  lemma PeacefulMeans(inputs: Bindings, n: nat)
    requires n <= |inputs|
    ensures Peaceful(inputs, n) <==> Consistent(inputs, n)
  {
    forall h, j | 0 <= h < j < n ensures Compatible(inputs[h], inputs[j]) <==> !Clashes(inputs[h], inputs[j]) {
      ClashesMeans(inputs[h], inputs[j]);
    }
  }

  // ---------- Success ----------

  /** A merge succeeds exactly if every binding has a provider block, one has an AWS block, and no
      two clash: over that block, over the flag, or over a key. */
  lemma SucceedsExactly(sa: string, inputs: Bindings)
    ensures Outcome(sa, inputs).Ok? <==>
      Peaceful(inputs, |inputs|) && exists c :: c in inputs && c.spec.providers.aws.Some?
    ensures Mergeable(multiset(inputs)) <==> Outcome(sa, inputs).Ok?
  {
    SucceedsIffMergeable(sa, inputs);
    ConsistentMeansPairwise(inputs);
    PeacefulMeans(inputs, |inputs|);
    forall c ensures c in multiset(inputs) && SetsAws(c) <==> c in inputs && c.spec.providers.aws.Some? {}
    if c :| c in inputs && c.spec.providers.aws.Some? { assert c in multiset(inputs) && SetsAws(c); }
  }

  /** The result has the AWS block of the one binding that sets it, the flag false exactly if some
      binding says so, and just the extra entries that the bindings give. */
  ghost predicate Merges(sa: string, inputs: Bindings, spec: BindingSpec) {
    && spec.subject == SubjectRef(sa)
    && spec.providers.aws.Some? && spec.providers.azure.None? && spec.providers.gcp.None?
    && (forall c :: c in inputs && c.spec.providers.aws.Some? ==> c.spec.providers.aws == spec.providers.aws)
    && spec.attributes.Some?
    && spec.attributes.value.includeProvenance == Some(!exists c :: c in inputs && GivesFlag(c, false))
    && spec.attributes.value.extra != Some(map[])
    && (forall k, v :: GivesPart(spec.attributes.value.extra, k, v) <==> exists c :: c in inputs && GivesExtra(c, k, v))
  }

  predicate GivesPart(extra: Option<map<string, string>>, key: string, value: string) {
    extra.Some? && key in extra.value && extra.value[key] == value
  }

  lemma ResultMerges(sa: string, inputs: Bindings)
    requires Outcome(sa, inputs).Ok?
    ensures Merges(sa, inputs, Outcome(sa, inputs).value)
  {
    var spec, bag := Outcome(sa, inputs).value, multiset(inputs);
    ResultIsMerge(sa, inputs);
    SucceedsIffMergeable(sa, inputs);
    var setter :| setter in bag && SetsAws(setter) && setter.spec.providers.aws == spec.providers.aws;
    forall c | c in inputs && c.spec.providers.aws.Some? ensures c.spec.providers.aws == spec.providers.aws {
      assert c != setter ==> Both(bag, c, setter);
    }
    forall k, v
      ensures GivesPart(spec.attributes.value.extra, k, v) <==> exists c :: c in inputs && GivesExtra(c, k, v)
    {
      ExtraResult(sa, inputs, spec, k, v);
    }
    FlagResult(inputs, bag, spec);
  }

  lemma ExtraResult(sa: string, inputs: Bindings, spec: BindingSpec, k: string, v: string)
    requires IsMerge(sa, multiset(inputs), spec)
    ensures GivesPart(spec.attributes.value.extra, k, v) <==> exists c :: c in inputs && GivesExtra(c, k, v)
  {
    var bag := multiset(inputs);
    if GivesPart(spec.attributes.value.extra, k, v) {
      assert k in ExtraOf(spec) && ExtraOf(spec)[k] == v;
      var c :| c in bag && k in Extra(c);
      assert c in inputs && GivesExtra(c, k, v);
    }
    if c :| c in inputs && GivesExtra(c, k, v) {
      assert c in bag && k in Extra(c) && Extra(c)[k] == v;
      assert k in ExtraOf(spec) && ExtraOf(spec)[k] == v;
    }
  }

  lemma FlagResult(inputs: Bindings, bag: multiset<CloudRoleBinding>, spec: BindingSpec)
    requires bag == multiset(inputs) && spec.attributes.Some? && spec.attributes.value.includeProvenance.Some?
    requires forall c :: c in bag && Flag(c).Some? ==> Flag(c) == spec.attributes.value.includeProvenance
    requires (forall c :: c in bag ==> Flag(c).None?) ==> spec.attributes.value.includeProvenance.value
    ensures spec.attributes.value.includeProvenance == Some(!exists c :: c in inputs && GivesFlag(c, false))
  {
    var flag := spec.attributes.value.includeProvenance.value;
    if c :| c in inputs && GivesFlag(c, false) {
      assert c in bag && Flag(c) == Some(false);
    } else if c :| c in bag && Flag(c).Some? {
      assert c in inputs && GivesFlag(c, flag);
    }
  }

  // ---------- Failure ----------

  ghost predicate BlamesAll(inputs: Bindings, e: MergeIssue) {
    forall x :: x in e.affected <==> exists d :: d in inputs && d.name == Some(x)
  }

  /** Kind, reason, message and blame of an error, binding i being the first that does not fit: it
      lacks a block, or sets the AWS block a second time, or else gives another flag than an earlier
      one, or else repeats keys of earlier ones, of which the least is named. */
  ghost predicate Reports(inputs: Bindings, i: nat, e: MergeIssue)
    requires i < |inputs|
  {
    var c := inputs[i];
    if !GivesBlock(c) then
      e == MergeIssue(InvalidSpec, ValidationFailed, MissingBlock, [if c.name.Some? then c.name.value else ""])
    else if exists j :: 0 <= j < i && BothAws(inputs[j], c) then
      && (e.conditionType, e.reason, e.message) == (Conflict, ProviderConflict, ManyAws)
      && exists j :: 0 <= j < i && BothAws(inputs[j], c)
           && forall x :: x in e.affected <==> x != "" && (inputs[j].name == Some(x) || c.name == Some(x))
    else if exists j :: 0 <= j < i && OppositeFlags(inputs[j], c) then
      (e.conditionType, e.reason, e.message) == (Conflict, AttributeConflict, FlagDiffers) && BlamesAll(inputs, e)
    else
      && e.conditionType == Conflict && e.reason == AttributeConflict && e.message.RepeatedKey? && BlamesAll(inputs, e)
      && (exists j :: 0 <= j < i && BothGive(inputs[j], c, e.message.key))
      && forall j, k :: 0 <= j < i && BothGive(inputs[j], c, k) ==> k == e.message.key || Ordered.Less(e.message.key, k)
  }

  /** What is left when every binding fits: none of them sets the AWS block. */
  ghost predicate ReportsNone(inputs: Bindings, e: MergeIssue) {
    && (e.conditionType, e.reason, e.message) == (InvalidSpec, ValidationFailed, NoneConfigured)
    && BlamesAll(inputs, e) && forall c :: c in inputs ==> c.spec.providers.aws.None?
  }

  /** A merge that fails reports the first binding that does not fit the ones before it. */
  lemma FailsExactly(sa: string, inputs: Bindings) returns (i: nat)
    requires Outcome(sa, inputs).Err?
    ensures i <= |inputs| && Peaceful(inputs, i)
    ensures i < |inputs| ==> !Peaceful(inputs, i + 1) && Reports(inputs, i, Outcome(sa, inputs).error)
    ensures i == |inputs| ==> ReportsNone(inputs, Outcome(sa, inputs).error)
  {
    i := FailureJustified(sa, inputs);
    PeacefulMeans(inputs, i);
    if i < |inputs| {
      PeacefulMeans(inputs, i + 1);
      ExplainsReports(inputs, i, Outcome(sa, inputs).error);
    }
  }

  lemma ExplainsReports(inputs: Bindings, i: nat, e: MergeIssue)
    requires i < |inputs| && Explains(inputs, i, e) && (e.message.MissingBlock? || GivesBlock(inputs[i]))
    ensures Reports(inputs, i, e)
  {
    var c := inputs[i];
    match e.message
    case MissingBlock =>
    case ManyAws =>
      var j :| 0 <= j < i && SetsAws(inputs[j]) && forall x :: x in e.affected <==>
        x != "" && x in [inputs[j].NameOrEmpty(), c.NameOrEmpty()];
      assert BothAws(inputs[j], c);
    case FlagDiffers =>
      var j :| 0 <= j < i && Flag(inputs[j]).Some? && Flag(inputs[j]) != Flag(c);
      OppositeMeans(inputs[j], c);
    case RepeatedKey(key) =>
      forall j | 0 <= j < i ensures !OppositeFlags(inputs[j], c) { OppositeMeans(inputs[j], c); }
      forall j, k | 0 <= j < i ensures BothGive(inputs[j], c, k) <==> k in Extra(inputs[j]) && k in Extra(c) {
        BothGiveMeans(inputs[j], c, k);
      }
      var j :| 0 <= j < i && key in Extra(inputs[j]);
      assert BothGive(inputs[j], c, key);
  }

  /** The last failure is for want of an AWS block, and blames every binding that has a name. */
  lemma NoneConfiguredMeans(sa: string, inputs: Bindings)
    requires Outcome(sa, inputs).Err? && Outcome(sa, inputs).error.message == NoneConfigured
    ensures Outcome(sa, inputs).error.conditionType == InvalidSpec
    ensures Outcome(sa, inputs).error.reason == ValidationFailed
    ensures forall x :: x in Outcome(sa, inputs).error.affected <==> exists c :: c in inputs && c.name == Some(x)
    ensures Peaceful(inputs, |inputs|) && forall c :: c in inputs ==> c.spec.providers.aws.None?
  {
    var i := FailsExactly(sa, inputs);
  }
}
