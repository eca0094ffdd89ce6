/** Merging the CloudRoleBindings of one ServiceAccount
    (app/crates/kif-webhook/src/merge.rs, `merge_inputs`). */
module Merge {
  import opened Crds
  import Ordered

  datatype MergeIssue = MergeIssue(
    conditionType: ConditionType, reason: ConditionReason, message: Message, affected: seq<string>)

  type Bindings = seq<CloudRoleBinding>

  // ---------- What one binding contributes ----------

  predicate HasProvider(c: CloudRoleBinding) {
    c.spec.providers.aws.Some? || c.spec.providers.azure.Some? || c.spec.providers.gcp.Some?
  }

  predicate SetsAws(c: CloudRoleBinding) {
    c.spec.providers.aws.Some?
  }

  function Flag(c: CloudRoleBinding): Option<bool> {
    if c.spec.attributes.Some? then c.spec.attributes.value.includeProvenance else None
  }

  function Extra(c: CloudRoleBinding): map<string, string> {
    if c.spec.attributes.Some? && c.spec.attributes.value.extra.Some?
    then c.spec.attributes.value.extra.value else map[]
  }

  // ---------- What the first n bindings contribute together ----------

  /** The first of the first n bindings to set the AWS block. */
  function AwsSetter(inputs: Bindings, n: nat): (c: Option<CloudRoleBinding>)
    requires n <= |inputs|
    ensures c.Some? ==> SetsAws(c.value)
  {
    if n == 0 then None
    else
      var earlier := AwsSetter(inputs, n - 1);
      if earlier.Some? then earlier
      else if SetsAws(inputs[n - 1]) then Some(inputs[n - 1])
      else None
  }

  /** The first flag given by the first n bindings. */
  function FirstFlag(inputs: Bindings, n: nat): Option<bool>
    requires n <= |inputs|
  {
    if n == 0 then None
    else
      var earlier := FirstFlag(inputs, n - 1);
      if earlier.Some? then earlier else Flag(inputs[n - 1])
  }

  /** The union of the extra attributes of the first n bindings. */
  function AllExtra(inputs: Bindings, n: nat): map<string, string>
    requires n <= |inputs|
  {
    if n == 0 then map[] else AllExtra(inputs, n - 1) + Extra(inputs[n - 1])
  }

  function Names(inputs: Bindings): seq<string> {
    if inputs == [] then []
    else (if inputs[0].name.Some? then [inputs[0].name.value] else []) + Names(inputs[1..])
  }

  // ---------- Faults ----------

  function MissingProvider(c: CloudRoleBinding): MergeIssue {
    MergeIssue(InvalidSpec, ValidationFailed, MissingBlock, [c.NameOrEmpty()])
  }

  function NonEmpty(names: seq<string>): seq<string> {
    if names == [] then []
    else (if names[0] != "" then [names[0]] else []) + NonEmpty(names[1..])
  }

  function TwoAws(first: CloudRoleBinding, second: CloudRoleBinding): MergeIssue {
    MergeIssue(Conflict, ProviderConflict, ManyAws,
               NonEmpty([first.NameOrEmpty(), second.NameOrEmpty()]))
  }

  function FlagsDiffer(inputs: Bindings): MergeIssue {
    MergeIssue(Conflict, AttributeConflict, FlagDiffers, Names(inputs))
  }

  function DuplicateKey(inputs: Bindings, k: string): MergeIssue {
    MergeIssue(Conflict, AttributeConflict, RepeatedKey(k), Names(inputs))
  }

  function NoProviders(inputs: Bindings): MergeIssue {
    MergeIssue(InvalidSpec, ValidationFailed, NoneConfigured, Names(inputs))
  }

  /** What binding i does wrong, given the bindings before it. */
  function Fault(inputs: Bindings, i: nat): Option<MergeIssue>
    requires i < |inputs|
  {
    var c := inputs[i];
    if !HasProvider(c) then Some(MissingProvider(c))
    else if SetsAws(c) && AwsSetter(inputs, i).Some? then Some(TwoAws(AwsSetter(inputs, i).value, c))
    else if Flag(c).Some? && FirstFlag(inputs, i).Some? && Flag(c) != FirstFlag(inputs, i) then
      Some(FlagsDiffer(inputs))
    else
      var shared := Ordered.FirstShared(Extra(c).Keys, AllExtra(inputs, i).Keys);
      if shared.Some? then Some(DuplicateKey(inputs, shared.value)) else None
  }

  /** The fault of the first faulty one of the first n bindings. */
  function FirstFault(inputs: Bindings, n: nat): Option<MergeIssue>
    requires n <= |inputs|
  {
    if n == 0 then None
    else
      var earlier := FirstFault(inputs, n - 1);
      if earlier.Some? then earlier else Fault(inputs, n - 1)
  }

  lemma {:induction false} FaultEnds(inputs: Bindings, i: nat, n: nat)
    requires i < n <= |inputs| && FirstFault(inputs, i).None? && Fault(inputs, i).Some?
    ensures FirstFault(inputs, n) == Fault(inputs, i)
  {
    if i + 1 < n { FaultEnds(inputs, i, n - 1); }
  }

  function Combined(sa: string, aws: AwsProviderSpec, flag: Option<bool>, extra: map<string, string>): BindingSpec {
    BindingSpec(
      SubjectRef(sa),
      Some(AttributesSpec(if flag.Some? then flag else Some(true), if extra == map[] then None else Some(extra))),
      ProvidersSpec(Some(aws), None, None))
  }

  /** The first fault, or else the combination of everything the bindings contribute. */
  function Outcome(sa: string, inputs: Bindings): Result<BindingSpec, MergeIssue> {
    var n := |inputs|;
    var fault := FirstFault(inputs, n);
    if fault.Some? then Err(fault.value)
    else
      var setter := AwsSetter(inputs, n);
      if setter.None? then Err(NoProviders(inputs))
      else Ok(Combined(sa, setter.value.spec.providers.aws.value, FirstFlag(inputs, n), AllExtra(inputs, n)))
  }

  // ---------- The loops ----------

  /** The entries of m at the given keys. */
  function Part(m: map<string, string>, keys: seq<string>): map<string, string> {
    map k | k in m && k in keys :: m[k]
  }

  lemma PartGrows(m: map<string, string>, extra: map<string, string>, keys: seq<string>, j: nat)
    requires j < |keys| && keys[j] in m
    ensures (extra + Part(m, keys[..j]))[keys[j] := m[keys[j]]] == extra + Part(m, keys[..j + 1])
  {
    assert keys[..j + 1] == keys[..j] + [keys[j]];
  }

  lemma PartHolds(m: map<string, string>, extra: map<string, string>, keys: seq<string>, j: nat)
    requires j < |keys| && forall h :: 0 <= h < j ==> keys[h] != keys[j]
    ensures keys[j] in extra + Part(m, keys[..j]) <==> keys[j] in extra
  {
  }

  /** The keys of m, each once. */
  predicate Enumerates(keys: seq<string>, m: map<string, string>) {
    && (forall h :: 0 <= h < |keys| ==> keys[h] in m)
    && (forall h, j :: 0 <= h < j < |keys| ==> keys[h] != keys[j])
    && (forall k :: k in m ==> k in keys)
  }

  lemma SortedEnumerates(m: map<string, string>)
    ensures Enumerates(Ordered.Sorted(m.Keys), m)
  {
    Ordered.SortedDistinct(m.Keys);
  }

  lemma PartOfAll(m: map<string, string>, keys: seq<string>)
    requires Enumerates(keys, m)
    ensures Part(m, keys[..|keys|]) == m
  {
    assert keys[..|keys|] == keys;
  }

  /** The inner loop: copy entries in the order of the keys, up to the first key already taken. */
  method CopyUntilTaken(keys: seq<string>, m: map<string, string>, extra: map<string, string>)
    returns (extended: map<string, string>, at: nat)
    requires Enumerates(keys, m)
    ensures at <= |keys| && forall h :: 0 <= h < at ==> keys[h] !in extra
    ensures at < |keys| ==> keys[at] in extra
    ensures at == |keys| ==> extended == extra + m
  {
    extended, at := extra, 0;
    assert extra + Part(m, keys[..0]) == extra;
    while at < |keys|
      invariant 0 <= at <= |keys|
      invariant forall h :: 0 <= h < at ==> keys[h] !in extra
      invariant extended == extra + Part(m, keys[..at])
    {
      PartHolds(m, extra, keys, at);
      if keys[at] in extended {
        return;
      }
      PartGrows(m, extra, keys, at);
      extended := extended[keys[at] := m[keys[at]]];
      at := at + 1;
    }
    PartOfAll(m, keys);
  }

  method AddExtra(m: map<string, string>, extra: map<string, string>)
    returns (extended: map<string, string>, duplicate: Option<string>)
    ensures duplicate == Ordered.FirstShared(m.Keys, extra.Keys)
    ensures duplicate.None? ==> extended == extra + m
  {
    var keys := Ordered.Sorted(m.Keys);
    SortedEnumerates(m);
    var at;
    extended, at := CopyUntilTaken(keys, m, extra);
    if at < |keys| {
      Ordered.FirstSharedAt(m.Keys, extra.Keys, at);
      duplicate := Some(keys[at]);
    } else {
      Ordered.NoneShared(m.Keys, extra.Keys);
      duplicate := None;
    }
  }

  /** `merge_inputs`: one pass over four accumulators with early returns. */
  method MergeInputs(sa: string, inputs: Bindings) returns (r: Result<BindingSpec, MergeIssue>)
    ensures r == Outcome(sa, inputs)
  {
    var aws: Option<AwsProviderSpec> := None;
    var awsSetBy: Option<string> := None;
    var includeProv: Option<bool> := None;
    var extra: map<string, string> := map[];
    var i := 0;
    while i < |inputs|
      invariant 0 <= i <= |inputs|
      invariant FirstFault(inputs, i).None?
      invariant AwsSetter(inputs, i).None? ==> aws.None? && awsSetBy.None?
      invariant AwsSetter(inputs, i).Some? ==>
          && aws == AwsSetter(inputs, i).value.spec.providers.aws
          && awsSetBy == Some(AwsSetter(inputs, i).value.NameOrEmpty())
      invariant includeProv == FirstFlag(inputs, i)
      invariant extra == AllExtra(inputs, i)
    {
      var c := inputs[i];
      if Fault(inputs, i).Some? { FaultEnds(inputs, i, |inputs|); }
      var name := c.NameOrEmpty();
      if !HasProvider(c) {
        return Err(MergeIssue(InvalidSpec, ValidationFailed, MissingBlock, [name]));
      }
      if c.spec.providers.aws.Some? {
        if aws.Some? {
          var setBy := if awsSetBy.Some? then awsSetBy.value else "";
          return Err(MergeIssue(Conflict, ProviderConflict, ManyAws,
                                NonEmpty([setBy, name])));
        }
        aws := c.spec.providers.aws;
        awsSetBy := Some(name);
      }
      if c.spec.attributes.Some? {
        var a := c.spec.attributes.value;
        if a.includeProvenance.Some? {
          if includeProv.Some? {
            if includeProv.value != a.includeProvenance.value {
              return Err(FlagsDiffer(inputs));
            }
          } else {
            includeProv := a.includeProvenance;
          }
        }
        if a.extra.Some? {
          var extended, duplicate := AddExtra(a.extra.value, extra);
          if duplicate.Some? {
            return Err(DuplicateKey(inputs, duplicate.value));
          }
          extra := extended;
        }
      }
      i := i + 1;
    }
    if aws.None? {
      return Err(NoProviders(inputs));
    }
    r := Ok(Combined(sa, aws.value, includeProv, extra));
  }
}
