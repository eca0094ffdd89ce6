/** What merging means, without any order: a bag of bindings is mergeable or not, and a
    mergeable bag has exactly one merge. */
module MergeTheorems {
  import opened Crds
  import opened Merge
  import Ordered

  // ---------- The order-free meaning ----------

  /** Two different bindings of one ServiceAccount that can stand together. */
  predicate Compatible(x: CloudRoleBinding, y: CloudRoleBinding) {
    && !(SetsAws(x) && SetsAws(y))
    && (Flag(x).Some? && Flag(y).Some? ==> Flag(x) == Flag(y))
    && Extra(x).Keys !! Extra(y).Keys
  }

  /** x and y are two elements of the bag (two occurrences, when they are equal). */
  predicate Both(bag: multiset<CloudRoleBinding>, x: CloudRoleBinding, y: CloudRoleBinding) {
    x in bag && y in bag && (x == y ==> bag[x] >= 2)
  }

  ghost predicate Mergeable(bag: multiset<CloudRoleBinding>) {
    && (forall c :: c in bag ==> HasProvider(c))
    && (exists c :: c in bag && SetsAws(c))
    && (forall x, y :: Both(bag, x, y) ==> Compatible(x, y))
  }

  function ExtraOf(spec: BindingSpec): map<string, string> {
    if spec.attributes.Some? && spec.attributes.value.extra.Some? then spec.attributes.value.extra.value else map[]
  }

  /** spec is the AWS block, the agreed flag (true if nobody gives one) and the union of the extras. */
  ghost predicate IsMerge(sa: string, bag: multiset<CloudRoleBinding>, spec: BindingSpec) {
    && spec.subject == SubjectRef(sa)
    && spec.providers.azure.None? && spec.providers.gcp.None?
    && (exists c :: c in bag && SetsAws(c) && c.spec.providers.aws == spec.providers.aws)
    && spec.attributes.Some? && spec.attributes.value.includeProvenance.Some?
    && (forall c :: c in bag && Flag(c).Some? ==> Flag(c) == spec.attributes.value.includeProvenance)
    && ((forall c :: c in bag ==> Flag(c).None?) ==> spec.attributes.value.includeProvenance.value)
    && spec.attributes.value.extra != Some(map[])
    && (forall k :: k in ExtraOf(spec) ==> exists c :: c in bag && k in Extra(c))
    && (forall c, k :: c in bag && k in Extra(c) ==> k in ExtraOf(spec) && ExtraOf(spec)[k] == Extra(c)[k])
  }

  // ---------- The accumulated values, by what they mean ----------

  /** The first n bindings all have a provider block and are pairwise compatible. */
  ghost predicate Consistent(inputs: Bindings, n: nat)
    requires n <= |inputs|
  {
    && (forall j :: 0 <= j < n ==> HasProvider(inputs[j]))
    && (forall h, j :: 0 <= h < j < n ==> Compatible(inputs[h], inputs[j]))
  }

  lemma {:induction false} AwsSetterMeans(inputs: Bindings, n: nat)
    requires n <= |inputs|
    ensures AwsSetter(inputs, n).None? <==> forall j :: 0 <= j < n ==> !SetsAws(inputs[j])
    ensures AwsSetter(inputs, n).Some? ==> exists j :: 0 <= j < n && inputs[j] == AwsSetter(inputs, n).value
  {
    if n > 0 { AwsSetterMeans(inputs, n - 1); }
  }

  lemma {:induction false} FirstFlagMeans(inputs: Bindings, n: nat)
    requires n <= |inputs|
    ensures FirstFlag(inputs, n).None? <==> forall j :: 0 <= j < n ==> Flag(inputs[j]).None?
    ensures FirstFlag(inputs, n).Some? ==> exists j :: 0 <= j < n && Flag(inputs[j]) == FirstFlag(inputs, n)
  {
    if n > 0 { FirstFlagMeans(inputs, n - 1); }
  }

  lemma {:induction false} AllExtraMeans(inputs: Bindings, n: nat)
    requires n <= |inputs|
    ensures forall k :: k in AllExtra(inputs, n) ==> exists j :: 0 <= j < n && k in Extra(inputs[j])
    ensures forall j, k :: 0 <= j < n && k in Extra(inputs[j]) ==> k in AllExtra(inputs, n)
  {
    if n > 0 {
      AllExtraMeans(inputs, n - 1);
      forall k | k in AllExtra(inputs, n) ensures exists j :: 0 <= j < n && k in Extra(inputs[j]) {
        if k !in AllExtra(inputs, n - 1) { assert k in Extra(inputs[n - 1]); }
      }
    }
  }

  lemma {:induction false} AllExtraValue(inputs: Bindings, n: nat, j: nat, k: string)
    requires j < n <= |inputs| && k in Extra(inputs[j])
    requires forall h :: j < h < n ==> Extra(inputs[j]).Keys !! Extra(inputs[h]).Keys
    ensures k in AllExtra(inputs, n) && AllExtra(inputs, n)[k] == Extra(inputs[j])[k]
  {
    if j + 1 < n { AllExtraValue(inputs, n - 1, j, k); }
  }

  lemma {:induction false} FirstFaultMeans(inputs: Bindings, n: nat)
    requires n <= |inputs|
    ensures FirstFault(inputs, n).None? <==> forall j :: 0 <= j < n ==> Fault(inputs, j).None?
    ensures FirstFault(inputs, n).Some? ==>
      exists j :: 0 <= j < n && Fault(inputs, j) == FirstFault(inputs, n) && FirstFault(inputs, j).None?
  {
    if n > 0 { FirstFaultMeans(inputs, n - 1); }
  }

  lemma FlagsClash(inputs: Bindings, i: nat)
    requires i < |inputs| && Consistent(inputs, i)
    ensures Flag(inputs[i]).Some? && FirstFlag(inputs, i).Some? && Flag(inputs[i]) != FirstFlag(inputs, i)
            <==> exists j ::
              0 <= j < i && Flag(inputs[j]).Some? && Flag(inputs[i]).Some? && Flag(inputs[j]) != Flag(inputs[i])
  {
    FirstFlagMeans(inputs, i);
    if FirstFlag(inputs, i).Some? {
      var h :| 0 <= h < i && Flag(inputs[h]) == FirstFlag(inputs, i);
      forall j | 0 <= j < i && Flag(inputs[j]).Some? ensures Flag(inputs[j]) == FirstFlag(inputs, i) {
        FlagsAgree(inputs, i, h, j);
      }
    }
  }

  lemma FlagsAgree(inputs: Bindings, i: nat, h: nat, j: nat)
    requires i <= |inputs| && Consistent(inputs, i) && h < i && j < i && Flag(inputs[h]).Some? && Flag(inputs[j]).Some?
    ensures Flag(inputs[h]) == Flag(inputs[j])
  {
    if h < j {
      assert Compatible(inputs[h], inputs[j]);
    } else if j < h {
      assert Compatible(inputs[j], inputs[h]);
    }
  }

  lemma ExtrasClash(inputs: Bindings, i: nat)
    requires i < |inputs|
    ensures Extra(inputs[i]).Keys * AllExtra(inputs, i).Keys == {} <==>
            forall j :: 0 <= j < i ==> Extra(inputs[j]).Keys !! Extra(inputs[i]).Keys
  {
    AllExtraMeans(inputs, i);
    var mine, theirs := Extra(inputs[i]).Keys, AllExtra(inputs, i).Keys;
    if k :| k in mine * theirs {
      var j :| 0 <= j < i && k in Extra(inputs[j]);
      assert k in Extra(inputs[j]).Keys * mine;
    } else {
      forall j | 0 <= j < i ensures Extra(inputs[j]).Keys !! mine {
        forall k | k in Extra(inputs[j]).Keys ensures k !in mine {
          assert k in theirs && k !in mine * theirs;
        }
      }
    }
  }

  /** After a consistent prefix, a binding is at fault exactly when it lacks a block or clashes with an earlier one. */
  lemma FaultMeansClash(inputs: Bindings, i: nat)
    requires i < |inputs| && Consistent(inputs, i)
    ensures Fault(inputs, i).None? <==>
      HasProvider(inputs[i]) && forall j :: 0 <= j < i ==> Compatible(inputs[j], inputs[i])
  {
    AwsSetterMeans(inputs, i);
    FlagsClash(inputs, i);
    ExtrasClash(inputs, i);
  }

  lemma {:induction false} NoFaultMeansConsistent(inputs: Bindings, n: nat)
    requires n <= |inputs|
    ensures FirstFault(inputs, n).None? <==> Consistent(inputs, n)
  {
    if n > 0 {
      NoFaultMeansConsistent(inputs, n - 1);
      if Consistent(inputs, n - 1) { FaultMeansClash(inputs, n - 1); }
    }
  }

  // ---------- From positions to bags ----------

  lemma {:induction false} TwoPositions(inputs: Bindings, x: CloudRoleBinding, y: CloudRoleBinding)
    requires Both(multiset(inputs), x, y)
    ensures exists h, j :: 0 <= h < |inputs| && 0 <= j < |inputs| && h != j && inputs[h] == x && inputs[j] == y
  {
    var h :| 0 <= h < |inputs| && inputs[h] == x;
    var rest := inputs[..h] + inputs[h + 1..];
    assert inputs == inputs[..h] + [x] + inputs[h + 1..];
    assert multiset(inputs) == multiset(rest) + multiset{x};
    assert y in rest;
    var j :| 0 <= j < |rest| && rest[j] == y;
    assert inputs[if j < h then j else j + 1] == y;
  }

  lemma PositionsAreBoth(inputs: Bindings, h: nat, j: nat)
    requires h < j < |inputs|
    ensures Both(multiset(inputs), inputs[h], inputs[j])
  {
    assert inputs == inputs[..j] + [inputs[j]] + inputs[j + 1..];
    assert inputs[..j][h] == inputs[h];
    assert multiset(inputs) == multiset(inputs[..j]) + multiset{inputs[j]} + multiset(inputs[j + 1..]);
  }

  lemma ConsistentMeansPairwise(inputs: Bindings)
    ensures Consistent(inputs, |inputs|) <==>
            (forall c :: c in multiset(inputs) ==> HasProvider(c)) &&
            (forall x, y :: Both(multiset(inputs), x, y) ==> Compatible(x, y))
  {
    var bag := multiset(inputs);
    if Consistent(inputs, |inputs|) {
      forall x, y | Both(bag, x, y) ensures Compatible(x, y) {
        TwoPositions(inputs, x, y);
        var h, j :| 0 <= h < |inputs| && 0 <= j < |inputs| && h != j && inputs[h] == x && inputs[j] == y;
        assert if h < j then Compatible(inputs[h], inputs[j]) else Compatible(inputs[j], inputs[h]);
      }
    } else if (forall c :: c in bag ==> HasProvider(c)) && (forall x, y :: Both(bag, x, y) ==> Compatible(x, y)) {
      forall h, j | 0 <= h < j < |inputs| ensures Compatible(inputs[h], inputs[j]) { PositionsAreBoth(inputs, h, j); }
      forall h | 0 <= h < |inputs| ensures HasProvider(inputs[h]) { assert inputs[h] in bag; }
      assert false;
    }
  }

  // ---------- Main results ----------

  /** Merging succeeds exactly on the mergeable bags. */
  lemma SucceedsIffMergeable(sa: string, inputs: Bindings)
    ensures Outcome(sa, inputs).Ok? <==> Mergeable(multiset(inputs))
  {
    NoFaultMeansConsistent(inputs, |inputs|);
    ConsistentMeansPairwise(inputs);
    AwsSetterMeans(inputs, |inputs|);
    if AwsSetter(inputs, |inputs|).Some? {
      assert AwsSetter(inputs, |inputs|).value in multiset(inputs);
    } else {
      forall c | c in multiset(inputs) ensures !SetsAws(c) { var j :| 0 <= j < |inputs| && inputs[j] == c; }
    }
  }

  /** The first flag of consistent bindings is everyone's flag. */
  lemma MergedFlag(inputs: Bindings)
    requires Consistent(inputs, |inputs|)
    ensures forall c :: c in multiset(inputs) && Flag(c).Some? ==> Flag(c) == FirstFlag(inputs, |inputs|)
    ensures (forall c :: c in multiset(inputs) ==> Flag(c).None?) <==> FirstFlag(inputs, |inputs|).None?
  {
    var n := |inputs|;
    FirstFlagMeans(inputs, n);
    forall c | c in multiset(inputs) && Flag(c).Some? ensures Flag(c) == FirstFlag(inputs, n) {
      var j :| 0 <= j < n && inputs[j] == c;
      var h :| 0 <= h < n && Flag(inputs[h]) == FirstFlag(inputs, n);
      FlagsAgree(inputs, n, h, j);
    }
    if h :| 0 <= h < n && Flag(inputs[h]).Some? { assert inputs[h] in multiset(inputs); }
  }

  /** The union of their extra attributes is made of theirs, and has all of theirs. */
  lemma MergedExtra(inputs: Bindings)
    requires Consistent(inputs, |inputs|)
    ensures forall k :: k in AllExtra(inputs, |inputs|) ==> exists c :: c in multiset(inputs) && k in Extra(c)
    ensures forall c, k :: c in multiset(inputs) && k in Extra(c) ==>
      k in AllExtra(inputs, |inputs|) && AllExtra(inputs, |inputs|)[k] == Extra(c)[k]
  {
    var n := |inputs|;
    AllExtraMeans(inputs, n);
    forall k | k in AllExtra(inputs, n) ensures exists c :: c in multiset(inputs) && k in Extra(c) {
      var j :| 0 <= j < n && k in Extra(inputs[j]);
      assert inputs[j] in multiset(inputs);
    }
    forall c, k | c in multiset(inputs) && k in Extra(c)
      ensures k in AllExtra(inputs, n) && AllExtra(inputs, n)[k] == Extra(c)[k]
    {
      var j :| 0 <= j < n && inputs[j] == c;
      forall h | j < h < n ensures Extra(inputs[j]).Keys !! Extra(inputs[h]).Keys {
        assert Compatible(inputs[j], inputs[h]);
      }
      AllExtraValue(inputs, n, j, k);
    }
  }

  /** Combining the AWS block of a setter, everyone's flag and everyone's extras makes a merge. */
  lemma CombinedIsMerge(sa: string, bag: multiset<CloudRoleBinding>, setter: CloudRoleBinding, flag: Option<bool>,
                        extra: map<string, string>)
    requires setter in bag && SetsAws(setter)
    requires forall c :: c in bag && Flag(c).Some? ==> Flag(c) == flag
    requires (forall c :: c in bag ==> Flag(c).None?) <==> flag.None?
    requires forall k :: k in extra ==> exists c :: c in bag && k in Extra(c)
    requires forall c, k :: c in bag && k in Extra(c) ==> k in extra && extra[k] == Extra(c)[k]
    ensures IsMerge(sa, bag, Combined(sa, setter.spec.providers.aws.value, flag, extra))
  {
    var spec := Combined(sa, setter.spec.providers.aws.value, flag, extra);
    assert ExtraOf(spec) == extra;
  }

  lemma ConsistentMerge(sa: string, inputs: Bindings)
    requires Consistent(inputs, |inputs|) && AwsSetter(inputs, |inputs|).Some?
    ensures IsMerge(sa, multiset(inputs),
      Combined(sa, AwsSetter(inputs, |inputs|).value.spec.providers.aws.value, FirstFlag(inputs, |inputs|),
        AllExtra(inputs, |inputs|)))
  {
    var n := |inputs|;
    var setter := AwsSetter(inputs, n).value;
    assert setter in multiset(inputs) by { AwsSetterMeans(inputs, n); }
    MergedFlag(inputs);
    MergedExtra(inputs);
    CombinedIsMerge(sa, multiset(inputs), setter, FirstFlag(inputs, n), AllExtra(inputs, n));
  }

  /** What it then returns is the merge of the bag. */
  lemma ResultIsMerge(sa: string, inputs: Bindings)
    requires Outcome(sa, inputs).Ok?
    ensures IsMerge(sa, multiset(inputs), Outcome(sa, inputs).value)
  {
    NoFaultMeansConsistent(inputs, |inputs|);
    ConsistentMerge(sa, inputs);
  }

  /** A mergeable bag has only one merge. */
  lemma MergeUnique(sa: string, bag: multiset<CloudRoleBinding>, a: BindingSpec, b: BindingSpec)
    requires Mergeable(bag) && IsMerge(sa, bag, a) && IsMerge(sa, bag, b)
    ensures a == b
  {
    var x :| x in bag && SetsAws(x) && x.spec.providers.aws == a.providers.aws;
    var y :| y in bag && SetsAws(y) && y.spec.providers.aws == b.providers.aws;
    assert x == y by { if x != y { assert Both(bag, x, y); } }
    if exists c :: c in bag && Flag(c).Some? {
      var c :| c in bag && Flag(c).Some?;
    }
    forall k ensures k in ExtraOf(a) <==> k in ExtraOf(b) {}
    forall k | k in ExtraOf(a) ensures ExtraOf(a)[k] == ExtraOf(b)[k] {
      var c :| c in bag && k in Extra(c);
    }
    assert ExtraOf(a) == ExtraOf(b);
  }

  function MaxGeneration(generations: seq<Option<int>>): Option<int> {
    if generations == [] then None
    else
      var rest := MaxGeneration(generations[1..]);
      if generations[0].None? then rest
      else if rest.None? || generations[0].value >= rest.value then generations[0]
      else rest
  }

  /** `observed_generation`: the largest generation of the sources, 0 when none has one. */
  function ObservedGeneration(generations: seq<Option<int>>): int {
    var g := MaxGeneration(generations);
    if g.Some? then g.value else 0
  }

  lemma {:induction false} MaxMeans(generations: seq<Option<int>>)
    ensures MaxGeneration(generations).Some? ==> MaxGeneration(generations) in generations
    ensures forall g :: g in generations && g.Some? ==>
              MaxGeneration(generations).Some? && g.value <= MaxGeneration(generations).value
  {
    if generations != [] {
      MaxMeans(generations[1..]);
      assert generations == [generations[0]] + generations[1..];
    }
  }

  function Generations(inputs: Bindings): seq<Option<int>> {
    seq(|inputs|, i requires 0 <= i < |inputs| => inputs[i].generation)
  }

  lemma GenerationsOfBag(inputs: Bindings, g: Option<int>)
    ensures g in Generations(inputs) <==> exists c :: c in multiset(inputs) && c.generation == g
  {
    if g in Generations(inputs) {
      var i :| 0 <= i < |inputs| && Generations(inputs)[i] == g;
      assert inputs[i] in multiset(inputs);
    }
    if c :| c in multiset(inputs) && c.generation == g {
      var i :| 0 <= i < |inputs| && inputs[i] == c;
      assert Generations(inputs)[i] == g;
    }
  }

  /** The order of the list matters neither for success, nor for the merged spec, nor for the observed generation. */
  lemma OrderIndependent(sa: string, a: Bindings, b: Bindings)
    requires multiset(a) == multiset(b)
    ensures Outcome(sa, a).Ok? <==> Outcome(sa, b).Ok?
    ensures Outcome(sa, a).Ok? ==> Outcome(sa, a).value == Outcome(sa, b).value
    ensures ObservedGeneration(Generations(a)) == ObservedGeneration(Generations(b))
  {
    SucceedsIffMergeable(sa, a);
    SucceedsIffMergeable(sa, b);
    if Outcome(sa, a).Ok? {
      ResultIsMerge(sa, a);
      ResultIsMerge(sa, b);
      MergeUnique(sa, multiset(a), Outcome(sa, a).value, Outcome(sa, b).value);
    }
    forall g ensures g in Generations(a) <==> g in Generations(b) {
      GenerationsOfBag(a, g);
      GenerationsOfBag(b, g);
    }
    MaxMeans(Generations(a));
    MaxMeans(Generations(b));
  }

  // ---------- Failures ----------

  /** Binding i sets the AWS block, and so does an earlier one. */
  predicate AwsTaken(inputs: Bindings, i: nat)
    requires i < |inputs|
  {
    SetsAws(inputs[i]) && exists j :: 0 <= j < i && SetsAws(inputs[j])
  }

  /** The fault e is what binding i does wrong: a missing block, or else a clash with an earlier
      binding, over the block before the flag and over the flag before the extra keys. */
  ghost predicate Explains(inputs: Bindings, i: nat, e: MergeIssue)
    requires i < |inputs|
  {
    var c := inputs[i];
    match e.message
    case MissingBlock =>
      && e.conditionType == InvalidSpec && e.reason == ValidationFailed && !HasProvider(c)
      && e.affected == [c.NameOrEmpty()]
    case ManyAws =>
      && e.conditionType == Conflict && e.reason == ProviderConflict && HasProvider(c) && SetsAws(c)
      && exists j :: 0 <= j < i && SetsAws(inputs[j])
                  && (forall h :: 0 <= h < i && SetsAws(inputs[h]) ==> h == j)
                  && forall x :: x in e.affected <==> x != "" && x in [inputs[j].NameOrEmpty(), c.NameOrEmpty()]
    case FlagDiffers =>
      && e.conditionType == Conflict && e.reason == AttributeConflict && HasProvider(c)
      && (exists j :: 0 <= j < i && Flag(inputs[j]).Some? && Flag(c).Some? && Flag(inputs[j]) != Flag(c))
      && !AwsTaken(inputs, i)
      && forall x :: x in e.affected <==> exists d :: d in inputs && d.name == Some(x)
    case RepeatedKey(k) =>
      && e.conditionType == Conflict && e.reason == AttributeConflict && HasProvider(c)
      && k in Extra(c) && (exists j :: 0 <= j < i && k in Extra(inputs[j]))
      && !AwsTaken(inputs, i)
      && (forall j :: 0 <= j < i && Flag(inputs[j]).Some? && Flag(c).Some? ==> Flag(inputs[j]) == Flag(c))
      && (forall k', j :: 0 <= j < i && k' in Extra(inputs[j]) && k' in Extra(c) ==> k' == k || Ordered.Less(k, k'))
      && forall x :: x in e.affected <==> exists d :: d in inputs && d.name == Some(x)
    case _ => false
  }

  /** The failure that is left when no binding is at fault blames everyone. */
  ghost predicate LacksAws(inputs: Bindings, e: MergeIssue) {
    && e.conditionType == InvalidSpec && e.reason == ValidationFailed && e.message == NoneConfigured
    && forall x :: x in e.affected <==> exists d :: d in inputs && d.name == Some(x)
  }

  lemma {:induction false} NamesMeans(inputs: Bindings)
    ensures forall x :: x in Names(inputs) <==> exists c :: c in inputs && c.name == Some(x)
  {
    if inputs != [] {
      NamesMeans(inputs[1..]);
      assert inputs == [inputs[0]] + inputs[1..];
      forall x ensures x in Names(inputs) <==> exists c :: c in inputs && c.name == Some(x) {
        if x in Names(inputs) {
          if x in Names(inputs[1..]) {
            var c :| c in inputs[1..] && c.name == Some(x);
            assert c in inputs;
          } else {
            assert inputs[0].name == Some(x);
          }
        }
        if c :| c in inputs && c.name == Some(x) {
          assert c == inputs[0] || c in inputs[1..];
        }
      }
    }
  }

  lemma {:induction false} NonEmptyMeans(names: seq<string>)
    ensures forall x :: x in NonEmpty(names) <==> x in names && x != ""
  {
    if names != [] {
      NonEmptyMeans(names[1..]);
      assert names == [names[0]] + names[1..];
    }
  }

  lemma FaultExplains(inputs: Bindings, i: nat)
    requires i < |inputs| && Consistent(inputs, i) && Fault(inputs, i).Some?
    ensures Explains(inputs, i, Fault(inputs, i).value)
  {
    var c := inputs[i];
    NamesMeans(inputs);
    if !HasProvider(c) {
    } else if SetsAws(c) && AwsSetter(inputs, i).Some? {
      AwsSetterMeans(inputs, i);
      var j :| 0 <= j < i && inputs[j] == AwsSetter(inputs, i).value;
      NonEmptyMeans([inputs[j].NameOrEmpty(), c.NameOrEmpty()]);
      forall h | 0 <= h < i && SetsAws(inputs[h]) ensures h == j {
        assert h < j ==> Compatible(inputs[h], inputs[j]);
        assert j < h ==> Compatible(inputs[j], inputs[h]);
      }
    } else if Flag(c).Some? && FirstFlag(inputs, i).Some? && Flag(c) != FirstFlag(inputs, i) {
      AwsSetterMeans(inputs, i);
      FirstFlagMeans(inputs, i);
    } else {
      AwsSetterMeans(inputs, i);
      FlagsClash(inputs, i);
      AllExtraMeans(inputs, i);
      var shared := Extra(c).Keys * AllExtra(inputs, i).Keys;
      forall k', j | 0 <= j < i && k' in Extra(inputs[j]) && k' in Extra(c) ensures k' in shared {}
    }
  }

  /** A failure other than the final "no providers" is explained by the first binding that is
      inconsistent with the ones before it. */
  lemma FailureJustified(sa: string, inputs: Bindings) returns (i: nat)
    requires Outcome(sa, inputs).Err?
    ensures i <= |inputs| && Consistent(inputs, i)
    ensures i < |inputs| ==> !Consistent(inputs, i + 1) && Explains(inputs, i, Outcome(sa, inputs).error)
    ensures i == |inputs| ==>
      Outcome(sa, inputs).error == NoProviders(inputs) && forall c :: c in inputs ==> !SetsAws(c)
    ensures i == |inputs| ==> LacksAws(inputs, Outcome(sa, inputs).error)
  {
    var n := |inputs|;
    FirstFaultMeans(inputs, n);
    if FirstFault(inputs, n).Some? {
      i :| 0 <= i < n && Fault(inputs, i) == FirstFault(inputs, n) && FirstFault(inputs, i).None?;
      NoFaultMeansConsistent(inputs, i);
      NoFaultMeansConsistent(inputs, i + 1);
      FaultExplains(inputs, i);
    } else {
      i := n;
      NoFaultMeansConsistent(inputs, n);
      AwsSetterMeans(inputs, n);
      NamesMeans(inputs);
    }
  }

  // ---------- Blame and order ----------

  /** What a message claims of a bag of bindings. */
  ghost predicate Clash(bag: multiset<CloudRoleBinding>, m: Message) {
    match m
    case MissingBlock => exists c :: c in bag && !HasProvider(c)
    case ManyAws => exists x, y :: Both(bag, x, y) && SetsAws(x) && SetsAws(y)
    case FlagDiffers => exists x, y :: Both(bag, x, y) && Flag(x).Some? && Flag(y).Some? && Flag(x) != Flag(y)
    case RepeatedKey(k) => exists x, y :: Both(bag, x, y) && k in Extra(x) && k in Extra(y)
    case NoneConfigured =>
      && (forall c :: c in bag ==> HasProvider(c) && !SetsAws(c))
      && (forall x, y :: Both(bag, x, y) ==> Compatible(x, y))
    case _ => false
  }

  predicate Pair(x: CloudRoleBinding, y: CloudRoleBinding, m: Message) {
    match m
    case ManyAws => SetsAws(x) && SetsAws(y)
    case FlagDiffers => Flag(x).Some? && Flag(y).Some? && Flag(x) != Flag(y)
    case RepeatedKey(k) => k in Extra(x) && k in Extra(y)
    case _ => false
  }

  lemma ClashOfPair(bag: multiset<CloudRoleBinding>, x: CloudRoleBinding, y: CloudRoleBinding, m: Message)
    requires Both(bag, x, y) && Pair(x, y, m)
    ensures Clash(bag, m)
  {
  }

  lemma ExplainedPair(inputs: Bindings, i: nat, e: MergeIssue) returns (j: nat)
    requires i < |inputs| && Explains(inputs, i, e) && !e.message.MissingBlock?
    ensures j < i && Pair(inputs[j], inputs[i], e.message)
  {
    match e.message
    case ManyAws => j :| 0 <= j < i && SetsAws(inputs[j]);
    case FlagDiffers => j :| 0 <= j < i && Flag(inputs[j]).Some? && Flag(inputs[j]) != Flag(inputs[i]);
    case RepeatedKey(k) => j :| 0 <= j < i && k in Extra(inputs[j]);
  }

  /** Whatever is reported is true of the bag. */
  lemma ReportedClash(sa: string, inputs: Bindings)
    requires Outcome(sa, inputs).Err?
    ensures Clash(multiset(inputs), Outcome(sa, inputs).error.message)
  {
    var i := FailureJustified(sa, inputs);
    if i == |inputs| {
      ConsistentMeansPairwise(inputs);
    } else {
      ExplainedClash(inputs, i, Outcome(sa, inputs).error);
    }
  }

  lemma ExplainedClash(inputs: Bindings, i: nat, e: MergeIssue)
    requires i < |inputs| && Explains(inputs, i, e)
    ensures Clash(multiset(inputs), e.message)
  {
    if e.message.MissingBlock? {
      assert inputs[i] in multiset(inputs);
    } else {
      var j := ExplainedPair(inputs, i, e);
      PositionsAreBoth(inputs, j, i);
      ClashOfPair(multiset(inputs), inputs[j], inputs[i], e.message);
    }
  }

  /** Where only one thing is wrong with a bag it is what is reported, in whatever order. */
  lemma BlameOrderFree(sa: string, a: Bindings, b: Bindings)
    requires multiset(a) == multiset(b) && Outcome(sa, a).Err?
    requires forall m :: Clash(multiset(a), m) ==> m == Outcome(sa, a).error.message
    ensures Outcome(sa, b).Err? && Outcome(sa, b).error.message == Outcome(sa, a).error.message
  {
    OrderIndependent(sa, a, b);
    ReportedClash(sa, b);
  }

  /** In general the order decides: of two bindings without a provider block the first is blamed, */
  lemma FirstMissingBlamed(sa: string, x: CloudRoleBinding, y: CloudRoleBinding)
    requires !HasProvider(x) && !HasProvider(y)
    ensures Outcome(sa, [x, y]) == Err(MissingProvider(x)) && Outcome(sa, [y, x]) == Err(MissingProvider(y))
  {
    FaultEnds([x, y], 0, 2);
    FaultEnds([y, x], 0, 2);
  }

  /** and of two kinds of fault the one met first is reported. */
  lemma FirstKindReported(sa: string, x: CloudRoleBinding, y: CloudRoleBinding, z: CloudRoleBinding)
    requires SetsAws(x) && SetsAws(y) && !HasProvider(z)
    ensures Outcome(sa, [x, y, z]) == Err(TwoAws(x, y)) && Outcome(sa, [z, x, y]) == Err(MissingProvider(z))
  {
    assert AwsSetter([x, y, z], 0) == None && AwsSetter([x, y, z], 1) == Some(x);
    assert FirstFlag([x, y, z], 0) == None && AllExtra([x, y, z], 0) == map[];
    assert FirstFault([x, y, z], 0) == None && Fault([x, y, z], 0) == None;
    assert FirstFault([x, y, z], 1) == None;
    FaultEnds([x, y, z], 1, 3);
    FaultEnds([z, x, y], 0, 3);
  }

  /** Every blamed name that is not empty is the name of an input. */
  lemma BlamedAreInputs(sa: string, inputs: Bindings, x: string)
    requires Outcome(sa, inputs).Err? && x in Outcome(sa, inputs).error.affected && x != ""
    ensures exists c :: c in inputs && c.name == Some(x)
  {
    var i := FailureJustified(sa, inputs);
    if i == |inputs| {
      NamesMeans(inputs);
    } else {
      var e := Outcome(sa, inputs).error;
      if e.message == ManyAws {
        var j :| 0 <= j < i && SetsAws(inputs[j]) && forall y :: y in e.affected <==>
          y != "" && y in [inputs[j].NameOrEmpty(), inputs[i].NameOrEmpty()];
        assert inputs[j] in inputs && inputs[i] in inputs;
      } else if e.message == MissingBlock {
        assert inputs[i] in inputs;
      }
    }
  }

  lemma {:induction false} PrefixAccumulates(inputs: Bindings, more: Bindings, n: nat)
    requires n <= |inputs|
    ensures AwsSetter(inputs + more, n) == AwsSetter(inputs, n)
    ensures FirstFlag(inputs + more, n) == FirstFlag(inputs, n)
    ensures AllExtra(inputs + more, n) == AllExtra(inputs, n)
  {
    if n > 0 { PrefixAccumulates(inputs, more, n - 1); }
  }

  predicate SameFault(a: Option<MergeIssue>, b: Option<MergeIssue>) {
    && (a.Some? <==> b.Some?)
    && (a.Some? ==> a.value.conditionType == b.value.conditionType && a.value.reason == b.value.reason
                    && a.value.message == b.value.message
                    && (a.value.reason != AttributeConflict ==> a == b))
  }

  lemma FaultStable(inputs: Bindings, more: Bindings, i: nat)
    requires i < |inputs|
    ensures SameFault(Fault(inputs, i), Fault(inputs + more, i))
  {
    PrefixAccumulates(inputs, more, i);
    assert (inputs + more)[i] == inputs[i];
  }

  lemma {:induction false} FirstFaultStable(inputs: Bindings, more: Bindings, n: nat)
    requires n <= |inputs|
    ensures SameFault(FirstFault(inputs, n), FirstFault(inputs + more, n))
  {
    if n > 0 {
      FirstFaultStable(inputs, more, n - 1);
      FaultStable(inputs, more, n - 1);
    }
  }

  /** Appending bindings keeps the kind of a failure, and whom it blames unless it blames everyone;
      only the final "no providers" failure can go away or change. */
  lemma FailureStable(sa: string, inputs: Bindings, more: Bindings)
    requires Outcome(sa, inputs).Err? && Outcome(sa, inputs).error.message != NoneConfigured
    ensures Outcome(sa, inputs + more).Err?
    ensures SameFault(Some(Outcome(sa, inputs).error), Some(Outcome(sa, inputs + more).error))
  {
    var n := |inputs|;
    FirstFaultMeans(inputs, n);
    FirstFaultStable(inputs, more, n);
    var i :| 0 <= i < n && Fault(inputs, i) == FirstFault(inputs, n) && FirstFault(inputs, i).None?;
    FirstFaultStable(inputs, more, i);
    FaultStable(inputs, more, i);
    FaultEnds(inputs + more, i, |inputs + more|);
  }

  // ---------- Statuses play no part ----------

  /** A binding without its status. */
  function Core(c: CloudRoleBinding): CloudRoleBinding {
    c.(status := None)
  }

  function Cores(inputs: Bindings): (r: Bindings)
    ensures |r| == |inputs| && forall i :: 0 <= i < |r| ==> r[i] == Core(inputs[i])
  {
    seq(|inputs|, i requires 0 <= i < |inputs| => Core(inputs[i]))
  }

  lemma {:induction false} CoresAccumulate(inputs: Bindings, n: nat)
    requires n <= |inputs|
    ensures AwsSetter(Cores(inputs), n).Some? <==> AwsSetter(inputs, n).Some?
    ensures AwsSetter(inputs, n).Some? ==> AwsSetter(Cores(inputs), n).value == Core(AwsSetter(inputs, n).value)
    ensures FirstFlag(Cores(inputs), n) == FirstFlag(inputs, n)
    ensures AllExtra(Cores(inputs), n) == AllExtra(inputs, n)
  {
    if n > 0 { CoresAccumulate(inputs, n - 1); }
  }

  lemma {:induction false} CoresNames(inputs: Bindings)
    ensures Names(Cores(inputs)) == Names(inputs)
  {
    if inputs != [] {
      CoresNames(inputs[1..]);
      assert Cores(inputs)[1..] == Cores(inputs[1..]);
    }
  }

  lemma {:induction false} CoresFault(inputs: Bindings, n: nat)
    requires n <= |inputs|
    ensures FirstFault(Cores(inputs), n) == FirstFault(inputs, n)
  {
    if n > 0 {
      CoresFault(inputs, n - 1);
      CoresFaultAt(inputs, n - 1);
    }
  }

  lemma CoresFaultAt(inputs: Bindings, i: nat)
    requires i < |inputs|
    ensures Fault(Cores(inputs), i) == Fault(inputs, i)
  {
    CoresAccumulate(inputs, i);
    CoresNames(inputs);
    assert Cores(inputs)[i] == Core(inputs[i]);
  }

  /** Writing statuses of bindings never changes a merge. */
  lemma StatusesIgnored(sa: string, a: Bindings, b: Bindings)
    requires Cores(a) == Cores(b)
    ensures Outcome(sa, a) == Outcome(sa, b)
  {
    assert |a| == |b|;
    CoresFault(a, |a|);
    CoresFault(b, |b|);
    CoresAccumulate(a, |a|);
    CoresAccumulate(b, |b|);
    CoresNames(a);
    CoresNames(b);
  }
}
