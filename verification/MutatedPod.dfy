/** What becomes of a pod, in the words of Kubernetes: the volumes, mounts and variables that its
    containers end up with (app/crates/kif-webhook/src/mutate.rs). */
module MutatedPod {
  import opened Crds
  import opened Injection

  // ---------- The words ----------

  /** The variable has this entry, and no other. */
  predicate HasVar(env: Option<seq<EnvVar>>, e: EnvVar) {
    env.Some? && e in env.value && forall x :: x in env.value && x.name == e.name ==> x == e
  }

  predicate HasValue(env: Option<seq<EnvVar>>, name: string, value: string) {
    HasVar(env, EnvVar(name, Some(value), None))
  }

  /** This variable has the same entries in both. */
  ghost predicate SameVar(before: Option<seq<EnvVar>>, after: Option<seq<EnvVar>>, name: string) {
    forall x: EnvVar :: x.name == name ==>
      (after.Some? && x in after.value <==> before.Some? && x in before.value)
  }

  predicate OneEntryEach(env: Option<seq<EnvVar>>) {
    env.Some? ==> forall i, j :: 0 <= i < j < |env.value| ==> env.value[i].name != env.value[j].name
  }

  /** The name stands for this volume, and for no other. */
  predicate HasSource(volumes: Option<seq<Volume>>, v: Volume) {
    volumes.Some? && v in volumes.value && forall w :: w in volumes.value && w.name == v.name ==> w == v
  }

  /** This is mounted, and nothing else at its path. */
  predicate Mounts(c: Container, m: Mount) {
    c.mounts.Some? && m in c.mounts.value && forall n :: n in c.mounts.value && n.path == m.path ==> n == m
  }

  // ---------- What is promised ----------

  /** The agent: account, hash, address and port as variables, and the name of its pod; the token of
      the account mounted read-only, and the directory for the AWS token writable. */
  predicate RunsAgent(c: Container, a: AgentConfig, token: string, dir: string) {
    && c.name == "kif-agent" && c.rest == AgentRest(a.image, a.pullPolicy, a.port)
    && HasValue(c.env, "SERVICE_ACCOUNT_NAME", a.serviceAccountName) && HasValue(c.env, "CONFIG_HASH", a.configHash)
    && HasValue(c.env, "FEDERATION_URL", a.federationUrl) && HasValue(c.env, "PORT", a.port)
    && HasVar(c.env, EnvVar("POD_NAME", None, Some("metadata.name"))) && |c.env.value| == 5
    && Mounts(c, Mount(token, "/var/run/secrets/kubernetes.io/serviceaccount", Some(true)))
    && Mounts(c, Mount(dir, "/var/run/kif/aws", Some(false))) && |c.mounts.value| == 2
  }

  /** The variables that may change. */
  const VARS := {"AWS_ROLE_ARN", "AWS_WEB_IDENTITY_TOKEN_FILE", "AWS_REGION", "AWS_DEFAULT_REGION",
                 "AWS_STS_REGIONAL_ENDPOINTS"}

  /** The variables a container gets: the role, the token's file, the region under both names if there is
      one, and the endpoints if asked for; all its other variables stay. */
  ghost predicate GetsVars(before: Option<seq<EnvVar>>, after: Option<seq<EnvVar>>, aws: AwsProviderSpec) {
    && HasValue(after, "AWS_ROLE_ARN", aws.roleArn)
    && HasValue(after, "AWS_WEB_IDENTITY_TOKEN_FILE", "/var/run/kif/aws/token")
    && (if aws.region.Some?
        then HasValue(after, "AWS_REGION", aws.region.value) && HasValue(after, "AWS_DEFAULT_REGION", aws.region.value)
        else SameVar(before, after, "AWS_REGION") && SameVar(before, after, "AWS_DEFAULT_REGION"))
    && (if aws.stsRegionalEndpoints then HasValue(after, "AWS_STS_REGIONAL_ENDPOINTS", "regional")
        else SameVar(before, after, "AWS_STS_REGIONAL_ENDPOINTS"))
    && forall n :: n !in VARS ==> SameVar(before, after, n)
  }

  /** An injected container: the directory mounted read-only beside its own mounts, and the variables. */
  ghost predicate Equipped(before: Container, after: Container, aws: AwsProviderSpec, dir: string) {
    && after.name == before.name && after.rest == before.rest
    && Mounts(after, Mount(dir, "/var/run/kif/aws", Some(true)))
    && after.mounts.value == (if before.mounts.Some? then before.mounts.value else [])
                             + [Mount(dir, "/var/run/kif/aws", Some(true))]
    && (OneEntryEach(before.env) ==> GetsVars(before.env, after.env, aws))
  }

  ghost predicate AllEquipped(before: seq<Container>, after: seq<Container>, aws: AwsProviderSpec, dir: string) {
    |after| == |before| && forall i :: 0 <= i < |before| ==> Equipped(before[i], after[i], aws, dir)
  }

  /** The pod: no default token; its own volumes and, under the two names, the projected token and an
      empty directory; the agent first, then its own init containers; and all containers equipped. */
  ghost predicate Rewritten(p: PodSpec, q: PodSpec, a: AgentConfig, aws: AwsProviderSpec, token: string, dir: string) {
    && q.automount == Some(false) && q.serviceAccountName == p.serviceAccountName
    && HasSource(q.volumes, Volume(token, ProjectedToken)) && HasSource(q.volumes, Volume(dir, EmptyDir))
    && (p.volumes.Some? ==> p.volumes.value <= q.volumes.value)
    && |q.volumes.value| == (if p.volumes.Some? then |p.volumes.value| else 0) + 2
    && q.inits.Some? && q.inits.value != [] && RunsAgent(q.inits.value[0], a, token, dir)
    && AllEquipped(if p.inits.Some? then p.inits.value else [], q.inits.value[1..], aws, dir)
    && AllEquipped(p.containers, q.containers, aws, dir)
  }

  // ---------- Why it holds ----------

  lemma {:induction false} EntryKept(env: seq<EnvVar>, name: string, value: string, x: EnvVar)
    requires DistinctEnv(env)
    ensures x in Upserted(env, name, value) <==>
      if x.name == name then x == EnvVar(name, Some(value), None) else x in env
  {
    if env != [] {
      assert env == [env[0]] + env[1..];
      if env[0].name == name {
        assert forall y :: y in env[1..] ==> y.name != name;
      } else {
        EntryKept(env[1..], name, value, x);
      }
    }
  }

  /** After all upserts a variable has just the entry given, or else those it had. */
  lemma {:induction false} EntriesKept(env: seq<EnvVar>, entries: seq<(string, string)>, x: EnvVar)
    requires DistinctEnv(env)
    ensures x in UpsertAll(env, entries) <==>
      if Given(entries, x.name).Some? then x == EnvVar(x.name, Given(entries, x.name), None) else x in env
    decreases |entries|
  {
    if entries != [] {
      UpsertedDistinct(env, entries[0].0, entries[0].1);
      EntryKept(env, entries[0].0, entries[0].1, x);
      EntriesKept(Upserted(env, entries[0].0, entries[0].1), entries[1..], x);
    }
  }

  /** What is given, by name. */
  lemma GivenByName(aws: AwsProviderSpec, n: string)
    ensures Given(AwsEntries(aws), n) ==
      if n == "AWS_ROLE_ARN" then Some(aws.roleArn)
      else if n == "AWS_WEB_IDENTITY_TOKEN_FILE" then Some("/var/run/kif/aws/token")
      else if n == "AWS_REGION" || n == "AWS_DEFAULT_REGION" then aws.region
      else if n == "AWS_STS_REGIONAL_ENDPOINTS" && aws.stsRegionalEndpoints then Some("regional")
      else None
  {
    var entries := AwsEntries(aws);
    AwsKeysDistinct(aws);
    GivenMeans(entries, n);
    if e :| e in entries && e.0 == n { GivenDistinct(entries, e); }
    assert (ROLE_ARN, aws.roleArn) == entries[0] && (WEB_IDENTITY, TOKEN_FILE) == entries[1];
    if aws.region.Some? {
      assert (REGION, aws.region.value) == entries[2] && (DEFAULT_REGION, aws.region.value) == entries[3];
    }
    if aws.stsRegionalEndpoints { assert (STS_ENDPOINTS, "regional") == entries[|entries| - 1]; }
  }

  lemma VarsGot(before: Option<seq<EnvVar>>, aws: AwsProviderSpec)
    requires OneEntryEach(before)
    ensures GetsVars(before, Some(UpsertAll(Or(before), AwsEntries(aws))), aws)
  {
    var after := UpsertAll(Or(before), AwsEntries(aws));
    forall x: EnvVar
      ensures x in after <==>
        if Given(AwsEntries(aws), x.name).Some? then x == EnvVar(x.name, Given(AwsEntries(aws), x.name), None)
        else before.Some? && x in before.value
    {
      EntriesKept(Or(before), AwsEntries(aws), x);
    }
    forall n ensures Given(AwsEntries(aws), n).None? ==> SameVar(before, Some(after), n) { GivenByName(aws, n); }
    forall n ensures Given(AwsEntries(aws), n).Some? ==> HasValue(Some(after), n, Given(AwsEntries(aws), n).value) {
      if Given(AwsEntries(aws), n).Some? { assert EnvVar(n, Given(AwsEntries(aws), n), None) in after; }
    }
    forall n ensures Given(AwsEntries(aws), n).None? || n in VARS { GivenByName(aws, n); }
    GivenByName(aws, "AWS_ROLE_ARN");
    GivenByName(aws, "AWS_WEB_IDENTITY_TOKEN_FILE");
    GivenByName(aws, "AWS_REGION");
    GivenByName(aws, "AWS_DEFAULT_REGION");
    GivenByName(aws, "AWS_STS_REGIONAL_ENDPOINTS");
  }

  lemma ContainerEquipped(c: Container, aws: AwsProviderSpec)
    requires UnclaimedContainer(c)
    ensures Equipped(c, Injected(c, aws), aws, "kif-aws")
  {
    if OneEntryEach(c.env) { VarsGot(c.env, aws); }
    assert !HasMount(Or(c.mounts), AWS);
  }

  lemma OneOfFive(env: seq<EnvVar>, i: nat)
    requires i < |env| == 5 && forall j :: 0 <= j < 5 && j != i ==> |env[j].name| != |env[i].name|
    ensures HasVar(Some(env), env[i])
  {
  }

  lemma AgentRuns(a: AgentConfig)
    ensures RunsAgent(AgentContainer(a), a, "kif-sa-token", "kif-aws")
  {
    assert |"SERVICE_ACCOUNT_NAME"| == 20 && |"CONFIG_HASH"| == 11 && |"FEDERATION_URL"| == 14;
    assert |"PORT"| == 4 && |"POD_NAME"| == 8;
    var env := AgentContainer(a).env.value;
    OneOfFive(env, 0);
    OneOfFive(env, 1);
    OneOfFive(env, 2);
    OneOfFive(env, 3);
    OneOfFive(env, 4);
    AgentMounts(a);
  }

  lemma AgentMounts(a: AgentConfig)
    ensures var account := "/var/run/secrets/kubernetes.io/serviceaccount";
      Mounts(AgentContainer(a), Mount("kif-sa-token", account, Some(true)))
    ensures Mounts(AgentContainer(a), Mount("kif-aws", "/var/run/kif/aws", Some(false)))
    ensures |AgentContainer(a).mounts.value| == 2
  {
    var mounts := AgentContainer(a).mounts.value;
    assert mounts[0] in mounts && mounts[1] in mounts && |mounts[0].path| != |mounts[1].path|;
  }

  lemma VolumesAdded(p: PodSpec, a: AgentConfig, aws: AwsProviderSpec)
    requires Unclaimed(p)
    ensures var q := Mutated(p, a, aws);
      q.volumes == Some(Or(p.volumes) + [Volume("kif-sa-token", ProjectedToken)] + [Volume("kif-aws", EmptyDir)])
  {
    assert |SA_TOKEN| != |AWS|;
  }

  lemma SourcesOf(vs: seq<Volume>)
    requires forall v :: v in vs ==> v.name != "kif-sa-token" && v.name != "kif-aws"
    ensures var all := vs + [Volume("kif-sa-token", ProjectedToken)] + [Volume("kif-aws", EmptyDir)];
      && HasSource(Some(all), Volume("kif-sa-token", ProjectedToken))
      && HasSource(Some(all), Volume("kif-aws", EmptyDir)) && vs <= all
  {
    assert |"kif-sa-token"| != |"kif-aws"|;
  }

  /** A pod that uses none of the webhook's names is rewritten, with two names for the volumes. */
  lemma MutationRewrites(p: PodSpec, a: AgentConfig, aws: AwsProviderSpec) returns (token: string, dir: string)
    requires Unclaimed(p)
    ensures Rewritten(p, Mutated(p, a, aws), a, aws, token, dir)
  {
    token, dir := "kif-sa-token", "kif-aws";
    var q := Mutated(p, a, aws);
    VolumesAdded(p, a, aws);
    SourcesOf(Or(p.volumes));
    AgentRuns(a);
    assert q.inits.value[1..] == InjectedInits(Or(p.inits), aws);
    forall i | 0 <= i < |Or(p.inits)| ensures Equipped(Or(p.inits)[i], q.inits.value[1..][i], aws, dir) {
      assert Or(p.inits)[i] in Or(p.inits);
      ContainerEquipped(Or(p.inits)[i], aws);
    }
    forall i | 0 <= i < |p.containers| ensures Equipped(p.containers[i], q.containers[i], aws, dir) {
      assert p.containers[i] in p.containers;
      ContainerEquipped(p.containers[i], aws);
    }
  }
}
