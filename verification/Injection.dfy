/** Pods as values and what the webhook makes of them
    (app/crates/kif-webhook/src/mutate.rs). Fields that it never looks at are opaque. */
module Injection {
  import opened Crds

  datatype EnvVar = EnvVar(name: string, value: Option<string>, valueFrom: Option<string>)

  datatype Mount = Mount(name: string, path: string, readOnly: Option<bool>)

  datatype VolumeSource = ProjectedToken | EmptyDir | OtherSource(s: string)

  datatype Volume = Volume(name: string, source: VolumeSource)

  /** The fields of a container that are not looked at; those of the agent are known. */
  datatype Rest = Opaque(s: string) | AgentRest(image: string, pullPolicy: string, port: string)

  datatype Container = Container(name: string, env: Option<seq<EnvVar>>, mounts: Option<seq<Mount>>, rest: Rest)

  datatype PodSpec = PodSpec(
    automount: Option<bool>, volumes: Option<seq<Volume>>,
    inits: Option<seq<Container>>, containers: seq<Container>, serviceAccountName: Option<string>)

  const AGENT := "kif-agent"
  const SA_TOKEN := "kif-sa-token"
  const AWS := "kif-aws"
  const AWS_DIR := "/var/run/kif/aws"
  const SA_DIR := "/var/run/secrets/kubernetes.io/serviceaccount"
  const TOKEN_FILE := "/var/run/kif/aws/token"

  function Or<T>(o: Option<seq<T>>): seq<T> {
    if o.Some? then o.value else []
  }

  predicate HasVolume(vs: seq<Volume>, name: string) {
    exists v :: v in vs && v.name == name
  }

  predicate HasMount(ms: seq<Mount>, name: string) {
    exists m :: m in ms && m.name == name
  }

  predicate HasContainer(cs: seq<Container>, name: string) {
    exists c :: c in cs && c.name == name
  }

  // ---------- Environment lists ----------

  /** `upsert_env`: the first entry of that name is overwritten, or one is added at the end. */
  function Upserted(env: seq<EnvVar>, name: string, value: string): seq<EnvVar> {
    if env == [] then [EnvVar(name, Some(value), None)]
    else if env[0].name == name then [EnvVar(name, Some(value), None)] + env[1..]
    else [env[0]] + Upserted(env[1..], name, value)
  }

  function UpsertAll(env: seq<EnvVar>, entries: seq<(string, string)>): seq<EnvVar>
    decreases |entries|
  {
    if entries == [] then env else UpsertAll(Upserted(env, entries[0].0, entries[0].1), entries[1..])
  }

  function Lookup(env: seq<EnvVar>, name: string): Option<EnvVar> {
    if env == [] then None else if env[0].name == name then Some(env[0]) else Lookup(env[1..], name)
  }

  /** The entry that counts when a name occurs several times: the last one. */
  function Effective(env: seq<EnvVar>, name: string): Option<EnvVar> {
    if env == [] then None
    else
      var later := Effective(env[1..], name);
      if later.Some? then later else if env[0].name == name then Some(env[0]) else None
  }

  predicate DistinctEnv(env: seq<EnvVar>) {
    forall i, j :: 0 <= i < j < |env| ==> env[i].name != env[j].name
  }

  predicate DistinctKeys(entries: seq<(string, string)>) {
    forall i, j :: 0 <= i < j < |entries| ==> entries[i].0 != entries[j].0
  }

  /** The value that a list of entries gives a name. */
  function Given(entries: seq<(string, string)>, name: string): Option<string> {
    if entries == [] then None
    else
      var later := Given(entries[1..], name);
      if later.Some? then later else if entries[0].0 == name then Some(entries[0].1) else None
  }

  const ROLE_ARN := "AWS_ROLE_ARN"
  const WEB_IDENTITY := "AWS_WEB_IDENTITY_TOKEN_FILE"
  const REGION := "AWS_REGION"
  const DEFAULT_REGION := "AWS_DEFAULT_REGION"
  const STS_ENDPOINTS := "AWS_STS_REGIONAL_ENDPOINTS"

  function BaseEntries(aws: AwsProviderSpec): seq<(string, string)> {
    [(ROLE_ARN, aws.roleArn), (WEB_IDENTITY, TOKEN_FILE)]
  }

  function RegionEntries(aws: AwsProviderSpec): seq<(string, string)> {
    if aws.region.Some? then [(REGION, aws.region.value), (DEFAULT_REGION, aws.region.value)] else []
  }

  function StsEntries(aws: AwsProviderSpec): seq<(string, string)> {
    if aws.stsRegionalEndpoints then [(STS_ENDPOINTS, "regional")] else []
  }

  function AwsEntries(aws: AwsProviderSpec): seq<(string, string)> {
    BaseEntries(aws) + RegionEntries(aws) + StsEntries(aws)
  }

  // ---------- Containers and pods ----------

  const AWS_MOUNT := Mount(AWS, AWS_DIR, Some(true))

  function MountAws(ms: seq<Mount>): seq<Mount> {
    if HasMount(ms, AWS) then ms else ms + [AWS_MOUNT]
  }

  /** `inject_aws_into_app_container`, when the role is not blank. */
  function Injected(c: Container, aws: AwsProviderSpec): Container {
    c.(env := Some(UpsertAll(Or(c.env), AwsEntries(aws))), mounts := Some(MountAws(Or(c.mounts))))
  }

  function InjectedAll(cs: seq<Container>, aws: AwsProviderSpec): (r: seq<Container>)
    ensures |r| == |cs|
  {
    seq(|cs|, i requires 0 <= i < |cs| => Injected(cs[i], aws))
  }

  /** Init containers, but for agents. */
  function InjectedInits(cs: seq<Container>, aws: AwsProviderSpec): (r: seq<Container>)
    ensures |r| == |cs|
  {
    seq(|cs|, i requires 0 <= i < |cs| => if cs[i].name == AGENT then cs[i] else Injected(cs[i], aws))
  }

  function WithVolume(vs: seq<Volume>, v: Volume): seq<Volume> {
    if HasVolume(vs, v.name) then vs else vs + [v]
  }

  const TOKEN_VOLUME := Volume(SA_TOKEN, ProjectedToken)
  const AWS_VOLUME := Volume(AWS, EmptyDir)

  /** What the agent needs to know. */
  datatype AgentConfig = AgentConfig(
    image: string, pullPolicy: string, port: string,
    federationUrl: string, serviceAccountName: string, configHash: string)

  const CONFIG_HASH := "CONFIG_HASH"
  const SERVICE_ACCOUNT_NAME := "SERVICE_ACCOUNT_NAME"

  function AgentContainer(a: AgentConfig): Container {
    Container(AGENT,
      Some([EnvVar(SERVICE_ACCOUNT_NAME, Some(a.serviceAccountName), None),
            EnvVar(CONFIG_HASH, Some(a.configHash), None),
            EnvVar("FEDERATION_URL", Some(a.federationUrl), None),
            EnvVar("PORT", Some(a.port), None),
            EnvVar("POD_NAME", None, Some("metadata.name"))]),
      Some([Mount(SA_TOKEN, SA_DIR, Some(true)), Mount(AWS, AWS_DIR, Some(false))]),
      AgentRest(a.image, a.pullPolicy, a.port))
  }

  function Mutated(p: PodSpec, a: AgentConfig, aws: AwsProviderSpec): PodSpec {
    PodSpec(
      Some(false),
      Some(WithVolume(WithVolume(Or(p.volumes), TOKEN_VOLUME), AWS_VOLUME)),
      Some([AgentContainer(a)] + InjectedInits(Or(p.inits), aws)),
      InjectedAll(p.containers, aws),
      p.serviceAccountName)
  }

  /** Unicode white space, which `trim` removes. */
  predicate IsBlankChar(c: char) {
    var n := c as int;
    9 <= n <= 13 || n == 0x20 || n == 0x85 || n == 0xA0 || n == 0x1680 || 0x2000 <= n <= 0x200A
    || n == 0x2028 || n == 0x2029 || n == 0x202F || n == 0x205F || n == 0x3000
  }

  /** A string that is empty once trimmed. */
  predicate Blank(s: string) {
    forall i :: 0 <= i < |s| ==> IsBlankChar(s[i])
  }

  /** The characters that Unicode has as White_Space. */
  const WHITE_SPACE := [0x09, 0x0A, 0x0B, 0x0C, 0x0D, 0x20, 0x85, 0xA0, 0x1680, 0x2000, 0x2001, 0x2002, 0x2003, 0x2004,
                        0x2005, 0x2006, 0x2007, 0x2008, 0x2009, 0x200A, 0x2028, 0x2029, 0x202F, 0x205F, 0x3000]

  lemma BlankExactly(s: string)
    ensures Blank(s) <==> forall c :: c in s ==> c as int in WHITE_SPACE
  {
    forall i | 0 <= i < |s| ensures IsBlankChar(s[i]) <==> s[i] as int in WHITE_SPACE { WhiteSpace(s[i] as int); }
    if Blank(s) {
      forall c | c in s ensures c as int in WHITE_SPACE { var i :| 0 <= i < |s| && s[i] == c; }
    } else {
      var i :| 0 <= i < |s| && !IsBlankChar(s[i]);
      assert s[i] in s;
    }
  }

  lemma WhiteSpace(n: int)
    ensures n in WHITE_SPACE <==>
      9 <= n <= 13 || n == 0x20 || n == 0x85 || n == 0xA0 || n == 0x1680 || 0x2000 <= n <= 0x200A
      || n == 0x2028 || n == 0x2029 || n == 0x202F || n == 0x205F || n == 0x3000
  {
  }

  /** Some container gets credentials. */
  predicate HasTarget(p: PodSpec) {
    p.containers != [] || exists c :: c in Or(p.inits) && c.name != AGENT
  }

  // ---------- Overriding ----------

  lemma {:induction false} UpsertAppend(env: seq<EnvVar>, xs: seq<(string, string)>, ys: seq<(string, string)>)
    ensures UpsertAll(env, xs + ys) == UpsertAll(UpsertAll(env, xs), ys)
    decreases |xs|
  {
    if xs == [] {
      assert xs + ys == ys;
    } else {
      assert (xs + ys)[0] == xs[0] && (xs + ys)[1..] == xs[1..] + ys;
      UpsertAppend(Upserted(env, xs[0].0, xs[0].1), xs[1..], ys);
    }
  }

  lemma UpsertTwo(env: seq<EnvVar>, a: (string, string), b: (string, string))
    ensures UpsertAll(env, [a]) == Upserted(env, a.0, a.1)
    ensures UpsertAll(env, [a, b]) == Upserted(Upserted(env, a.0, a.1), b.0, b.1)
  {
    assert [a][1..] == [] && [a, b][1..] == [b] && [b][1..] == [];
    assert UpsertAll(Upserted(env, a.0, a.1), [b]) == Upserted(Upserted(env, a.0, a.1), b.0, b.1);
  }

  lemma {:induction false} UpsertedLookup(env: seq<EnvVar>, name: string, value: string, other: string)
    ensures Lookup(Upserted(env, name, value), other) ==
      if other == name then Some(EnvVar(name, Some(value), None)) else Lookup(env, other)
  {
    if env != [] && env[0].name != name { UpsertedLookup(env[1..], name, value, other); }
  }

  /** Prior entries keep their places, entries of other names are untouched, and at most one is added. */
  lemma {:induction false} UpsertedKeeps(env: seq<EnvVar>, name: string, value: string)
    ensures |env| <= |Upserted(env, name, value)| <= |env| + 1
    ensures forall i :: 0 <= i < |env| ==> Upserted(env, name, value)[i].name == env[i].name
    ensures forall i :: 0 <= i < |env| && env[i].name != name ==> Upserted(env, name, value)[i] == env[i]
    ensures |Upserted(env, name, value)| == |env| + 1 ==>
              Upserted(env, name, value)[|env|].name == name && forall i :: 0 <= i < |env| ==> env[i].name != name
  {
    if env != [] && env[0].name != name { UpsertedKeeps(env[1..], name, value); }
  }

  lemma {:induction false} GivenMeans(entries: seq<(string, string)>, name: string)
    ensures Given(entries, name).Some? <==> exists e :: e in entries && e.0 == name
  {
    if entries != [] {
      GivenMeans(entries[1..], name);
      assert entries == [entries[0]] + entries[1..];
    }
  }

  /** The resulting environment is the old one overridden by the entries. */
  lemma {:induction false} InjectionOverrides(env: seq<EnvVar>, entries: seq<(string, string)>, name: string)
    ensures Lookup(UpsertAll(env, entries), name) ==
      if Given(entries, name).Some? then Some(EnvVar(name, Given(entries, name), None)) else Lookup(env, name)
    decreases |entries|
  {
    if entries != [] {
      InjectionOverrides(Upserted(env, entries[0].0, entries[0].1), entries[1..], name);
      UpsertedLookup(env, entries[0].0, entries[0].1, name);
    }
  }

  lemma UpsertedDistinct(env: seq<EnvVar>, name: string, value: string)
    requires DistinctEnv(env)
    ensures DistinctEnv(Upserted(env, name, value))
  {
    UpsertedKeeps(env, name, value);
  }

  /** Names stay distinct, prior entries keep their order, entries not overridden are untouched. */
  lemma {:induction false} InjectionKeeps(env: seq<EnvVar>, entries: seq<(string, string)>)
    ensures DistinctEnv(env) ==> DistinctEnv(UpsertAll(env, entries))
    ensures |env| <= |UpsertAll(env, entries)|
    ensures forall i :: 0 <= i < |env| ==> UpsertAll(env, entries)[i].name == env[i].name
    ensures forall i :: 0 <= i < |env| && Given(entries, env[i].name).None? ==> UpsertAll(env, entries)[i] == env[i]
    decreases |entries|
  {
    if entries != [] {
      var next := Upserted(env, entries[0].0, entries[0].1);
      var after := UpsertAll(next, entries[1..]);
      UpsertedKeeps(env, entries[0].0, entries[0].1);
      if DistinctEnv(env) { UpsertedDistinct(env, entries[0].0, entries[0].1); }
      InjectionKeeps(next, entries[1..]);
      forall i | 0 <= i < |env| ensures after[i].name == env[i].name {
        assert next[i].name == env[i].name;
      }
      forall i | 0 <= i < |env| && Given(entries, env[i].name).None? ensures after[i] == env[i] {
        assert next[i] == env[i];
      }
    }
  }

  lemma {:induction false} UpsertedAgain(env: seq<EnvVar>, name: string, value: string)
    requires Lookup(env, name) == Some(EnvVar(name, Some(value), None))
    ensures Upserted(env, name, value) == env
  {
    if env[0].name != name { UpsertedAgain(env[1..], name, value); }
    assert env == [env[0]] + env[1..];
  }

  lemma {:induction false} UpsertAllAgain(env: seq<EnvVar>, entries: seq<(string, string)>)
    requires forall e :: e in entries ==> Lookup(env, e.0) == Some(EnvVar(e.0, Some(e.1), None))
    ensures UpsertAll(env, entries) == env
    decreases |entries|
  {
    if entries != [] {
      assert entries[0] in entries;
      UpsertedAgain(env, entries[0].0, entries[0].1);
      UpsertAllAgain(env, entries[1..]);
    }
  }

  lemma {:induction false} GivenDistinct(entries: seq<(string, string)>, e: (string, string))
    requires DistinctKeys(entries) && e in entries
    ensures Given(entries, e.0) == Some(e.1)
  {
    if entries[0] == e {
      GivenMeans(entries[1..], e.0);
      forall d | d in entries[1..] ensures d.0 != e.0 { var j :| 1 <= j < |entries| && entries[j] == d; }
    } else {
      assert entries == [entries[0]] + entries[1..];
      GivenDistinct(entries[1..], e);
    }
  }

  /** Injecting twice is injecting once. */
  lemma InjectionIdempotent(env: seq<EnvVar>, entries: seq<(string, string)>)
    requires DistinctKeys(entries)
    ensures UpsertAll(UpsertAll(env, entries), entries) == UpsertAll(env, entries)
  {
    forall e | e in entries ensures Lookup(UpsertAll(env, entries), e.0) == Some(EnvVar(e.0, Some(e.1), None)) {
      InjectionOverrides(env, entries, e.0);
      GivenDistinct(entries, e);
    }
    UpsertAllAgain(UpsertAll(env, entries), entries);
  }

  lemma AwsKeysDistinct(aws: AwsProviderSpec)
    ensures DistinctKeys(AwsEntries(aws))
  {
    assert |ROLE_ARN| == 12 && |WEB_IDENTITY| == 27 && |REGION| == 10;
    assert |DEFAULT_REGION| == 18 && |STS_ENDPOINTS| == 26;
  }

  lemma ContainerIdempotent(c: Container, aws: AwsProviderSpec)
    ensures Injected(Injected(c, aws), aws) == Injected(c, aws)
  {
    AwsKeysDistinct(aws);
    InjectionIdempotent(Or(c.env), AwsEntries(aws));
    assert AWS_MOUNT in MountAws(Or(c.mounts)) || HasMount(Or(c.mounts), AWS);
  }

  // ---------- When a name occurs twice ----------

  function Occurrences(env: seq<EnvVar>, name: string): nat {
    if env == [] then 0 else (if env[0].name == name then 1 else 0) + Occurrences(env[1..], name)
  }

  lemma {:induction false} EffectiveExists(env: seq<EnvVar>, name: string)
    ensures Effective(env, name).Some? <==> Occurrences(env, name) > 0
    ensures Occurrences(env, name) == 1 ==> Effective(env, name) == Lookup(env, name)
  {
    if env != [] { EffectiveExists(env[1..], name); }
  }

  /** This is the value that counts. */
  predicate Sets(env: seq<EnvVar>, name: string, value: string) {
    Effective(env, name) == Some(EnvVar(name, Some(value), None))
  }

  /** Writing this value is enough to make it count. */
  predicate TakesEffect(env: seq<EnvVar>, name: string, value: string) {
    Occurrences(env, name) <= 1 || Sets(env, name, value)
  }

  /** What counts afterwards is the value written if the name occurred at most once, and otherwise
      still the last occurrence: only the first one is rewritten. */
  lemma {:induction false} RewritesFirstOnly(env: seq<EnvVar>, name: string, value: string)
    ensures Effective(Upserted(env, name, value), name) ==
      if Occurrences(env, name) <= 1 then Some(EnvVar(name, Some(value), None)) else Effective(env, name)
    ensures Sets(Upserted(env, name, value), name, value) <==> TakesEffect(env, name, value)
  {
    if env != [] {
      EffectiveExists(env[1..], name);
      if env[0].name == name {
        assert ([EnvVar(name, Some(value), None)] + env[1..])[1..] == env[1..];
      } else {
        RewritesFirstOnly(env[1..], name, value);
        assert ([env[0]] + Upserted(env[1..], name, value))[1..] == Upserted(env[1..], name, value);
        UpsertedOccurs(env[1..], name, value);
        EffectiveExists(Upserted(env[1..], name, value), name);
      }
    }
  }

  lemma {:induction false} UpsertedOccurs(env: seq<EnvVar>, name: string, value: string)
    ensures Occurrences(Upserted(env, name, value), name) >= 1
  {
    if env != [] && env[0].name != name { UpsertedOccurs(env[1..], name, value); }
  }

  /** Other names do not notice. */
  lemma {:induction false} UpsertedOther(env: seq<EnvVar>, name: string, value: string, other: string)
    requires other != name
    ensures Effective(Upserted(env, name, value), other) == Effective(env, other)
    ensures Occurrences(Upserted(env, name, value), other) == Occurrences(env, other)
  {
    if env != [] {
      if env[0].name == name {
        assert ([EnvVar(name, Some(value), None)] + env[1..])[1..] == env[1..];
      } else {
        UpsertedOther(env[1..], name, value, other);
        assert ([env[0]] + Upserted(env[1..], name, value))[1..] == Upserted(env[1..], name, value);
      }
    }
  }

  lemma {:induction false} UpsertAllOther(env: seq<EnvVar>, entries: seq<(string, string)>, other: string)
    requires forall e :: e in entries ==> e.0 != other
    ensures Effective(UpsertAll(env, entries), other) == Effective(env, other)
    decreases |entries|
  {
    if entries != [] {
      assert entries[0] in entries;
      UpsertedOther(env, entries[0].0, entries[0].1, other);
      UpsertAllOther(Upserted(env, entries[0].0, entries[0].1), entries[1..], other);
    }
  }

  /** The same for each of a whole list of entries. */
  lemma {:induction false} EntriesTakeEffect(env: seq<EnvVar>, entries: seq<(string, string)>, e: (string, string))
    requires DistinctKeys(entries) && e in entries
    ensures Effective(UpsertAll(env, entries), e.0) ==
      if Occurrences(env, e.0) <= 1 then Some(EnvVar(e.0, Some(e.1), None)) else Effective(env, e.0)
    ensures Sets(UpsertAll(env, entries), e.0, e.1) <==> TakesEffect(env, e.0, e.1)
    decreases |entries|
  {
    var next := Upserted(env, entries[0].0, entries[0].1);
    assert entries == [entries[0]] + entries[1..];
    if entries[0] == e {
      forall d | d in entries[1..] ensures d.0 != e.0 { var j :| 1 <= j < |entries| && entries[j] == d; }
      UpsertAllOther(next, entries[1..], e.0);
      RewritesFirstOnly(env, e.0, e.1);
    } else {
      var j :| 1 <= j < |entries| && entries[j] == e;
      UpsertedOther(env, entries[0].0, entries[0].1, e.0);
      EntriesTakeEffect(next, entries[1..], e);
    }
  }

  /** So for what is injected into a container: a variable of the pod's own that is given twice keeps
      its last value. */
  lemma InjectionTakesEffect(c: Container, aws: AwsProviderSpec, e: (string, string))
    requires e in AwsEntries(aws)
    ensures Effective(Or(Injected(c, aws).env), e.0) ==
      if Occurrences(Or(c.env), e.0) <= 1 then Some(EnvVar(e.0, Some(e.1), None)) else Effective(Or(c.env), e.0)
    ensures Sets(Or(Injected(c, aws).env), e.0, e.1) <==> TakesEffect(Or(c.env), e.0, e.1)
  {
    AwsKeysDistinct(aws);
    EntriesTakeEffect(Or(c.env), AwsEntries(aws), e);
  }

  /** With distinct names every entry takes effect. */
  lemma {:induction false} DistinctTakesEffect(env: seq<EnvVar>, name: string, value: string)
    requires DistinctEnv(env)
    ensures TakesEffect(env, name, value)
  {
    AtMostOnce(env, name);
  }

  lemma {:induction false} AtMostOnce(env: seq<EnvVar>, name: string)
    requires DistinctEnv(env)
    ensures Occurrences(env, name) <= 1
    ensures Occurrences(env, name) == 1 ==> exists i :: 0 <= i < |env| && env[i].name == name
  {
    if env != [] {
      AtMostOnce(env[1..], name);
      if Occurrences(env[1..], name) == 1 {
        var i :| 0 <= i < |env[1..]| && env[1..][i].name == name;
        assert env[i + 1].name == name;
      }
    }
  }

  // ---------- Pods ----------

  predicate DistinctVolumes(vs: seq<Volume>) {
    forall i, j :: 0 <= i < j < |vs| ==> vs[i].name != vs[j].name
  }

  predicate MountsResolved(c: Container, vs: seq<Volume>) {
    forall m :: m in Or(c.mounts) ==> HasVolume(vs, m.name)
  }

  predicate UsesPath(ms: seq<Mount>, path: string) {
    exists m :: m in ms && m.path == path
  }

  /** Kubernetes refuses a container that mounts two volumes at one path. */
  predicate DistinctPaths(ms: seq<Mount>) {
    forall i, j :: 0 <= i < j < |ms| ==> ms[i].path != ms[j].path
  }

  /** The token's volume is mounted in its place, and nothing else is. */
  predicate TokenMounted(ms: seq<Mount>) {
    exists i :: 0 <= i < |ms| && ms[i].name == AWS && ms[i].path == AWS_DIR
      && forall j :: 0 <= j < |ms| && j != i ==> ms[j].path != AWS_DIR
  }

  /** The container finds the token where its environment says. */
  predicate SeesToken(c: Container) {
    Sets(Or(c.env), WEB_IDENTITY, TOKEN_FILE) && TokenMounted(Or(c.mounts))
  }

  ghost predicate WellFormed(p: PodSpec) {
    && DistinctVolumes(Or(p.volumes))
    && (forall c :: c in p.containers || c in Or(p.inits) ==> MountsResolved(c, Or(p.volumes)))
  }

  /** Nothing in the pod uses the names the webhook claims, or the path of the token. */
  ghost predicate Unclaimed(p: PodSpec) {
    && (p.volumes.Some? ==> forall v :: v in p.volumes.value ==> v.name != "kif-sa-token" && v.name != "kif-aws")
    && (forall c :: c in p.containers || (p.inits.Some? && c in p.inits.value) ==> UnclaimedContainer(c))
  }

  predicate UnclaimedContainer(c: Container) {
    && c.name != "kif-agent"
    && (c.mounts.Some? ==> forall m :: m in c.mounts.value ==> m.name != "kif-aws" && m.path != "/var/run/kif/aws")
  }

  lemma WithVolumeKeeps(vs: seq<Volume>, v: Volume)
    ensures HasVolume(WithVolume(vs, v), v.name)
    ensures forall n :: HasVolume(vs, n) ==> HasVolume(WithVolume(vs, v), n)
    ensures DistinctVolumes(vs) ==> DistinctVolumes(WithVolume(vs, v))
    ensures vs <= WithVolume(vs, v)
  {
    var r := WithVolume(vs, v);
    if !HasVolume(vs, v.name) { assert v in r; }
    forall n | HasVolume(vs, n) ensures HasVolume(r, n) {
      var x :| x in vs && x.name == n;
      assert x in r;
    }
  }

  lemma InjectedMounts(c: Container, aws: AwsProviderSpec, vs: seq<Volume>)
    requires HasVolume(vs, AWS) && MountsResolved(c, vs)
    ensures MountsResolved(Injected(c, aws), vs)
  {
  }

  /** Mounting the token is enough to have it, and nothing else, at its place. */
  predicate RoomForMount(ms: seq<Mount>) {
    if HasMount(ms, AWS) then TokenMounted(ms) else !UsesPath(ms, AWS_DIR)
  }

  lemma MountedExactly(ms: seq<Mount>)
    ensures TokenMounted(MountAws(ms)) <==> RoomForMount(ms)
    ensures DistinctPaths(MountAws(ms)) <==> DistinctPaths(ms) && (HasMount(ms, AWS) || !UsesPath(ms, AWS_DIR))
  {
    var r := MountAws(ms);
    if !HasMount(ms, AWS) {
      assert r[|ms|] == AWS_MOUNT;
      forall i | 0 <= i < |ms| ensures r[i] == ms[i] && r[i].name != AWS { assert ms[i] in ms; }
      if !UsesPath(ms, AWS_DIR) {
        forall i | 0 <= i < |ms| ensures r[i].path != AWS_DIR { assert ms[i] in ms; }
      } else {
        var m :| m in ms && m.path == AWS_DIR;
        var i :| 0 <= i < |ms| && ms[i] == m;
        assert r[i].path == r[|ms|].path;
      }
    }
  }

  /** The token is where the environment points exactly when the container used neither the name of
      the mount nor its path, or had that very mount there and no other; and gave the variable at
      most once, or last with that value. */
  lemma InjectedSeesToken(c: Container, aws: AwsProviderSpec)
    ensures SeesToken(Injected(c, aws)) <==>
      RoomForMount(Or(c.mounts)) && TakesEffect(Or(c.env), WEB_IDENTITY, TOKEN_FILE)
  {
    MountedExactly(Or(c.mounts));
    assert AwsEntries(aws)[1] == (WEB_IDENTITY, TOKEN_FILE);
    InjectionTakesEffect(c, aws, (WEB_IDENTITY, TOKEN_FILE));
  }

  /** The container runs with the role exactly when it gave the variable at most once, or last with
      that role. */
  lemma RoleInjected(c: Container, aws: AwsProviderSpec)
    ensures Sets(Or(Injected(c, aws).env), ROLE_ARN, aws.roleArn) <==> TakesEffect(Or(c.env), ROLE_ARN, aws.roleArn)
  {
    assert AwsEntries(aws)[0] == (ROLE_ARN, aws.roleArn);
    InjectionTakesEffect(c, aws, (ROLE_ARN, aws.roleArn));
  }

  lemma MutatedVolumes(p: PodSpec, a: AgentConfig, aws: AwsProviderSpec)
    ensures var vs := Or(Mutated(p, a, aws).volumes);
      && (forall n :: HasVolume(Or(p.volumes), n) ==> HasVolume(vs, n)) && HasVolume(vs, SA_TOKEN) && HasVolume(vs, AWS)
      && (DistinctVolumes(Or(p.volumes)) ==> DistinctVolumes(vs)) && Or(p.volumes) <= vs
  {
    WithVolumeKeeps(Or(p.volumes), TOKEN_VOLUME);
    WithVolumeKeeps(WithVolume(Or(p.volumes), TOKEN_VOLUME), AWS_VOLUME);
  }

  /** The containers of the result: the agent, and the old ones with or without injection. */
  lemma MutatedFrom(p: PodSpec, a: AgentConfig, aws: AwsProviderSpec, c: Container)
    requires c in Mutated(p, a, aws).containers || c in Or(Mutated(p, a, aws).inits)
    ensures c == AgentContainer(a) || exists d ::
      (d in p.containers || d in Or(p.inits)) && (c == d || c == Injected(d, aws))
  {
    var q := Mutated(p, a, aws);
    if c in q.containers {
      var i :| 0 <= i < |q.containers| && q.containers[i] == c;
      assert p.containers[i] in p.containers;
    } else {
      var i :| 0 <= i < |Or(q.inits)| && Or(q.inits)[i] == c;
      if i > 0 { assert Or(p.inits)[i - 1] in Or(p.inits); }
    }
  }

  lemma MutatedMounts(p: PodSpec, a: AgentConfig, aws: AwsProviderSpec, c: Container, vs: seq<Volume>)
    requires c in Mutated(p, a, aws).containers || c in Or(Mutated(p, a, aws).inits)
    requires forall d :: d in p.containers || d in Or(p.inits) ==> MountsResolved(d, vs)
    requires HasVolume(vs, SA_TOKEN) && HasVolume(vs, AWS)
    ensures MountsResolved(c, vs)
  {
    MutatedFrom(p, a, aws, c);
    if c != AgentContainer(a) {
      var d :| (d in p.containers || d in Or(p.inits)) && (c == d || c == Injected(d, aws));
      InjectedMounts(d, aws, vs);
    }
  }

  /** Volumes grow at the end, their names stay distinct, every mount still names a volume, and the
      webhook's own mounts do too. */
  lemma MutationWellFormed(p: PodSpec, a: AgentConfig, aws: AwsProviderSpec)
    requires WellFormed(p)
    ensures WellFormed(Mutated(p, a, aws)) && Or(p.volumes) <= Or(Mutated(p, a, aws).volumes)
  {
    var q := Mutated(p, a, aws);
    MutatedVolumes(p, a, aws);
    forall c | c in q.containers || c in Or(q.inits) ensures MountsResolved(c, Or(q.volumes)) {
      MutatedMounts(p, a, aws, c, Or(q.volumes));
    }
  }

  lemma SeesTokenUnlessClaimed(c: Container, aws: AwsProviderSpec)
    requires !HasMount(Or(c.mounts), AWS) && !UsesPath(Or(c.mounts), AWS_DIR)
    ensures Reached(c, aws, Injected(c, aws))
  {
    InjectedSeesToken(c, aws);
    RoleInjected(c, aws);
    if DistinctEnv(Or(c.env)) {
      DistinctTakesEffect(Or(c.env), WEB_IDENTITY, TOKEN_FILE);
      DistinctTakesEffect(Or(c.env), ROLE_ARN, aws.roleArn);
    }
  }

  /** Every original container is there, in order, injected; it finds the token and has the role
      exactly if its own variables leave them be, as they do when their names are distinct; and the
      agent comes first, so that a second admission finds it. */
  lemma MutationReaches(p: PodSpec, a: AgentConfig, aws: AwsProviderSpec)
    requires Unclaimed(p)
    ensures var q := Mutated(p, a, aws);
      && EachInjected(p.containers, aws, q.containers)
      && Or(q.inits) != [] && Or(q.inits)[0] == AgentContainer(a) && EachInjected(Or(p.inits), aws, Or(q.inits)[1..])
      && HasContainer(Or(q.inits), AGENT)
  {
    var q := Mutated(p, a, aws);
    assert Or(q.inits)[1..] == InjectedInits(Or(p.inits), aws);
    assert Or(q.inits)[0] in Or(q.inits);
    forall i | 0 <= i < |p.containers| ensures Reached(p.containers[i], aws, q.containers[i]) {
      assert p.containers[i] in p.containers;
      SeesTokenUnlessClaimed(p.containers[i], aws);
    }
    forall i | 0 <= i < |Or(p.inits)| ensures Reached(Or(p.inits)[i], aws, Or(q.inits)[1..][i]) {
      assert Or(p.inits)[i] in Or(p.inits);
      SeesTokenUnlessClaimed(Or(p.inits)[i], aws);
    }
  }

  // ---------- Mount paths ----------

  ghost predicate PathsDistinct(p: PodSpec) {
    forall c :: c in p.containers || c in Or(p.inits) ==> DistinctPaths(Or(c.mounts))
  }

  /** Injecting into the container puts no second volume at the token's path. */
  predicate RoomForToken(c: Container) {
    HasMount(Or(c.mounts), AWS) || !UsesPath(Or(c.mounts), AWS_DIR)
  }

  /** The mutated pod has distinct mount paths, as Kubernetes demands, exactly when the pod had, and no
      container that is injected mounts a volume of another name where the token goes. */
  lemma PathsStayDistinct(p: PodSpec, a: AgentConfig, aws: AwsProviderSpec)
    ensures PathsDistinct(Mutated(p, a, aws)) <==>
      && PathsDistinct(p)
      && (forall c :: c in p.containers || (c in Or(p.inits) && c.name != AGENT) ==> RoomForToken(c))
  {
    var q := Mutated(p, a, aws);
    if PathsDistinct(p) && forall c :: c in p.containers || (c in Or(p.inits) && c.name != AGENT) ==> RoomForToken(c) {
      forall c | c in q.containers || c in Or(q.inits) ensures DistinctPaths(Or(c.mounts)) { PathsAfter(p, a, aws, c); }
    }
    if PathsDistinct(q) {
      forall c | c in p.containers || c in Or(p.inits)
        ensures DistinctPaths(Or(c.mounts)) && (c in p.containers || c.name != AGENT ==> RoomForToken(c))
      {
        PathsBefore(p, a, aws, c);
      }
    }
  }

  lemma AgentPaths(a: AgentConfig)
    ensures DistinctPaths(Or(AgentContainer(a).mounts))
  {
    assert |AWS_DIR| != |SA_DIR|;
  }

  /** An injected container, */
  lemma PathsInjected(d: Container, aws: AwsProviderSpec)
    requires DistinctPaths(Or(d.mounts)) && RoomForToken(d)
    ensures DistinctPaths(Or(Injected(d, aws).mounts))
  {
    MountedExactly(Or(d.mounts));
  }

  /** an injected or skipped one among the init containers, */
  lemma PathsOfInit(ds: seq<Container>, aws: AwsProviderSpec, i: nat)
    requires i < |ds| && DistinctPaths(Or(ds[i].mounts)) && (ds[i].name != AGENT ==> RoomForToken(ds[i]))
    ensures DistinctPaths(Or(InjectedInits(ds, aws)[i].mounts))
  {
    if ds[i].name != AGENT { PathsInjected(ds[i], aws); }
  }

  /** and any container of the mutated pod. */
  lemma PathsAfter(p: PodSpec, a: AgentConfig, aws: AwsProviderSpec, c: Container)
    requires PathsDistinct(p)
    requires forall d :: d in p.containers || (d in Or(p.inits) && d.name != AGENT) ==> RoomForToken(d)
    requires c in InjectedAll(p.containers, aws) || c in [AgentContainer(a)] + InjectedInits(Or(p.inits), aws)
    ensures DistinctPaths(Or(c.mounts))
  {
    if c in InjectedAll(p.containers, aws) {
      var i :| 0 <= i < |p.containers| && InjectedAll(p.containers, aws)[i] == c;
      assert p.containers[i] in p.containers;
      PathsInjected(p.containers[i], aws);
    } else if c == AgentContainer(a) {
      AgentPaths(a);
    } else {
      var i :| 0 <= i < |Or(p.inits)| && InjectedInits(Or(p.inits), aws)[i] == c;
      assert Or(p.inits)[i] in Or(p.inits);
      PathsOfInit(Or(p.inits), aws, i);
    }
  }

  lemma PathsBeforeMain(ds: seq<Container>, aws: AwsProviderSpec, i: nat)
    requires i < |ds| && forall c :: c in InjectedAll(ds, aws) ==> DistinctPaths(Or(c.mounts))
    ensures DistinctPaths(Or(ds[i].mounts)) && RoomForToken(ds[i])
  {
    assert InjectedAll(ds, aws)[i] in InjectedAll(ds, aws);
    PathsOfInjected(ds[i], aws);
  }

  lemma PathsBeforeInit(ds: seq<Container>, aws: AwsProviderSpec, i: nat)
    requires i < |ds| && forall c :: c in InjectedInits(ds, aws) ==> DistinctPaths(Or(c.mounts))
    ensures DistinctPaths(Or(ds[i].mounts)) && (ds[i].name != AGENT ==> RoomForToken(ds[i]))
  {
    assert InjectedInits(ds, aws)[i] in InjectedInits(ds, aws);
    if ds[i].name != AGENT { PathsOfInjected(ds[i], aws); }
  }

  lemma PathsBefore(p: PodSpec, a: AgentConfig, aws: AwsProviderSpec, c: Container)
    requires PathsDistinct(Mutated(p, a, aws)) && (c in p.containers || c in Or(p.inits))
    ensures DistinctPaths(Or(c.mounts))
    ensures c in p.containers || c.name != AGENT ==> RoomForToken(c)
  {
    if c in p.containers {
      var i :| 0 <= i < |p.containers| && p.containers[i] == c;
      PathsBeforeMain(p.containers, aws, i);
    } else {
      var i :| 0 <= i < |Or(p.inits)| && Or(p.inits)[i] == c;
      PathsBeforeInit(Or(p.inits), aws, i);
    }
  }

  lemma PathsOfInjected(c: Container, aws: AwsProviderSpec)
    requires DistinctPaths(Or(Injected(c, aws).mounts))
    ensures DistinctPaths(Or(c.mounts)) && RoomForToken(c)
  {
    MountedExactly(Or(c.mounts));
  }

  predicate Reached(before: Container, aws: AwsProviderSpec, c: Container) {
    && c == Injected(before, aws)
    && (SeesToken(c) <==> TakesEffect(Or(before.env), WEB_IDENTITY, TOKEN_FILE))
    && (Sets(Or(c.env), ROLE_ARN, aws.roleArn) <==> TakesEffect(Or(before.env), ROLE_ARN, aws.roleArn))
    && (DistinctEnv(Or(before.env)) ==> SeesToken(c) && Sets(Or(c.env), ROLE_ARN, aws.roleArn))
  }

  predicate EachInjected(before: seq<Container>, aws: AwsProviderSpec, cs: seq<Container>) {
    |cs| == |before| && forall i :: 0 <= i < |cs| ==> Reached(before[i], aws, cs[i])
  }
}
