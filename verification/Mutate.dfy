/** The in-place edits of a pod (app/crates/kif-webhook/src/mutate.rs), against `Injection`. */
module Mutate {
  import opened Crds
  import opened Injection

  datatype PatchError = SpecMissing | RoleBlank

  lemma UpsertedSplit(env: seq<EnvVar>, name: string, value: string, i: nat)
    requires i <= |env| && forall j :: 0 <= j < i ==> env[j].name != name
    ensures Upserted(env, name, value) == env[..i] + Upserted(env[i..], name, value)
  {
    if i == 0 {
      assert env[..0] == [] && env[0..] == env;
    } else {
      UpsertedSplit(env[1..], name, value, i - 1);
      assert env[1..][..i - 1] == env[1..i] && env[1..][i - 1..] == env[i..] && env[..i] == [env[0]] + env[1..i];
    }
  }

  class ContainerObject {
    const name: string
    const rest: Rest
    var env: Option<seq<EnvVar>>
    var mounts: Option<seq<Mount>>

    constructor (c: Container)
      ensures View() == c
    {
      name, rest, env, mounts := c.name, c.rest, c.env, c.mounts;
    }

    function View(): Container
      reads this
    {
      Container(name, env, mounts, rest)
    }

    /** `upsert_env`. */
    method UpsertEnv(key: string, value: string)
      requires env.Some?
      modifies this`env
      ensures env == Some(Upserted(old(env).value, key, value))
    {
      var list := env.value;
      var i := 0;
      while i < |list| && list[i].name != key
        invariant 0 <= i <= |list| && forall j :: 0 <= j < i ==> list[j].name != key
      {
        i := i + 1;
      }
      UpsertedSplit(list, key, value, i);
      if i < |list| {
        assert list[i..][1..] == list[i + 1..];
        assert list[i := EnvVar(key, Some(value), None)] ==
          list[..i] + ([EnvVar(key, Some(value), None)] + list[i + 1..]);
        env := Some(list[i := list[i].(value := Some(value), valueFrom := None)]);
      } else {
        assert list[..i] == list && list[i..] == [];
        env := Some(list + [EnvVar(key, Some(value), None)]);
      }
    }

    method UpsertAwsEnv(aws: AwsProviderSpec)
      requires env.Some?
      modifies this`env
      ensures env == Some(UpsertAll(old(env).value, AwsEntries(aws)))
    {
      ghost var e0 := env.value;
      UpsertEnv(ROLE_ARN, aws.roleArn);
      UpsertEnv(WEB_IDENTITY, TOKEN_FILE);
      UpsertTwo(e0, (ROLE_ARN, aws.roleArn), (WEB_IDENTITY, TOKEN_FILE));
      ghost var e1 := env.value;
      if aws.region.Some? {
        UpsertEnv(REGION, aws.region.value);
        UpsertEnv(DEFAULT_REGION, aws.region.value);
        UpsertTwo(e1, (REGION, aws.region.value), (DEFAULT_REGION, aws.region.value));
      }
      ghost var e2 := env.value;
      if aws.stsRegionalEndpoints {
        UpsertEnv(STS_ENDPOINTS, "regional");
        UpsertTwo(e2, (STS_ENDPOINTS, "regional"), (STS_ENDPOINTS, "regional"));
      }
      UpsertAppend(e0, BaseEntries(aws) + RegionEntries(aws), StsEntries(aws));
      UpsertAppend(e0, BaseEntries(aws), RegionEntries(aws));
    }

    /** `inject_aws_into_app_container`. */
    method InjectAws(aws: AwsProviderSpec) returns (ok: bool)
      modifies this
      ensures ok == !Blank(aws.roleArn)
      ensures View() == if ok then Injected(old(View()), aws) else old(View())
    {
      if Blank(aws.roleArn) {
        return false;
      }
      if env.None? { env := Some([]); }
      if mounts.None? { mounts := Some([]); }
      if !(exists m :: m in mounts.value && m.name == AWS) {
        mounts := Some(mounts.value + [AWS_MOUNT]);
      }
      UpsertAwsEnv(aws);
      ok := true;
    }
  }

  function Views(cs: seq<ContainerObject>): (r: seq<Container>)
    reads cs
    ensures |r| == |cs| && forall i :: 0 <= i < |r| ==> r[i] == cs[i].View()
  {
    if cs == [] then [] else [cs[0].View()] + Views(cs[1..])
  }

  predicate DistinctObjects(cs: seq<ContainerObject>) {
    forall i, j :: 0 <= i < j < |cs| ==> cs[i] != cs[j]
  }

  class PodObject {
    var automount: Option<bool>
    var volumes: Option<seq<Volume>>
    var inits: Option<seq<ContainerObject>>
    var containers: seq<ContainerObject>
    const serviceAccountName: Option<string>

    constructor (automount: Option<bool>, volumes: Option<seq<Volume>>, inits: Option<seq<ContainerObject>>,
                 containers: seq<ContainerObject>, serviceAccountName: Option<string>)
      ensures this.automount == automount && this.volumes == volumes && this.inits == inits
      ensures this.containers == containers && this.serviceAccountName == serviceAccountName
    {
      this.automount, this.volumes, this.inits := automount, volumes, inits;
      this.containers, this.serviceAccountName := containers, serviceAccountName;
    }

    function Inits(): seq<ContainerObject>
      reads this
    {
      if inits.Some? then inits.value else []
    }

    /** Each container is an object of its own. */
    predicate Valid()
      reads this
    {
      DistinctObjects(Inits() + containers)
    }

    function View(): PodSpec
      reads this, Inits(), containers
    {
      PodSpec(automount, volumes, if inits.Some? then Some(Views(inits.value)) else None,
              Views(containers), serviceAccountName)
    }

    /** `ensure_sa_projected_token_volume` and `ensure_aws_emptydir_volume`. */
    method EnsureVolume(v: Volume)
      requires volumes.Some?
      modifies this`volumes
      ensures volumes == Some(WithVolume(old(volumes).value, v))
    {
      if exists w :: w in volumes.value && w.name == v.name {
        return;
      }
      volumes := Some(volumes.value + [v]);
    }
  }

  /** An object of its own for each container. */
  method Objects(cs: seq<Container>) returns (os: seq<ContainerObject>)
    ensures fresh(os) && DistinctObjects(os) && Views(os) == cs
  {
    os := [];
    while |os| < |cs|
      invariant |os| <= |cs| && fresh(os) && DistinctObjects(os)
      invariant forall i :: 0 <= i < |os| ==> os[i].View() == cs[i]
      decreases |cs| - |os|
    {
      var o := new ContainerObject(cs[|os|]);
      os := os + [o];
    }
  }

  method InitsAndContainers(p: PodSpec) returns (inits: Option<seq<ContainerObject>>, containers: seq<ContainerObject>)
    ensures fresh(containers) && Views(containers) == p.containers
    ensures inits.Some? <==> p.inits.Some?
    ensures inits.Some? ==> fresh(inits.value) && Views(inits.value) == p.inits.value
    ensures DistinctObjects(Or(inits) + containers)
  {
    inits := None;
    if p.inits.Some? {
      var os := Objects(p.inits.value);
      inits := Some(os);
    }
    label before:
    containers := Objects(p.containers);
    assert forall i :: 0 <= i < |containers| ==> fresh@before(containers[i]);
    assert forall i :: 0 <= i < |Or(inits)| ==> !fresh@before(Or(inits)[i]);
  }

  /** A copy of a pod that can be edited. */
  method Load(p: PodSpec) returns (pod: PodObject)
    ensures fresh(pod) && fresh(pod.Inits()) && fresh(pod.containers) && pod.Valid() && pod.View() == p
  {
    var inits, containers := InitsAndContainers(p);
    pod := new PodObject(p.automount, p.volumes, inits, containers, p.serviceAccountName);
    assert pod.Inits() == Or(inits);
  }

  /** All containers are agents to be skipped. */
  predicate NothingToInject(cs: seq<ContainerObject>, skip: bool) {
    if skip then forall i :: 0 <= i < |cs| ==> cs[i].name == AGENT else cs == []
  }

  function After(c: Container, aws: AwsProviderSpec, skip: bool): Container {
    if skip && c.name == AGENT then c else Injected(c, aws)
  }

  /** A loop that injects into containers, but for agents if `skip`, and stops at the first error. */
  method InjectEach(cs: seq<ContainerObject>, aws: AwsProviderSpec, skip: bool) returns (ok: bool)
    requires DistinctObjects(cs)
    modifies cs
    ensures ok <==> !Blank(aws.roleArn) || NothingToInject(cs, skip)
    ensures ok ==> forall i :: 0 <= i < |cs| ==> cs[i].View() == After(old(cs[i].View()), aws, skip)
  {
    var i := 0;
    while i < |cs|
      invariant 0 <= i <= |cs|
      invariant Blank(aws.roleArn) ==> if skip then forall j :: 0 <= j < i ==> cs[j].name == AGENT else i == 0
      invariant forall j :: 0 <= j < i ==> cs[j].View() == After(old(cs[j].View()), aws, skip)
      invariant forall j :: i <= j < |cs| ==> cs[j].View() == old(cs[j].View())
    {
      if !(skip && cs[i].name == AGENT) {
        ok := cs[i].InjectAws(aws);
        if !ok {
          assert !NothingToInject(cs, skip);
          return;
        }
      }
      i := i + 1;
    }
    assert Blank(aws.roleArn) ==> NothingToInject(cs, skip);
    ok := true;
  }

  lemma ViewsCons(c: ContainerObject, cs: seq<ContainerObject>)
    ensures Views([c] + cs) == [c.View()] + Views(cs)
  {
    assert ([c] + cs)[1..] == cs;
  }

  /** The edits of the pod's own fields: no default token, and the two volumes. */
  method AddVolumes(pod: PodObject)
    requires pod.Valid()
    modifies pod`automount, pod`volumes
    ensures pod.Valid() && pod.View() == old(pod.View()).(automount := Some(false),
      volumes := Some(WithVolume(WithVolume(Or(old(pod.volumes)), TOKEN_VOLUME), AWS_VOLUME)))
  {
    pod.automount := Some(false);
    if pod.volumes.None? { pod.volumes := Some([]); }
    pod.EnsureVolume(TOKEN_VOLUME);
    pod.EnsureVolume(AWS_VOLUME);
  }

  /** The agent goes in front of the init containers. */
  method AddAgent(pod: PodObject, a: AgentConfig)
    requires pod.Valid()
    modifies pod`inits
    ensures pod.Valid() && pod.inits.Some? && pod.inits.value != [] && pod.inits.value[1..] == old(pod.Inits())
    ensures fresh(pod.inits.value[0]) && pod.inits.value[0].View() == AgentContainer(a)
  {
    var agent := new ContainerObject(AgentContainer(a));
    var inits := if pod.inits.Some? then pod.inits.value else [];
    ghost var others := inits + pod.containers;
    pod.inits := Some([agent] + inits);
    assert pod.Inits() + pod.containers == [agent] + others;
  }

  /** The same, beside other containers. */
  method InjectBeside(cs: seq<ContainerObject>, ghost others: seq<ContainerObject>, aws: AwsProviderSpec, skip: bool)
    returns (ok: bool)
    requires DistinctObjects(cs) && forall i :: 0 <= i < |others| ==> others[i] !in cs
    modifies cs
    ensures ok <==> !Blank(aws.roleArn) || NothingToInject(cs, skip)
    ensures ok ==> Views(cs) == (if skip then InjectedInits(old(Views(cs)), aws) else InjectedAll(old(Views(cs)), aws))
    ensures Views(others) == old(Views(others))
  {
    ok := InjectEach(cs, aws, skip);
  }

  /** In the init containers, agents are passed over. */
  method InjectInits(pod: PodObject, aws: AwsProviderSpec) returns (ok: bool)
    requires pod.Valid() && pod.inits.Some?
    modifies pod.inits.value
    ensures unchanged(pod)
    ensures ok <==> !Blank(aws.roleArn) || NothingToInject(pod.inits.value, true)
    ensures ok ==> Views(pod.inits.value) == InjectedInits(old(Views(pod.inits.value)), aws)
    ensures Views(pod.containers) == old(Views(pod.containers))
  {
    var inits := pod.inits.value;
    ghost var cs := pod.containers;
    assert forall i :: 0 <= i < |inits| ==> inits[i] == (inits + cs)[i];
    assert forall i :: 0 <= i < |cs| ==> cs[i] == (inits + cs)[|inits| + i];
    ok := InjectBeside(inits, cs, aws, true);
  }

  method InjectMains(pod: PodObject, aws: AwsProviderSpec) returns (ok: bool)
    requires pod.Valid() && pod.inits.Some?
    modifies pod.containers
    ensures unchanged(pod)
    ensures ok <==> !Blank(aws.roleArn) || pod.containers == []
    ensures ok ==> Views(pod.containers) == InjectedAll(old(Views(pod.containers)), aws)
    ensures Views(pod.inits.value) == old(Views(pod.inits.value))
  {
    ghost var inits := pod.inits.value;
    var cs := pod.containers;
    assert forall i :: 0 <= i < |inits| ==> inits[i] == (inits + cs)[i];
    assert forall i :: 0 <= i < |cs| ==> cs[i] == (inits + cs)[|inits| + i];
    ok := InjectBeside(cs, inits, aws, false);
  }

  /** Whether there is anything to inject into, told from the objects. */
  lemma Targets(inits: seq<ContainerObject>, rest: seq<ContainerObject>, cs: seq<ContainerObject>, p: PodSpec)
    requires inits != [] && inits[1..] == rest && inits[0].name == AGENT
    requires Views(rest) == Or(p.inits) && Views(cs) == p.containers
    ensures NothingToInject(inits, true) && cs == [] <==> !HasTarget(p)
  {
    if c :| c in Or(p.inits) && c.name != AGENT {
      var i :| 0 <= i < |rest| && Or(p.inits)[i] == c;
      assert inits[i + 1] == rest[i] && inits[i + 1].name != AGENT;
    } else {
      forall i | 0 <= i < |inits| ensures inits[i].name == AGENT {
        if i > 0 { assert inits[i] == rest[i - 1] && Or(p.inits)[i - 1] in Or(p.inits); }
      }
    }
  }

  /** The parts that the edits leave behind make up the mutated pod. */
  lemma Assembled(p: PodSpec, q: PodSpec, a: AgentConfig, aws: AwsProviderSpec)
    requires q.automount == Some(false) && q.serviceAccountName == p.serviceAccountName
    requires q.volumes == Some(WithVolume(WithVolume(Or(p.volumes), TOKEN_VOLUME), AWS_VOLUME))
    requires q.inits == Some(InjectedInits([AgentContainer(a)] + Or(p.inits), aws))
    requires q.containers == InjectedAll(p.containers, aws)
    ensures q == Mutated(p, a, aws)
  {
    assert InjectedInits([AgentContainer(a)] + Or(p.inits), aws) ==
      [AgentContainer(a)] + InjectedInits(Or(p.inits), aws);
  }

  /** The pod's own edits together: afterwards its containers are as they were, with the agent in front. */
  method Prepare(pod: PodObject, a: AgentConfig)
    requires pod.Valid()
    modifies pod
    ensures pod.Valid() && pod.inits.Some? && pod.containers == old(pod.containers)
    ensures pod.inits.value != [] && fresh(pod.inits.value[0])
    ensures pod.inits.value == [pod.inits.value[0]] + old(pod.Inits())
    ensures pod.automount == Some(false)
    ensures pod.volumes == Some(WithVolume(WithVolume(Or(old(pod.volumes)), TOKEN_VOLUME), AWS_VOLUME))
    ensures Views(pod.inits.value) == [AgentContainer(a)] + old(Views(pod.Inits()))
    ensures Views(pod.containers) == old(Views(pod.containers))
    ensures NothingToInject(pod.inits.value, true) && pod.containers == [] <==> !HasTarget(old(pod.View()))
  {
    ghost var p, rest, cs := pod.View(), pod.Inits(), pod.containers;
    AddVolumes(pod);
    AddAgent(pod, a);
    ghost var inits := pod.inits.value;
    assert inits == [inits[0]] + rest;
    Targets(inits, rest, cs, p);
    ViewsCons(inits[0], rest);
  }

  method InjectBoth(pod: PodObject, aws: AwsProviderSpec) returns (ok: bool)
    requires pod.Valid() && pod.inits.Some?
    modifies pod.inits.value, pod.containers
    ensures unchanged(pod)
    ensures ok <==> !Blank(aws.roleArn) || (NothingToInject(pod.inits.value, true) && pod.containers == [])
    ensures ok ==> Views(pod.inits.value) == InjectedInits(old(Views(pod.inits.value)), aws)
    ensures ok ==> Views(pod.containers) == InjectedAll(old(Views(pod.containers)), aws)
  {
    ok := InjectInits(pod, aws);
    if !ok { return; }
    ok := InjectMains(pod, aws);
  }

  method EditPod(pod: PodObject, a: AgentConfig, aws: AwsProviderSpec) returns (ok: bool)
    requires pod.Valid()
    modifies pod, pod.Inits(), pod.containers
    ensures ok <==> !Blank(aws.roleArn) || !HasTarget(old(pod.View()))
    ensures ok ==> pod.automount == Some(false)
    ensures ok ==> pod.volumes == Some(WithVolume(WithVolume(Or(old(pod.volumes)), TOKEN_VOLUME), AWS_VOLUME))
    ensures ok ==>
      pod.inits.Some? && Views(pod.inits.value) == InjectedInits([AgentContainer(a)] + old(Views(pod.Inits())), aws)
    ensures ok ==> Views(pod.containers) == InjectedAll(old(Views(pod.containers)), aws)
  {
    Prepare(pod, a);
    ok := InjectBoth(pod, aws);
  }

  /** `build_pod_patch`: edits the pod in place; the patch takes the original to the result. */
  method BuildPodPatch(pod: PodObject?, a: AgentConfig, aws: AwsProviderSpec) returns (r: Result<(), PatchError>)
    requires pod != null ==> pod.Valid()
    modifies pod, if pod == null then [] else pod.Inits(), if pod == null then [] else pod.containers
    ensures pod == null ==> r == Err(SpecMissing)
    ensures pod != null ==> r == if !Blank(aws.roleArn) || !HasTarget(old(pod.View())) then Ok(()) else Err(RoleBlank)
    ensures pod != null && r.Ok? ==> pod.View() == Mutated(old(pod.View()), a, aws)
  {
    if pod == null {
      return Err(SpecMissing);
    }
    ghost var p := pod.View();
    assert Views(pod.Inits()) == Or(p.inits);
    var ok := EditPod(pod, a, aws);
    if !ok { return Err(RoleBlank); }
    Assembled(p, pod.View(), a, aws);
    r := Ok(());
  }

  /** Called with a pod by value, it works on a copy; the result is the pod the patch leads to. */
  method PatchedCopy(p: Option<PodSpec>, a: AgentConfig, aws: AwsProviderSpec) returns (r: Result<PodSpec, PatchError>)
    ensures p.None? ==> r == Err(SpecMissing)
    ensures p.Some? ==>
      r == if !Blank(aws.roleArn) || !HasTarget(p.value) then Ok(Mutated(p.value, a, aws)) else Err(RoleBlank)
  {
    var pod: PodObject? := null;
    if p.Some? {
      pod := Load(p.value);
    }
    var done := BuildPodPatch(pod, a, aws);
    if done.Err? {
      return Err(done.error);
    }
    r := Ok(pod.View());
  }
}
