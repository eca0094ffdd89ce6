/** From admission to token: the hash that the webhook computes from a merge, puts into the agent
    of a pod, and that the agent sends with every mint request, ties the pod's containers and all
    its tokens to one spec. The hash function is assumed free of collisions. */
module Coherence {
  import opened Crds
  import opened Merge
  import opened MergeTheorems
  import opened Encoding
  import opened Build
  import opened ApiServer
  import opened Controller
  import opened Convergence
  import opened Invariant
  import opened Results
  import opened Injection
  import opened Username
  import opened Admission
  import opened Mint
  import Witnesses

  /** Nobody is between the two patches for k, and none failed there. */
  ghost predicate Whole(c: Config, s: State, k: Key) {
    Reachable(c, s) && !BetweenPatches(s, k) && k !in s.torn
  }

  /** The answer to a request is to run the pod as q. */
  predicate PatchedTo(cfg: Settings, req: Request, stored: map<Key, Resolved>, q: PodSpec) {
    Decide(cfg, req, true, stored) == Ok(Answer(true, Some(q), false))
  }

  /** The request that the agent of the pod q sends: its account and hash come from the agent's
      environment, its namespace is the pod's. */
  predicate FromAgent(q: PodSpec, namespace: string, req: MintRequest) {
    && q.inits.Some? && q.inits.value != [] && q.inits.value[0].env.Some?
    && Sets(q.inits.value[0].env.value, "SERVICE_ACCOUNT_NAME", req.serviceAccountName)
    && Sets(q.inits.value[0].env.value, "CONFIG_HASH", req.configHash)
    && req.namespace == namespace
  }

  /** Every container but agents runs with the role. */
  ghost predicate RunsAs(q: PodSpec, role: string) {
    forall x :: x in q.containers || (q.inits.Some? && x in q.inits.value && x.name != "kif-agent") ==>
      x.env.Some? && Sets(x.env.value, "AWS_ROLE_ARN", role)
  }

  /** No container to be injected gives the role's variable twice, unless last with this role. */
  ghost predicate RoleTakes(p: PodSpec, role: string) {
    forall x :: x in p.containers || (p.inits.Some? && x in p.inits.value && x.name != "kif-agent") ==>
      x.env.Some? ==> TakesEffect(x.env.value, "AWS_ROLE_ARN", role)
  }

  // ---------- Pieces ----------

  /** What the agent's environment says. */
  lemma AgentSays(a: AgentConfig)
    ensures forall v :: Sets(AgentContainer(a).env.value, CONFIG_HASH, v) <==> v == a.configHash
    ensures forall v :: Sets(AgentContainer(a).env.value, SERVICE_ACCOUNT_NAME, v) <==> v == a.serviceAccountName
  {
    var env := AgentContainer(a).env.value;
    assert |SERVICE_ACCOUNT_NAME| == 20 && |CONFIG_HASH| == 11;
    assert |"FEDERATION_URL"| == 14 && |"PORT"| == 4 && |"POD_NAME"| == 8;
    NotAgain(env[2..], CONFIG_HASH);
    NotAgain(env[1..], SERVICE_ACCOUNT_NAME);
    assert Effective(env, CONFIG_HASH) == Effective(env[1..], CONFIG_HASH) by { NotAgain([env[0]], CONFIG_HASH); }
    assert env[1..][1..] == env[2..];
    assert Effective(env, CONFIG_HASH) == Some(env[1]);
    assert Effective(env, SERVICE_ACCOUNT_NAME) == Some(env[0]);
  }

  lemma {:induction false} NotAgain(env: seq<EnvVar>, name: string)
    requires forall i :: 0 <= i < |env| ==> env[i].name != name
    ensures Effective(env, name) == None
  {
    if env != [] { NotAgain(env[1..], name); }
  }

  lemma AgentSends(p: PodSpec, a: AgentConfig, aws: AwsProviderSpec, namespace: string, req: MintRequest)
    requires FromAgent(Mutated(p, a, aws), namespace, req)
    ensures req.serviceAccountName == a.serviceAccountName && req.configHash == a.configHash
  {
    AgentSays(a);
  }

  /** Every injected container runs with the role exactly when the pod's own variables let it. */
  lemma MutatedRunsAs(p: PodSpec, a: AgentConfig, aws: AwsProviderSpec)
    ensures RunsAs(Mutated(p, a, aws), aws.roleArn) <==> RoleTakes(p, aws.roleArn)
  {
    var q := Mutated(p, a, aws);
    if RoleTakes(p, aws.roleArn) {
      forall x | x in q.containers || (x in Or(q.inits) && x.name != AGENT)
        ensures Sets(Or(x.env), ROLE_ARN, aws.roleArn)
      {
        RoleAfter(p, a, aws, x);
      }
    }
    if RunsAs(q, aws.roleArn) {
      forall x | x in p.containers || (x in Or(p.inits) && x.name != AGENT)
        ensures TakesEffect(Or(x.env), ROLE_ARN, aws.roleArn)
      {
        RoleBefore(p, a, aws, x);
      }
    }
  }

  lemma RoleAfter(p: PodSpec, a: AgentConfig, aws: AwsProviderSpec, x: Container)
    requires RoleTakes(p, aws.roleArn)
    requires x in Mutated(p, a, aws).containers || (x in Or(Mutated(p, a, aws).inits) && x.name != AGENT)
    ensures Sets(Or(x.env), ROLE_ARN, aws.roleArn)
  {
    var q := Mutated(p, a, aws);
    if x in q.containers {
      var i :| 0 <= i < |q.containers| && q.containers[i] == x;
      assert p.containers[i] in p.containers;
      RoleInjected(p.containers[i], aws);
    } else {
      var i :| 0 <= i < |Or(q.inits)| && Or(q.inits)[i] == x;
      assert Or(p.inits)[i - 1] in Or(p.inits);
      RoleInjected(Or(p.inits)[i - 1], aws);
    }
  }

  lemma RoleBefore(p: PodSpec, a: AgentConfig, aws: AwsProviderSpec, x: Container)
    requires RunsAs(Mutated(p, a, aws), aws.roleArn)
    requires x in p.containers || (x in Or(p.inits) && x.name != AGENT)
    ensures TakesEffect(Or(x.env), ROLE_ARN, aws.roleArn)
  {
    var q := Mutated(p, a, aws);
    RoleInjected(x, aws);
    if x in p.containers {
      var i :| 0 <= i < |p.containers| && p.containers[i] == x;
      assert q.containers[i] in q.containers;
    } else {
      var i :| 0 <= i < |Or(p.inits)| && Or(p.inits)[i] == x;
      assert Or(q.inits)[i + 1] in Or(q.inits);
    }
  }

  /** With distinct names of variables it always does. */
  lemma DistinctRoleTakes(p: PodSpec, role: string)
    requires forall x :: x in p.containers || x in Or(p.inits) ==> DistinctEnv(Or(x.env))
    ensures RoleTakes(p, role)
  {
    forall x | x in p.containers || (x in Or(p.inits) && x.name != AGENT)
      ensures TakesEffect(Or(x.env), ROLE_ARN, role)
    {
      DistinctTakesEffect(Or(x.env), ROLE_ARN, role);
    }
  }

  /** A pod that gives the variable twice keeps its own last role. */
  lemma OwnRoleKept(p: PodSpec, a: AgentConfig, aws: AwsProviderSpec, first: string, last: string)
    requires p.containers != [] && last != aws.roleArn
    requires p.containers[0].env == Some([EnvVar(ROLE_ARN, Some(first), None), EnvVar(ROLE_ARN, Some(last), None)])
    ensures Sets(Or(Mutated(p, a, aws).containers[0].env), ROLE_ARN, last)
    ensures !RunsAs(Mutated(p, a, aws), aws.roleArn)
  {
    var c := p.containers[0];
    var env := c.env.value;
    assert AwsEntries(aws)[0] == (ROLE_ARN, aws.roleArn);
    InjectionTakesEffect(c, aws, (ROLE_ARN, aws.roleArn));
    assert env[1..] == [env[1]] && [env[1]][1..] == [];
    assert Occurrences(env[1..], ROLE_ARN) == 1 && Effective(env[1..], ROLE_ARN) == Some(env[1]);
    assert Mutated(p, a, aws).containers[0] in Mutated(p, a, aws).containers;
  }

  /** Two whole objects with one hash have one spec. */
  lemma HashTellsSpec(c: Config, k: Key, r1: Resolved, r2: Resolved, h: string)
    requires CollisionFree(c.hash) && Coherent(c.hash, k.serviceAccountName, r1)
    requires Coherent(c.hash, k.serviceAccountName, r2)
    requires HashOf(r1) == Some(h) && HashOf(r2) == Some(h)
    ensures r1.spec == r2.spec
  {
    HashTells(c.hash, r1.spec, r2.spec);
  }

  // ---------- The theorem ----------

  predicate CoherentAt(c: Config, k: Key, stored: map<Key, Resolved>) {
    k in stored ==> Coherent(c.hash, k.serviceAccountName, stored[k])
  }

  /** The pod and the token are made from this spec: p became q, every container of which runs with the
      spec's role exactly if p lets it, and the claims of the token are the spec's audience, lifetime
      and attributes. */
  ghost predicate BothFrom(spec: BindingSpec, p: PodSpec, q: PodSpec, f: Federation, mintReq: MintRequest,
                           now: Instant, minted: MintedToken) {
    && spec.providers.aws.Some?
    && (RunsAs(q, spec.providers.aws.value.roleArn) <==> RoleTakes(p, spec.providers.aws.value.roleArn))
    && exists user :: Speaks(user, mintReq) && Signs(f, user, mintReq, spec, now, minted)
  }

  /** Over any two coherent stores: if the agent of a pod of account k that was admitted over the first
      is given a token over the second, both hold the same spec for k, and pod and token are made from it. */
  lemma OneSpecOver(c: Config, k: Key, stored1: map<Key, Resolved>, stored2: map<Key, Resolved>,
                    cfg: Settings, req: Request, q: PodSpec, f: Federation, auth: Option<string>,
                    mintReq: MintRequest, now: Instant, minted: MintedToken)
    requires CollisionFree(c.hash) && PatchedTo(cfg, req, stored1, q)
    requires Concerns(req, k) && CoherentAt(c, k, stored1) && CoherentAt(c, k, stored2)
    requires FromAgent(q, k.namespace, mintReq)
    requires MintReply(f, auth, mintReq, true, stored2, now) == Reply(200, Some(minted))
    ensures k in stored1 && k in stored2 && stored1[k].spec == stored2[k].spec
    ensures req.pod.value.spec.Some?
      && BothFrom(stored1[k].spec, req.pod.value.spec.value, q, f, mintReq, now, minted)
  {
    PatchedFrom(cfg, req, true, stored1, q);
    var r1 := stored1[k];
    var p, a := req.pod.value.spec.value, AgentFor(cfg, k.serviceAccountName, HashOf(r1).value);
    AgentSends(p, a, r1.spec.providers.aws.value, k.namespace, mintReq);
    MutatedRunsAs(p, a, r1.spec.providers.aws.value);
    assert Key(mintReq.namespace, mintReq.serviceAccountName) == k;
    MintedExactly(f, auth, mintReq, true, stored2, now, minted);
    HashTellsSpec(c, k, r1, stored2[k], mintReq.configHash);
  }

  /** Let a pod be admitted in any whole state, and let its agent be given a token in any whole
      state, of this run or another, whatever edits lie between: pod and token are made from one
      spec. */
  lemma OneSpec(c: Config, k: Key, s1: State, s2: State, cfg: Settings, req: Request, q: PodSpec,
                f: Federation, auth: Option<string>, mintReq: MintRequest, now: Instant, minted: MintedToken)
    requires CollisionFree(c.hash) && PatchedTo(cfg, req, s1.api.resolved, q)
    requires Concerns(req, k) && Whole(c, s1, k) && Whole(c, s2, k)
    requires FromAgent(q, k.namespace, mintReq)
    requires MintReply(f, auth, mintReq, true, s2.api.resolved, now) == Reply(200, Some(minted))
    ensures k in s1.api.resolved && k in s2.api.resolved && s1.api.resolved[k].spec == s2.api.resolved[k].spec
    ensures req.pod.value.spec.Some?
      && BothFrom(s1.api.resolved[k].spec, req.pod.value.spec.value, q, f, mintReq, now, minted)
  {
    WholeIsCoherent(c, s1, k);
    WholeIsCoherent(c, s2, k);
    OneSpecOver(c, k, s1.api.resolved, s2.api.resolved, cfg, req, q, f, auth, mintReq, now, minted);
  }

  lemma WholeIsCoherent(c: Config, s: State, k: Key)
    requires Whole(c, s, k)
    ensures CoherentAt(c, k, s.api.resolved)
  {
    if k in s.api.resolved { TwoPatchesAtomic(c, s, k); }
  }

  /** In settled states the spec is the merge of the bindings, and the agent is told of a conflict
      exactly when that merge has changed since the pod was admitted. */
  lemma ConflictExactlyWhenChanged(c: Config, s1: State, s2: State, cfg: Settings, req: Request, q: PodSpec,
                                   f: Federation, auth: Option<string>, mintReq: MintRequest, now: Instant,
                                   token: string, user: string)
    requires CollisionFree(c.hash) && PatchedTo(cfg, req, s1.api.resolved, q)
    requires req.pod.Some? && Settled(c, s1, KeyFor(req)) && Settled(c, s2, KeyFor(req))
    requires FromAgent(q, KeyFor(req).namespace, mintReq)
    requires Bears(f, auth, token, user) && Speaks(user, mintReq)
    requires KeyFor(req) in s2.api.resolved && Mergeable(multiset(Now(s2.api, KeyFor(req))))
    ensures var k := KeyFor(req);
      MintReply(f, auth, mintReq, true, s2.api.resolved, now).code == 409 <==>
        BuiltSpec(k.serviceAccountName, Now(s1.api, k)) != BuiltSpec(k.serviceAccountName, Now(s2.api, k))
  {
    var k := KeyFor(req);
    PatchedFrom(cfg, req, true, s1.api.resolved, q);
    var r1 := s1.api.resolved[k];
    AgentSends(req.pod.value.spec.value, AgentFor(cfg, k.serviceAccountName, HashOf(r1).value),
      r1.spec.providers.aws.value, k.namespace, mintReq);
    SettledObject(c, s1, k);
    SettledMint(c, s2, f, auth, mintReq, now, token, user);
    if mintReq.configHash == c.hash(Encode(s2.api.resolved[k].spec)) {
      SettledObject(c, s2, k);
      HashTells(c.hash, r1.spec, s2.api.resolved[k].spec);
    }
    SettledObject(c, s2, k);
  }

  // ---------- Its hypotheses can be met ----------

  /** A reachable state in which the account is settled on the merge of one binding. */
  lemma SettledOnOne(c: Config, k: Key, id: BindingId, b: CloudRoleBinding) returns (s: State)
    requires Witnesses.Single(Store(map[id := b], map[]), k, id, b) && SetsAws(b) && c.buffer > 0
    ensures Settled(c, s, k) && Whole(c, s, k)
    ensures k in s.api.resolved && s.api.resolved[k].spec == BuiltSpec(k.serviceAccountName, [b])
    ensures IsReady(s.api.resolved[k])
      && HashOf(s.api.resolved[k]) == Some(c.hash(Encode(BuiltSpec(k.serviceAccountName, [b]))))
  {
    Witnesses.ListedReachable(c, k, id, b, map[]);
    s := Witnesses.FinishQuietly(c, Witnesses.Listed(k, id, b, map[]), k, [b]);
    assert Whole(c, s, k);
    WholeIsCoherent(c, s, k);
    Witnesses.AloneMerges(k.serviceAccountName, b);
    assert s.api.resolved[k].spec.providers.aws.Some?;
  }

  /** There are states, pods, requests and tokens to which the theorem applies: for every fresh pod of
      an account with one binding, a pod admitted and a token minted in a settled state. */
  lemma OneSpecApplies(c: Config, cfg: Settings, req: Request, id: BindingId, b: CloudRoleBinding, now: Instant)
    returns (s: State, q: PodSpec, f: Federation, auth: Option<string>, mintReq: MintRequest, minted: MintedToken)
    requires Asks(req) && req.pod.value.spec.Some? && SetsAws(b) && c.buffer > 0
    requires Witnesses.Single(Store(map[id := b], map[]), KeyFor(req), id, b)
    requires !Blank(b.spec.providers.aws.value.roleArn)
    requires Plain(KeyFor(req).namespace) && Plain(KeyFor(req).serviceAccountName)
    ensures Whole(c, s, KeyFor(req)) && PatchedTo(cfg, req, s.api.resolved, q)
    ensures FromAgent(q, KeyFor(req).namespace, mintReq)
    ensures MintReply(f, auth, mintReq, true, s.api.resolved, now) == Reply(200, Some(minted))
  {
    var k := KeyFor(req);
    s := SettledOnOne(c, k, id, b);
    Witnesses.AloneMerges(k.serviceAccountName, b);
    var r := s.api.resolved[k];
    var aws := r.spec.providers.aws.value;
    var a := AgentFor(cfg, k.serviceAccountName, HashOf(r).value);
    q := Mutated(req.pod.value.spec.value, a, aws);
    mintReq := MintRequest(k.namespace, k.serviceAccountName, a.configHash, None);
    FromItsAgent(req.pod.value.spec.value, a, aws, mintReq);
    var user := Print(k.namespace, k.serviceAccountName);
    f := Federation("issuer", _ => Some(user), _ => Some("token"));
    auth := Some(BEARER + "bearer");
    minted := MintedToken("token", Ttl(aws));
    assert Bears(f, auth, "bearer", user) && Speaks(user, mintReq);
    CallerServed(f, auth, mintReq, true, s.api.resolved, now, "bearer", user);
  }

  lemma FromItsAgent(p: PodSpec, a: AgentConfig, aws: AwsProviderSpec, mintReq: MintRequest)
    requires mintReq.serviceAccountName == a.serviceAccountName && mintReq.configHash == a.configHash
    ensures FromAgent(Mutated(p, a, aws), mintReq.namespace, mintReq)
  {
    AgentSays(a);
  }

  // ---------- Where it fails ----------

  /** The hash that the agent of the pod was given is that of the spec the pod was made from. */
  ghost predicate Matched(c: Config, q: PodSpec, spec: BindingSpec) {
    q.inits.Some? && q.inits.value != [] && Sets(Or(q.inits.value[0].env), CONFIG_HASH, c.hash(Encode(spec)))
  }

  /** A pod admitted over an object made of parts: its containers get the role of the one merge (as
      far as their own variables let it), its agent the hash of the other, and the two go together
      exactly when the merges are equal. */
  lemma MixedExactly(c: Config, cfg: Settings, req: Request, stored: map<Key, Resolved>, q: PodSpec,
                     r: Resolved, snap: Bindings, prior: Option<Bindings>)
    requires CollisionFree(c.hash) && PatchedTo(cfg, req, stored, q) && req.pod.Some?
    requires KeyFor(req) in stored && stored[KeyFor(req)] == r
    requires Parts(c.hash, KeyFor(req).serviceAccountName, r, snap, prior)
    ensures var sa := KeyFor(req).serviceAccountName; var role := BuiltSpec(sa, snap);
      && prior.Some? && role.providers.aws.Some? && req.pod.value.spec.Some?
      && (RunsAs(q, role.providers.aws.value.roleArn) <==>
            RoleTakes(req.pod.value.spec.value, role.providers.aws.value.roleArn))
      && Matched(c, q, BuiltSpec(sa, prior.value))
      && (Matched(c, q, role) <==> BuiltSpec(sa, prior.value) == role)
  {
    var k := KeyFor(req);
    PatchedFrom(cfg, req, true, stored, q);
    PartsSay(c.hash, k.serviceAccountName, r, snap, prior);
    var a := AgentFor(cfg, k.serviceAccountName, HashOf(r).value);
    MutatedRunsAs(req.pod.value.spec.value, a, r.spec.providers.aws.value);
    AgentSays(a);
    if Matched(c, q, BuiltSpec(k.serviceAccountName, snap)) {
      HashTells(c.hash, BuiltSpec(k.serviceAccountName, prior.value), BuiltSpec(k.serviceAccountName, snap));
    }
  }

  /** So in every reachable state: a pod is mixed exactly when the status comes from another merge
      than the spec, which, outside of the window and of torn keys, it does not. */
  lemma AdmittedExactly(c: Config, s: State, cfg: Settings, req: Request, q: PodSpec)
    returns (snap: Bindings, prior: Option<Bindings>)
    requires Reachable(c, s) && CollisionFree(c.hash) && PatchedTo(cfg, req, s.api.resolved, q)
    requires req.pod.Some? && KeyFor(req) in s.api.resolved
    ensures var k := KeyFor(req);
      && Parts(c.hash, k.serviceAccountName, s.api.resolved[k], snap, prior) && prior.Some?
      && (Matched(c, q, s.api.resolved[k].spec) <==>
            BuiltSpec(k.serviceAccountName, prior.value) == BuiltSpec(k.serviceAccountName, snap))
      && (Matched(c, q, s.api.resolved[k].spec) <==> FromOneBuild(c.hash, k.serviceAccountName, s.api.resolved[k]))
  {
    snap, prior := WholeExactly(c, s, KeyFor(req));
    MixedExactly(c, cfg, req, s.api.resolved, q, s.api.resolved[KeyFor(req)], snap, prior);
  }

  /** There are such states: for any two bindings that can be merged there is a reachable one in which
      a pod gets the role of the second and the hash of the first, and that is a mismatch exactly if
      they merge differently. */
  lemma MixedAdmission(c: Config, cfg: Settings, req: Request, id: BindingId, b0: CloudRoleBinding, b: CloudRoleBinding)
    returns (s: State, q: PodSpec)
    requires Asks(req) && req.pod.value.spec.Some? && SetsAws(b0) && SetsAws(b) && c.buffer > 0
    requires Witnesses.Single(Store(map[id := b], map[]), KeyFor(req), id, b) && CollisionFree(c.hash)
    requires !Blank(b.spec.providers.aws.value.roleArn)
    ensures Reachable(c, s) && PatchedTo(cfg, req, s.api.resolved, q)
    ensures RunsAs(q, b.spec.providers.aws.value.roleArn) <==>
      RoleTakes(req.pod.value.spec.value, b.spec.providers.aws.value.roleArn)
    ensures var sa := KeyFor(req).serviceAccountName;
      && Matched(c, q, BuiltSpec(sa, [b0]))
      && (Matched(c, q, BuiltSpec(sa, [b])) <==> BuiltSpec(sa, [b0]) == BuiltSpec(sa, [b]))
  {
    var k := KeyFor(req);
    Witnesses.AloneMerges(k.serviceAccountName, b0);
    Witnesses.AloneMerges(k.serviceAccountName, b);
    SucceedsIffMergeable(k.serviceAccountName, [b0]);
    s := Witnesses.HalfUpserted(c, k, id, [b0], b);
    PartsSay(c.hash, k.serviceAccountName, s.api.resolved[k], [b], Some([b0]));
    q := MixedPatch(cfg, req, s.api.resolved);
    MixedExactly(c, cfg, req, s.api.resolved, q, s.api.resolved[k], [b], Some([b0]));
  }

  lemma MixedPatch(cfg: Settings, req: Request, stored: map<Key, Resolved>) returns (q: PodSpec)
    requires Asks(req) && req.pod.value.spec.Some? && KeyFor(req) in stored
    requires var r := stored[KeyFor(req)];
      IsReady(r) && HashOf(r).Some? && r.spec.providers.aws.Some? && !Blank(r.spec.providers.aws.value.roleArn)
    ensures PatchedTo(cfg, req, stored, q)
  {
    var r := stored[KeyFor(req)];
    q := Mutated(req.pod.value.spec.value, AgentFor(cfg, KeyFor(req).serviceAccountName, HashOf(r).value),
      r.spec.providers.aws.value);
  }
}
