/** What the webhook answers when a pod is created
    (app/crates/kif-webhook/src/admission.rs), and what the controller's states make of it. */
module Admission {
  import opened Crds
  import opened Merge
  import opened MergeTheorems
  import opened Encoding
  import opened Build
  import opened ApiServer
  import opened Controller
  import opened Convergence
  import opened Invariant
  import opened Results
  import opened Injection
  import opened MutatedPod
  import Witnesses
  import Mutate

  datatype Operation = Create | Update | Remove | Connect

  datatype FailureMode = Fail | Ignore

  datatype Pod = Pod(spec: Option<PodSpec>)

  datatype Request = Request(operation: Operation, pod: Option<Pod>, namespace: Option<string>)

  datatype Settings = Settings(
    mode: FailureMode, image: string, pullPolicy: string, port: string, federationUrl: string)

  /** What makes `handle` return an error instead of an answer. */
  datatype AdmissionError = PodMissing | ApiFails | HashMissing | AwsMissing | PatchFails(e: Mutate.PatchError)

  /** An answer as a value: the patch is the pod it leads to, `event` whether one was emitted. */
  datatype Answer = Answer(allowed: bool, patch: Option<PodSpec>, event: bool)

  const ALLOWED := Answer(true, None, false)

  function NameOr(o: Option<string>, default: string): string {
    if o.Some? then o.value else default
  }

  function Account(pod: Pod): string {
    if pod.spec.None? then "default" else NameOr(pod.spec.value.serviceAccountName, "default")
  }

  /** The resolved object that a request looks up. */
  function KeyFor(req: Request): Key
    requires req.pod.Some?
  {
    Key(NameOr(req.namespace, "default"), Account(req.pod.value))
  }

  /** `pod_has_container`. */
  predicate PodHasContainer(pod: Pod, name: string) {
    pod.spec.Some? && (HasContainer(pod.spec.value.containers, name) || HasContainer(Or(pod.spec.value.inits), name))
  }

  function AgentFor(cfg: Settings, sa: string, configHash: string): AgentConfig {
    AgentConfig(cfg.image, cfg.pullPolicy, cfg.port, cfg.federationUrl, sa, configHash)
  }

  /** A binding that cannot be used is a reason to refuse the pod, or to admit it with an event. */
  function NotUsable(cfg: Settings): Answer {
    match cfg.mode
    case Fail => Answer(false, None, false)
    case Ignore => Answer(true, None, true)
  }

  function PatchFor(cfg: Settings, pod: Pod, r: Resolved): Result<Answer, AdmissionError> {
    if HashOf(r).None? then Err(HashMissing)
    else if r.spec.providers.aws.None? then Err(AwsMissing)
    else if pod.spec.None? then Err(PatchFails(Mutate.SpecMissing))
    else
      var aws := r.spec.providers.aws.value;
      if Blank(aws.roleArn) && HasTarget(pod.spec.value) then Err(PatchFails(Mutate.RoleBlank))
      else Ok(Answer(true, Some(Mutated(pod.spec.value, AgentFor(cfg, Account(pod), HashOf(r).value), aws)), false))
  }

  /** The answer to a request over the stored objects; `up` says whether the look-up succeeds. */
  function Decide(cfg: Settings, req: Request, up: bool, stored: map<Key, Resolved>): Result<Answer, AdmissionError> {
    if req.operation != Create then Ok(ALLOWED)
    else if req.pod.None? then Err(PodMissing)
    else if PodHasContainer(req.pod.value, AGENT) then Ok(ALLOWED)
    else if !up then Err(ApiFails)
    else if KeyFor(req) !in stored then Ok(ALLOWED)
    else if !IsReady(stored[KeyFor(req)]) then Ok(NotUsable(cfg))
    else PatchFor(cfg, req.pod.value, stored[KeyFor(req)])
  }

  // ---------- The handler ----------

  class Response {
    var allowed: bool
    var denied: bool
    var patch: Option<PodSpec>

    /** A response starts out as an admission. */
    constructor ()
      ensures allowed && !denied && patch == None
    {
      allowed, denied, patch := true, false, None;
    }

    method Deny()
      modifies this
      ensures !allowed && denied && patch == old(patch)
    {
      allowed, denied := false, true;
    }
  }

  method FailOrSkip(cfg: Settings) returns (resp: Response, event: bool)
    ensures fresh(resp) && Answer(resp.allowed, resp.patch, event) == NotUsable(cfg) && resp.denied == !resp.allowed
  {
    resp := new Response();
    event := false;
    match cfg.mode
    case Fail =>
      resp.allowed := false;
      resp.Deny();
    case Ignore =>
      resp.allowed := true;
      event := true;
  }

  function Seen(r: Result<Response, AdmissionError>, event: bool): Result<Answer, AdmissionError>
    reads if r.Ok? then {r.value} else {}
  {
    match r
    case Ok(resp) => Ok(Answer(resp.allowed, resp.patch, event))
    case Err(e) => Err(e)
  }

  /** `handle`. */
  method Handle(cfg: Settings, req: Request, up: bool, stored: map<Key, Resolved>)
    returns (r: Result<Response, AdmissionError>, event: bool)
    ensures Seen(r, event) == Decide(cfg, req, up, stored)
    ensures r.Ok? ==> fresh(r.value) && r.value.denied == !r.value.allowed
  {
    event := false;
    var resp := new Response();
    if req.operation != Create {
      resp.allowed := true;
      return Ok(resp), event;
    }
    if req.pod.None? {
      return Err(PodMissing), event;
    }
    var pod := req.pod.value;
    if PodHasContainer(pod, AGENT) {
      resp.allowed := true;
      return Ok(resp), event;
    }
    if !up {
      return Err(ApiFails), event;
    }
    var k := KeyFor(req);
    if k !in stored {
      resp.allowed := true;
      return Ok(resp), event;
    }
    if !IsReady(stored[k]) {
      resp, event := FailOrSkip(cfg);
      return Ok(resp), event;
    }
    r := Patch(cfg, pod, stored[k], resp);
  }

  /** The end of `handle`: the patch. */
  method Patch(cfg: Settings, pod: Pod, resolved: Resolved, resp: Response)
    returns (r: Result<Response, AdmissionError>)
    requires resp.patch == None && !resp.denied
    modifies resp
    ensures Seen(r, false) == PatchFor(cfg, pod, resolved)
    ensures r.Ok? ==> r.value == resp && resp.allowed && !resp.denied
  {
    var configHash := HashOf(resolved);
    if configHash.None? {
      return Err(HashMissing);
    }
    var aws := resolved.spec.providers.aws;
    if aws.None? {
      return Err(AwsMissing);
    }
    var patched := Mutate.PatchedCopy(pod.spec, AgentFor(cfg, Account(pod), configHash.value), aws.value);
    if patched.Err? {
      return Err(PatchFails(patched.error));
    }
    resp.allowed := true;
    resp.patch := Some(patched.value);
    r := Ok(resp);
  }

  // ---------- What the answers mean ----------

  /** The pod is created in this namespace, for this account; both are "default" if not given. */
  predicate Concerns(req: Request, k: Key) {
    && req.pod.Some?
    && k.namespace == (match req.namespace case Some(n) => n case None => "default")
    && k.serviceAccountName ==
         if req.pod.value.spec.Some? && req.pod.value.spec.value.serviceAccountName.Some?
         then req.pod.value.spec.value.serviceAccountName.value else "default"
  }

  predicate NoAgent(cs: seq<Container>) {
    forall c :: c in cs ==> c.name != "kif-agent"
  }

  /** A pod is being created, and no container of it is an agent. */
  predicate Asks(req: Request) {
    && req.operation == Create && req.pod.Some?
    && (req.pod.value.spec.Some? ==>
          && NoAgent(req.pod.value.spec.value.containers)
          && (req.pod.value.spec.value.inits.Some? ==> NoAgent(req.pod.value.spec.value.inits.value)))
  }

  /** There is a container to inject into. */
  predicate Injectable(p: PodSpec) {
    p.containers != [] || (p.inits.Some? && exists c :: c in p.inits.value && c.name != "kif-agent")
  }

  predicate SaysReady(r: Resolved) {
    && r.status.Some?
    && exists i ::
      && 0 <= i < |r.status.value.conditions|
      && r.status.value.conditions[i].kind == Ready && r.status.value.conditions[i].status == True
  }

  /** The pod q is made for account k from the entry r alone. */
  ghost predicate MadeFrom(cfg: Settings, k: Key, r: Resolved, p: PodSpec, q: PodSpec) {
    && r.status.Some? && r.status.value.configHash.Some? && r.spec.providers.aws.Some?
    && (Unclaimed(p) ==> exists token, dir :: Rewritten(p, q,
          AgentConfig(cfg.image, cfg.pullPolicy, cfg.port, cfg.federationUrl, k.serviceAccountName,
                      r.status.value.configHash.value), r.spec.providers.aws.value, token, dir))
  }

  /** The answer over the entry of the account, if there is one: what is not ready is left to the
      failure mode; then hash, AWS block, spec of the pod and role have to be there. */
  ghost predicate AnsweredOver(cfg: Settings, k: Key, pod: Pod, r: Resolved, d: Result<Answer, AdmissionError>) {
    if !SaysReady(r) then
      d == Ok(if cfg.mode == Fail then Answer(false, None, false) else Answer(true, None, true))
    else if r.status.value.configHash.None? then d == Err(HashMissing)
    else if r.spec.providers.aws.None? then d == Err(AwsMissing)
    else if pod.spec.None? then d == Err(PatchFails(Mutate.SpecMissing))
    else if Blank(r.spec.providers.aws.value.roleArn) && Injectable(pod.spec.value) then
      d == Err(PatchFails(Mutate.RoleBlank))
    else
      && d.Ok? && d.value.patch.Some? && d.value == Answer(true, d.value.patch, false)
      && MadeFrom(cfg, k, r, pod.spec.value, d.value.patch.value)
  }

  /** The answer to a fresh pod of account sa in namespace n depends on what is stored for just them:
      without an entry it is admitted unchanged, and with one the answer is made from that alone. */
  lemma AnsweredExactly(cfg: Settings, req: Request, stored: map<Key, Resolved>, k: Key)
    requires Asks(req) && Concerns(req, k)
    ensures Decide(cfg, req, false, stored) == Err(ApiFails)
    ensures k !in stored ==> Decide(cfg, req, true, stored) == Ok(Answer(true, None, false))
    ensures k in stored ==> AnsweredOver(cfg, k, req.pod.value, stored[k], Decide(cfg, req, true, stored))
  {
    AsksMeans(req);
    if k in stored {
      var r := stored[k];
      ReadyMeans(r);
      assert Decide(cfg, req, true, stored) ==
        if !IsReady(r) then Ok(NotUsable(cfg)) else PatchFor(cfg, req.pod.value, r);
      var pod := req.pod.value;
      if HashOf(r).Some? && r.spec.providers.aws.Some? && pod.spec.Some? && Unclaimed(pod.spec.value) {
        var token, dir := MutationRewrites(pod.spec.value, AgentFor(cfg, Account(pod), HashOf(r).value),
          r.spec.providers.aws.value);
      }
    }
  }

  lemma AsksMeans(req: Request)
    ensures Asks(req) <==> req.operation == Create && req.pod.Some? && !PodHasContainer(req.pod.value, AGENT)
  {
  }

  lemma ReadyMeans(r: Resolved)
    ensures IsReady(r) <==> SaysReady(r)
  {
    if c :| r.status.Some? && c in r.status.value.conditions && c.kind == Ready && c.status == True {
      var i :| 0 <= i < |r.status.value.conditions| && r.status.value.conditions[i] == c;
    }
  }

  /** Other entries play no part. */
  lemma OthersIgnored(cfg: Settings, req: Request, up: bool, stored: map<Key, Resolved>, stored': map<Key, Resolved>,
                      k: Key)
    requires Concerns(req, k) && (k in stored <==> k in stored') && (k in stored ==> stored'[k] == stored[k])
    ensures Decide(cfg, req, up, stored') == Decide(cfg, req, up, stored)
  {
  }

  /** Requests that do not ask: anything but a creation, or a pod with an agent, is admitted unchanged,
      and a creation without a pod is an error. */
  lemma NotAsked(cfg: Settings, req: Request, up: bool, stored: map<Key, Resolved>)
    requires !Asks(req)
    ensures Decide(cfg, req, up, stored) ==
      if req.operation == Create && req.pod.None? then Err(PodMissing) else Ok(Answer(true, None, false))
  {
    AsksMeans(req);
  }

  /** A pod that was patched is admitted as it is the next time, whatever happened to the
      stored objects, to the settings or to the API server meanwhile. */
  lemma SecondAdmission(cfg: Settings, req: Request, up: bool, stored: map<Key, Resolved>,
                        cfg': Settings, up': bool, stored': map<Key, Resolved>, q: PodSpec)
    requires Decide(cfg, req, up, stored).Ok? && Decide(cfg, req, up, stored).value.patch == Some(q)
    ensures Decide(cfg', req.(pod := Some(Pod(Some(q)))), up', stored') == Ok(ALLOWED)
  {
    assert Or(q.inits)[0] in Or(q.inits) && Or(q.inits)[0].name == AGENT;
  }

  /** A patch tells what it was made from: a ready object with the hash and the AWS block. */
  lemma PatchedFrom(cfg: Settings, req: Request, up: bool, stored: map<Key, Resolved>, q: PodSpec)
    requires Decide(cfg, req, up, stored).Ok? && Decide(cfg, req, up, stored).value.patch == Some(q)
    ensures req.pod.Some? && req.pod.value.spec.Some? && KeyFor(req) in stored
    ensures var r := stored[KeyFor(req)];
      && IsReady(r) && HashOf(r).Some? && r.spec.providers.aws.Some?
      && q == Mutated(req.pod.value.spec.value, AgentFor(cfg, KeyFor(req).serviceAccountName, HashOf(r).value),
           r.spec.providers.aws.value)
      && (HasTarget(req.pod.value.spec.value) ==> !Blank(r.spec.providers.aws.value.roleArn))
  {
  }

  /** The failure mode decides exactly for a fresh pod whose account has an object that is not ready:
      only then a pod is refused, in Fail mode, and only then an event is emitted, in Ignore mode. */
  lemma DeniedExactly(cfg: Settings, req: Request, up: bool, stored: map<Key, Resolved>)
    ensures var unusable := Asks(req) && up && KeyFor(req) in stored && !IsReady(stored[KeyFor(req)]);
      var d := Decide(cfg, req, up, stored);
      && (d.Ok? && !d.value.allowed <==> cfg.mode == Fail && unusable)
      && (d.Ok? && d.value.event <==> cfg.mode == Ignore && unusable)
  {
    if Asks(req) && up && KeyFor(req) in stored && IsReady(stored[KeyFor(req)]) {
      assert Decide(cfg, req, up, stored) == PatchFor(cfg, req.pod.value, stored[KeyFor(req)]);
    }
  }

  // ---------- The errors ----------

  /** Over an object made of parts, the AWS block is missing exactly for a fresh pod when the status
      comes from bindings that could be merged and the spec from bindings that cannot. */
  lemma AwsMissingOver(c: Config, cfg: Settings, req: Request, up: bool, stored: map<Key, Resolved>,
                       snap: Bindings, prior: Option<Bindings>)
    requires req.pod.Some? && KeyFor(req) in stored
    requires Parts(c.hash, KeyFor(req).serviceAccountName, stored[KeyFor(req)], snap, prior)
    ensures Decide(cfg, req, up, stored) == Err(AwsMissing) <==>
      Asks(req) && up && prior.Some? && Mergeable(multiset(prior.value)) && !Mergeable(multiset(snap))
  {
    PartsSay(c.hash, KeyFor(req).serviceAccountName, stored[KeyFor(req)], snap, prior);
  }

  /** In every reachable state this is the exact condition, the parts being those of the object. */
  lemma AwsMissingExactly(c: Config, s: State, cfg: Settings, req: Request, up: bool)
    returns (snap: Bindings, prior: Option<Bindings>)
    requires Reachable(c, s) && req.pod.Some? && KeyFor(req) in s.api.resolved
    ensures Parts(c.hash, KeyFor(req).serviceAccountName, s.api.resolved[KeyFor(req)], snap, prior)
    ensures Decide(cfg, req, up, s.api.resolved) == Err(AwsMissing) <==>
      Asks(req) && up && prior.Some? && Mergeable(multiset(prior.value)) && !Mergeable(multiset(snap))
  {
    ReachableInv(c, s);
    assert KeyInv(c, s, KeyFor(req));
    snap, prior :| Parts(c.hash, KeyFor(req).serviceAccountName, s.api.resolved[KeyFor(req)], snap, prior);
    AwsMissingOver(c, cfg, req, up, s.api.resolved, snap, prior);
  }

  /** After the first patch of a whole object: exactly if that was ready and the listing cannot be
      merged. */
  lemma AwsMissingAfterPatch(c: Config, cfg: Settings, req: Request, up: bool, st: Store, snap: Bindings)
    requires req.pod.Some?
    requires KeyFor(req) in st.resolved ==>
      FromOneBuild(c.hash, KeyFor(req).serviceAccountName, st.resolved[KeyFor(req)])
    ensures var k := KeyFor(req);
      Decide(cfg, req, up, PatchSpec(st, k, Built(c.hash, k.serviceAccountName, snap)).resolved) == Err(AwsMissing) <==>
        Asks(req) && up && k in st.resolved && IsReady(st.resolved[k]) && !Mergeable(multiset(snap))
  {
    var k := KeyFor(req);
    var stored := PatchSpec(st, k, Built(c.hash, k.serviceAccountName, snap)).resolved;
    BuiltCoherent(c.hash, k.serviceAccountName, snap);
    if k in st.resolved {
      var prior :| IsBuild(c.hash, k.serviceAccountName, prior, st.resolved[k]);
      BuiltCoherent(c.hash, k.serviceAccountName, prior);
      AwsMissingOver(c, cfg, req, up, stored, snap, Some(prior));
    } else {
      AwsMissingOver(c, cfg, req, up, stored, snap, None);
    }
  }

  /** Over every reachable state the hash is never missing, and the AWS block is only while the two
      patches for the account are apart. */
  lemma NeverWithoutHash(c: Config, s: State, cfg: Settings, req: Request, up: bool)
    requires Reachable(c, s)
    ensures Decide(cfg, req, up, s.api.resolved) != Err(HashMissing)
    ensures Decide(cfg, req, up, s.api.resolved) == Err(AwsMissing) ==>
      BetweenPatches(s, KeyFor(req)) || KeyFor(req) in s.torn
  {
    if req.pod.Some? && KeyFor(req) in s.api.resolved {
      TwoPatchesAtomic(c, s, KeyFor(req));
    }
  }

  /** The second half is no empty promise: an edit that takes the provider away leads to it. */
  lemma AwsCanBeMissing(c: Config, cfg: Settings, req: Request, id: BindingId, b0: CloudRoleBinding,
                        b: CloudRoleBinding)
    returns (s: State)
    requires Asks(req) && SetsAws(b0) && !SetsAws(b) && c.buffer > 0
    requires Witnesses.Single(Store(map[id := b], map[]), KeyFor(req), id, b)
    ensures Reachable(c, s) && s.missed == {} && Decide(cfg, req, true, s.api.resolved) == Err(AwsMissing)
  {
    var k := KeyFor(req);
    s := Witnesses.HalfUpserted(c, k, id, [b0], b);
    Witnesses.AloneMerges(k.serviceAccountName, b0);
    Witnesses.AloneFails(k.serviceAccountName, b);
    SucceedsIffMergeable(k.serviceAccountName, [b0]);
    SucceedsIffMergeable(k.serviceAccountName, [b]);
    AwsMissingOver(c, cfg, req, true, s.api.resolved, [b], Some([b0]));
  }

  // ---------- Settled states ----------

  /** Nothing is under way, and no change of k was missed. */
  ghost predicate Settled(c: Config, s: State, k: Key) {
    Reachable(c, s) && Quiescent(s) && k !in s.missed
  }

  /** The stored object is then the merge of the bindings: ready, with its hash and its AWS block,
      or not ready, with neither. */
  lemma SettledObject(c: Config, s: State, k: Key)
    requires Settled(c, s, k)
    ensures k !in s.api.resolved ==> Now(s.api, k) == []
    ensures k in s.api.resolved ==>
      var r := s.api.resolved[k];
      && r.spec == BuiltSpec(k.serviceAccountName, Now(s.api, k))
      && (IsReady(r) <==> Mergeable(multiset(Now(s.api, k))))
      && (IsReady(r) <==> r.spec.providers.aws.Some?)
      && HashOf(r) == if IsReady(r) then Some(c.hash(Encode(r.spec))) else None
  {
    QuietMeansConverged(c, s, k);
  }

  /** In a settled state the answer for a fresh pod depends on the bindings of its account alone:
      admitted unchanged if nothing was ever resolved; refused or passed over if they cannot be
      merged (an account whose bindings are all gone included); otherwise patched with the role and
      the hash of their merge. */
  lemma SettledAdmission(c: Config, s: State, cfg: Settings, req: Request)
    requires Asks(req)
    requires Settled(c, s, KeyFor(req))
    ensures var k := KeyFor(req); var now := Now(s.api, k);
      var merged := BuiltSpec(k.serviceAccountName, now);
      Decide(cfg, req, true, s.api.resolved) ==
        if k !in s.api.resolved then Ok(ALLOWED)
        else if !Mergeable(multiset(now)) then Ok(NotUsable(cfg))
        else
          assert merged.providers.aws.Some? by { SettledObject(c, s, k); }
          var aws := merged.providers.aws.value;
          if req.pod.value.spec.None? then Err(PatchFails(Mutate.SpecMissing))
          else if Blank(aws.roleArn) && HasTarget(req.pod.value.spec.value) then Err(PatchFails(Mutate.RoleBlank))
          else Ok(Answer(true, Some(Mutated(req.pod.value.spec.value,
                 AgentFor(cfg, k.serviceAccountName, c.hash(Encode(merged))), aws)), false))
    ensures KeyFor(req) !in s.api.resolved ==> Now(s.api, KeyFor(req)) == []
  {
    var k := KeyFor(req);
    SettledObject(c, s, k);
  }
}
