/** Minting: the ordered decisions of the federation service and the claims of a token
    (app/crates/kif-federation/src/http.rs and jwt.rs). Token review, signing and the clock are
    parameters. */
module Mint {
  import opened Crds
  import opened Merge
  import opened MergeTheorems
  import opened MergeMeaning
  import opened Encoding
  import opened Build
  import opened ApiServer
  import opened Controller
  import opened Username
  import opened Admission

  datatype KifK8s = KifK8s(namespace: string, serviceAccount: string, pod: Option<string>)

  datatype KifClaims = KifClaims(k8s: Option<KifK8s>, attributes: Option<map<string, string>>)

  datatype AwsClaims = AwsClaims(
    iss: string, sub: string, aud: string, iat: U64, nbf: U64, exp: U64, nanos: nat, kif: Option<KifClaims>)

  /** Whole seconds since the epoch, and the nanoseconds that make a token's name. */
  datatype Instant = Instant(seconds: U64, nanos: nat)

  datatype MintRequest = MintRequest(
    namespace: string, serviceAccountName: string, configHash: string, podName: Option<string>)

  datatype MintedToken = MintedToken(token: string, expiresInSeconds: U64)

  datatype Reply = Reply(code: nat, aws: Option<MintedToken>)

  /** The service: `review` gives the user a bearer token belongs to, `sign` may fail. */
  datatype Federation = Federation(
    issuer: string, review: string -> Option<string>, sign: AwsClaims -> Option<string>)

  const BEARER := "Bearer "
  const DEFAULT_AUDIENCE := "sts.amazonaws.com"
  const DEFAULT_TTL: U64 := 3600

  /** `u64` addition in a release build. */
  function WrappingAdd(a: U64, b: U64): U64 {
    (a + b) % 0x1_0000_0000_0000_0000
  }

  /** `AwsClaims::new`. */
  function Claims(issuer: string, subject: string, audience: string, ttl: U64, provenance: bool,
                  req: MintRequest, extra: Option<map<string, string>>, now: Instant): AwsClaims {
    AwsClaims(issuer, subject, audience, now.seconds, now.seconds, WrappingAdd(now.seconds, ttl), now.nanos,
      if provenance || extra.Some?
      then Some(KifClaims(
        if provenance then Some(KifK8s(req.namespace, req.serviceAccountName, req.podName)) else None, extra))
      else None)
  }

  function Audience(aws: AwsProviderSpec): string {
    NameOr(aws.audience, DEFAULT_AUDIENCE)
  }

  function Ttl(aws: AwsProviderSpec): U64 {
    if aws.maxSessionDurationSeconds.Some? then aws.maxSessionDurationSeconds.value else DEFAULT_TTL
  }

  function Provenance(spec: BindingSpec): bool {
    spec.attributes.None? || spec.attributes.value.includeProvenance.None?
      || spec.attributes.value.includeProvenance.value
  }

  function Attributes(spec: BindingSpec): Option<map<string, string>> {
    if spec.attributes.None? then None else spec.attributes.value.extra
  }

  /** The claims of a token for a user, from a spec. */
  function ClaimsFor(f: Federation, user: string, req: MintRequest, spec: BindingSpec, now: Instant): AwsClaims
    requires spec.providers.aws.Some?
  {
    var aws := spec.providers.aws.value;
    Claims(f.issuer, user, Audience(aws), Ttl(aws), Provenance(spec), req, Attributes(spec), now)
  }

  function RequestKey(req: MintRequest): Key {
    Key(req.namespace, req.serviceAccountName)
  }

  function Refused(code: nat): Reply {
    Reply(code, None)
  }

  /** `mint`: `up` says whether the look-up of the resolved object succeeds. */
  function MintReply(f: Federation, auth: Option<string>, req: MintRequest, up: bool, stored: map<Key, Resolved>,
                     now: Instant): Reply {
    if auth.None? || !(BEARER <= auth.value) then Refused(401)
    else
      var user := f.review(auth.value[|BEARER|..]);
      if user.None? then Refused(401)
      else
        var account := Parse(user.value);
        if account.None? then Refused(401)
        else if account.value.0 != req.namespace || account.value.1 != req.serviceAccountName then Refused(403)
        else if !up || RequestKey(req) !in stored then Refused(404)
        else MintFor(f, user.value, req, stored[RequestKey(req)], now)
  }

  /** The decisions over the object found. */
  function MintFor(f: Federation, user: string, req: MintRequest, r: Resolved, now: Instant): Reply {
    if r.spec.providers.aws.None? then Refused(400)
    else if HashOf(r).None? then Refused(500)
    else if HashOf(r).value != req.configHash then Refused(409)
    else
      var token := f.sign(ClaimsFor(f, user, req, r.spec, now));
      if token.None? then Refused(500)
      else Reply(200, Some(MintedToken(token.value, Ttl(r.spec.providers.aws.value))))
  }

  // ---------- Who gets a token ----------

  /** The bearer token belongs to this user. */
  predicate Bears(f: Federation, auth: Option<string>, token: string, user: string) {
    auth == Some("Bearer " + token) && f.review(token) == Some(user)
  }

  /** The user is the account the request is about; a name may go on after a further colon. */
  predicate Speaks(user: string, req: MintRequest) {
    && Plain(req.namespace) && Plain(req.serviceAccountName)
    && (user == "system:serviceaccount:" + req.namespace + ":" + req.serviceAccountName
         || "system:serviceaccount:" + req.namespace + ":" + req.serviceAccountName + ":" <= user)
  }

  /** The lifetime of tokens over a block, an hour unless it says otherwise. */
  predicate LivesFor(aws: AwsProviderSpec, seconds: U64) {
    match aws.maxSessionDurationSeconds
    case Some(s) => seconds == s
    case None => seconds == 3600
  }

  /** What the claims of a token say: who issued it, whom it is about and whom it is for; when it was
      issued, and when it expires (a sum past the end of `u64` starts again from zero). */
  predicate Standard(c: AwsClaims, f: Federation, user: string, aws: AwsProviderSpec, seconds: U64, now: Instant) {
    && c.iss == f.issuer && c.sub == user
    && c.aud == (match aws.audience case Some(a) => a case None => "sts.amazonaws.com")
    && c.iat == c.nbf == now.seconds && c.nanos == now.nanos
    && (c.exp == now.seconds + seconds || c.exp == now.seconds + seconds - 0x1_0000_0000_0000_0000)
  }

  /** The rest: the pod unless the flag says no, the attributes if there are any, and nothing if there
      is neither. */
  predicate Extended(c: AwsClaims, req: MintRequest, attributes: Option<AttributesSpec>) {
    var silent := attributes.Some? && attributes.value.includeProvenance == Some(false);
    var extra := if attributes.Some? then attributes.value.extra else None;
    if silent && extra == None then c.kif == None
    else
      && c.kif.Some? && c.kif.value.attributes == extra
      && c.kif.value.k8s == if silent then None else Some(KifK8s(req.namespace, req.serviceAccountName, req.podName))
  }

  predicate HasAttribute(c: AwsClaims, key: string, value: string) {
    c.kif.Some? && GivesPart(c.kif.value.attributes, key, value)
  }

  predicate ClaimsOf(c: AwsClaims, f: Federation, user: string, req: MintRequest, spec: BindingSpec, now: Instant,
                     seconds: U64) {
    && spec.providers.aws.Some? && LivesFor(spec.providers.aws.value, seconds)
    && Standard(c, f, user, spec.providers.aws.value, seconds, now) && Extended(c, req, spec.attributes)
  }

  /** The token is signed over the claims of the spec. */
  ghost predicate Signs(f: Federation, user: string, req: MintRequest, spec: BindingSpec, now: Instant,
                        minted: MintedToken) {
    exists c :: ClaimsOf(c, f, user, req, spec, now, minted.expiresInSeconds) && f.sign(c) == Some(minted.token)
  }

  /** There is just one such text of claims. */
  lemma ClaimsUnique(f: Federation, user: string, req: MintRequest, spec: BindingSpec, now: Instant, c: AwsClaims,
                     seconds: U64)
    requires spec.providers.aws.Some?
    ensures ClaimsOf(c, f, user, req, spec, now, seconds) <==>
      c == ClaimsFor(f, user, req, spec, now) && seconds == Ttl(spec.providers.aws.value)
  {
    var n := now.seconds + seconds;
    if n >= 0x1_0000_0000_0000_0000 {
      assert n % 0x1_0000_0000_0000_0000 == n - 0x1_0000_0000_0000_0000;
    }
  }

  lemma SignsExactly(f: Federation, user: string, req: MintRequest, spec: BindingSpec, now: Instant,
                     minted: MintedToken)
    requires spec.providers.aws.Some?
    ensures Signs(f, user, req, spec, now, minted) <==>
      minted.expiresInSeconds == Ttl(spec.providers.aws.value)
      && f.sign(ClaimsFor(f, user, req, spec, now)) == Some(minted.token)
  {
    ClaimsUnique(f, user, req, spec, now, ClaimsFor(f, user, req, spec, now), Ttl(spec.providers.aws.value));
    if c :| ClaimsOf(c, f, user, req, spec, now, minted.expiresInSeconds) && f.sign(c) == Some(minted.token) {
      ClaimsUnique(f, user, req, spec, now, c, minted.expiresInSeconds);
    }
  }

  lemma BearerUnique(f: Federation, auth: Option<string>, token: string, user: string)
    requires Bears(f, auth, token, user)
    ensures BEARER <= auth.value && auth.value[|BEARER|..] == token
  {
    assert auth.value == BEARER + token;
  }

  lemma SpeaksMeansParsed(user: string, req: MintRequest)
    ensures Speaks(user, req) <==> Parse(user) == Some((req.namespace, req.serviceAccountName))
  {
    ParseInvertsPrint(user, req.namespace, req.serviceAccountName);
  }

  /** A caller with a reviewed token of the account itself is answered over the stored object. */
  lemma CallerServed(f: Federation, auth: Option<string>, req: MintRequest, up: bool, stored: map<Key, Resolved>,
                     now: Instant, token: string, user: string)
    requires Bears(f, auth, token, user) && Speaks(user, req)
    ensures MintReply(f, auth, req, up, stored, now) ==
      if up && RequestKey(req) in stored then MintFor(f, user, req, stored[RequestKey(req)], now) else Refused(404)
  {
    BearerUnique(f, auth, token, user);
    SpeaksMeansParsed(user, req);
  }

  /** Everyone else is turned away before the object is looked at: with 403 exactly when a reviewed
      token names another account, with 401 when there is no reviewed token of any account. */
  lemma OthersRefused(f: Federation, auth: Option<string>, req: MintRequest, up: bool, stored: map<Key, Resolved>,
                      now: Instant)
    ensures MintReply(f, auth, req, up, stored, now).code == 401 <==>
      !exists token, user :: Bears(f, auth, token, user) && Parse(user).Some?
    ensures MintReply(f, auth, req, up, stored, now).code == 403 <==>
      exists token, user :: Bears(f, auth, token, user) && Parse(user).Some? && !Speaks(user, req)
  {
    if token, user :| Bears(f, auth, token, user) && Parse(user).Some? {
      BearerUnique(f, auth, token, user);
      SpeaksMeansParsed(user, req);
      forall t, u | Bears(f, auth, t, u) ensures u == user { BearerUnique(f, auth, t, u); }
    } else if auth.Some? && BEARER <= auth.value && f.review(auth.value[|BEARER|..]).Some? {
      assert auth.value == BEARER + auth.value[|BEARER|..];
      assert Bears(f, auth, auth.value[|BEARER|..], f.review(auth.value[|BEARER|..]).value);
    }
  }

  /** A token is minted exactly for a caller that bears a token of the account itself, when the
      account's object is there with an AWS block and the very hash the caller sent, and signing works;
      the token is the signature of the claims of that object's spec. */
  lemma MintedExactly(f: Federation, auth: Option<string>, req: MintRequest, up: bool, stored: map<Key, Resolved>,
                      now: Instant, minted: MintedToken)
    ensures MintReply(f, auth, req, up, stored, now) == Reply(200, Some(minted)) <==>
      exists bearer, user :: Bears(f, auth, bearer, user) && Speaks(user, req)
        && up && Key(req.namespace, req.serviceAccountName) in stored
        && IsTokenOf(f, user, req, stored[Key(req.namespace, req.serviceAccountName)], now, minted)
    ensures MintReply(f, auth, req, up, stored, now).code == 200 <==> MintReply(f, auth, req, up, stored, now).aws.Some?
  {
    OthersRefused(f, auth, req, up, stored, now);
    if MintReply(f, auth, req, up, stored, now).code !in {401, 403} {
      var bearer, user :| Bears(f, auth, bearer, user) && Parse(user).Some?;
      assert Speaks(user, req);
      MintedFor(f, auth, req, up, stored, now, minted, bearer, user);
    }
    if bearer, user :| Bears(f, auth, bearer, user) && Speaks(user, req) {
      MintedFor(f, auth, req, up, stored, now, minted, bearer, user);
      forall t, u | Bears(f, auth, t, u) ensures u == user {
        BearerUnique(f, auth, t, u);
        BearerUnique(f, auth, bearer, user);
      }
    }
  }

  lemma MintedFor(f: Federation, auth: Option<string>, req: MintRequest, up: bool, stored: map<Key, Resolved>,
                  now: Instant, minted: MintedToken, bearer: string, user: string)
    requires Bears(f, auth, bearer, user) && Speaks(user, req)
    ensures var k := Key(req.namespace, req.serviceAccountName);
      MintReply(f, auth, req, up, stored, now) == Reply(200, Some(minted)) <==>
        up && k in stored && IsTokenOf(f, user, req, stored[k], now, minted)
  {
    var k := Key(req.namespace, req.serviceAccountName);
    CallerServed(f, auth, req, up, stored, now, bearer, user);
    if k in stored && stored[k].spec.providers.aws.Some? {
      SignsExactly(f, user, req, stored[k].spec, now, minted);
    }
  }

  ghost predicate IsTokenOf(f: Federation, user: string, req: MintRequest, r: Resolved, now: Instant,
                            minted: MintedToken) {
    && r.status.Some? && r.status.value.configHash == Some(req.configHash)
    && Signs(f, user, req, r.spec, now, minted)
  }

  // ---------- What a token says ----------

  /** A token expires its lifetime after it was issued, unless that is past the end of `u64`: then
      it has expired before it was issued. */
  lemma ExpiryExactly(f: Federation, user: string, req: MintRequest, spec: BindingSpec, now: Instant)
    requires spec.providers.aws.Some?
    ensures var c := ClaimsFor(f, user, req, spec, now); var ttl := Ttl(spec.providers.aws.value);
      && c.iat == c.nbf == now.seconds
      && (c.exp == c.iat + ttl <==> ttl < 0x1_0000_0000_0000_0000 - now.seconds)
      && (c.exp < c.iat <==> ttl >= 0x1_0000_0000_0000_0000 - now.seconds)
  {
    var n := now.seconds + Ttl(spec.providers.aws.value);
    if n >= 0x1_0000_0000_0000_0000 {
      assert n % 0x1_0000_0000_0000_0000 == n - 0x1_0000_0000_0000_0000;
    }
  }

  /** What the optional part of the claims tells: the pod exactly when provenance is on, the
      attributes of the spec always, and the part is left out only when it would be empty. */
  lemma ClaimsTell(f: Federation, user: string, req: MintRequest, spec: BindingSpec, now: Instant)
    requires spec.providers.aws.Some?
    ensures var c := ClaimsFor(f, user, req, spec, now);
      && (c.kif.Some? && c.kif.value.k8s.Some? <==> Provenance(spec))
      && (if c.kif.Some? then c.kif.value.attributes else None) == Attributes(spec)
      && (c.kif.None? <==> !Provenance(spec) && Attributes(spec).None?)
  {
  }

  /** Over the result of a merge the token tells what the bindings say: it names the pod unless one of
      them says no, its attributes are just theirs, and audience and lifetime those of the one AWS block. */
  lemma MergedClaims(sa: string, inputs: Bindings, c: AwsClaims, f: Federation, user: string, req: MintRequest,
                     now: Instant, seconds: U64)
    requires Mergeable(multiset(inputs)) && ClaimsOf(c, f, user, req, BuiltSpec(sa, inputs), now, seconds)
    ensures c.kif.Some? && c.kif.value.k8s.Some? <==> !exists x :: x in inputs && GivesFlag(x, false)
    ensures forall k, v :: HasAttribute(c, k, v) <==> exists x :: x in inputs && GivesExtra(x, k, v)
    ensures exists x ::
      && x in inputs && x.spec.providers.aws.Some?
      && LivesFor(x.spec.providers.aws.value, seconds)
      && Standard(c, f, user, x.spec.providers.aws.value, seconds, now)
  {
    SucceedsExactly(sa, inputs);
    ResultMerges(sa, inputs);
    var x :| x in inputs && x.spec.providers.aws.Some?;
    assert x.spec.providers.aws == BuiltSpec(sa, inputs).providers.aws;
    forall k, v
      ensures HasAttribute(c, k, v) <==> exists x :: x in inputs && GivesExtra(x, k, v)
    {
      MergedAttributes(sa, inputs, BuiltSpec(sa, inputs), c, req, k, v);
    }
  }

  lemma MergedAttributes(sa: string, inputs: Bindings, spec: BindingSpec, c: AwsClaims, req: MintRequest, k: string,
                         v: string)
    requires Merges(sa, inputs, spec) && Extended(c, req, spec.attributes)
    ensures HasAttribute(c, k, v) <==> exists x :: x in inputs && GivesExtra(x, k, v)
  {
    assert GivesPart(spec.attributes.value.extra, k, v) <==> exists x :: x in inputs && GivesExtra(x, k, v);
  }

  // ---------- Settled states ----------

  /** The answers over any object: 400 without an AWS block, then 500 without a hash, then 409 for
      another hash than the caller's, and else a token, or 500 if it cannot be signed. */
  lemma AnswersExactly(f: Federation, user: string, req: MintRequest, r: Resolved, now: Instant)
    ensures var code := MintFor(f, user, req, r, now).code;
      var hash := if r.status.Some? then r.status.value.configHash else None;
      && (code == 400 <==> r.spec.providers.aws.None?)
      && (code == 409 <==> r.spec.providers.aws.Some? && hash.Some? && hash != Some(req.configHash))
      && (code == 200 <==> hash == Some(req.configHash) && exists t :: Signs(f, user, req, r.spec, now, t))
      && code in {200, 400, 409, 500}
  {
    if r.spec.providers.aws.Some? {
      forall t
        ensures Signs(f, user, req, r.spec, now, t) <==>
          t.expiresInSeconds == Ttl(r.spec.providers.aws.value)
          && f.sign(ClaimsFor(f, user, req, r.spec, now)) == Some(t.token)
      {
        SignsExactly(f, user, req, r.spec, now, t);
      }
      var token := f.sign(ClaimsFor(f, user, req, r.spec, now));
      if token.Some? {
        assert Signs(f, user, req, r.spec, now, MintedToken(token.value, Ttl(r.spec.providers.aws.value)));
      }
    }
  }

  /** The answers over an object that has a hash exactly when it has an AWS block. */
  lemma AnswersOver(f: Federation, user: string, req: MintRequest, r: Resolved, now: Instant)
    requires HashOf(r).Some? <==> r.spec.providers.aws.Some?
    ensures var code := MintFor(f, user, req, r, now).code;
      && (code == 400 <==> HashOf(r).None?)
      && (code == 409 <==> HashOf(r).Some? && HashOf(r) != Some(req.configHash))
      && (code == 200 || code == 500 <==> HashOf(r) == Some(req.configHash))
  {
  }

  /** In a settled state the answer to a caller of the account depends on its bindings alone: 404 if
      nothing was ever resolved, 400 if they cannot be merged, 409 if the caller's hash is not that
      of their merge, and otherwise a token of their merge, or 500 if it cannot be signed. */
  lemma SettledMint(c: Config, s: State, f: Federation, auth: Option<string>, req: MintRequest, now: Instant,
                    token: string, user: string)
    requires Bears(f, auth, token, user) && Speaks(user, req) && Settled(c, s, RequestKey(req))
    ensures var k := RequestKey(req);
      var code := MintReply(f, auth, req, true, s.api.resolved, now).code;
      var merged := BuiltSpec(k.serviceAccountName, Now(s.api, k));
      if k !in s.api.resolved then code == 404
      else if !Mergeable(multiset(Now(s.api, k))) then code == 400
      else if req.configHash != c.hash(Encode(merged)) then code == 409
      else code == 200 || code == 500
  {
    CallerServed(f, auth, req, true, s.api.resolved, now, token, user);
    var k := RequestKey(req);
    if k in s.api.resolved {
      SettledObject(c, s, k);
      AnswersOver(f, user, req, s.api.resolved[k], now);
    }
  }
}
