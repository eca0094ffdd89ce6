/** The start of the federation service: a signing secret and the published key set
    (`ensure_signing_and_jwks`, app/crates/kif-federation/src/k8s.rs). RSA and the text encodings
    are parameters. One startup runs at a time, and may be cut off between any two calls. */
module Signing {
  import opened Crds

  type Bytes = seq<bv8>

  datatype Secret = Secret(data: Option<map<string, Bytes>>)

  type Cluster = map<string, Secret>

  datatype Material = Material(kid: string, pem: string)

  datatype Jwk = Jwk(kid: string, key: string)

  /** UTF-8 both ways, the public key set of a private key as a document, and the parser of such
      documents. Decoding, a bad private key and parsing may fail. */
  datatype Crypto = Crypto(
    encode: string -> Bytes, decode: Bytes -> Option<string>,
    keySet: Material -> Option<string>, parse: string -> Option<seq<Jwk>>, publicKey: string -> string)

  /** What is assumed of them: texts survive the encoding, and the document of a private key
      parses to the one public key, under the same key id. */
  ghost predicate Sane(c: Crypto) {
    && (forall s :: c.decode(c.encode(s)) == Some(s))
    && (forall m :: c.keySet(m).Some? ==> c.parse(c.keySet(m).value) == Some([Jwk(m.kid, c.publicKey(m.pem))]))
  }

  datatype Names = Names(signing: string, jwks: string)

  const PEM := "private_key_pkcs8.pem"
  const KID := "kid"
  const JWKS := "jwks.json"

  datatype BootError = ApiFails | DataMissing | PemMissing | KidMissing | NotText | KeyGenerationFails | BadKey

  function DataOf(st: Cluster, name: string): map<string, Bytes> {
    if name in st && st[name].data.Some? then st[name].data.value else map[]
  }

  /** A forced apply: sets these entries and leaves others alone. */
  function Applied(st: Cluster, name: string, data: map<string, Bytes>): Cluster {
    st[name := Secret(Some(DataOf(st, name) + data))]
  }

  function StoredMaterial(c: Crypto, s: Secret): Result<Material, BootError> {
    if s.data.None? then Err(DataMissing)
    else if PEM !in s.data.value then Err(PemMissing)
    else if KID !in s.data.value then Err(KidMissing)
    else
      var pem, kid := c.decode(s.data.value[PEM]), c.decode(s.data.value[KID]);
      if pem.None? || kid.None? then Err(NotText) else Ok(Material(kid.value, pem.value))
  }

  function WithSigning(c: Crypto, n: Names, st: Cluster, m: Material): Cluster {
    Applied(st, n.signing, map[PEM := c.encode(m.pem), KID := c.encode(m.kid)])
  }

  function Published(c: Crypto, n: Names, st: Cluster, json: string): Cluster {
    Applied(st, n.jwks, map[JWKS := c.encode(json)])
  }

  // ---------- A startup ----------

  /** The states that a startup passes through when no call fails; `made` is the key pair it would
      generate. */
  function Path(c: Crypto, n: Names, st: Cluster, made: Option<Material>): (p: seq<Cluster>)
    ensures p != [] && p[0] == st
  {
    if n.signing in st then
      var m := StoredMaterial(c, st[n.signing]);
      if m.Err? || c.keySet(m.value).None? then [st] else [st, Published(c, n, st, c.keySet(m.value).value)]
    else if made.None? then [st]
    else
      var st1 := WithSigning(c, n, st, made.value);
      if c.keySet(made.value).None? then [st, st1] else [st, st1, Published(c, n, st1, c.keySet(made.value).value)]
  }

  /** And what it returns in the end. */
  function Ending(c: Crypto, n: Names, st: Cluster, made: Option<Material>): Result<Material, BootError> {
    var m := if n.signing in st then StoredMaterial(c, st[n.signing])
             else if made.None? then Err(KeyGenerationFails) else Ok(made.value);
    if m.Ok? && c.keySet(m.value).None? then Err(BadKey) else m
  }

  /** The secret has the material in its two entries. */
  predicate HoldsMaterial(c: Crypto, s: Secret, m: Material) {
    && s.data.Some? && "private_key_pkcs8.pem" in s.data.value && "kid" in s.data.value
    && c.decode(s.data.value["private_key_pkcs8.pem"]) == Some(m.pem)
    && c.decode(s.data.value["kid"]) == Some(m.kid)
  }

  /** In the end it returns the material of the signing secret if there is one, else the material made,
      exactly if that has a public key set; */
  lemma ReturnsExactly(c: Crypto, n: Names, st: Cluster, made: Option<Material>, m: Material)
    ensures Ending(c, n, st, made) == Ok(m) <==>
      c.keySet(m).Some? && if n.signing in st then HoldsMaterial(c, st[n.signing], m) else made == Some(m)
  {
  }

  /** and then both secrets are as they should be: the signing secret as it was, or holding the material
      made, and the other holding the key set of the material. */
  lemma EndsStored(c: Crypto, n: Names, st: Cluster, made: Option<Material>, m: Material)
    requires Sane(c) && n.signing != n.jwks && Ending(c, n, st, made) == Ok(m)
    ensures var p := Path(c, n, st, made); var st' := p[|p| - 1];
      && n.signing in st' && HoldsMaterial(c, st'[n.signing], m)
      && (n.signing in st ==> st'[n.signing] == st[n.signing])
      && n.jwks in st' && st'[n.jwks].data.Some? && "jwks.json" in st'[n.jwks].data.value
      && c.decode(st'[n.jwks].data.value["jwks.json"]) == c.keySet(m)
  {
    var json := c.keySet(m).value;
    assert c.decode(c.encode(json)) == Some(json);
    if n.signing !in st { StoredBack(c, n, st, m); }
  }

  /** A cluster that answers a given number of further calls and fails the next one. */
  class Secrets {
    var all: Cluster
    var calls: nat
    /** Every state there has been, the present one last. */
    ghost var trace: seq<Cluster>

    ghost predicate Valid()
      reads this
    {
      trace != [] && trace[|trace| - 1] == all
    }

    constructor (found: Cluster, calls: nat)
      ensures Valid() && all == found && this.calls == calls && trace == [found]
    {
      all, this.calls, trace := found, calls, [found];
    }

    /** Spend one call; false when the server fails it. */
    method Answer() returns (ok: bool)
      modifies this`calls
      ensures ok == (old(calls) > 0) && calls == if ok then old(calls) - 1 else 0
    {
      ok := calls > 0;
      calls := if ok then calls - 1 else 0;
    }

    method GetOpt(name: string) returns (r: Result<Option<Secret>, BootError>)
      modifies this`calls
      ensures r == if old(calls) == 0 then Err(ApiFails) else Ok(if name in all then Some(all[name]) else None)
      ensures calls == if old(calls) == 0 then 0 else old(calls) - 1
    {
      var up := Answer();
      if !up { return Err(ApiFails); }
      r := Ok(if name in all then Some(all[name]) else None);
    }

    method Patch(name: string, data: map<string, Bytes>) returns (ok: bool)
      requires Valid()
      modifies this
      ensures ok == (old(calls) > 0) && calls == if ok then old(calls) - 1 else 0
      ensures Valid() && all == if ok then Applied(old(all), name, data) else old(all)
      ensures trace == if ok then old(trace) + [all] else old(trace)
    {
      ok := Answer();
      if ok {
        all := Applied(all, name, data);
        trace := trace + [all];
      }
    }

    method UpsertJwks(c: Crypto, n: Names, json: string) returns (ok: bool)
      requires Valid()
      modifies this
      ensures ok == (old(calls) > 0) && calls == if ok then old(calls) - 1 else 0
      ensures Valid() && all == if ok then Published(c, n, old(all), json) else old(all)
      ensures trace == if ok then old(trace) + [all] else old(trace)
    {
      var data := map[];
      data := data[JWKS := c.encode(json)];
      ok := Patch(n.jwks, data);
    }

    /** `ensure_signing_and_jwks`: goes along its path, one call for the look-up and one for each further
        state; it stops where a call fails, and only there. */
    method Ensure(c: Crypto, n: Names, made: Option<Material>) returns (r: Result<Material, BootError>)
      requires Valid()
      modifies this
      ensures Valid() && old(trace) <= trace
      ensures var p := Path(c, n, old(all), made); var seen := [old(all)] + trace[|old(trace)|..];
        if old(calls) >= |p| then r == Ending(c, n, old(all), made) && seen == p
        else r == Err(ApiFails) && seen == p[..if old(calls) == 0 then 1 else old(calls)]
    {
      var found := GetOpt(n.signing);
      if found.Err? { return Err(ApiFails); }
      var material;
      if found.value.Some? {
        var stored := StoredMaterial(c, found.value.value);
        if stored.Err? { return stored; }
        material := stored.value;
      } else {
        if made.None? { return Err(KeyGenerationFails); }
        material := made.value;
        var data := map[];
        data := data[PEM := c.encode(material.pem)];
        data := data[KID := c.encode(material.kid)];
        assert data == map[PEM := c.encode(material.pem), KID := c.encode(material.kid)];
        var ok := Patch(n.signing, data);
        if !ok { return Err(ApiFails); }
      }
      var json := c.keySet(material);
      if json.None? { return Err(BadKey); }
      var ok := UpsertJwks(c, n, json.value);
      if !ok { return Err(ApiFails); }
      r := Ok(material);
    }
  }

  // ---------- Any sequence of startups ----------

  /** Each startup leaves the cluster in some state of its path: cut off there, failed there, or done. */
  ghost predicate History(c: Crypto, n: Names, states: seq<Cluster>, made: seq<Option<Material>>) {
    && |states| == |made| + 1
    && forall i :: 0 <= i < |made| ==> states[i + 1] in Path(c, n, states[i], made[i])
  }

  /** What was published, if anything, is the public part of the signing secret. */
  predicate Agree(c: Crypto, n: Names, st: Cluster) {
    JWKS in DataOf(st, n.jwks) ==>
      && n.signing in st && StoredMaterial(c, st[n.signing]).Ok?
      && var json := c.keySet(StoredMaterial(c, st[n.signing]).value);
         json.Some? && DataOf(st, n.jwks)[JWKS] == c.encode(json.value)
  }

  lemma StoredBack(c: Crypto, n: Names, st: Cluster, m: Material)
    requires Sane(c) && n.signing !in st
    ensures StoredMaterial(c, WithSigning(c, n, st, m)[n.signing]) == Ok(m)
  {
    assert |PEM| != |KID|;
    assert c.decode(c.encode(m.pem)) == Some(m.pem) && c.decode(c.encode(m.kid)) == Some(m.kid);
  }

  /** From one state to a later one: a signing secret stays as it is, what is published goes on to agree
      with it if it did, and stays published. */
  ghost predicate Preserved(c: Crypto, n: Names, st: Cluster, st': Cluster) {
    && (n.signing in st ==> n.signing in st' && st'[n.signing] == st[n.signing])
    && (Agree(c, n, st) ==> Agree(c, n, st'))
    && (JWKS in DataOf(st, n.jwks) ==> JWKS in DataOf(st', n.jwks))
  }

  /** One startup, wherever it stops. */
  lemma OneStartup(c: Crypto, n: Names, st: Cluster, made: Option<Material>, st': Cluster)
    requires Sane(c) && n.signing != n.jwks && st' in Path(c, n, st, made)
    ensures Preserved(c, n, st, st')
    ensures forall name :: name != n.signing && name != n.jwks ==>
      (name in st' <==> name in st) && (name in st ==> st'[name] == st[name])
  {
    if n.signing !in st && made.Some? {
      StoredBack(c, n, st, made.value);
    }
  }

  /** It writes no entry but the document and those of a signing secret that was not there. */
  lemma EntriesStay(c: Crypto, n: Names, st: Cluster, made: Option<Material>, st': Cluster)
    requires n.signing != n.jwks && st' in Path(c, n, st, made)
    ensures forall name, entry :: entry in DataOf(st, name) && (name == n.jwks ==> entry != "jwks.json") ==>
      entry in DataOf(st', name) && DataOf(st', name)[entry] == DataOf(st, name)[entry]
  {
  }

  lemma PreservedTwice(c: Crypto, n: Names, a: Cluster, b: Cluster, d: Cluster)
    requires Preserved(c, n, a, b) && Preserved(c, n, b, d)
    ensures Preserved(c, n, a, d)
  {
  }

  /** A startup that is done returns the stored material and leaves both secrets agreeing. */
  lemma DoneMeansAgreed(c: Crypto, n: Names, st: Cluster, made: Option<Material>)
    requires Sane(c) && n.signing != n.jwks && Ending(c, n, st, made).Ok?
    ensures var st' := Path(c, n, st, made)[|Path(c, n, st, made)| - 1];
      && n.signing in st' && StoredMaterial(c, st'[n.signing]) == Ending(c, n, st, made)
      && JWKS in DataOf(st', n.jwks) && Agree(c, n, st')
  {
    if n.signing !in st { StoredBack(c, n, st, made.value); }
  }

  lemma HistoryStep(c: Crypto, n: Names, states: seq<Cluster>, made: seq<Option<Material>>, j: nat)
    requires Sane(c) && n.signing != n.jwks && History(c, n, states, made) && 0 < j < |states|
    ensures Preserved(c, n, states[j - 1], states[j])
  {
    OneStartup(c, n, states[j - 1], made[j - 1], states[j]);
  }

  /** Over any sequence of startups, each cut off anywhere: a signing secret never changes once it is
      there, well formed or not, and what is published stays its public part. */
  lemma {:induction false} NeverChanges(c: Crypto, n: Names, states: seq<Cluster>, made: seq<Option<Material>>, i: nat,
                                        j: nat)
    requires Sane(c) && n.signing != n.jwks && History(c, n, states, made) && i <= j < |states|
    ensures Preserved(c, n, states[i], states[j])
    decreases j - i
  {
    if i < j {
      NeverChanges(c, n, states, made, i, j - 1);
      HistoryStep(c, n, states, made, j);
      PreservedTwice(c, n, states[i], states[j - 1], states[j]);
    }
  }

  /** The startup i of a history is done: it reached the end of its path without an error. */
  ghost predicate Done(c: Crypto, n: Names, states: seq<Cluster>, made: seq<Option<Material>>, i: nat, m: Material)
    requires History(c, n, states, made) && i < |made|
  {
    && Ending(c, n, states[i], made[i]) == Ok(m)
    && states[i + 1] == Path(c, n, states[i], made[i])[|Path(c, n, states[i], made[i])| - 1]
  }

  /** Once a startup is done its material is what is stored and published for good, and every later
      startup that gets done returns it again. */
  lemma OneMaterial(c: Crypto, n: Names, states: seq<Cluster>, made: seq<Option<Material>>, i: nat, m: Material)
    requires Sane(c) && n.signing != n.jwks && History(c, n, states, made) && i < |made|
    requires Done(c, n, states, made, i, m)
    ensures forall j :: i < j < |states| ==>
      && n.signing in states[j] && StoredMaterial(c, states[j][n.signing]) == Ok(m)
      && JWKS in DataOf(states[j], n.jwks) && Agree(c, n, states[j])
    ensures forall j :: i < j < |made| ==> Ending(c, n, states[j], made[j]) == Ok(m)
  {
    DoneMeansAgreed(c, n, states[i], made[i]);
    forall j | i < j < |states|
      ensures n.signing in states[j] && StoredMaterial(c, states[j][n.signing]) == Ok(m)
      ensures JWKS in DataOf(states[j], n.jwks) && Agree(c, n, states[j])
    {
      NeverChanges(c, n, states, made, i + 1, j);
    }
  }

  /** If a startup finds a signing secret it cannot use, nothing is ever written, and every later
      startup ends with the same error. */
  lemma {:induction false} MalformedLeftAlone(c: Crypto, n: Names, states: seq<Cluster>, made: seq<Option<Material>>,
                                              i: nat, j: nat)
    requires History(c, n, states, made) && i <= j < |states| && i < |made|
    requires n.signing in states[i] && Ending(c, n, states[i], made[i]).Err?
    ensures states[j] == states[i]
    ensures j < |made| ==> Ending(c, n, states[j], made[j]) == Ending(c, n, states[i], made[i])
    decreases j - i
  {
    if i < j {
      MalformedLeftAlone(c, n, states, made, i, j - 1);
      assert states[j] in Path(c, n, states[j - 1], made[j - 1]);
    }
  }
}
