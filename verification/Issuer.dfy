/** The issuer's store of the last good key set (app/crates/kif-issuer/src/jwks.rs and
    kube_watch.rs), and what it shows of a history of the signing service. */
module Issuer {
  import opened Crds
  import opened Signing

  type KeySet = seq<Jwk>

  /** What the watch delivers; deletions are filtered out. */
  datatype Event = WatchError | Changed(secret: Secret)

  datatype ParseError = NotUtf8 | NotJson | Empty

  /** `parse_jwks`. */
  function ParseJwks(c: Crypto, bytes: Bytes): Result<KeySet, ParseError> {
    var text := c.decode(bytes);
    if text.None? then Err(NotUtf8)
    else
      var keys := c.parse(text.value);
      if keys.None? then Err(NotJson) else if keys.value == [] then Err(Empty) else Ok(keys.value)
  }

  /** The key set an event carries, if it carries a valid one. */
  function Payload(c: Crypto, e: Event): Option<KeySet> {
    if e.Changed? && e.secret.data.Some? && JWKS in e.secret.data.value then
      var r := ParseJwks(c, e.secret.data.value[JWKS]);
      if r.Ok? then Some(r.value) else None
    else None
  }

  /** An event carries a key set exactly if its secret has the document, that is text, and the text
      parses to these keys, at least one. */
  lemma PayloadExactly(c: Crypto, e: Event, keys: KeySet)
    ensures Payload(c, e) == Some(keys) <==>
      && e.Changed? && e.secret.data.Some? && "jwks.json" in e.secret.data.value && keys != []
      && exists text :: c.decode(e.secret.data.value["jwks.json"]) == Some(text) && c.parse(text) == Some(keys)
  {
  }

  /** The key set is that of the last event that carries one; `before` if none does. */
  ghost predicate IsLastGood(c: Crypto, events: seq<Event>, before: Option<KeySet>, keys: Option<KeySet>) {
    if exists i :: 0 <= i < |events| && Payload(c, events[i]).Some?
    then exists i :: LastPayload(c, events, i) && keys == Payload(c, events[i])
    else keys == before
  }

  predicate LastPayload(c: Crypto, events: seq<Event>, i: int) {
    0 <= i < |events| && Payload(c, events[i]).Some? && forall j :: i < j < |events| ==> Payload(c, events[j]).None?
  }

  class JwksStore {
    var inner: Option<KeySet>

    constructor ()
      ensures inner == None
    {
      inner := None;
    }

    predicate IsLoaded()
      reads this
    {
      inner.Some?
    }

    method Set(jwks: KeySet)
      modifies this
      ensures inner == Some(jwks)
    {
      inner := Some(jwks);
    }
  }

  /** The handler of one event. */
  method Handle(store: JwksStore, c: Crypto, ev: Event)
    modifies store
    ensures store.inner == if Payload(c, ev).Some? then Payload(c, ev) else old(store.inner)
  {
    if ev.WatchError? { return; }
    var data := ev.secret.data;
    if data.None? { return; }
    if JWKS !in data.value { return; }
    var parsed := ParseJwks(c, data.value[JWKS]);
    if parsed.Ok? {
      store.Set(parsed.value);
    }
  }

  /** `run_secret_watcher`: the store holds the last valid key set seen. So it is never emptied once
      loaded, and never holds a set without keys. */
  method RunSecretWatcher(store: JwksStore, c: Crypto, events: seq<Event>)
    modifies store
    ensures IsLastGood(c, events, old(store.inner), store.inner)
    ensures old(store.IsLoaded()) ==> store.IsLoaded()
    ensures store.IsLoaded() && store.inner != old(store.inner) ==> store.inner.value != []
  {
    var i := 0;
    while i < |events|
      invariant 0 <= i <= |events| && IsLastGood(c, events[..i], old(store.inner), store.inner)
      invariant old(store.IsLoaded()) ==> store.IsLoaded()
      invariant store.IsLoaded() && store.inner != old(store.inner) ==> store.inner.value != []
    {
      ghost var kept := store.inner;
      Handle(store, c, events[i]);
      OneMore(c, events, i, old(store.inner), kept, store.inner);
      i := i + 1;
    }
    assert events[..i] == events;
  }

  lemma OneMore(c: Crypto, events: seq<Event>, i: nat, before: Option<KeySet>, keys: Option<KeySet>,
                keys': Option<KeySet>)
    requires i < |events| && IsLastGood(c, events[..i], before, keys)
    requires keys' == if Payload(c, events[i]).Some? then Payload(c, events[i]) else keys
    ensures IsLastGood(c, events[..i + 1], before, keys')
  {
    var e, e' := events[..i], events[..i + 1];
    assert e' == e + [events[i]];
    if Payload(c, events[i]).Some? {
      assert LastPayload(c, e', i);
    } else if exists h :: 0 <= h < |e| && Payload(c, e[h]).Some? {
      var h :| LastPayload(c, e, h) && keys == Payload(c, e[h]);
      assert LastPayload(c, e', h);
    } else {
      forall h | 0 <= h < |e'| ensures Payload(c, e'[h]).None? { if h < i { assert e'[h] == e[h]; } }
    }
  }

  // ---------- Together with the signing service ----------

  /** Every event shows the published secret as it was in some state of the history. */
  ghost predicate Watches(n: Names, events: seq<Event>, states: seq<Cluster>) {
    forall e :: e in events && e.Changed? ==>
      exists i :: 0 <= i < |states| && n.jwks in states[i] && states[i][n.jwks] == e.secret
  }

  predicate ShowsState(n: Names, e: Event, states: seq<Cluster>, j: int) {
    e.Changed? && 0 <= j < |states| && n.jwks in states[j] && states[j][n.jwks] == e.secret
  }

  /** Some event shows the secret as it was after startup i. */
  ghost predicate SeenSince(n: Names, events: seq<Event>, states: seq<Cluster>, i: nat) {
    exists e, j :: e in events && ShowsState(n, e, states, j) && i < j
  }

  /** What a published secret that agrees with its signing secret carries. */
  lemma PayloadOfAgreeing(c: Crypto, n: Names, st: Cluster, m: Material)
    requires Sane(c) && n.jwks in st && Agree(c, n, st) && n.signing in st && StoredMaterial(c, st[n.signing]) == Ok(m)
    ensures Payload(c, Changed(st[n.jwks])) ==
      if JWKS in DataOf(st, n.jwks) then Some([Jwk(m.kid, c.publicKey(m.pem))]) else None
  {
    if JWKS in DataOf(st, n.jwks) {
      var json := c.keySet(m).value;
      assert c.decode(c.encode(json)) == Some(json);
      assert c.parse(json) == Some([Jwk(m.kid, c.publicKey(m.pem))]);
    }
  }

  lemma WatchedPayload(c: Crypto, n: Names, states: seq<Cluster>, made: seq<Option<Material>>, i: nat, m: Material,
                       secret: Secret, j: nat)
    requires Sane(c) && n.signing != n.jwks && History(c, n, states, made) && Agree(c, n, states[0])
    requires i < |made| && Done(c, n, states, made, i, m)
    requires j < |states| && n.jwks in states[j] && states[j][n.jwks] == secret
    ensures Payload(c, Changed(secret)) in {None, Some([Jwk(m.kid, c.publicKey(m.pem))])}
  {
    OneMaterial(c, n, states, made, i, m);
    NeverChanges(c, n, states, made, 0, j);
    if JWKS in DataOf(states[j], n.jwks) {
      var last := |states| - 1;
      NeverChanges(c, n, states, made, j, last);
      PayloadOfAgreeing(c, n, states[j], m);
    }
  }

  /** Whatever the issuer starts with, from its file, and whatever it has seen of a history since, over
      any startups cut off anywhere: it serves what it started with or exactly one key, the public key
      of the material that any startup which got done signs with, under the key id that startup
      writes into its tokens; and the latter once it has seen the secret as of that startup or later. */
  lemma ServesTheSigningKey(c: Crypto, n: Names, states: seq<Cluster>, made: seq<Option<Material>>, i: nat, m: Material,
                            events: seq<Event>, before: Option<KeySet>, keys: Option<KeySet>)
    requires Sane(c) && n.signing != n.jwks && History(c, n, states, made) && Agree(c, n, states[0])
    requires i < |made| && Done(c, n, states, made, i, m)
    requires Watches(n, events, states) && IsLastGood(c, events, before, keys)
    ensures keys == before || keys == Some([Jwk(m.kid, c.publicKey(m.pem))])
    ensures SeenSince(n, events, states, i) ==> keys == Some([Jwk(m.kid, c.publicKey(m.pem))])
  {
    forall h | 0 <= h < |events| ensures Payload(c, events[h]) in {None, Some([Jwk(m.kid, c.publicKey(m.pem))])} {
      if events[h].Changed? {
        assert events[h] in events;
        var j :| 0 <= j < |states| && n.jwks in states[j] && states[j][n.jwks] == events[h].secret;
        WatchedPayload(c, n, states, made, i, m, events[h].secret, j);
      }
    }
    if SeenSince(n, events, states, i) {
      var e, j :| e in events && ShowsState(n, e, states, j) && i < j;
      OneMaterial(c, n, states, made, i, m);
      PayloadOfAgreeing(c, n, states[j], m);
      var h :| 0 <= h < |events| && events[h] == e;
      assert Payload(c, events[h]).Some?;
    }
  }
}
