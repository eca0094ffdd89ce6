/** Runs that show where the stronger claims fail: an event merged into a reconcile that had
    listed already is lost; a failed status patch leaves an object from two builds; and the
    controller's own status writes can keep it busy for ever. */
module Witnesses {
  import opened Crds
  import opened Merge
  import opened MergeTheorems
  import opened Build
  import opened ApiServer
  import opened Reconcile
  import opened Controller
  import opened Convergence
  import opened Invariant
  import opened Results
  import Ordered
  import Queue

  ghost predicate Leads(c: Config, s: State, run: seq<Action>, t: State) {
    Legal(c, s, run) && After(c, s, run) == t
  }

  lemma {:induction false} Joined(c: Config, s: State, r1: seq<Action>, t: State, r2: seq<Action>, u: State)
    requires Leads(c, s, r1, t) && Leads(c, t, r2, u)
    ensures Leads(c, s, r1 + r2, u)
    decreases |r1|
  {
    if r1 == [] {
      assert r1 + r2 == r2;
    } else {
      Joined(c, Next(c, s, r1[0]), r1[1..], t, r2, u);
      assert (r1 + r2)[0] == r1[0] && (r1 + r2)[1..] == r1[1..] + r2;
    }
  }

  /** A run and one more step. */
  lemma AppendStep(c: Config, s: State, run: seq<Action>, t: State, a: Action, u: State)
    requires Leads(c, s, run, t) && Enabled(c, t, a) && Next(c, t, a) == u
    ensures Leads(c, s, run + [a], u)
  {
    assert Legal(c, u, []) && [a][1..] == [];
    Joined(c, s, run, t, [a], u);
  }

  /** One step and then a run. */
  lemma PrependStep(c: Config, s: State, a: Action, s1: State, rest: seq<Action>, t: State)
    requires Enabled(c, s, a) && Next(c, s, a) == s1 && Leads(c, s1, rest, t)
    ensures Leads(c, s, [a] + rest, t)
  {
    assert ([a] + rest)[0] == a && ([a] + rest)[1..] == rest;
  }

  lemma SingleStep(c: Config, s: State, a: Action, t: State)
    requires Enabled(c, s, a) && Next(c, s, a) == t
    ensures Leads(c, s, [a], t)
  {
    assert Leads(c, t, [], t);
    PrependStep(c, s, a, t, [], t);
    assert [a] + [] == [a];
  }

  // ---------- Pieces of runs ----------

  /** The one event is delivered and its key sent. */
  lemma Deliver(c: Config, s: State, k: Key) returns (run: seq<Action>)
    requires s.watcher.Waiting? && s.events == [k] && s.lock.Nobody? && k !in s.queue.inFlight
    requires |s.queue.channel| < c.buffer
    ensures Leads(c, s, run, s.(events := [], queue := Queue.View(s.queue.inFlight + {k}, s.queue.channel + [k])))
    ensures run == [NextEvent, LockSet, InsertOrDrop, SendKey]
  {
    var s1 := s.(watcher := WantsLock(k), events := []);
    var s2 := s1.(watcher := Locked(k), lock := TheWatcher);
    var s3 := s2.(watcher := Sending(k), lock := Nobody, queue := Queue.Insert(s.queue, k));
    AppendStep(c, s, [], s, NextEvent, s1);
    AppendStep(c, s, [] + [NextEvent], s1, LockSet, s2);
    AppendStep(c, s, [] + [NextEvent] + [LockSet], s2, InsertOrDrop, s3);
    AppendStep(c, s, [] + [NextEvent] + [LockSet] + [InsertOrDrop], s3, SendKey,
         s3.(watcher := Waiting, queue := Queue.Push(s3.queue, k)));
    run := [] + [NextEvent] + [LockSet] + [InsertOrDrop] + [SendKey];
  }

  /** The next event is delivered and merged into work under way. */
  lemma DeliverLate(c: Config, s: State, k: Key) returns (run: seq<Action>, t: State)
    requires s.watcher.Waiting? && s.events != [] && s.events[0] == k && s.lock.Nobody? && k in s.queue.inFlight
    ensures Leads(c, s, run, t)
    ensures t == s.(events := s.events[1..], missed := if Outdated(s, k) then s.missed + {k} else s.missed)
  {
    t := s.(events := s.events[1..], missed := if Outdated(s, k) then s.missed + {k} else s.missed);
    var s1 := s.(watcher := WantsLock(k), events := s.events[1..]);
    var s2 := s1.(watcher := Locked(k), lock := TheWatcher);
    AppendStep(c, s, [], s, NextEvent, s1);
    AppendStep(c, s, [] + [NextEvent], s1, LockSet, s2);
    assert Outdated(s2, k) <==> Outdated(s, k);
    AppendStep(c, s, [] + [NextEvent] + [LockSet], s2, InsertOrDrop, t);
    run := [] + [NextEvent] + [LockSet] + [InsertOrDrop];
  }

  lemma PickUp(c: Config, s: State, k: Key) returns (run: seq<Action>)
    requires s.workers == [Receiving] && s.queue.channel == [k]
    ensures Leads(c, s, run, s.(workers := [Got(k)], queue := Queue.View(s.queue.inFlight, [])))
    ensures run == [Work(0, Receive)]
  {
    var t := s.(workers := [Got(k)], queue := Queue.View(s.queue.inFlight, []));
    assert StepOf(c, s, 0, Receive) == t;
    AppendStep(c, s, [], s, Work(0, Receive), t);
    run := [] + [Work(0, Receive)];
  }

  /** A store with one binding, of the account k. */
  predicate Single(st: Store, k: Key, id: BindingId, b: CloudRoleBinding) {
    && st.bindings == map[id := b] && b.name == Some(id.name) && id.name != "" && KeyOf(id, b) == k
    && k.serviceAccountName != ""
  }

  /** The binding sets the AWS block, so it can be merged alone. */
  lemma AloneMerges(sa: string, b: CloudRoleBinding)
    requires SetsAws(b)
    ensures Outcome(sa, [b]) == Ok(Combined(sa, b.spec.providers.aws.value, Flag(b), Extra(b)))
  {
    assert AwsSetter([b], 0) == None && AllExtra([b], 0) == map[] && FirstFlag([b], 0) == None;
    assert Fault([b], 0) == None && FirstFault([b], 1) == None && FirstFault([b], 0) == None;
    assert AllExtra([b], 1) == Extra(b);
  }

  /** A binding without the AWS block fails alone, and is blamed for it. */
  lemma AloneFails(sa: string, b: CloudRoleBinding)
    requires !SetsAws(b)
    ensures Outcome(sa, [b]).Err? && (b.name.Some? ==> Outcome(sa, [b]).error.affected == [b.name.value])
  {
    assert FirstFault([b], 0) == None && FirstFault([b], 1) == Fault([b], 0);
    assert AwsSetter([b], 0) == None && AllExtra([b], 0) == map[] && FirstFlag([b], 0) == None;
    assert [b][1..] == [] && Names([b]) == (if b.name.Some? then [b.name.value] else []) + Names([]);
    assert AwsSetter([b], 1) == None;
    assert FirstFault([b], 1) == None || FirstFault([b], 1) == Some(MissingProvider(b));
  }

  lemma SingleListing(st: Store, k: Key, id: BindingId, b: CloudRoleBinding)
    requires Single(st, k, id, b)
    ensures IsListing(st, k.namespace, [b]) && Select([b], k.serviceAccountName) == [b]
  {
  }

  /** List the one binding and write its status. */
  lemma ListAndWrite(c: Config, s: State, k: Key, id: BindingId, b: CloudRoleBinding, emits: bool)
    returns (run: seq<Action>)
    requires Single(s.api, k, id, b) && s.workers == [Got(k)]
    ensures var issue := Issue(k, [b]);
      Leads(c, s, run, s.(workers := [Writing(k, [b], [])], missed := s.missed - {k},
        api := s.api.(bindings := map[id := b.(status := Some(StatusFor(b, issue)))]),
        events := if emits then s.events + [k] else s.events))
    ensures run == [Work(0, List([b])), Work(0, WriteStatus(emits))]
  {
    var issue := Issue(k, [b]);
    SingleListing(s.api, k, id, b);
    if SetsAws(b) { AloneMerges(k.serviceAccountName, b); } else { AloneFails(k.serviceAccountName, b); }
    var u := b.(status := Some(StatusFor(b, issue)));
    assert Touched(b, issue);
    assert Updates([b], issue) == [u];
    var s1 := s.(workers := [Writing(k, [b], [u])], missed := s.missed - {k});
    assert StepOf(c, s, 0, List([b])) == s1;
    AppendStep(c, s, [], s, Work(0, List([b])), s1);
    var s2 := s1.(workers := [Writing(k, [b], [])],
      api := s.api.(bindings := map[id := u]), events := if emits then s.events + [k] else s.events);
    assert ReplaceStatus(s.api, k.namespace, u).bindings == map[id := u];
    assert StepOf(c, s1, 0, WriteStatus(emits)) == s2;
    AppendStep(c, s, [] + [Work(0, List([b]))], s1, Work(0, WriteStatus(emits)), s2);
    run := [] + [Work(0, List([b]))] + [Work(0, WriteStatus(emits))];
  }

  lemma BothPatches(c: Config, s: State, k: Key, snap: Bindings) returns (run: seq<Action>)
    requires s.workers == [Writing(k, snap, [])] && k.serviceAccountName != ""
    ensures Leads(c, s, run, s.(workers := [Finishing(k, Some(snap))], torn := s.torn - {k},
      api := s.api.(resolved := s.api.resolved[k := Built(c.hash, k.serviceAccountName, snap)])))
    ensures run == [Work(0, SpecPatch), Work(0, StatusPatch)]
  {
    var built := Built(c.hash, k.serviceAccountName, snap);
    var s1 := s.(workers := [Between(k, snap)], api := PatchSpec(s.api, k, built));
    SpecPatchStep(c, s, k, snap);
    AppendStep(c, s, [], s, Work(0, SpecPatch), s1);
    var s2 := s1.(workers := [Finishing(k, Some(snap))], torn := s.torn - {k},
      api := s.api.(resolved := s.api.resolved[k := built]));
    StatusPatchStep(c, s1, k, snap, s.api);
    AppendStep(c, s, [] + [Work(0, SpecPatch)], s1, Work(0, StatusPatch), s2);
    run := [] + [Work(0, SpecPatch)] + [Work(0, StatusPatch)];
  }

  lemma SpecPatchStep(c: Config, s: State, k: Key, snap: Bindings)
    requires s.workers == [Writing(k, snap, [])] && k.serviceAccountName != ""
    ensures Enabled(c, s, Work(0, SpecPatch))
    ensures Next(c, s, Work(0, SpecPatch)) ==
      s.(workers := [Between(k, snap)], api := PatchSpec(s.api, k, Built(c.hash, k.serviceAccountName, snap)))
  {
  }

  lemma StatusPatchStep(c: Config, s: State, k: Key, snap: Bindings, before: Store)
    requires s.workers == [Between(k, snap)] && s.api == PatchSpec(before, k, Built(c.hash, k.serviceAccountName, snap))
    ensures Enabled(c, s, Work(0, StatusPatch))
    ensures Next(c, s, Work(0, StatusPatch)) == s.(workers := [Finishing(k, Some(snap))], torn := s.torn - {k},
      api := before.(resolved := before.resolved[k := Built(c.hash, k.serviceAccountName, snap)]))
  {
    var built := Built(c.hash, k.serviceAccountName, snap);
    BothPatched(before, k, built);
    assert StepOf(c, s, 0, StatusPatch) == s.(workers := [Finishing(k, Some(snap))], torn := s.torn - {k},
      api := PatchStatus(s.api, k, built));
  }

  lemma BothPatched(st: Store, k: Key, built: Resolved)
    requires built.status.Some?
    ensures k in PatchSpec(st, k, built).resolved
    ensures PatchStatus(PatchSpec(st, k, built), k, built) == st.(resolved := st.resolved[k := built])
  {
  }

  /** Both patches, `done`, and back to waiting for a key. */
  lemma PatchAndFinish(c: Config, s: State, k: Key, snap: Bindings) returns (run: seq<Action>)
    requires s.workers == [Writing(k, snap, [])] && s.lock.Nobody? && k.serviceAccountName != ""
    ensures Leads(c, s, run, s.(workers := [Receiving], queue := Queue.Remove(s.queue, k), torn := s.torn - {k},
      api := s.api.(resolved := s.api.resolved[k := Built(c.hash, k.serviceAccountName, snap)])))
    ensures run ==
      [Work(0, SpecPatch), Work(0, StatusPatch)] + [Work(0, LockForDone), Work(0, RemoveKey), Work(0, TakeReceiver)]
  {
    var patched := s.(workers := [Finishing(k, Some(snap))], torn := s.torn - {k},
      api := s.api.(resolved := s.api.resolved[k := Built(c.hash, k.serviceAccountName, snap)]));
    var both := BothPatches(c, s, k, snap);
    var rest := GiveBack(c, patched, k, Some(snap));
    Joined(c, s, both, patched, rest, patched.(workers := [Receiving], queue := Queue.Remove(s.queue, k)));
    run := both + rest;
  }

  lemma GiveBack(c: Config, s: State, k: Key, seen: Option<Bindings>) returns (run: seq<Action>)
    requires s.workers == [Finishing(k, seen)] && s.lock.Nobody?
    ensures Leads(c, s, run, s.(workers := [Receiving], queue := Queue.Remove(s.queue, k)))
    ensures run == [Work(0, LockForDone), Work(0, RemoveKey), Work(0, TakeReceiver)]
  {
    var s1 := s.(workers := [Removing(k, seen)], lock := TheWorker(0));
    var s2 := s.(workers := [Idle], queue := Queue.Remove(s.queue, k));
    var s3 := s2.(workers := [Receiving]);
    assert StepOf(c, s, 0, LockForDone) == s1;
    assert StepOf(c, s1, 0, RemoveKey) == s2;
    assert StepOf(c, s2, 0, TakeReceiver) == s3;
    AppendStep(c, s, [], s, Work(0, LockForDone), s1);
    AppendStep(c, s, [] + [Work(0, LockForDone)], s1, Work(0, RemoveKey), s2);
    AppendStep(c, s, [] + [Work(0, LockForDone)] + [Work(0, RemoveKey)], s2, Work(0, TakeReceiver), s3);
    run := [] + [Work(0, LockForDone)] + [Work(0, RemoveKey)] + [Work(0, TakeReceiver)];
  }

  // ---------- A start over one binding ----------

  /** One worker, waiting; one event for the one binding; perhaps a resolved object from before. */
  ghost function Started(k: Key, id: BindingId, b: CloudRoleBinding, resolved: map<Key, Resolved>): State {
    State(Queue.View({}, []), Nobody, Waiting, [Receiving], [k], Store(map[id := b], resolved), {}, {})
  }

  lemma StartedInit(c: Config, k: Key, id: BindingId, b: CloudRoleBinding, resolved: map<Key, Resolved>)
    requires Single(Store(map[id := b], resolved), k, id, b)
    requires resolved.Keys <= {k} && (k in resolved ==> FromOneBuild(c.hash, k.serviceAccountName, resolved[k]))
    ensures Init(c, Started(k, id, b, resolved).(workers := [Idle]))
  {
    var s := Started(k, id, b, resolved);
    NowNotEmpty(s.api, k, id, b);
    if k in resolved {
      var x :| IsBuild(c.hash, k.serviceAccountName, x, resolved[k]);
      OneBuildIsParts(c.hash, k.serviceAccountName, resolved[k], x);
    }
    forall k' ensures FoundObject(c, s, k') {
      assert k' in resolved ==> k' == k;
    }
  }

  lemma NowNotEmpty(st: Store, k: Key, id: BindingId, b: CloudRoleBinding)
    requires Single(st, k, id, b)
    ensures Now(st, k) != []
  {
    NowIsCurrent(st, k);
    assert IsRelevant(k, id, st.bindings[id]);
  }

  lemma StartedReachable(c: Config, k: Key, id: BindingId, b: CloudRoleBinding, resolved: map<Key, Resolved>)
    requires Single(Store(map[id := b], resolved), k, id, b)
    requires resolved.Keys <= {k} && (k in resolved ==> FromOneBuild(c.hash, k.serviceAccountName, resolved[k]))
    ensures Reachable(c, Started(k, id, b, resolved))
  {
    StartedInit(c, k, id, b, resolved);
    var t := Started(k, id, b, resolved);
    var s := t.(workers := [Idle]);
    assert StepOf(c, s, 0, TakeReceiver) == t;
    AppendStep(c, s, [], s, Work(0, TakeReceiver), t);
  }

  lemma Further(c: Config, s: State, run: seq<Action>, t: State)
    requires Reachable(c, s) && Leads(c, s, run, t)
    ensures Reachable(c, t)
  {
    var s0, r :| Init(c, s0) && Legal(c, s0, r) && After(c, s0, r) == s;
    Joined(c, s0, r, s, run, t);
  }

  // ---------- The witnesses ----------

  /** From a start: the worker lists b and writes its status; the state then. */
  ghost function Listed(k: Key, id: BindingId, b: CloudRoleBinding, resolved: map<Key, Resolved>): State {
    State(Queue.View({k}, []), Nobody, Waiting, [Writing(k, [b], [])], [],
          Store(map[id := b.(status := Some(StatusFor(b, Issue(k, [b]))))], resolved), {}, {})
  }

  lemma ListedReachable(c: Config, k: Key, id: BindingId, b: CloudRoleBinding, resolved: map<Key, Resolved>)
    requires Single(Store(map[id := b], resolved), k, id, b) && c.buffer > 0
    requires resolved.Keys <= {k} && (k in resolved ==> FromOneBuild(c.hash, k.serviceAccountName, resolved[k]))
    ensures Reachable(c, Listed(k, id, b, resolved))
  {
    var s0 := Started(k, id, b, resolved);
    StartedReachable(c, k, id, b, resolved);
    var r1 := Deliver(c, s0, k);
    var s1 := s0.(events := [], queue := Queue.View({k}, [k]));
    Further(c, s0, r1, s1);
    var r2 := PickUp(c, s1, k);
    var s2 := s1.(workers := [Got(k)], queue := Queue.View({k}, []));
    Further(c, s1, r2, s2);
    var r3 := ListAndWrite(c, s2, k, id, b, false);
    Further(c, s2, r3, Listed(k, id, b, resolved));
  }

  lemma EditStep(c: Config, s: State, k: Key, id: BindingId, b: CloudRoleBinding)
    requires s.api.bindings.Keys == {id} && KeyOf(id, s.api.bindings[id]) == KeyOf(id, b) == k
    requires b.name == Some(id.name)
    requires s.events == [] && s.missed == {}
    ensures Leads(c, s, [] + [Edit(id, b)],
      s.(api := s.api.(bindings := map[id := b.(status := s.api.bindings[id].status)]), events := [k]))
  {
    var t := s.(api := s.api.(bindings := map[id := b.(status := s.api.bindings[id].status)]), events := [k]);
    assert s.api.bindings[id := b.(status := s.api.bindings[id].status)] == t.api.bindings;
    assert EditBinding(s, id, b) == t;
    AppendStep(c, s, [], s, Edit(id, b), t);
  }

  /** An edit after the list call, whose event is merged into the work under way. */
  lemma EditMissed(c: Config, s: State, k: Key, id: BindingId, b1: CloudRoleBinding, b2: CloudRoleBinding)
    returns (t: State)
    requires s == Listed(k, id, b1, map[]) && Reachable(c, s)
    requires Single(Store(map[id := b1], map[]), k, id, b1) && Single(Store(map[id := b2], map[]), k, id, b2)
    ensures Reachable(c, t) && t == s.(missed := t.missed, api := t.api) && t.missed <= {k} && t.api.resolved == map[]
    ensures id in t.api.bindings && Single(t.api, k, id, b2.(status := t.api.bindings[id].status))
  {
    var b2' := b2.(status := s.api.bindings[id].status);
    var s1 := s.(api := Store(map[id := b2'], map[]), events := [k]);
    EditStep(c, s, k, id, b2);
    Further(c, s, [] + [Edit(id, b2)], s1);
    var late;
    late, t := DeliverLate(c, s1, k);
    Further(c, s1, late, t);
  }

  /** Nothing is under way, and the one worker waits for a key. */
  predicate AtRest(s: State) {
    && s.workers == [Receiving] && s.queue == Queue.View({}, []) && s.events == []
    && s.lock.Nobody? && s.watcher.Waiting?
  }

  /** Finishing the work under way, from any reachable state. */
  lemma FinishQuietly(c: Config, s: State, k: Key, snap: Bindings) returns (t: State)
    requires Reachable(c, s) && s.workers == [Writing(k, snap, [])] && s.queue == Queue.View({k}, [])
    requires s.lock.Nobody? && s.watcher.Waiting? && s.events == [] && k.serviceAccountName != ""
    ensures Reachable(c, t) && Quiescent(t) && AtRest(t) && t.missed == s.missed && t.torn == s.torn - {k}
    ensures t.api.bindings == s.api.bindings && SpecFrom(t.api, k, snap)
    ensures t.api.resolved == s.api.resolved[k := Built(c.hash, k.serviceAccountName, snap)]
  {
    var run := PatchAndFinish(c, s, k, snap);
    t := s.(workers := [Receiving], queue := Queue.Remove(s.queue, k), torn := s.torn - {k},
      api := s.api.(resolved := s.api.resolved[k := Built(c.hash, k.serviceAccountName, snap)]));
    Further(c, s, run, t);
    BuiltCoherent(c.hash, k.serviceAccountName, snap);
  }

  /** A change can be lost: for any two versions of a binding there is a reachable quiet state that
      stores the merge of the old version while the new one is there, and so it is out of date
      exactly if the two merge differently. */
  lemma LostUpdate(c: Config, k: Key, id: BindingId, b1: CloudRoleBinding, b2: CloudRoleBinding) returns (s: State)
    requires Single(Store(map[id := b1], map[]), k, id, b1) && Single(Store(map[id := b2], map[]), k, id, b2)
    requires c.buffer > 0
    ensures Reachable(c, s) && Quiescent(s) && s.missed <= {k} && s.torn == {}
    ensures id in s.api.bindings && Single(s.api, k, id, b2.(status := s.api.bindings[id].status))
    ensures SpecFrom(s.api, k, [b1])
    ensures Converged(s.api, k) <==> BuiltSpec(k.serviceAccountName, [b1]) == BuiltSpec(k.serviceAccountName, [b2])
  {
    ListedReachable(c, k, id, b1, map[]);
    var s1 := EditMissed(c, Listed(k, id, b1, map[]), k, id, b1, b2);
    s := FinishQuietly(c, s1, k, [b1]);
    var b2' := s.api.bindings[id];
    NowOfSingle(s.api, k, id, b2');
    OnlyStatusDiffers(k.serviceAccountName, b2, b2');
  }

  /** The first version of a binding is reconciled, and all is at rest. */
  lemma RestedOn(c: Config, k: Key, id: BindingId, b: CloudRoleBinding) returns (s: State)
    requires Single(Store(map[id := b], map[]), k, id, b) && c.buffer > 0
    ensures Reachable(c, s) && AtRest(s) && s.missed == {} && s.torn == {}
    ensures s.api.bindings.Keys == {id} && KeyOf(id, s.api.bindings[id]) == k
    ensures s.api.resolved.Keys == {k} && SpecFrom(s.api, k, [b])
  {
    ListedReachable(c, k, id, b, map[]);
    s := FinishQuietly(c, Listed(k, id, b, map[]), k, [b]);
  }

  /** The one event is delivered to the one worker. */
  lemma TakeUp(c: Config, s: State, k: Key) returns (t: State)
    requires Reachable(c, s) && c.buffer > 0 && AtRest(s.(events := [])) && s.events == [k]
    ensures Reachable(c, t) && t == s.(events := [], workers := [Got(k)], queue := Queue.View({k}, []))
  {
    var r1 := Deliver(c, s, k);
    var s1 := s.(events := [], queue := Queue.View({k}, [k]));
    Further(c, s, r1, s1);
    var r2 := PickUp(c, s1, k);
    t := s1.(workers := [Got(k)], queue := Queue.View({k}, []));
    Further(c, s1, r2, t);
  }

  lemma ListingLost(c: Config, s: State, k: Key) returns (t: State)
    requires Reachable(c, s) && s.workers == [Got(k)] && s.queue == Queue.View({k}, []) && s.lock.Nobody?
    requires s.watcher.Waiting? && s.events == []
    ensures Reachable(c, t) && AtRest(t) && t.api == s.api && t.torn == s.torn && t.missed == s.missed + {k}
  {
    var s1 := s.(workers := [Finishing(k, None)], missed := s.missed + {k});
    assert StepOf(c, s, 0, ListFails) == s1;
    AppendStep(c, s, [], s, Work(0, ListFails), s1);
    Further(c, s, [] + [Work(0, ListFails)], s1);
    var rest := GiveBack(c, s1, k, None);
    t := s1.(workers := [Receiving], queue := Queue.Remove(s.queue, k));
    Further(c, s1, rest, t);
  }

  /** An error is not made up for: a binding is edited, the list call for it fails, and there is a
      reachable quiet state that stores the old merge, out of date exactly if the two versions merge
      differently. */
  lemma FailedReconcile(c: Config, k: Key, id: BindingId, b1: CloudRoleBinding, b2: CloudRoleBinding)
    returns (s: State)
    requires Single(Store(map[id := b1], map[]), k, id, b1) && Single(Store(map[id := b2], map[]), k, id, b2)
    requires c.buffer > 0
    ensures Reachable(c, s) && Quiescent(s) && s.missed == {k} && s.torn == {} && SpecFrom(s.api, k, [b1])
    ensures id in s.api.bindings && Single(s.api, k, id, b2.(status := s.api.bindings[id].status))
    ensures Converged(s.api, k) <==> BuiltSpec(k.serviceAccountName, [b1]) == BuiltSpec(k.serviceAccountName, [b2])
  {
    var s0 := RestedOn(c, k, id, b1);
    var b2' := b2.(status := s0.api.bindings[id].status);
    var s1 := s0.(api := s0.api.(bindings := map[id := b2']), events := [k]);
    EditStep(c, s0, k, id, b2);
    Further(c, s0, [] + [Edit(id, b2)], s1);
    var s2 := TakeUp(c, s1, k);
    s := ListingLost(c, s2, k);
    NowOfSingle(s.api, k, id, b2');
    OnlyStatusDiffers(k.serviceAccountName, b2, b2');
  }

  lemma MoveStep(c: Config, s: State, k: Key, id: BindingId, k2: Key, b: CloudRoleBinding)
    requires s.api.bindings.Keys == {id} && KeyOf(id, s.api.bindings[id]) == k && KeyOf(id, b) == k2 != k
    requires b.name == Some(id.name) && s.events == [] && s.missed == {}
    ensures Leads(c, s, [] + [Edit(id, b)], s.(events := [k2], missed := {k},
      api := s.api.(bindings := map[id := b.(status := s.api.bindings[id].status)])))
  {
    var stored := b.(status := s.api.bindings[id].status);
    var t := s.(events := [k2], missed := {k}, api := s.api.(bindings := map[id := stored]));
    assert s.api.bindings[id := stored] == t.api.bindings;
    assert EditBinding(s, id, b) == t;
    AppendStep(c, s, [], s, Edit(id, b), t);
  }

  /** A binding that moves leaves its old account behind: there is a reachable quiet state, with the new
      account up to date, in which the old one still has the merge of the binding it no longer has,
      out of date exactly if that could be merged. */
  lemma MovedAway(c: Config, k: Key, k2: Key, id: BindingId, b1: CloudRoleBinding, b2: CloudRoleBinding)
    returns (s: State)
    requires Single(Store(map[id := b1], map[]), k, id, b1) && Single(Store(map[id := b2], map[]), k2, id, b2)
    requires k != k2 && c.buffer > 0
    ensures Reachable(c, s) && Quiescent(s) && s.missed == {k} && s.torn == {}
    ensures SpecFrom(s.api, k, [b1]) && Now(s.api, k) == [] && Converged(s.api, k2)
    ensures Converged(s.api, k) <==> !SetsAws(b1)
  {
    var s0 := RestedOn(c, k, id, b1);
    var b2' := b2.(status := s0.api.bindings[id].status);
    var s1 := s0.(events := [k2], missed := {k}, api := s0.api.(bindings := map[id := b2']));
    MoveStep(c, s0, k, id, k2, b2);
    Further(c, s0, [] + [Edit(id, b2)], s1);
    var s2 := TakeUp(c, s1, k2);
    s := ReconcileMoved(c, s2, k, k2, id, b2');
    NothingLeft(s.api, k, k2, id);
    QuietMeansConverged(c, s, k2);
    NothingMerges(k.serviceAccountName, b1);
  }

  lemma NothingMerges(sa: string, b: CloudRoleBinding)
    ensures BuiltSpec(sa, [b]) == BuiltSpec(sa, []) <==> !SetsAws(b)
  {
    if SetsAws(b) { AloneMerges(sa, b); } else { AloneFails(sa, b); }
  }

  lemma ReconcileMoved(c: Config, s: State, k: Key, k2: Key, id: BindingId, b: CloudRoleBinding) returns (t: State)
    requires Reachable(c, s) && s.workers == [Got(k2)] && s.queue == Queue.View({k2}, []) && s.lock.Nobody?
    requires s.watcher.Waiting? && s.events == [] && Single(s.api, k2, id, b) && k != k2
    requires s.missed == {k} && s.torn == {} && k in s.api.resolved
    ensures Reachable(c, t) && Quiescent(t) && t.missed == {k} && t.torn == {}
    ensures t.api.bindings.Keys == {id} && KeyOf(id, t.api.bindings[id]) == k2
    ensures k in t.api.resolved && t.api.resolved[k] == s.api.resolved[k]
  {
    var run := ListAndWrite(c, s, k2, id, b, false);
    var s1 := s.(workers := [Writing(k2, [b], [])], missed := s.missed - {k2},
      api := s.api.(bindings := map[id := b.(status := Some(StatusFor(b, Issue(k2, [b]))))]));
    Further(c, s, run, s1);
    t := FinishQuietly(c, s1, k2, [b]);
  }

  lemma NothingLeft(st: Store, k: Key, k2: Key, id: BindingId)
    requires st.bindings.Keys == {id} && KeyOf(id, st.bindings[id]) == k2 != k
    ensures Now(st, k) == []
  {
    assert RelevantNames(st, k) == {};
  }

  lemma DeleteStep(c: Config, s: State, k: Key, id: BindingId)
    requires s.api.bindings.Keys == {id} && KeyOf(id, s.api.bindings[id]) == k
    ensures Leads(c, s, [] + [Delete(id)], s.(api := s.api.(bindings := map[]), events := s.events + [k]))
  {
    var t := s.(api := s.api.(bindings := map[]), events := s.events + [k]);
    assert s.api.bindings - {id} == map[];
    assert DeleteBinding(s, id) == t;
    AppendStep(c, s, [], s, Delete(id), t);
  }

  lemma CreateStep(c: Config, s: State, k: Key, id: BindingId, b: CloudRoleBinding)
    requires s.api.bindings == map[] && KeyOf(id, b) == k && b.name == Some(id.name)
    ensures Leads(c, s, [] + [Edit(id, b)],
      s.(api := s.api.(bindings := map[id := b.(status := None)]), events := s.events + [k]))
  {
    var t := s.(api := s.api.(bindings := map[id := b.(status := None)]), events := s.events + [k]);
    assert EditBinding(s, id, b) == t;
    AppendStep(c, s, [], s, Edit(id, b), t);
  }

  /** A binding that is deleted and created again, as it was, while its key is worked on can end up
      without a status: the state is reachable and quiet, nothing was missed, and the object is up to
      date. */
  lemma CreatedAgain(c: Config, k: Key, id: BindingId, b: CloudRoleBinding) returns (s: State)
    requires Single(Store(map[id := b], map[]), k, id, b) && c.buffer > 0
    ensures Reachable(c, s) && Quiescent(s) && s.missed == {} && s.torn == {} && Reflects(c, s.api, k)
    ensures Single(s.api, k, id, b.(status := None))
  {
    ListedReachable(c, k, id, b, map[]);
    var s0 := Listed(k, id, b, map[]);
    var s1 := s0.(api := s0.api.(bindings := map[]), events := [k]);
    DeleteStep(c, s0, k, id);
    Further(c, s0, [] + [Delete(id)], s1);
    var s2 := s1.(api := s1.api.(bindings := map[id := b.(status := None)]), events := [k, k]);
    CreateStep(c, s1, k, id, b);
    Further(c, s1, [] + [Edit(id, b)], s2);
    var s3 := DropBoth(c, s2, k, id, b);
    s := FinishQuietly(c, s3, k, [b]);
    QuietMeansConverged(c, s, k);
  }

  lemma DropBoth(c: Config, s: State, k: Key, id: BindingId, b: CloudRoleBinding) returns (t: State)
    requires Reachable(c, s) && s.watcher.Waiting? && s.lock.Nobody? && s.events == [k, k] && k in s.queue.inFlight
    requires Single(s.api, k, id, b.(status := None)) && s.workers == [Writing(k, [b], [])]
    ensures Reachable(c, t) && t == s.(events := [])
  {
    StillThere(s.api, k, id, b);
    assert Seen(s.workers[0]) == Some([b]);
    assert !Outdated(s, k);
    var r1, s1 := DeliverLate(c, s, k);
    Further(c, s, r1, s1);
    assert !Outdated(s1, k);
    var r2;
    r2, t := DeliverLate(c, s1, k);
    Further(c, s1, r2, t);
  }

  lemma StillThere(st: Store, k: Key, id: BindingId, b: CloudRoleBinding)
    requires Single(st, k, id, b.(status := None))
    ensures Current(st, k, [b])
  {
    assert b in [b];
    assert Core(st.bindings[id]) == Core(b);
  }

  lemma OnlyStatusDiffers(sa: string, a: CloudRoleBinding, b: CloudRoleBinding)
    requires Core(a) == Core(b)
    ensures BuiltSpec(sa, [a]) == BuiltSpec(sa, [b])
  {
    assert Cores([a]) == Cores([b]);
    StatusesIgnored(sa, [a], [b]);
  }

  lemma NowOfSingle(st: Store, k: Key, id: BindingId, b: CloudRoleBinding)
    requires Single(st, k, id, b)
    ensures BuiltSpec(k.serviceAccountName, Now(st, k)) == BuiltSpec(k.serviceAccountName, [b])
  {
    assert WellNamed(st);
    assert Current(st, k, [b]) by { assert b in [b]; }
    SpecOfCurrent(st, k, [b]);
  }

  lemma PatchedStore(c: Config, st: Store, k: Key, snap: Bindings)
    requires k in st.resolved
    ensures var st' := PatchSpec(st, k, Built(c.hash, k.serviceAccountName, snap));
      st'.bindings == st.bindings && SpecFrom(st', k, snap) && st'.resolved[k].status == st.resolved[k].status
  {
    BuiltCoherent(c.hash, k.serviceAccountName, snap);
  }

  lemma SpecPatched(c: Config, s: State, k: Key, snap: Bindings) returns (t: State)
    requires s.workers == [Writing(k, snap, [])] && k.serviceAccountName != "" && k in s.api.resolved
    ensures Leads(c, s, [Work(0, SpecPatch)], t) && t == s.(workers := [Between(k, snap)], api := t.api)
    ensures SpecFrom(t.api, k, snap) && t.api.resolved[k].status == s.api.resolved[k].status
  {
    PatchedStore(c, s.api, k, snap);
    t := s.(workers := [Between(k, snap)], api := PatchSpec(s.api, k, Built(c.hash, k.serviceAccountName, snap)));
    assert StepOf(c, s, 0, SpecPatch) == t;
    AppendStep(c, s, [], s, Work(0, SpecPatch), t);
    assert [] + [Work(0, SpecPatch)] == [Work(0, SpecPatch)];
  }

  /** A worker about to write its first patch over an object from any build: the hypotheses about torn
      objects can be met. */
  lemma PatchReady(c: Config, k: Key, id: BindingId, prior: Bindings, b: CloudRoleBinding) returns (s: State)
    requires Single(Store(map[id := b], map[]), k, id, b) && c.buffer > 0
    ensures Reachable(c, s) && s.workers == [Writing(k, [b], [])] && Enabled(c, s, Work(0, SpecPatch))
    ensures k !in s.torn && Legal(c, Next(c, s, Work(0, SpecPatch)), [])
    ensures k in s.api.resolved && s.api.resolved[k] == Built(c.hash, k.serviceAccountName, prior)
  {
    var first := Built(c.hash, k.serviceAccountName, prior);
    assert IsBuild(c.hash, k.serviceAccountName, prior, first);
    ListedReachable(c, k, id, b, map[k := first]);
    s := Listed(k, id, b, map[k := first]);
  }

  /** Between the two patches an object can have the spec of one build and the status of another:
      whatever build was stored, and whatever the binding says now, there is a reachable state with
      the new spec and the old status. It is whole exactly if both builds have the same spec. */
  lemma HalfUpserted(c: Config, k: Key, id: BindingId, prior: Bindings, b: CloudRoleBinding) returns (s: State)
    requires Single(Store(map[id := b], map[]), k, id, b) && c.buffer > 0
    ensures Reachable(c, s) && s.workers == [Between(k, [b])] && s.missed == {} && s.torn == {}
    ensures s.watcher.Waiting? && s.lock.Nobody? && s.events == [] && s.queue.channel == []
    ensures k in s.api.resolved && Parts(c.hash, k.serviceAccountName, s.api.resolved[k], [b], Some(prior))
    ensures CollisionFree(c.hash) ==>
      WholeIff(c, s.api, k, BuiltSpec(k.serviceAccountName, prior) == BuiltSpec(k.serviceAccountName, [b]))
  {
    var first := Built(c.hash, k.serviceAccountName, prior);
    assert IsBuild(c.hash, k.serviceAccountName, prior, first);
    ListedReachable(c, k, id, b, map[k := first]);
    s := SpecPatched(c, Listed(k, id, b, map[k := first]), k, [b]);
    Further(c, Listed(k, id, b, map[k := first]), [Work(0, SpecPatch)], s);
    if CollisionFree(c.hash) {
      PartsExactly(c.hash, k.serviceAccountName, s.api.resolved[k], [b], Some(prior));
    }
  }

  /** If the second patch then fails, the object stays that way with nothing under way any more. */
  lemma TornForGood(c: Config, k: Key, id: BindingId, prior: Bindings, b: CloudRoleBinding) returns (t: State)
    requires Single(Store(map[id := b], map[]), k, id, b) && c.buffer > 0
    ensures Reachable(c, t) && Quiescent(t) && t.torn == {k}
    ensures k in t.api.resolved && Parts(c.hash, k.serviceAccountName, t.api.resolved[k], [b], Some(prior))
    ensures CollisionFree(c.hash) ==>
      WholeIff(c, t.api, k, BuiltSpec(k.serviceAccountName, prior) == BuiltSpec(k.serviceAccountName, [b]))
  {
    var s := HalfUpserted(c, k, id, prior, b);
    t := StatusLost(c, s, k, [b]);
  }

  lemma StatusLost(c: Config, s: State, k: Key, snap: Bindings) returns (t: State)
    requires Reachable(c, s) && s.workers == [Between(k, snap)] && s.lock.Nobody?
    ensures Reachable(c, t)
    ensures t == s.(workers := [Receiving], queue := Queue.Remove(s.queue, k), missed := s.missed + {k},
      torn := s.torn + {k})
  {
    var s1 := s.(workers := [Finishing(k, None)], missed := s.missed + {k}, torn := s.torn + {k});
    assert StepOf(c, s, 0, StatusPatchFails) == s1;
    AppendStep(c, s, [], s, Work(0, StatusPatchFails), s1);
    Further(c, s, [] + [Work(0, StatusPatchFails)], s1);
    var rest := GiveBack(c, s1, k, None);
    t := s1.(workers := [Receiving], queue := Queue.Remove(s.queue, k));
    Further(c, s1, rest, t);
  }

  /** From an event to the write of a status that causes the next event. */
  lemma HalfCycle(c: Config, k: Key, id: BindingId, b: CloudRoleBinding, resolved: map<Key, Resolved>)
    returns (run: seq<Action>)
    requires Single(Store(map[id := b], resolved), k, id, b) && SetsAws(b) && c.buffer > 0
    ensures Leads(c, Started(k, id, b, resolved), run, Listed(k, id, b, resolved).(events := [k]))
    ensures forall a :: a in run ==> Internal(a)
  {
    var s := Started(k, id, b, resolved);
    var r1 := Deliver(c, s, k);
    var s1 := s.(events := [], queue := Queue.View({k}, [k]));
    var r2 := PickUp(c, s1, k);
    var s2 := s1.(workers := [Got(k)], queue := Queue.View({k}, []));
    Joined(c, s, r1, s1, r2, s2);
    var r3 := ListAndWrite(c, s2, k, id, b, true);
    Joined(c, s, r1 + r2, s2, r3, Listed(k, id, b, resolved).(events := [k]));
    run := r1 + r2 + r3;
  }

  /** The controller can keep itself busy for ever: from a reachable, converged state with one event
      left, steps of its own alone, the write of an unchanged status among them, lead back to it. */
  lemma SelfSustaining(c: Config, k: Key, id: BindingId, b: CloudRoleBinding) returns (s: State, cycle: seq<Action>)
    requires Single(Store(map[id := b], map[]), k, id, b) && SetsAws(b) && c.buffer > 0
    ensures Reachable(c, s) && Converged(s.api, k) && s.missed == {} && s.torn == {}
    ensures cycle != [] && Leads(c, s, cycle, s)
    ensures forall a :: a in cycle ==> Internal(a)
  {
    var sa := k.serviceAccountName;
    var healthy := b.(status := Some(StatusFor(b, None)));
    AloneMerges(sa, healthy);
    assert StatusFor(healthy, None) == StatusFor(b, None);
    BuiltCoherent(c.hash, sa, [healthy]);
    var resolved := map[k := Built(c.hash, sa, [healthy])];
    s := Started(k, id, healthy, resolved);
    assert IsBuild(c.hash, sa, [healthy], resolved[k]);
    StartedReachable(c, k, id, healthy, resolved);
    NowOfSingle(s.api, k, id, healthy);
    var half := HalfCycle(c, k, id, healthy, resolved);
    cycle := CloseCycle(c, k, id, healthy, resolved, half);
  }

  lemma CloseCycle(c: Config, k: Key, id: BindingId, b: CloudRoleBinding, resolved: map<Key, Resolved>,
                   half: seq<Action>)
    returns (cycle: seq<Action>)
    requires Single(Store(map[id := b], resolved), k, id, b) && b.status == Some(StatusFor(b, Issue(k, [b])))
    requires resolved == map[k := Built(c.hash, k.serviceAccountName, [b])]
    requires Leads(c, Started(k, id, b, resolved), half, Listed(k, id, b, resolved).(events := [k]))
    requires forall a :: a in half ==> Internal(a)
    ensures cycle != [] && Leads(c, Started(k, id, b, resolved), cycle, Started(k, id, b, resolved))
    ensures forall a :: a in cycle ==> Internal(a)
  {
    var s, m := Started(k, id, b, resolved), Listed(k, id, b, resolved).(events := [k]);
    var rest := PatchAndFinish(c, m, k, [b]);
    assert resolved[k := Built(c.hash, k.serviceAccountName, [b])] == resolved;
    Joined(c, s, half, m, rest, s);
    cycle := half + rest;
  }
}
