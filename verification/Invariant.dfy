/** Every step keeps the invariant, hence every run does; and what it says when things are quiet. */
module Invariant {
  import opened Crds
  import opened Merge
  import opened MergeTheorems
  import opened Build
  import opened ApiServer
  import opened Controller
  import opened Ownership
  import opened Convergence

  lemma OnlyHolder(s: State, i: nat, k: Key)
    requires Owned(s) && i < |s.workers| && Holds(s.workers[i]) == Some(k)
    ensures forall j :: 0 <= j < |s.workers| && j != i ==> StageOf(s, j, k).Absent?
    ensures s.watcher != Sending(k) && k !in s.queue.channel
  {
    Exclusive(s, i, k);
  }

  lemma OthersAbsent(s: State, s': State, i: nat, k: Key)
    requires Owned(s) && i < |s.workers| && Holds(s.workers[i]) == Some(k)
    requires |s'.workers| == |s.workers| && s'.workers == s.workers[i := s'.workers[i]]
    ensures forall j :: 0 <= j < |s.workers| && j != i ==> StageOf(s, j, k).Absent? && StageOf(s', j, k).Absent?
    ensures s.watcher != Sending(k) && k !in s.queue.channel
  {
    OnlyHolder(s, i, k);
    forall j | 0 <= j < |s.workers| && j != i ensures StageOf(s', j, k).Absent? { assert StageOf(s, j, k).Absent?; }
  }

  lemma SameStore(s: State, s': State, k: Key)
    requires s'.api.bindings == s.api.bindings
    ensures SameSnapshots(s.api, s'.api, k)
  {
  }

  // ---------- Steps of a worker, for the key it holds ----------

  lemma ListKeeps(c: Config, s: State, i: nat, all: Bindings)
    requires Inv(c, s) && i < |s.workers| && CanStep(s, s.workers[i], List(all))
    ensures KeyInv(c, StepOf(c, s, i, List(all)), s.workers[i].k)
  {
    var k := s.workers[i].k;
    var s' := StepOf(c, s, i, List(all));
    OthersAbsent(s, s', i, k);
    ListingIsCurrent(s.api, k, all);
    assert KeyInv(c, s, k);
    assert AtWork(StageOf(s', i, k));
    assert StageOf(s, i, k).Listing?;
    assert !BetweenPatches(s, k);
  }

  /** A failed call, whichever it is; after a failed status patch the key is torn as well. */
  lemma FailKeeps(c: Config, s: State, s': State, i: nat, k: Key)
    requires Inv(c, s) && i < |s.workers| && Holds(s.workers[i]) == Some(k)
    requires s'.workers == Fail(s, i).workers && s'.missed == s.missed + {k} && s'.api == s.api
    requires s'.watcher == s.watcher
    requires s'.events == s.events && s'.queue == s.queue
    requires s'.torn == if StageOf(s, i, k).Patched? then s.torn + {k} else s.torn
    ensures KeyInv(c, s', k)
  {
    OthersAbsent(s, s', i, k);
    assert KeyInv(c, s, k);
    assert StageOf(s', i, k).Done?;
  }

  /** After the first patch the spec is the one built, and the status is still that of some build. */
  lemma SpecPatchParts(c: Config, st: Store, k: Key, snap: Bindings)
    requires k in st.resolved ==> MadeOfParts(c.hash, k.serviceAccountName, st.resolved[k])
    ensures var st' := PatchSpec(st, k, Built(c.hash, k.serviceAccountName, snap));
      SpecFrom(st', k, snap) && MadeOfParts(c.hash, k.serviceAccountName, st'.resolved[k])
  {
    var r := PatchSpec(st, k, Built(c.hash, k.serviceAccountName, snap)).resolved[k];
    BuiltCoherent(c.hash, k.serviceAccountName, snap);
    if k in st.resolved {
      var before, prior :| Parts(c.hash, k.serviceAccountName, st.resolved[k], before, prior);
      assert Parts(c.hash, k.serviceAccountName, r, snap, prior);
    } else {
      assert Parts(c.hash, k.serviceAccountName, r, snap, None);
    }
  }

  /** After the second patch the object is the one built. */
  lemma StatusPatchBuilds(c: Config, st: Store, k: Key, snap: Bindings)
    requires SpecFrom(st, k, snap)
    ensures var st' := PatchStatus(st, k, Built(c.hash, k.serviceAccountName, snap));
      BuiltAs(c, st', k, snap)
  {
    BuiltCoherent(c.hash, k.serviceAccountName, snap);
  }

  lemma PatchedKeeps(c: Config, s: State, s': State, i: nat, k: Key, snap: Bindings)
    requires Inv(c, s) && i < |s.workers| && StageOf(s, i, k) == Statuses(snap)
    requires s'.workers == s.workers[i := Between(k, snap)] && s'.watcher == s.watcher && s'.events == s.events
    requires s'.queue == s.queue && s'.missed == s.missed && s'.torn == s.torn
    requires s'.api.bindings == s.api.bindings && SpecFrom(s'.api, k, snap)
    requires MadeOfParts(c.hash, k.serviceAccountName, s'.api.resolved[k])
    ensures KeyInv(c, s', k)
  {
    assert KeyInv(c, s, k);
    OthersAbsent(s, s', i, k);
    SameStore(s, s', k);
    assert AtWork(StageOf(s, i, k)) && StageOf(s', i, k) == Patched(snap);
  }

  lemma SpecPatchKeeps(c: Config, s: State, i: nat)
    requires Inv(c, s) && i < |s.workers| && CanStep(s, s.workers[i], SpecPatch)
    ensures KeyInv(c, StepOf(c, s, i, SpecPatch), s.workers[i].k)
  {
    var k, snap := s.workers[i].k, s.workers[i].snap;
    assert KeyInv(c, s, k);
    SpecPatchParts(c, s.api, k, snap);
    PatchedKeeps(c, s, StepOf(c, s, i, SpecPatch), i, k, snap);
  }

  /** A worker that is done and did not fail has left what it should. */
  lemma DoneKeeps(c: Config, s: State, i: nat, k: Key, snap: Bindings)
    requires i < |s.workers| && StageOf(s, i, k) == Done(Some(snap)) && k !in s.torn
    requires forall j :: 0 <= j < |s.workers| && j != i ==> StageOf(s, j, k).Absent?
    requires BuiltAs(c, s.api, k, snap) && MadeOfParts(c.hash, k.serviceAccountName, s.api.resolved[k])
    requires Current(s.api, k, snap) || Pending(s, k) || k in s.missed
    ensures KeyInv(c, s, k)
  {
    if Current(s.api, k, snap) { assert Reflects(c, s.api, k); }
  }

  lemma WasCurrent(c: Config, s: State, s': State, i: nat, k: Key, snap: Bindings)
    requires Inv(c, s) && i < |s.workers| && StageOf(s, i, k) == Patched(snap)
    requires s'.api.bindings == s.api.bindings && s'.watcher == s.watcher && s'.events == s.events
    requires s'.missed == s.missed
    ensures Current(s'.api, k, snap) || Pending(s', k) || k in s'.missed
  {
    assert KeyInv(c, s, k);
    SameStore(s, s', k);
    assert AtWork(StageOf(s, i, k));
  }

  lemma PatchedSpec(c: Config, s: State, i: nat)
    requires Inv(c, s) && i < |s.workers| && s.workers[i].Between?
    ensures SpecFrom(s.api, s.workers[i].k, s.workers[i].snap)
  {
    assert KeyInv(c, s, s.workers[i].k);
    assert WorkerDid(c, s, s.workers[i].k, StageOf(s, i, s.workers[i].k));
  }

  lemma StatusPatched(c: Config, s: State, i: nat)
    requires i < |s.workers| && CanStep(s, s.workers[i], StatusPatch)
    requires SpecFrom(s.api, s.workers[i].k, s.workers[i].snap)
    ensures var k, snap, s' := s.workers[i].k, s.workers[i].snap, StepOf(c, s, i, StatusPatch);
      && StageOf(s', i, k) == Done(Some(snap)) && k !in s'.torn && BuiltAs(c, s'.api, k, snap)
      && s'.api.bindings == s.api.bindings && s'.watcher == s.watcher
      && s'.events == s.events && s'.missed == s.missed
  {
    var k, snap, s' := s.workers[i].k, s.workers[i].snap, StepOf(c, s, i, StatusPatch);
    StatusPatchBuilds(c, s.api, k, snap);
    assert s'.workers[i] == Finishing(k, Some(snap));
    assert s'.api == PatchStatus(s.api, k, Built(c.hash, k.serviceAccountName, snap));
  }

  lemma StatusPatchKeeps(c: Config, s: State, i: nat)
    requires Inv(c, s) && i < |s.workers| && CanStep(s, s.workers[i], StatusPatch)
    ensures KeyInv(c, StepOf(c, s, i, StatusPatch), s.workers[i].k)
  {
    var k, snap, s' := s.workers[i].k, s.workers[i].snap, StepOf(c, s, i, StatusPatch);
    PatchedSpec(c, s, i);
    StatusPatched(c, s, i);
    OthersAbsent(s, s', i, k);
    WasCurrent(c, s, s', i, k, snap);
    OneBuildIsParts(c.hash, k.serviceAccountName, s'.api.resolved[k], snap);
    DoneKeeps(c, s', i, k, snap);
  }

  lemma RemoveKeeps(c: Config, s: State, i: nat)
    requires Inv(c, s) && i < |s.workers| && CanStep(s, s.workers[i], RemoveKey)
    ensures KeyInv(c, StepOf(c, s, i, RemoveKey), s.workers[i].k)
  {
    var k := s.workers[i].k;
    var s' := StepOf(c, s, i, RemoveKey);
    OthersAbsent(s, s', i, k);
    assert KeyInv(c, s, k);
    assert StageOf(s, i, k).Done? && WorkerDid(c, s, k, StageOf(s, i, k));
    assert StageOf(s', i, k).Absent?;
    assert !BetweenPatches(s, k);
    assert forall j :: 0 <= j < |s.workers| ==> !AtWork(StageOf(s, j, k));
    assert !Coming(s, k);
  }

  /** A status write: the statuses of bindings play no part in anything. */
  lemma WriteAside(c: Config, s: State, i: nat, emits: bool, k: Key)
    requires Inv(c, s) && i < |s.workers| && CanStep(s, s.workers[i], WriteStatus(emits))
    ensures Aside(s, StepOf(c, s, i, WriteStatus(emits)), k) && WellNamed(StepOf(c, s, i, WriteStatus(emits)).api)
  {
    var w := s.workers[i];
    var s' := StepOf(c, s, i, WriteStatus(emits));
    forall snap ensures Current(s.api, k, snap) <==> Current(s'.api, k, snap) {
      StatusWriteKeepsCurrent(s.api, w.k.namespace, w.todo[0], k, snap);
    }
    forall j | 0 <= j < |s.workers| ensures StageOf(s', j, k) == StageOf(s, j, k) {}
    if Coming(s, k) && s.watcher != Sending(k) && k !in s.queue.channel {
      var j :| 0 <= j < |s.workers| && StageOf(s, j, k).Listing?;
      assert StageOf(s', j, k).Listing?;
    }
  }

  /** Steps that move a worker on without anyone noticing. */
  lemma QuietAside(s: State, s': State, i: nat, k: Key)
    requires i < |s.workers| && |s'.workers| == |s.workers| && s'.workers == s.workers[i := s'.workers[i]]
    requires StageOf(s', i, k) == StageOf(s, i, k) || (StageOf(s', i, k).Listing? && StageOf(s, i, k).Absent?)
    requires s'.watcher == s.watcher && s'.events == s.events && s'.api == s.api && s'.missed == s.missed
    requires s'.torn == s.torn
    requires k in s.queue.channel ==> k in s'.queue.channel || StageOf(s', i, k).Listing?
    ensures Aside(s, s', k)
  {
    forall j | 0 <= j < |s.workers| && j != i ensures StageOf(s', j, k) == StageOf(s, j, k) {}
    if Coming(s, k) && s.watcher != Sending(k) && k !in s.queue.channel {
      var j :| 0 <= j < |s.workers| && StageOf(s, j, k).Listing?;
      assert StageOf(s', j, k).Listing?;
    }
  }

  predicate Quiet(step: Step) {
    step.TakeReceiver? || step.Receive? || step.LockForDone?
  }

  lemma QuietStep(c: Config, s: State, i: nat, step: Step, k: Key)
    requires i < |s.workers| && CanStep(s, s.workers[i], step) && Quiet(step)
    ensures Aside(s, StepOf(c, s, i, step), k)
  {
    var s' := StepOf(c, s, i, step);
    if step.Receive? {
      assert s.queue.channel == [s.queue.channel[0]] + s.queue.channel[1..];
    }
    QuietAside(s, s', i, k);
  }

  /** A step for the worker's own key is not seen by any other key. */
  lemma ForeignStep(c: Config, s: State, i: nat, step: Step, k: Key)
    requires i < |s.workers| && CanStep(s, s.workers[i], step) && !Quiet(step) && !step.WriteStatus?
    requires s.workers[i].k != k
    ensures Aside(s, StepOf(c, s, i, step), k)
  {
    var s' := StepOf(c, s, i, step);
    SameStore(s, s', k);
    OtherKeyAside(s, s', i, k);
  }

  lemma OwnStep(c: Config, s: State, i: nat, step: Step)
    requires Inv(c, s) && i < |s.workers| && CanStep(s, s.workers[i], step) && !Quiet(step) && !step.WriteStatus?
    ensures KeyInv(c, StepOf(c, s, i, step), s.workers[i].k)
  {
    if step.List? {
      ListKeeps(c, s, i, step.all);
    } else if step.SpecPatch? {
      SpecPatchKeeps(c, s, i);
    } else if step.StatusPatch? {
      StatusPatchKeeps(c, s, i);
    } else if step.RemoveKey? {
      RemoveKeeps(c, s, i);
    } else {
      FailKeeps(c, s, StepOf(c, s, i, step), i, s.workers[i].k);
    }
  }

  lemma WorkerStepKeeps(c: Config, s: State, i: nat, step: Step, k: Key)
    requires Inv(c, s) && i < |s.workers| && CanStep(s, s.workers[i], step)
    ensures KeyInv(c, StepOf(c, s, i, step), k) && WellNamed(StepOf(c, s, i, step).api)
  {
    if Quiet(step) {
      QuietStep(c, s, i, step, k);
      AsideKept(c, s, StepOf(c, s, i, step), k);
    } else if step.WriteStatus? {
      WriteAside(c, s, i, step.emits, k);
      AsideKept(c, s, StepOf(c, s, i, step), k);
    } else if s.workers[i].k == k {
      OwnStep(c, s, i, step);
    } else {
      ForeignStep(c, s, i, step, k);
      AsideKept(c, s, StepOf(c, s, i, step), k);
    }
  }

  // ---------- Steps of the watcher ----------

  lemma WatcherAside(s: State, s': State, k: Key)
    requires s'.workers == s.workers && s'.api == s.api && s'.missed == s.missed && s'.torn == s.torn
    requires Pending(s, k) ==> Pending(s', k)
    requires s.watcher == Sending(k) || k in s.queue.channel ==> Coming(s', k)
    ensures Aside(s, s', k)
  {
    forall j | 0 <= j < |s.workers| ensures StageOf(s', j, k) == StageOf(s, j, k) {}
    if Coming(s, k) && s.watcher != Sending(k) && k !in s.queue.channel {
      var j :| 0 <= j < |s.workers| && StageOf(s, j, k).Listing?;
      assert StageOf(s', j, k).Listing?;
    }
  }

  /** Dropping an event that was merged into a reconcile: either its list call is still to come, or
      what it listed is still current, or the event is booked as missed. */
  lemma DropKeeps(c: Config, s: State)
    requires Inv(c, s) && s.watcher.Locked? && s.watcher.k in s.queue.inFlight
    ensures KeyInv(c, InsertOrDropKey(s), s.watcher.k)
  {
    var k := s.watcher.k;
    var s' := InsertOrDropKey(s);
    assert KeyInv(c, s, k);
    forall j | 0 <= j < |s.workers| ensures StageOf(s', j, k) == StageOf(s, j, k) {}
    SomeoneHolds(s, k);
    if k in s.queue.channel {
      assert Coming(s', k);
      forall j | 0 <= j < |s.workers| ensures !AtWork(StageOf(s, j, k)) {
        if Holds(s.workers[j]) == Some(k) { Exclusive(s, j, k); }
      }
    } else {
      var i :| 0 <= i < |s.workers| && Holds(s.workers[i]) == Some(k);
      DropWhileHeld(c, s, i);
    }
  }

  lemma DropWhileHeld(c: Config, s: State, i: nat)
    requires Inv(c, s) && s.watcher.Locked? && s.watcher.k in s.queue.inFlight
    requires i < |s.workers| && Holds(s.workers[i]) == Some(s.watcher.k)
    ensures KeyInv(c, InsertOrDropKey(s), s.watcher.k)
  {
    var k := s.watcher.k;
    var s' := InsertOrDropKey(s);
    assert KeyInv(c, s, k);
    OnlyHolder(s, i, k);
    forall j | 0 <= j < |s.workers| ensures StageOf(s', j, k) == StageOf(s, j, k) {}
    match StageOf(s, i, k) {
      case Listing => assert StageOf(s', i, k).Listing?;
      case Done(seen) =>
        assert WorkerDid(c, s, k, StageOf(s, i, k));
        assert Seen(s.workers[i]) == seen;
        if seen.Some? && Current(s.api, k, seen.value) { assert Reflects(c, s'.api, k); }
      case Statuses(snap) => assert Seen(s.workers[i]) == Some(snap); assert AtWork(StageOf(s', i, k));
      case Patched(snap) => assert Seen(s.workers[i]) == Some(snap); assert AtWork(StageOf(s', i, k));
    }
    assert BetweenPatches(s, k) ==> BetweenPatches(s', k);
  }

  lemma InsertKeeps(c: Config, s: State)
    requires Inv(c, s) && s.watcher.Locked? && s.watcher.k !in s.queue.inFlight
    ensures KeyInv(c, InsertOrDropKey(s), s.watcher.k)
  {
    var k := s.watcher.k;
    var s' := InsertOrDropKey(s);
    assert KeyInv(c, s, k);
    assert Held(s, k) == 0;
    forall j | 0 <= j < |s.workers| ensures StageOf(s, j, k).Absent? && StageOf(s', j, k).Absent? {
      if Holds(s.workers[j]) == Some(k) { ByWorkersAt(s.workers, j, k); }
    }
    assert Coming(s', k);
  }

  lemma InsertOrDropKeeps(c: Config, s: State, k: Key)
    requires Inv(c, s) && s.watcher.Locked?
    ensures KeyInv(c, InsertOrDropKey(s), k)
  {
    var s' := InsertOrDropKey(s);
    if k == s.watcher.k {
      if k in s.queue.inFlight { DropKeeps(c, s); } else { InsertKeeps(c, s); }
    } else {
      forall j | 0 <= j < |s.workers| ensures StageOf(s', j, k) == StageOf(s, j, k) {}
      if Coming(s, k) && k !in s.queue.channel {
        var j :| 0 <= j < |s.workers| && StageOf(s, j, k).Listing?;
        assert StageOf(s', j, k).Listing?;
      }
      AsideKept(c, s, s', k);
    }
  }

  // ---------- Edits ----------

  /** Adding, changing or removing one binding is invisible to the accounts it does not name. */
  lemma EditInvisible(st: Store, st': Store, id: BindingId, k: Key)
    requires forall x :: x != id ==> (x in st.bindings <==> x in st'.bindings)
    requires forall x :: x != id && x in st.bindings ==> st'.bindings[x] == st.bindings[x]
    requires id in st.bindings ==> !IsRelevant(k, id, st.bindings[id])
    requires id in st'.bindings ==> !IsRelevant(k, id, st'.bindings[id])
    ensures SameSnapshots(st, st', k)
  {
    forall snap ensures Current(st, k, snap) <==> Current(st', k, snap) {
      if Current(st, k, snap) {
        forall c | c in snap ensures IdOf(k.namespace, c) != id {
          assert Core(st.bindings[IdOf(k.namespace, c)]) == Core(c);
        }
      }
      if Current(st', k, snap) {
        forall c | c in snap ensures IdOf(k.namespace, c) != id {
          assert Core(st'.bindings[IdOf(k.namespace, c)]) == Core(c);
        }
      }
    }
  }

  /** A change of k's bindings leaves an event, or is booked as missed. */
  lemma NoticedKeeps(c: Config, s: State, s': State, k: Key)
    requires KeyInv(c, s, k) && (k in s'.events || k in s'.missed) && (k in s.missed ==> k in s'.missed)
    requires s'.workers == s.workers && s'.torn == s.torn && s'.api.resolved == s.api.resolved
    ensures KeyInv(c, s', k)
  {
    forall j | 0 <= j < |s.workers| ensures StageOf(s', j, k) == StageOf(s, j, k) {}
    assert BetweenPatches(s, k) ==> BetweenPatches(s', k);
  }

  lemma EditKeeps(c: Config, s: State, id: BindingId, b: CloudRoleBinding, k: Key)
    requires Inv(c, s) && b.name == Some(id.name)
    ensures KeyInv(c, EditBinding(s, id, b), k) && WellNamed(EditBinding(s, id, b).api)
  {
    var s' := EditBinding(s, id, b);
    assert KeyInv(c, s, k);
    if k in s'.events || k in s'.missed {
      NoticedKeeps(c, s, s', k);
    } else {
      EditInvisible(s.api, s'.api, id, k);
      WatcherAsideStore(s, s', k);
      AsideKept(c, s, s', k);
    }
  }

  lemma DeleteKeeps(c: Config, s: State, id: BindingId, k: Key)
    requires Inv(c, s) && id in s.api.bindings
    ensures KeyInv(c, DeleteBinding(s, id), k) && WellNamed(DeleteBinding(s, id).api)
  {
    var s' := DeleteBinding(s, id);
    assert KeyInv(c, s, k);
    if k in s'.events {
      NoticedKeeps(c, s, s', k);
    } else {
      EditInvisible(s.api, s'.api, id, k);
      WatcherAsideStore(s, s', k);
      AsideKept(c, s, s', k);
    }
  }

  lemma WatcherAsideStore(s: State, s': State, k: Key)
    requires s'.workers == s.workers && s'.watcher == s.watcher && s'.queue == s.queue && s'.torn == s.torn
    requires (k in s.missed <==> k in s'.missed) && (k in s.events ==> k in s'.events)
    requires s'.api.resolved == s.api.resolved && SameSnapshots(s.api, s'.api, k)
    ensures Aside(s, s', k)
  {
    forall j | 0 <= j < |s.workers| ensures StageOf(s', j, k) == StageOf(s, j, k) {}
  }

  // ---------- Main results ----------

  lemma KeyInvKept(c: Config, s: State, a: Action, k: Key)
    requires Inv(c, s) && Enabled(c, s, a)
    ensures KeyInv(c, Next(c, s, a), k) && WellNamed(Next(c, s, a).api)
  {
    assert KeyInv(c, s, k);
    match a
    case Edit(id, b) => EditKeeps(c, s, id, b, k);
    case Delete(id) => DeleteKeeps(c, s, id, k);
    case InsertOrDrop => InsertOrDropKeeps(c, s, k);
    case Work(i, step) => WorkerStepKeeps(c, s, i, step, k);
    case NextEvent =>
      assert s.events == [s.events[0]] + s.events[1..];
      WatcherAside(s, Next(c, s, a), k);
      AsideKept(c, s, Next(c, s, a), k);
    case LockSet =>
      WatcherAside(s, Next(c, s, a), k);
      AsideKept(c, s, Next(c, s, a), k);
    case SendKey =>
      WatcherAside(s, Next(c, s, a), k);
      AsideKept(c, s, Next(c, s, a), k);
  }

  /** Every step of every task, every edit and every failure keeps the invariant. */
  lemma StepKeeps(c: Config, s: State, a: Action)
    requires Inv(c, s) && Enabled(c, s, a)
    ensures Inv(c, Next(c, s, a))
  {
    StepOwned(c, s, a);
    StepLockHeld(c, s, a);
    StepOneReceiver(c, s, a);
    StepWithinBuffer(c, s, a);
    forall k ensures KeyInv(c, Next(c, s, a), k) { KeyInvKept(c, s, a, k); }
    KeyInvKept(c, s, a, Key("", ""));
  }

  /** At a start every key with bindings has an event. */
  lemma InitPending(s: State, k: Key)
    requires WellNamed(s.api) && forall id :: id in s.api.bindings ==> KeyOf(id, s.api.bindings[id]) in s.events
    requires Now(s.api, k) != []
    ensures k in s.events
  {
    NowIsCurrent(s.api, k);
    var b := Now(s.api, k)[0];
    assert b in Now(s.api, k);
    assert KeyOf(IdOf(k.namespace, b), s.api.bindings[IdOf(k.namespace, b)]) == k;
  }

  lemma InitKeyInv(c: Config, s: State, k: Key)
    requires Init(c, s)
    ensures KeyInv(c, s, k)
  {
    forall j | 0 <= j < |s.workers| ensures StageOf(s, j, k).Absent? {}
    assert FoundObject(c, s, k);
    if Now(s.api, k) != [] {
      InitPending(s, k);
    } else {
      assert k in s.api.resolved ==> k in s.missed;
    }
  }

  lemma InitKeeps(c: Config, s: State)
    requires Init(c, s)
    ensures Inv(c, s)
  {
    InitOwned(c, s);
    forall k ensures KeyInv(c, s, k) { InitKeyInv(c, s, k); }
  }

  lemma {:induction false} RunKeeps(c: Config, s: State, run: seq<Action>)
    requires Inv(c, s) && Legal(c, s, run)
    ensures Inv(c, After(c, s, run))
    decreases |run|
  {
    if run != [] {
      StepKeeps(c, s, run[0]);
      RunKeeps(c, Next(c, s, run[0]), run[1..]);
    }
  }

  ghost predicate Reachable(c: Config, s: State) {
    exists s0, run :: Init(c, s0) && Legal(c, s0, run) && After(c, s0, run) == s
  }

  /** The invariant holds in every reachable state. */
  lemma ReachableInv(c: Config, s: State)
    requires Reachable(c, s)
    ensures Inv(c, s)
  {
    var s0, run :| Init(c, s0) && Legal(c, s0, run) && After(c, s0, run) == s;
    InitKeeps(c, s0);
    RunKeeps(c, s0, run);
  }
}
