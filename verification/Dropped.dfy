/** Exactly when a key is left out of date: the last listing that got as far as the spec decides. Of
    that, when an event that was dropped meanwhile does harm, and when an error does. */
module Dropped {
  import opened Crds
  import opened Merge
  import opened Build
  import opened ApiServer
  import opened Controller
  import opened Convergence
  import opened Invariant
  import opened Results

  /** Action a lists k again, or ends its reconcile with an error. */
  predicate Replaces(s: State, a: Action, k: Key) {
    && a.Work? && a.i < |s.workers| && Holds(s.workers[a.i]) == Some(k)
    && (a.step.List? || CallFails(a.step))
  }

  ghost predicate NotReplaced(c: Config, s: State, run: seq<Action>, k: Key)
    requires Legal(c, s, run)
    decreases |run|
  {
    run == [] || (!Replaces(s, run[0], k) && NotReplaced(c, Next(c, s, run[0]), run[1..], k))
  }

  /** What is stored for k is built from snap, or a worker is about to store that. */
  predicate Stores(c: Config, s: State, k: Key, snap: Bindings) {
    && (forall j :: 0 <= j < |s.workers| && AtWork(StageOf(s, j, k)) ==> StageOf(s, j, k).snap == snap)
    && ((forall j :: 0 <= j < |s.workers| ==> !AtWork(StageOf(s, j, k))) ==> BuiltAs(c, s.api, k, snap))
  }

  /** Nothing about k changes but that a worker may have taken it. */
  ghost predicate Unmoved(s: State, s': State, k: Key) {
    && |s'.workers| == |s.workers|
    && (forall j :: 0 <= j < |s.workers| ==>
          StageOf(s', j, k) == StageOf(s, j, k) || (!AtWork(StageOf(s', j, k)) && !AtWork(StageOf(s, j, k))))
    && (k in s'.api.resolved <==> k in s.api.resolved)
    && (k in s.api.resolved ==> s'.api.resolved[k] == s.api.resolved[k])
  }

  lemma UnmovedStores(c: Config, s: State, s': State, k: Key, snap: Bindings)
    requires Unmoved(s, s', k) && Stores(c, s, k, snap)
    ensures Stores(c, s', k, snap)
  {
    if forall j :: 0 <= j < |s'.workers| ==> !AtWork(StageOf(s', j, k)) {
      forall j | 0 <= j < |s.workers| ensures !AtWork(StageOf(s, j, k)) { assert !AtWork(StageOf(s', j, k)); }
    }
  }

  lemma OtherKeyUnmoved(c: Config, s: State, i: nat, step: Step, k: Key)
    requires i < |s.workers| && CanStep(s, s.workers[i], step) && Holds(s.workers[i]) != Some(k)
    ensures Unmoved(s, StepOf(c, s, i, step), k)
  {
    var s' := StepOf(c, s, i, step);
    OtherKeyStage(c, s, i, step, k);
    OtherHolderWrites(c, s, i, step, k);
    OneWorkerMoved(s, s', i, k);
  }

  lemma OneWorkerMoved(s: State, s': State, i: nat, k: Key)
    requires i < |s.workers| == |s'.workers| && s'.workers == s.workers[i := s'.workers[i]]
    requires !AtWork(StageOf(s', i, k)) && Holds(s.workers[i]) != Some(k)
    requires (k in s'.api.resolved <==> k in s.api.resolved)
    requires k in s.api.resolved ==> s'.api.resolved[k] == s.api.resolved[k]
    ensures Unmoved(s, s', k)
  {
    forall j | 0 <= j < |s.workers| && j != i ensures StageOf(s', j, k) == StageOf(s, j, k) {}
  }

  lemma OtherKeyStage(c: Config, s: State, i: nat, step: Step, k: Key)
    requires i < |s.workers| && CanStep(s, s.workers[i], step) && Holds(s.workers[i]) != Some(k)
    ensures var s' := StepOf(c, s, i, step);
      |s'.workers| == |s.workers| && s'.workers == s.workers[i := s'.workers[i]] && !AtWork(StageOf(s', i, k))
  {
  }

  lemma OthersUnmoved(c: Config, s: State, a: Action, k: Key)
    requires Enabled(c, s, a) && (a.Work? ==> Holds(s.workers[a.i]) != Some(k))
    ensures Unmoved(s, Next(c, s, a), k)
  {
    if a.Work? {
      OtherKeyUnmoved(c, s, a.i, a.step, k);
    } else {
      assert Next(c, s, a).workers == s.workers;
    }
  }

  /** With one worker for k, it decides. */
  predicate HolderStores(c: Config, s: State, i: nat, k: Key, snap: Bindings)
    requires i < |s.workers|
  {
    if AtWork(StageOf(s, i, k)) then StageOf(s, i, k).snap == snap else BuiltAs(c, s.api, k, snap)
  }

  lemma HolderDecides(c: Config, s: State, i: nat, k: Key, snap: Bindings)
    requires i < |s.workers| && forall j :: 0 <= j < |s.workers| && j != i ==> StageOf(s, j, k).Absent?
    ensures Stores(c, s, k, snap) <==> HolderStores(c, s, i, k, snap)
  {
    assert AtWork(StageOf(s, i, k)) || forall j :: 0 <= j < |s.workers| ==> !AtWork(StageOf(s, j, k));
  }

  /** A step of the worker that holds k. */
  lemma OwnStores(c: Config, s: State, i: nat, step: Step, snap: Bindings)
    requires Inv(c, s) && i < |s.workers| && CanStep(s, s.workers[i], step) && Holds(s.workers[i]).Some?
    requires !step.List? && !CallFails(step) && Stores(c, s, s.workers[i].k, snap)
    ensures Stores(c, StepOf(c, s, i, step), s.workers[i].k, snap)
  {
    var k := s.workers[i].k;
    var s' := StepOf(c, s, i, step);
    OthersAbsent(s, s', i, k);
    HolderDecides(c, s, i, k, snap);
    if step.StatusPatch? {
      PatchedSpec(c, s, i);
      PatchedStores(c, s, i, snap);
    } else {
      OwnMoves(c, s, i, step, snap);
    }
    HolderDecides(c, s', i, k, snap);
  }

  lemma OwnMoves(c: Config, s: State, i: nat, step: Step, snap: Bindings)
    requires i < |s.workers| && CanStep(s, s.workers[i], step) && Holds(s.workers[i]).Some?
    requires !step.List? && !CallFails(step) && !step.StatusPatch?
    requires HolderStores(c, s, i, s.workers[i].k, snap)
    ensures HolderStores(c, StepOf(c, s, i, step), i, s.workers[i].k, snap)
  {
    var k, s' := s.workers[i].k, StepOf(c, s, i, step);
    if step.SpecPatch? {
      assert s.workers[i].snap == snap && s'.workers[i] == Between(k, snap);
    } else {
      OwnKeeps(c, s, i, step);
      SameHolds(c, s, s', i, k, snap);
    }
  }

  lemma OwnKeeps(c: Config, s: State, i: nat, step: Step)
    requires i < |s.workers| && CanStep(s, s.workers[i], step) && Holds(s.workers[i]).Some?
    requires !step.List? && !CallFails(step) && !step.StatusPatch? && !step.SpecPatch?
    ensures var s' := StepOf(c, s, i, step);
      && s'.api.resolved == s.api.resolved
      && (step.WriteStatus? ==> s'.workers[i] == Writing(s.workers[i].k, s.workers[i].snap, s.workers[i].todo[1..]))
      && (!step.WriteStatus? ==> !AtWork(StageOf(s, i, s.workers[i].k)) && !AtWork(StageOf(s', i, s.workers[i].k)))
  {
  }

  lemma SameHolds(c: Config, s: State, s': State, i: nat, k: Key, snap: Bindings)
    requires i < |s.workers| == |s'.workers| && s'.api.resolved == s.api.resolved && HolderStores(c, s, i, k, snap)
    requires if s.workers[i].Writing? && Holds(s.workers[i]) == Some(k)
      then s'.workers[i].Writing? && s'.workers[i].k == k && s'.workers[i].snap == s.workers[i].snap
      else !AtWork(StageOf(s, i, k)) && !AtWork(StageOf(s', i, k))
    ensures HolderStores(c, s', i, k, snap)
  {
  }

  lemma PatchedStores(c: Config, s: State, i: nat, snap: Bindings)
    requires i < |s.workers| && CanStep(s, s.workers[i], StatusPatch)
    requires SpecFrom(s.api, s.workers[i].k, s.workers[i].snap) && HolderStores(c, s, i, s.workers[i].k, snap)
    ensures HolderStores(c, StepOf(c, s, i, StatusPatch), i, s.workers[i].k, snap)
  {
    var k, s' := s.workers[i].k, StepOf(c, s, i, StatusPatch);
    assert s.workers[i] == Between(k, snap);
    assert s'.workers[i] == Finishing(k, Some(snap));
    assert s'.api == PatchStatus(s.api, k, Built(c.hash, k.serviceAccountName, snap));
    StatusPatchBuilds(c, s.api, k, snap);
    DoneHolds(c, s', i, k, snap);
  }

  lemma DoneHolds(c: Config, s: State, i: nat, k: Key, snap: Bindings)
    requires i < |s.workers| && s.workers[i] == Finishing(k, Some(snap)) && BuiltAs(c, s.api, k, snap)
    ensures HolderStores(c, s, i, k, snap)
  {
  }

  lemma {:induction false} RunStores(c: Config, s: State, run: seq<Action>, k: Key, snap: Bindings)
    requires Inv(c, s) && Legal(c, s, run) && NotReplaced(c, s, run, k) && Stores(c, s, k, snap)
    ensures Stores(c, After(c, s, run), k, snap)
    decreases |run|
  {
    if run != [] {
      var a, s1 := run[0], Next(c, s, run[0]);
      if a.Work? && Holds(s.workers[a.i]) == Some(k) {
        OwnStores(c, s, a.i, a.step, snap);
      } else {
        OthersUnmoved(c, s, a, k);
        UnmovedStores(c, s, s1, k, snap);
      }
      StepKeeps(c, s, a);
      RunStores(c, s1, run[1..], k, snap);
    }
  }

  /** Let a worker be past its list call for k, and let it end without an error and nobody list k
      again, whatever else happens: edits, dropped events, other keys. Once the controller is quiet
      the object of k is the one built from that listing, and its spec is up to date exactly when
      the listing and the present bindings have the same merge. */
  lemma ListedOnce(c: Config, s: State, i: nat, k: Key, run: seq<Action>)
    requires Reachable(c, s) && i < |s.workers| && AtWork(StageOf(s, i, k))
    requires Legal(c, s, run) && NotReplaced(c, s, run, k) && Quiescent(After(c, s, run))
    ensures var t, snap := After(c, s, run), StageOf(s, i, k).snap;
      && BuiltAs(c, t.api, k, snap)
      && (Converged(t.api, k) <==>
           BuiltSpec(k.serviceAccountName, snap) == BuiltSpec(k.serviceAccountName, Now(t.api, k)))
  {
    ReachableInv(c, s);
    OnlyHolder(s, i, k);
    var t, snap := After(c, s, run), StageOf(s, i, k).snap;
    RunStores(c, s, run, k, snap);
    assert forall j :: 0 <= j < |t.workers| ==> StageOf(t, j, k).Absent?;
    BuiltCoherent(c.hash, k.serviceAccountName, snap);
  }

  // ---------- The last patch decides ----------

  /** Action a writes the spec of k. */
  predicate PatchesSpec(s: State, a: Action, k: Key) {
    a.Work? && a.i < |s.workers| && a.step.SpecPatch? && Holds(s.workers[a.i]) == Some(k)
  }

  ghost predicate NoSpecPatch(c: Config, s: State, run: seq<Action>, k: Key)
    requires Legal(c, s, run)
    decreases |run|
  {
    run == [] || (!PatchesSpec(s, run[0], k) && NoSpecPatch(c, Next(c, s, run[0]), run[1..], k))
  }

  ghost predicate SameSpec(a: Store, b: Store, k: Key) {
    (k in a.resolved <==> k in b.resolved) && (k in a.resolved ==> a.resolved[k].spec == b.resolved[k].spec)
  }

  lemma WorkKeepsSpec(c: Config, s: State, i: nat, step: Step, k: Key)
    requires i < |s.workers| && CanStep(s, s.workers[i], step)
    requires !(step.SpecPatch? && Holds(s.workers[i]) == Some(k))
    ensures SameSpec(s.api, StepOf(c, s, i, step).api, k)
  {
  }

  lemma {:induction false} RunKeepsSpec(c: Config, s: State, run: seq<Action>, k: Key)
    requires Legal(c, s, run) && NoSpecPatch(c, s, run, k)
    ensures SameSpec(s.api, After(c, s, run).api, k)
    decreases |run|
  {
    if run != [] {
      if run[0].Work? { WorkKeepsSpec(c, s, run[0].i, run[0].step, k); }
      RunKeepsSpec(c, Next(c, s, run[0]), run[1..], k);
    }
  }

  /** Over any run that does not write the spec of k, whatever fails, is dropped or moves meanwhile: k is
      up to date in the end exactly when the spec stored at the start is the merge of the bindings in
      the end, or nothing was stored and there are none. */
  lemma UnpatchedDecides(c: Config, s: State, run: seq<Action>, k: Key)
    requires Legal(c, s, run) && NoSpecPatch(c, s, run, k)
    ensures var t := After(c, s, run);
      Converged(t.api, k) <==>
        if k in s.api.resolved then s.api.resolved[k].spec == BuiltSpec(k.serviceAccountName, Now(t.api, k))
        else Now(t.api, k) == []
  {
    RunKeepsSpec(c, s, run, k);
  }

  /** Over any run after a patch of k's spec that does not write it again: exactly when the listing that
      was patched from and the bindings in the end have the same merge. So errors and moved bindings,
      like dropped events, do harm exactly as far as the bindings have changed since that listing. */
  lemma LastPatchDecides(c: Config, s: State, i: nat, run: seq<Action>)
    requires Enabled(c, s, Work(i, SpecPatch)) && Legal(c, Next(c, s, Work(i, SpecPatch)), run)
    requires NoSpecPatch(c, Next(c, s, Work(i, SpecPatch)), run, s.workers[i].k)
    ensures var t, k := After(c, Next(c, s, Work(i, SpecPatch)), run), s.workers[i].k;
      Converged(t.api, k) <==>
        BuiltSpec(k.serviceAccountName, s.workers[i].snap) == BuiltSpec(k.serviceAccountName, Now(t.api, k))
  {
    var k := s.workers[i].k;
    BuiltCoherent(c.hash, k.serviceAccountName, s.workers[i].snap);
    UnpatchedDecides(c, Next(c, s, Work(i, SpecPatch)), run, k);
  }

  // ---------- Dropped events ----------

  /** Action a is not an edit of k's bindings. */
  predicate Unedited(s: State, a: Action, k: Key) {
    match a
    case Edit(id, b) => KeyOf(id, b) != k && (id in s.api.bindings ==> KeyOf(id, s.api.bindings[id]) != k)
    case Delete(id) => id in s.api.bindings ==> KeyOf(id, s.api.bindings[id]) != k
    case _ => true
  }

  ghost predicate NeverEdited(c: Config, s: State, run: seq<Action>, k: Key)
    requires Legal(c, s, run)
    decreases |run|
  {
    run == [] || (Unedited(s, run[0], k) && NeverEdited(c, Next(c, s, run[0]), run[1..], k))
  }

  lemma UneditedKeeps(c: Config, s: State, a: Action, k: Key)
    requires WellNamed(s.api) && Enabled(c, s, a) && Unedited(s, a, k)
    ensures SameSnapshots(s.api, Next(c, s, a).api, k) && WellNamed(Next(c, s, a).api)
  {
    if a.Edit? || a.Delete? {
      EditInvisible(s.api, Next(c, s, a).api, a.id, k);
    } else if a.Work? && a.step.WriteStatus? {
      var w := s.workers[a.i];
      forall snap ensures Current(s.api, k, snap) <==> Current(Next(c, s, a).api, k, snap) {
        StatusWriteKeepsCurrent(s.api, w.k.namespace, w.todo[0], k, snap);
      }
    } else {
      assert Next(c, s, a).api.bindings == s.api.bindings;
    }
  }

  lemma {:induction false} NeverEditedKeeps(c: Config, s: State, run: seq<Action>, k: Key)
    requires WellNamed(s.api) && Legal(c, s, run) && NeverEdited(c, s, run, k)
    ensures SameSnapshots(s.api, After(c, s, run).api, k) && WellNamed(After(c, s, run).api)
    decreases |run|
  {
    if run != [] {
      UneditedKeeps(c, s, run[0], k);
      NeverEditedKeeps(c, Next(c, s, run[0]), run[1..], k);
    }
  }

  lemma NeverEditedMerge(c: Config, s: State, run: seq<Action>, k: Key)
    requires WellNamed(s.api) && Legal(c, s, run) && NeverEdited(c, s, run, k)
    ensures BuiltSpec(k.serviceAccountName, Now(After(c, s, run).api, k)) ==
      BuiltSpec(k.serviceAccountName, Now(s.api, k))
  {
    var t := After(c, s, run);
    NeverEditedKeeps(c, s, run, k);
    NowIsCurrent(s.api, k);
    assert Current(t.api, k, Now(s.api, k));
    SpecOfCurrent(t.api, k, Now(s.api, k));
  }

  /** The drop queues nothing. */
  lemma DropQueuesNothing(c: Config, s: State, i: nat)
    requires Reachable(c, s) && s.watcher.Locked? && i < |s.workers| && Holds(s.workers[i]) == Some(s.watcher.k)
    ensures Next(c, s, InsertOrDrop).queue == s.queue && Next(c, s, InsertOrDrop).events == s.events
  {
    OneWorkerPerKey(c, s, i, s.watcher.k);
  }

  /** An event for k that is dropped after the list call: if k is then neither listed again nor edited,
      the change it announced is lost exactly when the bindings at that moment merge differently from
      the worker's listing. */
  lemma DroppedEvent(c: Config, s: State, i: nat, k: Key, run: seq<Action>)
    requires Reachable(c, s) && s.watcher == Locked(k) && i < |s.workers| && AtWork(StageOf(s, i, k))
    requires run != [] && run[0] == InsertOrDrop && Legal(c, s, run)
    requires NotReplaced(c, s, run, k) && NeverEdited(c, s, run, k) && Quiescent(After(c, s, run))
    ensures !Converged(After(c, s, run).api, k) <==>
      BuiltSpec(k.serviceAccountName, StageOf(s, i, k).snap) != BuiltSpec(k.serviceAccountName, Now(s.api, k))
  {
    ReachableInv(c, s);
    ListedOnce(c, s, i, k, run);
    NeverEditedMerge(c, s, run, k);
  }

  // ---------- What the book-keeping says ----------

  /** The event of k at hand is dropped though a worker past its listing holds k, and the bindings are
      not those it listed. */
  ghost predicate DropsNews(s: State, a: Action, k: Key) {
    && a == InsertOrDrop && s.watcher == Locked(k) && k in s.queue.inFlight
    && exists j :: 0 <= j < |s.workers| && PastListing(s.workers[j], k) && !Current(s.api, k, Seen(s.workers[j]).value)
  }

  predicate PastListing(w: Worker, k: Key) {
    !w.Idle? && !w.Receiving? && !w.Got? && w.k == k && (w.Finishing? || w.Removing? ==> w.seen.Some?)
  }

  /** A binding of k moves to another account. */
  predicate MovesAway(s: State, a: Action, k: Key) {
    && a.Edit? && a.id in s.api.bindings && a.id.namespace == k.namespace
    && s.api.bindings[a.id].spec.subject == SubjectRef(k.serviceAccountName)
    && a.c.spec.subject != SubjectRef(k.serviceAccountName)
  }

  /** A key is booked as missed for nothing but news that is dropped, a binding that moves away, and a
      call for it that fails; and it is struck off by the next listing alone. */
  lemma MissedExactly(c: Config, s: State, a: Action, k: Key)
    requires Enabled(c, s, a)
    ensures k in Next(c, s, a).missed <==>
      || DropsNews(s, a, k) || MovesAway(s, a, k)
      || (a.Work? && CallFails(a.step) && s.workers[a.i].k == k)
      || (k in s.missed && !(a.Work? && a.step.List? && s.workers[a.i].k == k))
  {
    if a == InsertOrDrop && s.watcher.k == k {
      forall j | 0 <= j < |s.workers|
        ensures PastListing(s.workers[j], k) <==> Holds(s.workers[j]) == Some(k) && Seen(s.workers[j]).Some?
      {
      }
    }
  }
}
