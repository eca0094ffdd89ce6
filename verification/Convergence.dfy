/** What every run of the controller keeps, key by key: the stored object is up to date, or
    something still on its way will bring it up to date, or the book-keeping says it was missed;
    and spec and status come from one build except between the two patches. */
module Convergence {
  import opened Crds
  import opened Merge
  import opened MergeTheorems
  import opened Build
  import opened ApiServer
  import opened Controller
  import opened Ownership

  // ---------- Where a key stands ----------

  datatype Stage = Absent | Listing | Statuses(snap: Bindings) | Patched(snap: Bindings) | Done(seen: Option<Bindings>)

  /** How far worker j is with k. */
  function StageOf(s: State, j: nat, k: Key): Stage
    requires j < |s.workers|
  {
    var w := s.workers[j];
    if Holds(w) != Some(k) then Absent
    else match w
      case Got(_) => Listing
      case Writing(_, snap, _) => Statuses(snap)
      case Between(_, snap) => Patched(snap)
      case Finishing(_, seen) => Done(seen)
      case Removing(_, seen) => Done(seen)
      case _ => Absent
  }

  predicate AtWork(g: Stage) {
    g.Statuses? || g.Patched?
  }

  /** An event for k has not reached the in-flight set yet. */
  predicate Pending(s: State, k: Key) {
    k in s.events || s.watcher == WantsLock(k) || s.watcher == Locked(k)
  }

  /** A list call for k is still to come. */
  predicate Coming(s: State, k: Key) {
    s.watcher == Sending(k) || k in s.queue.channel || exists j :: 0 <= j < |s.workers| && StageOf(s, j, k).Listing?
  }

  predicate BetweenPatches(s: State, k: Key) {
    exists j :: 0 <= j < |s.workers| && StageOf(s, j, k).Patched?
  }

  predicate SpecFrom(st: Store, k: Key, snap: Bindings) {
    k in st.resolved && st.resolved[k].spec == BuiltSpec(k.serviceAccountName, snap)
  }

  /** The stored spec is the merge outcome of the bindings as they are now. */
  predicate Converged(st: Store, k: Key) {
    if k in st.resolved then SpecFrom(st, k, Now(st, k)) else Now(st, k) == []
  }

  predicate BuiltAs(c: Config, st: Store, k: Key, snap: Bindings) {
    k in st.resolved && IsBuild(c.hash, k.serviceAccountName, snap, st.resolved[k])
  }

  /** Stronger: the whole stored object, its error, conditions, sources and generation included, is
      the one built from a listing of the bindings as they are now. */
  ghost predicate Reflects(c: Config, st: Store, k: Key) {
    if k in st.resolved then exists snap :: Current(st, k, snap) && BuiltAs(c, st, k, snap) else Now(st, k) == []
  }

  // ---------- The invariant of one key ----------

  ghost predicate Tracked(c: Config, s: State, k: Key) {
    && (forall j :: 0 <= j < |s.workers| && AtWork(StageOf(s, j, k)) ==>
          Current(s.api, k, StageOf(s, j, k).snap) || Pending(s, k) || k in s.missed)
    && ((forall j :: 0 <= j < |s.workers| ==> !AtWork(StageOf(s, j, k))) ==>
          Reflects(c, s.api, k) || Pending(s, k) || Coming(s, k) || k in s.missed)
  }

  predicate TornTracked(s: State, k: Key) {
    k in s.torn ==>
      k in s.missed || Pending(s, k) || Coming(s, k) || exists j :: 0 <= j < |s.workers| && AtWork(StageOf(s, j, k))
  }

  ghost predicate OneBuild(c: Config, s: State, k: Key) {
    k in s.api.resolved ==>
      && MadeOfParts(c.hash, k.serviceAccountName, s.api.resolved[k])
      && (k in s.torn || BetweenPatches(s, k) || FromOneBuild(c.hash, k.serviceAccountName, s.api.resolved[k]))
  }

  predicate WorkerDid(c: Config, s: State, k: Key, g: Stage) {
    match g
    case Patched(snap) => SpecFrom(s.api, k, snap)
    case Done(None) => k in s.missed
    case Done(Some(snap)) => k !in s.torn && BuiltAs(c, s.api, k, snap)
    case _ => true
  }

  ghost predicate KeyInv(c: Config, s: State, k: Key) {
    && Tracked(c, s, k) && TornTracked(s, k) && OneBuild(c, s, k)
    && (forall j :: 0 <= j < |s.workers| ==> WorkerDid(c, s, k, StageOf(s, j, k)))
  }

  ghost predicate Inv(c: Config, s: State) {
    WellNamed(s.api) && Owned(s) && LockHeld(s) && OneReceiver(s) && |s.queue.channel| <= c.buffer
    && forall k :: KeyInv(c, s, k)
  }

  // ---------- Facts about stores ----------

  lemma SpecOfCurrent(st: Store, k: Key, snap: Bindings)
    requires WellNamed(st) && Current(st, k, snap)
    ensures BuiltSpec(k.serviceAccountName, snap) == BuiltSpec(k.serviceAccountName, Now(st, k))
    ensures |snap| == |Now(st, k)|
  {
    NowIsCurrent(st, k);
    CurrentSameBag(st, k, snap, Now(st, k));
    BuiltSpecOrderFree(k.serviceAccountName, snap, Now(st, k));
    assert |multiset(Cores(snap))| == |multiset(Cores(Now(st, k)))|;
  }

  ghost predicate SameSnapshots(st: Store, st': Store, k: Key) {
    forall snap :: Current(st, k, snap) <==> Current(st', k, snap)
  }

  lemma ReflectsKept(c: Config, st: Store, st': Store, k: Key)
    requires WellNamed(st) && WellNamed(st') && SameSnapshots(st, st', k) && Reflects(c, st, k)
    requires k in st.resolved <==> k in st'.resolved
    requires k in st.resolved ==> st'.resolved[k] == st.resolved[k]
    ensures Reflects(c, st', k)
  {
    if k in st.resolved {
      var snap :| Current(st, k, snap) && BuiltAs(c, st, k, snap);
      assert Current(st', k, snap) && BuiltAs(c, st', k, snap);
    } else {
      NowIsCurrent(st, k);
      SpecOfCurrent(st', k, Now(st, k));
    }
  }

  /** An object that reflects the bindings has the spec of their merge. */
  lemma ReflectsMeansConverged(c: Config, st: Store, k: Key)
    requires WellNamed(st) && Reflects(c, st, k)
    ensures Converged(st, k)
  {
    if k in st.resolved {
      var snap :| Current(st, k, snap) && BuiltAs(c, st, k, snap);
      SpecOfCurrent(st, k, snap);
      BuiltCoherent(c.hash, k.serviceAccountName, snap);
    }
  }

  // ---------- A step that does not concern k keeps its invariant ----------

  /** Nothing about k changes, except that an event or a list call may have drawn nearer. */
  ghost predicate Aside(s: State, s': State, k: Key) {
    && |s'.workers| == |s.workers|
    && (Pending(s, k) ==> Pending(s', k)) && (Coming(s, k) ==> Coming(s', k))
    && (forall j :: 0 <= j < |s.workers| ==>
          StageOf(s', j, k) == StageOf(s, j, k) || (StageOf(s', j, k).Listing? && StageOf(s, j, k).Absent?))
    && (k in s'.missed <==> k in s.missed) && (k in s'.torn <==> k in s.torn)
    && (k in s'.api.resolved <==> k in s.api.resolved)
    && (k in s.api.resolved ==> s'.api.resolved[k] == s.api.resolved[k])
    && SameSnapshots(s.api, s'.api, k)
  }

  lemma AsideAtWork(s: State, s': State, k: Key)
    requires Aside(s, s', k)
    ensures forall j :: 0 <= j < |s.workers| && AtWork(StageOf(s', j, k)) ==> StageOf(s', j, k) == StageOf(s, j, k)
    ensures forall j :: 0 <= j < |s.workers| && AtWork(StageOf(s, j, k)) ==> StageOf(s', j, k) == StageOf(s, j, k)
  {
  }

  lemma AsideTracked(c: Config, s: State, s': State, k: Key)
    requires WellNamed(s.api) && WellNamed(s'.api) && Aside(s, s', k) && Tracked(c, s, k)
    ensures Tracked(c, s', k)
  {
    AsideAtWork(s, s', k);
    if Reflects(c, s.api, k) { ReflectsKept(c, s.api, s'.api, k); }
    forall j | 0 <= j < |s'.workers| && AtWork(StageOf(s', j, k))
      ensures Current(s'.api, k, StageOf(s', j, k).snap) || Pending(s', k) || k in s'.missed
    {
      assert AtWork(StageOf(s, j, k));
    }
    if forall j :: 0 <= j < |s'.workers| ==> !AtWork(StageOf(s', j, k)) {
      forall j | 0 <= j < |s.workers| ensures !AtWork(StageOf(s, j, k)) { assert !AtWork(StageOf(s', j, k)); }
    }
  }

  lemma AsideKept(c: Config, s: State, s': State, k: Key)
    requires WellNamed(s.api) && WellNamed(s'.api) && Aside(s, s', k) && KeyInv(c, s, k)
    ensures KeyInv(c, s', k)
  {
    AsideTracked(c, s, s', k);
    if j :| 0 <= j < |s.workers| && AtWork(StageOf(s, j, k)) { assert AtWork(StageOf(s', j, k)); }
    if BetweenPatches(s, k) {
      var j :| 0 <= j < |s.workers| && StageOf(s, j, k).Patched?;
      assert StageOf(s', j, k).Patched?;
    }
  }

  /** The workers but i stay put, and worker i does not work for k before or after. */
  lemma OtherKeyAside(s: State, s': State, i: nat, k: Key)
    requires i < |s.workers| && |s'.workers| == |s.workers| && s'.workers == s.workers[i := s'.workers[i]]
    requires Holds(s.workers[i]) != Some(k) && Holds(s'.workers[i]) != Some(k)
    requires s'.watcher == s.watcher && (k in s.queue.channel ==> k in s'.queue.channel)
    requires k in s.events ==> k in s'.events
    requires (k in s'.missed <==> k in s.missed) && (k in s'.torn <==> k in s.torn)
    requires k in s'.api.resolved <==> k in s.api.resolved
    requires k in s.api.resolved ==> s'.api.resolved[k] == s.api.resolved[k]
    requires SameSnapshots(s.api, s'.api, k)
    ensures Aside(s, s', k)
  {
    forall j | 0 <= j < |s.workers| ensures StageOf(s', j, k) == StageOf(s, j, k) {}
    if Coming(s, k) && s.watcher != Sending(k) && k !in s.queue.channel {
      var j :| 0 <= j < |s.workers| && StageOf(s, j, k).Listing?;
      assert StageOf(s', j, k).Listing?;
    }
  }
}
