/** What the invariant says to a user of the controller. */
module Results {
  import opened Crds
  import opened Merge
  import opened MergeTheorems
  import opened Build
  import opened ApiServer
  import opened Controller
  import opened Ownership
  import opened Convergence
  import opened Invariant

  /** Nothing is under way: no event, no key in the channel or in anyone's hands. */
  predicate Quiescent(s: State) {
    && s.events == [] && s.watcher.Waiting? && s.queue.channel == []
    && forall i :: 0 <= i < |s.workers| ==> Holds(s.workers[i]).None?
  }

  /** In every reachable state each key is up to date, has an undelivered event, has a list call to
      come, is worked on from the bindings as they are, or is booked as missed. */
  lemma AlwaysCovered(c: Config, s: State, k: Key)
    requires Reachable(c, s)
    ensures Reflects(c, s.api, k) || Pending(s, k) || Coming(s, k) || k in s.missed
      || exists j :: 0 <= j < |s.workers| && AtWork(StageOf(s, j, k)) && Current(s.api, k, StageOf(s, j, k).snap)
  {
    ReachableInv(c, s);
    assert KeyInv(c, s, k);
  }

  lemma QuietMeansIdle(s: State)
    requires Owned(s) && Quiescent(s)
    ensures s.queue.inFlight == {}
  {
    forall x ensures x !in s.queue.inFlight {
      assert Held(s, x) == 0 by { if ByWorkers(s.workers, x) > 0 { ByWorkersWitness(s.workers, x); } }
    }
  }

  /** Nobody works for k and nothing about it is on the way, so its invariant says it is up to date. */
  lemma QuietKey(c: Config, s: State, k: Key)
    requires KeyInv(c, s, k) && Quiescent(s) && k !in s.missed
    ensures Reflects(c, s.api, k)
  {
    assert forall j :: 0 <= j < |s.workers| ==> StageOf(s, j, k).Absent?;
  }

  /** Once quiet, the set of keys in flight is empty, and for each key that was not missed the stored
      object is, in all its parts, the one built from a listing of the present bindings: its spec is
      their merge, and it is ready exactly when they can be merged. */
  lemma QuietMeansConverged(c: Config, s: State, k: Key)
    requires Reachable(c, s) && Quiescent(s)
    ensures s.queue.inFlight == {}
    ensures k !in s.missed ==> Reflects(c, s.api, k) && Converged(s.api, k)
    ensures k !in s.missed && k in s.api.resolved ==>
      && Coherent(c.hash, k.serviceAccountName, s.api.resolved[k])
      && (IsReady(s.api.resolved[k]) <==> Mergeable(multiset(Now(s.api, k))))
  {
    ReachableInv(c, s);
    assert KeyInv(c, s, k);
    QuietMeansIdle(s);
    if k !in s.missed {
      QuietKey(c, s, k);
      ReflectsMeansConverged(c, s.api, k);
      if k in s.api.resolved { ReadyIffMergeable(c, s.api, k); }
    }
  }

  lemma ReadyIffMergeable(c: Config, st: Store, k: Key)
    requires WellNamed(st) && k in st.resolved && Reflects(c, st, k)
    ensures Coherent(c.hash, k.serviceAccountName, st.resolved[k])
    ensures IsReady(st.resolved[k]) <==> Mergeable(multiset(Now(st, k)))
  {
    var snap :| Current(st, k, snap) && BuiltAs(c, st, k, snap);
    ReflectsMeansConverged(c, st, k);
    BuiltCoherent(c.hash, k.serviceAccountName, snap);
    BuiltCoherent(c.hash, k.serviceAccountName, Now(st, k));
  }

  /** The stored object is never half-built when nobody is between its two patches and none of them
      failed there: it is what one build made, in all its parts. Even in between, it says Ready
      exactly when it carries a hash. */
  lemma TwoPatchesAtomic(c: Config, s: State, k: Key)
    requires Reachable(c, s) && k in s.api.resolved
    ensures ReadyMeansHash(s.api.resolved[k])
    ensures !BetweenPatches(s, k) && k !in s.torn ==>
      && FromOneBuild(c.hash, k.serviceAccountName, s.api.resolved[k])
      && Coherent(c.hash, k.serviceAccountName, s.api.resolved[k])
  {
    ReachableInv(c, s);
    assert KeyInv(c, s, k);
    var snap, prior :| Parts(c.hash, k.serviceAccountName, s.api.resolved[k], snap, prior);
    PartsSay(c.hash, k.serviceAccountName, s.api.resolved[k], snap, prior);
    if !BetweenPatches(s, k) && k !in s.torn {
      var x :| IsBuild(c.hash, k.serviceAccountName, x, s.api.resolved[k]);
      OneBuildCoherent(c.hash, k.serviceAccountName, s.api.resolved[k], x);
    }
  }

  // ---------- When it is half-built ----------

  /** In every reachable state, between the patches and after a failed one too, the spec is that of
      one build and the status that of another, and the object is whole exactly when those two
      merged to the same spec. A worker between the patches has built the spec that is stored. */
  lemma WholeExactly(c: Config, s: State, k: Key) returns (snap: Bindings, prior: Option<Bindings>)
    requires Reachable(c, s) && k in s.api.resolved && CollisionFree(c.hash)
    ensures var sa, r := k.serviceAccountName, s.api.resolved[k];
      && Parts(c.hash, sa, r, snap, prior)
      && (FromOneBuild(c.hash, sa, r) <==> prior.Some? && BuiltSpec(sa, prior.value) == BuiltSpec(sa, snap))
      && (Coherent(c.hash, sa, r) <==> prior.Some? && BuiltSpec(sa, prior.value) == BuiltSpec(sa, snap))
    ensures forall i :: 0 <= i < |s.workers| && StageOf(s, i, k).Patched? ==>
      BuiltSpec(k.serviceAccountName, StageOf(s, i, k).snap) == BuiltSpec(k.serviceAccountName, snap)
  {
    ReachableInv(c, s);
    assert KeyInv(c, s, k);
    snap, prior :| Parts(c.hash, k.serviceAccountName, s.api.resolved[k], snap, prior);
    PartsExactly(c.hash, k.serviceAccountName, s.api.resolved[k], snap, prior);
    forall i | 0 <= i < |s.workers| && StageOf(s, i, k).Patched?
      ensures BuiltSpec(k.serviceAccountName, StageOf(s, i, k).snap) == BuiltSpec(k.serviceAccountName, snap)
    {
      assert WorkerDid(c, s, k, StageOf(s, i, k));
    }
  }

  /** The first patch leaves a whole object exactly when it changes nothing of the spec. */
  lemma FirstPatchWholeExactly(c: Config, st: Store, k: Key, snap: Bindings)
    requires CollisionFree(c.hash)
    requires k in st.resolved ==> FromOneBuild(c.hash, k.serviceAccountName, st.resolved[k])
    ensures var sa := k.serviceAccountName; var r := PatchSpec(st, k, Built(c.hash, sa, snap)).resolved[k];
      && (FromOneBuild(c.hash, sa, r) <==> k in st.resolved && st.resolved[k].spec == BuiltSpec(sa, snap))
      && (Coherent(c.hash, sa, r) <==> k in st.resolved && st.resolved[k].spec == BuiltSpec(sa, snap))
  {
    var sa := k.serviceAccountName;
    var r := PatchSpec(st, k, Built(c.hash, sa, snap)).resolved[k];
    BuiltCoherent(c.hash, sa, snap);
    if k in st.resolved {
      var prior :| IsBuild(c.hash, sa, prior, st.resolved[k]);
      BuiltCoherent(c.hash, sa, prior);
      assert Parts(c.hash, sa, r, snap, Some(prior));
      PartsExactly(c.hash, sa, r, snap, Some(prior));
    } else {
      assert Parts(c.hash, sa, r, snap, None);
      PartsExactly(c.hash, sa, r, snap, None);
    }
  }

  /** Only the worker that holds a key writes its object. */
  lemma HolderWrites(c: Config, s: State, i: nat, k: Key, a: Action)
    requires Owned(s) && i < |s.workers| && Holds(s.workers[i]) == Some(k)
    requires Enabled(c, s, a) && !(a.Work? && a.i == i)
    ensures var s' := Next(c, s, a);
      && i < |s'.workers| && s'.workers[i] == s.workers[i]
      && (k in s'.api.resolved <==> k in s.api.resolved)
      && (k in s.api.resolved ==> s'.api.resolved[k] == s.api.resolved[k])
  {
    if a.Work? {
      Exclusive(s, i, k);
      OtherHolderWrites(c, s, a.i, a.step, k);
    }
  }

  lemma OtherHolderWrites(c: Config, s: State, j: nat, step: Step, k: Key)
    requires j < |s.workers| && CanStep(s, s.workers[j], step) && Holds(s.workers[j]) != Some(k)
    ensures var before, after := s.api.resolved, StepOf(c, s, j, step).api.resolved;
      (k in after <==> k in before) && (k in before ==> after[k] == before[k])
  {
  }

  lemma {:induction false} HeldFast(c: Config, s: State, i: nat, k: Key, run: seq<Action>)
    requires Inv(c, s) && i < |s.workers| && Holds(s.workers[i]) == Some(k) && Legal(c, s, run)
    requires forall a :: a in run ==> !(a.Work? && a.i == i)
    ensures var t := After(c, s, run);
      && i < |t.workers| && t.workers[i] == s.workers[i]
      && (k in t.api.resolved <==> k in s.api.resolved)
      && (k in s.api.resolved ==> t.api.resolved[k] == s.api.resolved[k])
    decreases |run|
  {
    if run != [] {
      assert run[0] in run;
      HolderWrites(c, s, i, k, run[0]);
      StepKeeps(c, s, run[0]);
      HeldFast(c, Next(c, s, run[0]), i, k, run[1..]);
    }
  }

  /** The object of k is whole exactly if this holds. */
  ghost predicate WholeIff(c: Config, st: Store, k: Key, condition: bool) {
    && k in st.resolved
    && (FromOneBuild(c.hash, k.serviceAccountName, st.resolved[k]) <==> condition)
    && (Coherent(c.hash, k.serviceAccountName, st.resolved[k]) <==> condition)
  }

  /** So from the first patch of a whole object on, whatever the other tasks and the users do, up to
      the second patch, and for good if that fails, the object is whole exactly when the listing of
      the worker merges to the spec that was stored before. */
  lemma TornExactly(c: Config, s: State, i: nat, run: seq<Action>)
    requires Reachable(c, s) && CollisionFree(c.hash) && Enabled(c, s, Work(i, SpecPatch))
    requires s.workers[i].k !in s.torn && Legal(c, Next(c, s, Work(i, SpecPatch)), run)
    requires forall a :: a in run ==> !(a.Work? && a.i == i)
    ensures var k, snap := s.workers[i].k, s.workers[i].snap;
      var t := After(c, Next(c, s, Work(i, SpecPatch)), run);
      && i < |t.workers| && t.workers[i] == Between(k, snap)
      && WholeIff(c, t.api, k, k in s.api.resolved && s.api.resolved[k].spec == BuiltSpec(k.serviceAccountName, snap))
  {
    var k, snap := s.workers[i].k, s.workers[i].snap;
    var s1 := Next(c, s, Work(i, SpecPatch));
    ReachableInv(c, s);
    WholeBeforePatch(c, s, i, k, snap);
    FirstPatchWholeExactly(c, s.api, k, snap);
    StepKeeps(c, s, Work(i, SpecPatch));
    HeldFast(c, s1, i, k, run);
  }

  /** A failing second patch leaves the object as it is, and the key is torn. */
  lemma FailedPatchKeeps(c: Config, t: State, i: nat)
    requires i < |t.workers| && t.workers[i].Between?
    ensures Enabled(c, t, Work(i, StatusPatchFails))
    ensures var t' := Next(c, t, Work(i, StatusPatchFails)); t'.api == t.api && t'.torn == t.torn + {t.workers[i].k}
  {
  }

  /** And if the second patch fails, the torn object it leaves behind is whole under the same condition. */
  lemma LeftTornExactly(c: Config, s: State, i: nat, run: seq<Action>, t: State)
    requires Reachable(c, s) && CollisionFree(c.hash) && Enabled(c, s, Work(i, SpecPatch))
    requires s.workers[i].k !in s.torn && Legal(c, Next(c, s, Work(i, SpecPatch)), run)
    requires forall a :: a in run ==> !(a.Work? && a.i == i)
    requires t == After(c, Next(c, s, Work(i, SpecPatch)), run)
    ensures Enabled(c, t, Work(i, StatusPatchFails))
    ensures var k, snap := s.workers[i].k, s.workers[i].snap;
      var t' := Next(c, t, Work(i, StatusPatchFails));
      && k in t'.torn
      && WholeIff(c, t'.api, k, k in s.api.resolved && s.api.resolved[k].spec == BuiltSpec(k.serviceAccountName, snap))
  {
    TornExactly(c, s, i, run);
    FailedPatchKeeps(c, t, i);
  }

  lemma WholeBeforePatch(c: Config, s: State, i: nat, k: Key, snap: Bindings)
    requires Inv(c, s) && i < |s.workers| && s.workers[i] == Writing(k, snap, []) && k !in s.torn
    ensures k in s.api.resolved ==> FromOneBuild(c.hash, k.serviceAccountName, s.api.resolved[k])
  {
    assert KeyInv(c, s, k);
    OnlyHolder(s, i, k);
    assert !BetweenPatches(s, k);
  }

  /** A key is reconciled by one worker at a time, is in flight while it is, and the set of keys in
      flight is bounded. */
  lemma OneWorkerPerKey(c: Config, s: State, i: nat, k: Key)
    requires Reachable(c, s) && i < |s.workers| && Holds(s.workers[i]) == Some(k)
    ensures k in s.queue.inFlight && k !in s.queue.channel
    ensures forall j :: 0 <= j < |s.workers| && j != i ==> Holds(s.workers[j]) != Some(k)
    ensures |s.queue.inFlight| <= c.buffer + |s.workers| + 1
  {
    ReachableInv(c, s);
    Exclusive(s, i, k);
    InFlightBounded(c, s);
  }
}
