/** The statuses that users read. They are those of the merge, once the controller is quiet, as long
    as bindings keep their accounts and no name is used again after a deletion. */
module Statuses {
  import opened Crds
  import opened Merge
  import opened MergeTheorems
  import opened Build
  import opened ApiServer
  import opened Reconcile
  import opened Controller
  import opened Ownership
  import opened Convergence
  import opened Invariant
  import opened Results
  import opened Dropped
  import opened Effects

  // ---------- The hypothesis ----------

  /** No edit moves a binding or brings back a name in `gone`. */
  predicate Steady(s: State, gone: set<BindingId>, a: Action) {
    a.Edit? ==> a.id !in gone && (a.id in s.api.bindings ==> KeyOf(a.id, a.c) == KeyOf(a.id, s.api.bindings[a.id]))
  }

  function GoneAfter(gone: set<BindingId>, a: Action): set<BindingId> {
    if a.Delete? then gone + {a.id} else gone
  }

  ghost predicate SteadyRun(c: Config, s: State, gone: set<BindingId>, run: seq<Action>)
    requires Legal(c, s, run)
    decreases |run|
  {
    run == [] || (Steady(s, gone, run[0]) && SteadyRun(c, Next(c, s, run[0]), GoneAfter(gone, run[0]), run[1..]))
  }

  // ---------- The invariant ----------

  /** If the binding is still there, it has this status. */
  predicate Shows(st: Store, namespace: string, u: CloudRoleBinding) {
    IdOf(namespace, u) in st.bindings ==> st.bindings[IdOf(namespace, u)].status == u.status
  }

  predicate Shown(st: Store, k: Key, us: Bindings) {
    forall u :: u in us ==> Shows(st, k.namespace, u)
  }

  function Due(k: Key, snap: Bindings): Bindings {
    Updates(snap, Issue(k, snap))
  }

  predicate Apart(st: Store, gone: set<BindingId>) {
    forall id :: id in gone ==> id !in st.bindings
  }

  predicate Owns(st: Store, gone: set<BindingId>, k: Key, id: BindingId) {
    id in gone || (id in st.bindings && KeyOf(id, st.bindings[id]) == k)
  }

  /** The listed bindings are k's, or were. */
  predicate OwnListing(st: Store, gone: set<BindingId>, k: Key, snap: Bindings) {
    DistinctNames(snap) && forall c :: c in snap ==> c.name.Some? && Owns(st, gone, k, IdOf(k.namespace, c))
  }

  predicate Covered(s: State, k: Key, snap: Bindings) {
    Current(s.api, k, snap) || Pending(s, k) || k in s.missed
  }

  predicate Busy(g: Stage) {
    AtWork(g) || (g.Done? && g.seen.Some?)
  }

  function Listed(g: Stage): Bindings
    requires Busy(g)
  {
    if g.Done? then g.seen.value else g.snap
  }

  /** What is still due is the end of the list, and the rest of it has been written. */
  predicate PartShown(st: Store, k: Key, snap: Bindings, todo: Bindings) {
    && |todo| <= |Due(k, snap)| && todo == Due(k, snap)[|Due(k, snap)| - |todo|..]
    && Shown(st, k, Due(k, snap)[..|Due(k, snap)| - |todo|])
  }

  predicate WorkerShows(s: State, gone: set<BindingId>, j: nat, k: Key)
    requires j < |s.workers|
  {
    Busy(StageOf(s, j, k)) ==>
      && OwnListing(s.api, gone, k, Listed(StageOf(s, j, k))) && Covered(s, k, Listed(StageOf(s, j, k)))
      && if s.workers[j].Writing? then PartShown(s.api, k, s.workers[j].snap, s.workers[j].todo)
         else Shown(s.api, k, Due(k, Listed(StageOf(s, j, k))))
  }

  predicate Idle(s: State, k: Key) {
    forall j :: 0 <= j < |s.workers| ==> !Busy(StageOf(s, j, k))
  }

  predicate Unsettled(s: State, k: Key) {
    Pending(s, k) || Coming(s, k) || k in s.missed
  }

  predicate ShownAs(c: Config, st: Store, k: Key, snap: Bindings) {
    Current(st, k, snap) && BuiltAs(c, st, k, snap) && Shown(st, k, Due(k, snap))
  }

  ghost predicate Told(c: Config, st: Store, k: Key) {
    exists snap :: ShownAs(c, st, k, snap)
  }

  ghost predicate KeyShows(c: Config, s: State, k: Key) {
    Idle(s, k) && !Unsettled(s, k) && k in s.api.resolved ==> Told(c, s.api, k)
  }

  ghost predicate StatusInv(c: Config, s: State, gone: set<BindingId>) {
    && Apart(s.api, gone)
    && (forall j, k :: 0 <= j < |s.workers| ==> WorkerShows(s, gone, j, k))
    && (forall k :: KeyShows(c, s, k))
  }

  // ---------- Changes of the store ----------

  /** Every binding keeps its account or goes for good, and no status of k's bindings changes. */
  ghost predicate Kept(st: Store, gone: set<BindingId>, st': Store, gone': set<BindingId>, k: Key) {
    && gone <= gone' && Apart(st', gone')
    && (forall id :: id in st.bindings ==>
          id in gone' || (id in st'.bindings && KeyOf(id, st'.bindings[id]) == KeyOf(id, st.bindings[id])))
    && (forall id :: id in st.bindings && id in st'.bindings && KeyOf(id, st.bindings[id]) == k ==>
          st'.bindings[id].status == st.bindings[id].status)
  }

  lemma KeptListing(st: Store, gone: set<BindingId>, st': Store, gone': set<BindingId>, k: Key, snap: Bindings)
    requires Kept(st, gone, st', gone', k) && OwnListing(st, gone, k, snap)
    ensures OwnListing(st', gone', k, snap)
  {
    forall c | c in snap ensures Owns(st', gone', k, IdOf(k.namespace, c)) {
      assert Owns(st, gone, k, IdOf(k.namespace, c));
    }
  }

  lemma KeptShows(st: Store, gone: set<BindingId>, st': Store, gone': set<BindingId>, k: Key, us: Bindings)
    requires Kept(st, gone, st', gone', k) && Shown(st, k, us)
    requires forall u :: u in us ==> Owns(st, gone, k, IdOf(k.namespace, u))
    ensures Shown(st', k, us)
  {
    forall u | u in us ensures Shows(st', k.namespace, u) {
      assert Shows(st, k.namespace, u) && Owns(st, gone, k, IdOf(k.namespace, u));
    }
  }

  /** What is written of a listing goes to its bindings. */
  lemma DueOwned(st: Store, gone: set<BindingId>, k: Key, snap: Bindings)
    requires OwnListing(st, gone, k, snap)
    ensures forall u :: u in Due(k, snap) ==> u.name.Some? && Owns(st, gone, k, IdOf(k.namespace, u))
    ensures DistinctNames(Due(k, snap))
  {
    UpdatesMeans(snap, Issue(k, snap));
    forall u | u in Due(k, snap) ensures u.name.Some? && Owns(st, gone, k, IdOf(k.namespace, u)) {
      var c :| c in snap && Touched(c, Issue(k, snap)) && u == c.(status := Some(StatusFor(c, Issue(k, snap))));
      assert IdOf(k.namespace, u) == IdOf(k.namespace, c);
    }
  }

  lemma CurrentOwned(st: Store, gone: set<BindingId>, k: Key, snap: Bindings)
    requires Current(st, k, snap)
    ensures OwnListing(st, gone, k, snap)
  {
    forall c | c in snap ensures Owns(st, gone, k, IdOf(k.namespace, c)) {
      var id := IdOf(k.namespace, c);
      assert Core(st.bindings[id]) == Core(c) && IsRelevant(k, id, c);
    }
  }

  /** An action that is not a status write for k. */
  lemma ActionKeeps(c: Config, s: State, gone: set<BindingId>, a: Action, k: Key)
    requires Enabled(c, s, a) && Steady(s, gone, a) && Apart(s.api, gone)
    requires a.Work? && a.step.WriteStatus? ==>
      var w := s.workers[a.i]; w.k != k && Owns(s.api, gone, w.k, IdOf(w.k.namespace, w.todo[0]))
    ensures Kept(s.api, gone, Next(c, s, a).api, GoneAfter(gone, a), k)
  {
    if a.Work? && a.step.WriteStatus? {
      var w := s.workers[a.i];
      WriteKeeps(s.api, gone, w.k, w.todo[0], k);
    } else if !a.Edit? && !a.Delete? {
      assert Next(c, s, a).api.bindings == s.api.bindings;
    }
  }

  lemma WriteKeeps(st: Store, gone: set<BindingId>, own: Key, u: CloudRoleBinding, k: Key)
    requires IdOf(own.namespace, u) in st.bindings && Owns(st, gone, own, IdOf(own.namespace, u)) && Apart(st, gone)
    requires own != k
    ensures Kept(st, gone, ReplaceStatus(st, own.namespace, u), gone, k)
  {
  }

  // ---------- A listing stays covered ----------

  lemma CoveredKept(c: Config, s: State, gone: set<BindingId>, a: Action, j: nat, k: Key)
    requires Inv(c, s) && Enabled(c, s, a) && Steady(s, gone, a) && j < |s.workers| && Busy(StageOf(s, j, k))
    requires Covered(s, k, Listed(StageOf(s, j, k)))
    ensures Covered(Next(c, s, a), k, Listed(StageOf(s, j, k)))
  {
    var snap := Listed(StageOf(s, j, k));
    if !Unedited(s, a, k) {
      assert k in Next(c, s, a).events;
    } else if a.InsertOrDrop? && s.watcher.k == k {
      OneHolder(s, j, k);
      assert Seen(s.workers[j]) == Some(snap);
    } else {
      UneditedKeeps(c, s, a, k);
      PendingKept(c, s, a, j, k);
    }
  }

  lemma OneHolder(s: State, j: nat, k: Key)
    requires Owned(s) && j < |s.workers| && Holds(s.workers[j]) == Some(k)
    ensures k in s.queue.inFlight
  {
    Exclusive(s, j, k);
  }

  lemma PendingKept(c: Config, s: State, a: Action, j: nat, k: Key)
    requires Owned(s) && Enabled(c, s, a) && j < |s.workers| && Busy(StageOf(s, j, k))
    requires !(a.InsertOrDrop? && s.watcher.k == k)
    ensures Pending(s, k) ==> Pending(Next(c, s, a), k)
    ensures k in s.missed ==> k in Next(c, s, a).missed
  {
    if a.NextEvent? {
      assert s.events == [s.events[0]] + s.events[1..];
    } else if a.Work? && a.step.List? {
      Exclusive(s, j, k);
    }
  }

  // ---------- The workers ----------

  /** What a worker writes next is a status of one of its key's bindings. */
  lemma WriterOwns(s: State, gone: set<BindingId>, i: nat)
    requires i < |s.workers| && s.workers[i].Writing? && s.workers[i].todo != []
    requires WorkerShows(s, gone, i, s.workers[i].k)
    ensures var w := s.workers[i];
      Owns(s.api, gone, w.k, IdOf(w.k.namespace, w.todo[0])) && w.todo[0] in Due(w.k, w.snap)
  {
    var w := s.workers[i];
    assert Busy(StageOf(s, i, w.k));
    DueOwned(s.api, gone, w.k, w.snap);
    assert w.todo[0] == Due(w.k, w.snap)[|Due(w.k, w.snap)| - |w.todo|];
  }

  /** A step keeps what concerns a key, unless it writes a status for it. */
  lemma StepKept(c: Config, s: State, gone: set<BindingId>, a: Action, k: Key)
    requires StatusInv(c, s, gone) && Enabled(c, s, a) && Steady(s, gone, a)
    requires !(a.Work? && a.step.WriteStatus? && s.workers[a.i].k == k)
    ensures Kept(s.api, gone, Next(c, s, a).api, GoneAfter(gone, a), k)
  {
    if a.Work? && a.step.WriteStatus? {
      assert WorkerShows(s, gone, a.i, s.workers[a.i].k);
      WriterOwns(s, gone, a.i);
    }
    ActionKeeps(c, s, gone, a, k);
  }

  /** A worker with the same listing as before, nothing about which has changed. */
  lemma ListingShows(s: State, gone: set<BindingId>, s': State, gone': set<BindingId>, j: nat, k: Key)
    requires j < |s.workers| && j < |s'.workers| && WorkerShows(s, gone, j, k) && Busy(StageOf(s, j, k))
    requires Kept(s.api, gone, s'.api, gone', k) && Covered(s', k, Listed(StageOf(s, j, k)))
    requires s'.workers[j] == s.workers[j]
    ensures WorkerShows(s', gone', j, k)
  {
    var snap := Listed(StageOf(s, j, k));
    KeptListing(s.api, gone, s'.api, gone', k, snap);
    DueOwned(s.api, gone, k, snap);
    if s.workers[j].Writing? {
      KeptShows(s.api, gone, s'.api, gone', k, Due(k, snap)[..|Due(k, snap)| - |s.workers[j].todo|]);
    } else {
      KeptShows(s.api, gone, s'.api, gone', k, Due(k, snap));
    }
  }

  lemma OthersStand(c: Config, s: State, a: Action, j: nat)
    requires Enabled(c, s, a) && j < |s.workers| && !(a.Work? && a.i == j)
    ensures j < |Next(c, s, a).workers| && Next(c, s, a).workers[j] == s.workers[j]
  {
  }

  lemma OtherWorkerShows(c: Config, s: State, gone: set<BindingId>, a: Action, j: nat, k: Key)
    requires Inv(c, s) && StatusInv(c, s, gone) && Enabled(c, s, a) && Steady(s, gone, a)
    requires j < |s.workers| && !(a.Work? && a.i == j)
    ensures j < |Next(c, s, a).workers| && Next(c, s, a).workers[j] == s.workers[j]
    ensures WorkerShows(Next(c, s, a), GoneAfter(gone, a), j, k)
  {
    OthersStand(c, s, a, j);
    if Busy(StageOf(s, j, k)) {
      assert WorkerShows(s, gone, j, k);
      Exclusive(s, j, k);
      StepKept(c, s, gone, a, k);
      CoveredKept(c, s, gone, a, j, k);
      ListingShows(s, gone, Next(c, s, a), GoneAfter(gone, a), j, k);
    }
  }

  /** The steps of a worker for its key: a fresh listing, */
  lemma ListShows(c: Config, s: State, gone: set<BindingId>, i: nat, all: Bindings)
    requires Inv(c, s) && i < |s.workers| && CanStep(s, s.workers[i], List(all))
    ensures WorkerShows(StepOf(c, s, i, List(all)), gone, i, s.workers[i].k)
  {
    var k := s.workers[i].k;
    var snap := Select(all, k.serviceAccountName);
    ListingIsCurrent(s.api, k, all);
    CurrentOwned(s.api, gone, k, snap);
    var s' := StepOf(c, s, i, List(all));
    assert s'.workers[i] == Writing(k, snap, Due(k, snap)) && s'.api == s.api;
    assert Due(k, snap)[0..] == Due(k, snap);
  }

  /** one status more, */
  lemma PartShownMore(st: Store, gone: set<BindingId>, k: Key, snap: Bindings, todo: Bindings)
    requires OwnListing(st, gone, k, snap) && PartShown(st, k, snap, todo) && todo != []
    requires IdOf(k.namespace, todo[0]) in st.bindings
    ensures PartShown(ReplaceStatus(st, k.namespace, todo[0]), k, snap, todo[1..])
  {
    var st' := ReplaceStatus(st, k.namespace, todo[0]);
    var due := Due(k, snap);
    var n := |due| - |todo|;
    DueOwned(st, gone, k, snap);
    assert due[n] == todo[0] && due[n + 1..] == todo[1..];
    forall u | u in due[..n + 1] ensures Shows(st', k.namespace, u) {
      var h :| 0 <= h <= n && due[h] == u;
      if h < n {
        assert due[h] in due[..n] && Shows(st, k.namespace, due[h]);
        assert due[h] in due && due[n] in due && due[h].name != due[n].name;
      }
    }
  }

  lemma OwnListingWritten(st: Store, gone: set<BindingId>, k: Key, snap: Bindings, u: CloudRoleBinding)
    requires IdOf(k.namespace, u) in st.bindings && OwnListing(st, gone, k, snap)
    ensures OwnListing(ReplaceStatus(st, k.namespace, u), gone, k, snap)
  {
    forall c | c in snap ensures Owns(ReplaceStatus(st, k.namespace, u), gone, k, IdOf(k.namespace, c)) {
      assert Owns(st, gone, k, IdOf(k.namespace, c));
    }
  }

  lemma WriteShows(c: Config, s: State, gone: set<BindingId>, i: nat, emits: bool)
    requires Inv(c, s) && StatusInv(c, s, gone) && i < |s.workers| && CanStep(s, s.workers[i], WriteStatus(emits))
    ensures WorkerShows(StepOf(c, s, i, WriteStatus(emits)), gone, i, s.workers[i].k)
  {
    var w, k := s.workers[i], s.workers[i].k;
    assert WorkerShows(s, gone, i, k) && Busy(StageOf(s, i, k));
    PartShownMore(s.api, gone, k, w.snap, w.todo);
    OwnListingWritten(s.api, gone, k, w.snap, w.todo[0]);
    CoveredKept(c, s, gone, Work(i, WriteStatus(emits)), i, k);
    var s' := StepOf(c, s, i, WriteStatus(emits));
    assert s'.workers[i] == Writing(k, w.snap, w.todo[1..]) && s'.api == ReplaceStatus(s.api, k.namespace, w.todo[0]);
  }

  /** and the others, which leave the bindings alone. */
  lemma RestShows(c: Config, s: State, gone: set<BindingId>, i: nat, step: Step)
    requires Inv(c, s) && StatusInv(c, s, gone) && i < |s.workers| && CanStep(s, s.workers[i], step)
    requires step.SpecPatch? || step.StatusPatch? || step.LockForDone?
    ensures WorkerShows(StepOf(c, s, i, step), gone, i, s.workers[i].k)
  {
    var k, s' := s.workers[i].k, StepOf(c, s, i, step);
    assert WorkerShows(s, gone, i, k);
    RestMoves(c, s, i, step);
    if Busy(StageOf(s, i, k)) {
      CoveredKept(c, s, gone, Work(i, step), i, k);
      SameBindingsShow(s, s', gone, i, k);
    }
  }

  lemma RestMoves(c: Config, s: State, i: nat, step: Step)
    requires i < |s.workers| && CanStep(s, s.workers[i], step)
    requires step.SpecPatch? || step.StatusPatch? || step.LockForDone?
    ensures var k, s' := s.workers[i].k, StepOf(c, s, i, step);
      && i < |s'.workers| && s'.api.bindings == s.api.bindings && !s'.workers[i].Writing?
      && (s.workers[i].Writing? ==> s.workers[i].todo == [])
      && (Busy(StageOf(s', i, k)) <==> Busy(StageOf(s, i, k)))
      && (Busy(StageOf(s, i, k)) ==> Listed(StageOf(s', i, k)) == Listed(StageOf(s, i, k)))
  {
  }

  lemma SameBindingsShow(s: State, s': State, gone: set<BindingId>, i: nat, k: Key)
    requires i < |s.workers| && i < |s'.workers| && s'.api.bindings == s.api.bindings
    requires Busy(StageOf(s, i, k)) && WorkerShows(s, gone, i, k)
    requires Busy(StageOf(s', i, k)) && Listed(StageOf(s', i, k)) == Listed(StageOf(s, i, k))
    requires Covered(s', k, Listed(StageOf(s, i, k)))
    requires !s'.workers[i].Writing? && (s.workers[i].Writing? ==> s.workers[i].todo == [])
    ensures WorkerShows(s', gone, i, k)
  {
    var snap := Listed(StageOf(s, i, k));
    forall c | c in snap ensures Owns(s'.api, gone, k, IdOf(k.namespace, c)) {
      assert Owns(s.api, gone, k, IdOf(k.namespace, c));
    }
    assert Due(k, snap)[..|Due(k, snap)|] == Due(k, snap);
    forall u | u in Due(k, snap) ensures Shows(s'.api, k.namespace, u) { assert Shows(s.api, k.namespace, u); }
  }

  lemma OwnWorkerShows(c: Config, s: State, gone: set<BindingId>, i: nat, step: Step, k: Key)
    requires Inv(c, s) && StatusInv(c, s, gone) && i < |s.workers| && CanStep(s, s.workers[i], step)
    ensures WorkerShows(StepOf(c, s, i, step), gone, i, k)
  {
    if Busy(StageOf(StepOf(c, s, i, step), i, k)) {
      BusyAfter(c, s, i, step, k);
      if step.List? {
        ListShows(c, s, gone, i, step.all);
      } else if step.WriteStatus? {
        WriteShows(c, s, gone, i, step.emits);
      } else {
        RestShows(c, s, gone, i, step);
      }
    }
  }

  lemma BusyAfter(c: Config, s: State, i: nat, step: Step, k: Key)
    requires i < |s.workers| && CanStep(s, s.workers[i], step) && Busy(StageOf(StepOf(c, s, i, step), i, k))
    ensures Holds(s.workers[i]) == Some(k)
    ensures step.List? || step.WriteStatus? || step.SpecPatch? || step.StatusPatch? || step.LockForDone?
  {
  }

  // ---------- The keys ----------

  /** What is on the way for a key that nobody is busy with stays on the way, or somebody gets busy. */
  lemma StaysUnsettled(c: Config, s: State, a: Action, k: Key)
    requires Inv(c, s) && Enabled(c, s, a) && Idle(s, k) && Unsettled(s, k)
    ensures Unsettled(Next(c, s, a), k) || !Idle(Next(c, s, a), k)
  {
    if a.Work? {
      WorkStaysUnsettled(c, s, a.i, a.step, k);
    } else if a.InsertOrDrop? && s.watcher.k == k {
      DropStaysUnsettled(c, s);
    } else {
      OthersStayUnsettled(c, s, a, k);
    }
  }

  lemma OthersStayUnsettled(c: Config, s: State, a: Action, k: Key)
    requires Enabled(c, s, a) && !a.Work? && !(a.InsertOrDrop? && s.watcher.k == k) && Unsettled(s, k)
    ensures Unsettled(Next(c, s, a), k)
  {
    var s' := Next(c, s, a);
    if a.NextEvent? { assert s.events == [s.events[0]] + s.events[1..]; }
    if j :| 0 <= j < |s.workers| && StageOf(s, j, k).Listing? { assert StageOf(s', j, k).Listing?; }
  }

  lemma DropStaysUnsettled(c: Config, s: State)
    requires Inv(c, s) && s.watcher.Locked? && Idle(s, s.watcher.k)
    ensures Unsettled(InsertOrDropKey(s), s.watcher.k)
  {
    var k, s' := s.watcher.k, InsertOrDropKey(s);
    if k in s.queue.inFlight {
      SomeoneHolds(s, k);
      if k !in s.queue.channel {
        var i :| 0 <= i < |s.workers| && Holds(s.workers[i]) == Some(k);
        assert KeyInv(c, s, k) && WorkerDid(c, s, k, StageOf(s, i, k));
        assert StageOf(s', i, k) == StageOf(s, i, k);
        assert !Busy(StageOf(s, i, k));
      }
    }
  }

  /** A step that does not list k leaves what is on its way on its way, */
  lemma WorkKeepsPending(c: Config, s: State, i: nat, step: Step, k: Key)
    requires i < |s.workers| && CanStep(s, s.workers[i], step)
    requires !((step.List? || step.ListFails?) && s.workers[i].k == k)
    ensures k in s.missed ==> k in StepOf(c, s, i, step).missed
    ensures Pending(s, k) ==> Pending(StepOf(c, s, i, step), k)
  {
  }

  lemma ChannelKeepsComing(c: Config, s: State, i: nat, step: Step, k: Key)
    requires i < |s.workers| && CanStep(s, s.workers[i], step) && k in s.queue.channel
    ensures Coming(StepOf(c, s, i, step), k)
  {
    var s' := StepOf(c, s, i, step);
    if step.Receive? {
      assert s.queue.channel == [s.queue.channel[0]] + s.queue.channel[1..];
      if s.queue.channel[0] == k { assert StageOf(s', i, k).Listing?; }
    } else {
      assert s'.queue.channel == s.queue.channel;
    }
  }

  lemma ListerKeepsComing(c: Config, s: State, i: nat, step: Step, j: nat, k: Key)
    requires i < |s.workers| && CanStep(s, s.workers[i], step)
    requires !((step.List? || step.ListFails?) && s.workers[i].k == k)
    requires j < |s.workers| && s.workers[j] == Got(k)
    ensures Coming(StepOf(c, s, i, step), k)
  {
    assert StepOf(c, s, i, step).workers[j] == s.workers[j];
    assert StageOf(StepOf(c, s, i, step), j, k).Listing?;
  }

  lemma WorkKeepsComing(c: Config, s: State, i: nat, step: Step, k: Key)
    requires i < |s.workers| && CanStep(s, s.workers[i], step)
    requires !((step.List? || step.ListFails?) && s.workers[i].k == k)
    requires Coming(s, k)
    ensures Coming(StepOf(c, s, i, step), k)
  {
    if k in s.queue.channel {
      ChannelKeepsComing(c, s, i, step, k);
    } else if j :| 0 <= j < |s.workers| && StageOf(s, j, k).Listing? {
      ListerKeepsComing(c, s, i, step, j, k);
    }
  }

  /** and one that does shows it at work, or books it. */
  lemma WorkStaysUnsettled(c: Config, s: State, i: nat, step: Step, k: Key)
    requires i < |s.workers| && CanStep(s, s.workers[i], step) && Unsettled(s, k)
    ensures Unsettled(StepOf(c, s, i, step), k) || !Idle(StepOf(c, s, i, step), k)
  {
    var s' := StepOf(c, s, i, step);
    if step.List? && s.workers[i].k == k {
      assert Busy(StageOf(s', i, k));
    } else if step.ListFails? && s.workers[i].k == k {
      assert k in s'.missed;
    } else {
      WorkKeepsPending(c, s, i, step, k);
      if Coming(s, k) { WorkKeepsComing(c, s, i, step, k); }
    }
  }

  lemma ResolvedKept(c: Config, s: State, a: Action, k: Key)
    requires Enabled(c, s, a) && Idle(s, k)
    ensures var before, after := s.api.resolved, Next(c, s, a).api.resolved;
      (k in after <==> k in before) && (k in before ==> after[k] == before[k])
  {
    if a.Work? && Holds(s.workers[a.i]) == Some(k) {
      assert !Busy(StageOf(s, a.i, k));
    }
  }

  /** What users were told stays told, or something is on the way. */
  lemma StaysTold(c: Config, s: State, gone: set<BindingId>, a: Action, k: Key)
    requires Inv(c, s) && StatusInv(c, s, gone) && Enabled(c, s, a) && Steady(s, gone, a)
    requires Idle(s, k) && k in s.api.resolved && Told(c, s.api, k) && !Unsettled(Next(c, s, a), k)
    ensures Told(c, Next(c, s, a).api, k)
  {
    var snap :| ShownAs(c, s.api, k, snap);
    var st' := Next(c, s, a).api;
    UneditedKeeps(c, s, a, k);
    ResolvedKept(c, s, a, k);
    CurrentOwned(s.api, gone, k, snap);
    DueOwned(s.api, gone, k, snap);
    NotWritten(s, a, k);
    StepKept(c, s, gone, a, k);
    KeptShows(s.api, gone, st', GoneAfter(gone, a), k, Due(k, snap));
    assert ShownAs(c, st', k, snap);
  }

  lemma NotWritten(s: State, a: Action, k: Key)
    requires Idle(s, k) && (a.Work? && a.step.WriteStatus? ==> a.i < |s.workers| && s.workers[a.i].Writing?)
    ensures !(a.Work? && a.step.WriteStatus? && s.workers[a.i].k == k)
  {
    assert a.Work? && a.step.WriteStatus? && s.workers[a.i].k == k ==> Busy(StageOf(s, a.i, k));
  }

  /** A worker that is done, and did not fail, has told them. */
  lemma DoneTells(c: Config, s: State, gone: set<BindingId>, a: Action, i: nat, k: Key)
    requires Inv(c, s) && StatusInv(c, s, gone) && Enabled(c, s, a) && Steady(s, gone, a)
    requires i < |s.workers| && Busy(StageOf(s, i, k))
    requires Idle(Next(c, s, a), k) && !Unsettled(Next(c, s, a), k)
    ensures Told(c, Next(c, s, a).api, k)
  {
    var snap, s' := Listed(StageOf(s, i, k)), Next(c, s, a);
    BusyUntilRemoved(c, s, a, i, k);
    assert WorkerShows(s, gone, i, k);
    CoveredKept(c, s, gone, a, i, k);
    assert KeyInv(c, s, k) && WorkerDid(c, s, k, StageOf(s, i, k));
    assert ShownAs(c, s'.api, k, snap);
  }

  /** No step but its own ends the work of a worker. */
  lemma OnlyByItself(c: Config, s: State, a: Action, i: nat, k: Key)
    requires Enabled(c, s, a) && i < |s.workers| && Busy(StageOf(s, i, k))
    ensures i < |Next(c, s, a).workers| && (!Busy(StageOf(Next(c, s, a), i, k)) ==> a.Work? && a.i == i)
  {
    if a.Work? && a.i != i { assert StageOf(Next(c, s, a), i, k) == StageOf(s, i, k); }
  }

  /** Its own step ends it by a failure or with the removal of the key. */
  lemma EndsByRemoval(c: Config, s: State, i: nat, step: Step, k: Key)
    requires i < |s.workers| && CanStep(s, s.workers[i], step) && Busy(StageOf(s, i, k))
    requires !Busy(StageOf(StepOf(c, s, i, step), i, k)) && k !in StepOf(c, s, i, step).missed
    ensures step.RemoveKey? && StepOf(c, s, i, step).api == s.api && s.workers[i].Removing?
  {
  }

  lemma BusyUntilRemoved(c: Config, s: State, a: Action, i: nat, k: Key)
    requires Enabled(c, s, a) && i < |s.workers| && Busy(StageOf(s, i, k))
    requires Idle(Next(c, s, a), k) && k !in Next(c, s, a).missed
    ensures a == Work(i, RemoveKey) && Next(c, s, a).api == s.api && s.workers[i].Removing?
  {
    OnlyByItself(c, s, a, i, k);
    assert a.Work? && a.i == i;
    EndsByRemoval(c, s, i, a.step, k);
  }

  lemma KeyShowsKept(c: Config, s: State, gone: set<BindingId>, a: Action, k: Key)
    requires Inv(c, s) && StatusInv(c, s, gone) && Enabled(c, s, a) && Steady(s, gone, a)
    ensures KeyShows(c, Next(c, s, a), k)
  {
    var s' := Next(c, s, a);
    if Idle(s', k) && !Unsettled(s', k) && k in s'.api.resolved {
      if i :| 0 <= i < |s.workers| && Busy(StageOf(s, i, k)) {
        DoneTells(c, s, gone, a, i, k);
      } else {
        assert Idle(s, k) && KeyShows(c, s, k);
        ResolvedKept(c, s, a, k);
        if Unsettled(s, k) { StaysUnsettled(c, s, a, k); }
        StaysTold(c, s, gone, a, k);
      }
    }
  }

  // ---------- Main results ----------

  lemma StepShows(c: Config, s: State, gone: set<BindingId>, a: Action)
    requires Inv(c, s) && StatusInv(c, s, gone) && Enabled(c, s, a) && Steady(s, gone, a)
    ensures StatusInv(c, Next(c, s, a), GoneAfter(gone, a))
  {
    var s', gone' := Next(c, s, a), GoneAfter(gone, a);
    forall j, k | 0 <= j < |s'.workers| ensures WorkerShows(s', gone', j, k) { AnyWorkerShows(c, s, gone, a, j, k); }
    forall k ensures KeyShows(c, s', k) { KeyShowsKept(c, s, gone, a, k); }
  }

  lemma AnyWorkerShows(c: Config, s: State, gone: set<BindingId>, a: Action, j: nat, k: Key)
    requires Inv(c, s) && StatusInv(c, s, gone) && Enabled(c, s, a) && Steady(s, gone, a) && j < |Next(c, s, a).workers|
    ensures WorkerShows(Next(c, s, a), GoneAfter(gone, a), j, k)
  {
    if a.Work? && a.i == j {
      OwnWorkerShows(c, s, gone, j, a.step, k);
    } else {
      OtherWorkerShows(c, s, gone, a, j, k);
    }
  }

  lemma InitShows(c: Config, s: State)
    requires Init(c, s)
    ensures StatusInv(c, s, {})
  {
    forall k ensures KeyShows(c, s, k) {
      assert FoundObject(c, s, k);
      if Now(s.api, k) != [] { InitPending(s, k); }
    }
  }

  lemma {:induction false} RunShows(c: Config, s: State, gone: set<BindingId>, run: seq<Action>)
    requires Inv(c, s) && StatusInv(c, s, gone) && Legal(c, s, run) && SteadyRun(c, s, gone, run)
    ensures Inv(c, After(c, s, run)) && exists gone' :: StatusInv(c, After(c, s, run), gone')
    decreases |run|
  {
    if run == [] {
      assert StatusInv(c, After(c, s, run), gone);
    } else {
      StepKeeps(c, s, run[0]);
      StepShows(c, s, gone, run[0]);
      RunShows(c, Next(c, s, run[0]), GoneAfter(gone, run[0]), run[1..]);
    }
  }

  /** Over any run in which bindings keep their accounts and no name comes back after a deletion: once
      the controller is quiet, a key that was not missed has an object built from a listing of its
      present bindings, and each binding that this listing touches has just the status that follows
      from it: */
  lemma QuietMeansWritten(c: Config, s0: State, run: seq<Action>, k: Key) returns (snap: Bindings)
    requires Init(c, s0) && Legal(c, s0, run) && SteadyRun(c, s0, {}, run)
    requires Quiescent(After(c, s0, run)) && k !in After(c, s0, run).missed && k in After(c, s0, run).api.resolved
    ensures var st := After(c, s0, run).api;
      && Current(st, k, snap) && BuiltAs(c, st, k, snap)
      && forall b :: b in snap && Touched(b, Issue(k, snap)) ==>
           IdOf(k.namespace, b) in st.bindings
           && st.bindings[IdOf(k.namespace, b)].status == Some(StatusFor(b, Issue(k, snap)))
  {
    var t := After(c, s0, run);
    InitKeeps(c, s0);
    InitShows(c, s0);
    RunShows(c, s0, {}, run);
    assert Idle(t, k) && !Unsettled(t, k) && KeyShows(c, t, k);
    snap :| ShownAs(c, t.api, k, snap);
    UpdatesMeans(snap, Issue(k, snap));
    forall b | b in snap && Touched(b, Issue(k, snap))
      ensures t.api.bindings[IdOf(k.namespace, b)].status == Some(StatusFor(b, Issue(k, snap)))
    {
      var u := b.(status := Some(StatusFor(b, Issue(k, snap))));
      assert u in Due(k, snap) && Shows(t.api, k.namespace, u);
    }
  }

  /** all bindings with a name are marked good if they could be merged, else the blamed ones are marked
      bad, and the object records the merge. */
  lemma QuietMeansTold(c: Config, s0: State, run: seq<Action>, k: Key) returns (snap: Bindings, g: int)
    requires Init(c, s0) && Legal(c, s0, run) && SteadyRun(c, s0, {}, run)
    requires Quiescent(After(c, s0, run)) && k !in After(c, s0, run).missed && k in After(c, s0, run).api.resolved
    ensures var st := After(c, s0, run).api; var o := Outcome(k.serviceAccountName, snap);
      && Current(st, k, snap) && Records(c.hash, k.serviceAccountName, snap, o, st.resolved[k], g)
      && forall b ::
           b in snap && b.name.Some? && b.name.value != "" && (o.Err? ==> b.name.value in o.error.affected) ==>
           var id := BindingId(k.namespace, b.name.value);
           id in st.bindings
           && if o.Ok? then MarkedGood(b, st.bindings[id].status) else MarkedBad(b, st.bindings[id].status, o.error)
  {
    snap := QuietMeansWritten(c, s0, run, k);
    g := BuiltRecords(c.hash, k.serviceAccountName, snap);
    var st, o := After(c, s0, run).api, Outcome(k.serviceAccountName, snap);
    forall b | b in snap && b.name.Some? && b.name.value != "" && (o.Err? ==> b.name.value in o.error.affected)
      ensures Touched(b, Issue(k, snap)) && IdOf(k.namespace, b) == BindingId(k.namespace, b.name.value)
      ensures Marked(b, o, Some(StatusFor(b, Issue(k, snap))))
    {
      StatusMarks(k.serviceAccountName, snap, b);
    }
  }
}
