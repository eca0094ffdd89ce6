/** The controller never gets stuck, and it drains: without edits the length of a run is bounded by
    the state it starts in and the events its own status writes cause, and it ends with nothing in
    flight. */
module Progress {
  import opened Crds
  import opened Merge
  import opened ApiServer
  import opened Reconcile
  import opened Controller
  import opened Ownership
  import opened Convergence
  import opened Invariant
  import opened Results
  import Ordered

  /** A step of the controller itself that puts no new event in front of the watcher. */
  predicate Draining(a: Action) {
    Internal(a) && !(a.Work? && a.step == WriteStatus(true))
  }

  /** The server answers, but this call fails all the same: the binding is gone, or the name empty. */
  predicate Hopeless(s: State, w: Worker, step: Step) {
    && w.Writing?
    && (if w.todo != [] then step.WriteFails? && IdOf(w.k.namespace, w.todo[0]) !in s.api.bindings
        else step.SpecPatchFails? && w.k.serviceAccountName == "")
  }

  /** A draining step in which the server fails no call. */
  predicate Smooth(s: State, a: Action) {
    Draining(a) && (a.Work? && CallFails(a.step) ==> a.i < |s.workers| && Hopeless(s, s.workers[a.i], a.step))
  }

  // ---------- Some step is always enabled ----------

  /** The bindings of a namespace, by name. */
  function NamesIn(st: Store, namespace: string): set<string> {
    set id | id in st.bindings && id.namespace == namespace :: id.name
  }

  function Everything(st: Store, namespace: string): Bindings {
    var names := Ordered.Sorted(NamesIn(st, namespace));
    seq(|names|, i requires 0 <= i < |names| =>
      assert names[i] in NamesIn(st, namespace);
      st.bindings[BindingId(namespace, names[i])])
  }

  lemma EverythingIsListing(st: Store, namespace: string)
    requires WellNamed(st)
    ensures IsListing(st, namespace, Everything(st, namespace))
  {
    var names, all := Ordered.Sorted(NamesIn(st, namespace)), Everything(st, namespace);
    Ordered.SortedDistinct(NamesIn(st, namespace));
    forall i | 0 <= i < |all| ensures all[i].name == Some(names[i]) && IdOf(namespace, all[i]) in st.bindings
        && st.bindings[IdOf(namespace, all[i])] == all[i] {
      assert names[i] in NamesIn(st, namespace);
    }
    forall id | id in st.bindings && id.namespace == namespace ensures st.bindings[id] in all {
      assert id.name in names;
      var i :| 0 <= i < |names| && names[i] == id.name;
      assert all[i] == st.bindings[id];
    }
  }

  /** A listing can always be answered. */
  lemma ListerCanGoOn(c: Config, s: State, i: nat)
    requires i < |s.workers| && s.workers[i].Got? && WellNamed(s.api)
    ensures exists a :: Smooth(s, a) && Enabled(c, s, a)
  {
    var all := Everything(s.api, s.workers[i].k.namespace);
    EverythingIsListing(s.api, s.workers[i].k.namespace);
    assert CanStep(s, s.workers[i], List(all));
    assert Smooth(s, Work(i, List(all))) && Enabled(c, s, Work(i, List(all)));
  }

  /** A write too, unless it is hopeless, when it fails. */
  lemma WriterCanGoOn(c: Config, s: State, i: nat)
    requires i < |s.workers| && s.workers[i].Writing?
    ensures exists a :: Smooth(s, a) && Enabled(c, s, a)
  {
    var w := s.workers[i];
    var step :=
      if w.todo != [] then (if IdOf(w.k.namespace, w.todo[0]) in s.api.bindings then WriteStatus(false) else WriteFails)
      else if w.k.serviceAccountName != "" then SpecPatch else SpecPatchFails;
    assert Smooth(s, Work(i, step)) && Enabled(c, s, Work(i, step));
  }

  /** A worker inside a reconcile can always go on, but for the lock that `done` takes. */
  lemma WorkerCanGoOn(c: Config, s: State, i: nat)
    requires i < |s.workers| && Holds(s.workers[i]).Some? && WellNamed(s.api)
    requires s.workers[i].Finishing? ==> s.lock.Nobody?
    requires s.workers[i].Between? ==> s.workers[i].k in s.api.resolved
    ensures exists a :: Smooth(s, a) && Enabled(c, s, a)
  {
    if s.workers[i].Got? {
      ListerCanGoOn(c, s, i);
    } else if s.workers[i].Writing? {
      WriterCanGoOn(c, s, i);
    } else {
      var step :=
        if s.workers[i].Between? then StatusPatch else if s.workers[i].Finishing? then LockForDone else RemoveKey;
      assert Smooth(s, Work(i, step)) && Enabled(c, s, Work(i, step));
    }
  }

  lemma PatchedIsStored(c: Config, s: State, i: nat)
    requires Inv(c, s) && i < |s.workers| && s.workers[i].Between?
    ensures s.workers[i].k in s.api.resolved
  {
    assert KeyInv(c, s, s.workers[i].k);
    assert WorkerDid(c, s, s.workers[i].k, StageOf(s, i, s.workers[i].k));
  }

  /** Whoever holds the lock is inside a section that contains no wait. */
  lemma LockHolderCanGoOn(c: Config, s: State)
    requires Inv(c, s) && !s.lock.Nobody?
    ensures exists a :: Smooth(s, a) && Enabled(c, s, a)
  {
    if s.lock.TheWatcher? {
      assert Smooth(s, InsertOrDrop) && Enabled(c, s, InsertOrDrop);
    } else {
      assert Smooth(s, Work(s.lock.i, RemoveKey)) && Enabled(c, s, Work(s.lock.i, RemoveKey));
    }
  }

  /** With a key in the channel and all workers free, one of them receives or takes the receiver. */
  lemma FreeWorkerCanReceive(c: Config, s: State)
    requires s.queue.channel != [] && |s.workers| > 0 && forall i :: 0 <= i < |s.workers| ==> Holds(s.workers[i]).None?
    ensures exists a :: Smooth(s, a) && Enabled(c, s, a)
  {
    if i :| 0 <= i < |s.workers| && s.workers[i].Receiving? {
      assert Smooth(s, Work(i, Receive)) && Enabled(c, s, Work(i, Receive));
    } else {
      assert s.workers[0].Idle?;
      assert Smooth(s, Work(0, TakeReceiver)) && Enabled(c, s, Work(0, TakeReceiver));
    }
  }

  /** No deadlock: unless everything is quiet, the controller has a step, and one in which the server
      fails no call. In particular a producer that waits for room in the channel holds no lock that
      the workers need. */
  lemma NeverStuck(c: Config, s: State)
    requires Inv(c, s) && !Quiescent(s) && |s.workers| > 0 && c.buffer > 0
    ensures exists a :: Smooth(s, a) && Enabled(c, s, a)
  {
    if !s.lock.Nobody? {
      LockHolderCanGoOn(c, s);
    } else if i :| 0 <= i < |s.workers| && Holds(s.workers[i]).Some? {
      if s.workers[i].Between? { PatchedIsStored(c, s, i); }
      WorkerCanGoOn(c, s, i);
    } else if s.queue.channel != [] {
      FreeWorkerCanReceive(c, s);
    } else {
      var a := if s.watcher.Waiting? then NextEvent else if s.watcher.WantsLock? then LockSet else SendKey;
      assert Smooth(s, a) && Enabled(c, s, a);
    }
  }

  // ---------- A measure ----------

  /** Steps a worker may still take for what it has in hand, when a list returns n bindings at most. */
  function WorkLeft(w: Worker, n: nat): nat {
    match w
    case Receiving => 0
    case Idle => 1
    case Removing(_, _) => 2
    case Finishing(_, _) => 3
    case Between(_, _) => 4
    case Writing(_, _, todo) => 5 + |todo|
    case Got(_) => 6 + n
  }

  function AllWork(ws: seq<Worker>, n: nat): nat {
    if ws == [] then 0 else WorkLeft(ws[0], n) + AllWork(ws[1..], n)
  }

  function WatcherLeft(w: Watcher, n: nat): nat {
    match w
    case Waiting => 0
    case Sending(_) => 8 + n
    case Locked(_) => 9 + n
    case WantsLock(_) => 10 + n
  }

  /** What one more event costs. */
  function EventCost(n: nat): nat { 11 + n }

  function Measure(s: State, n: nat): nat {
    |s.events| * EventCost(n) + WatcherLeft(s.watcher, n) + |s.queue.channel| * (7 + n) + AllWork(s.workers, n)
  }

  lemma {:induction false} AllWorkUpdate(ws: seq<Worker>, i: nat, w: Worker, n: nat)
    requires i < |ws|
    ensures AllWork(ws[i := w], n) == AllWork(ws, n) - WorkLeft(ws[i], n) + WorkLeft(w, n)
  {
    if i > 0 {
      AllWorkUpdate(ws[1..], i - 1, w, n);
      assert ws[i := w][1..] == ws[1..][i - 1 := w];
    } else {
      assert ws[i := w][1..] == ws[1..];
    }
  }

  lemma {:induction false} UpdatesFewer(snap: Bindings, issue: Option<MergeIssue>)
    ensures |Updates(snap, issue)| <= |snap|
  {
    if snap != [] { UpdatesFewer(snap[1..], issue); }
  }

  lemma {:induction false} SelectFewer(all: Bindings, sa: string)
    ensures |Select(all, sa)| <= |all|
  {
    if all != [] { SelectFewer(all[1..], sa); }
  }

  /** A listing is no longer than the number of stored bindings. */
  lemma {:induction false} ListingBounded(st: Store, namespace: string, all: Bindings)
    requires DistinctNames(all)
    requires forall c :: c in all ==> c.name.Some? && IdOf(namespace, c) in st.bindings
    ensures |all| <= |st.bindings|
  {
    var ids := set c | c in all :: IdOf(namespace, c);
    IdsCount(namespace, all);
    SubsetSize(ids, st.bindings.Keys);
  }

  lemma {:induction false} IdsCount(namespace: string, all: Bindings)
    requires DistinctNames(all) && forall c :: c in all ==> c.name.Some?
    ensures |set c | c in all :: IdOf(namespace, c)| == |all|
  {
    var ids := set c | c in all :: IdOf(namespace, c);
    if all == [] {
      assert ids == {};
    } else {
      assert all == [all[0]] + all[1..];
      assert all[0] in all;
      IdsCount(namespace, all[1..]);
      var rest := set c | c in all[1..] :: IdOf(namespace, c);
      forall c | c in all[1..] ensures IdOf(namespace, c) != IdOf(namespace, all[0]) {
        var j :| 1 <= j < |all| && all[j] == c;
        assert all[0].name != all[j].name && c in all;
      }
      assert ids == rest + {IdOf(namespace, all[0])};
    }
  }

  lemma ListMeasure(c: Config, s: State, i: nat, all: Bindings)
    requires i < |s.workers| && CanStep(s, s.workers[i], List(all))
    ensures WorkLeft(StepOf(c, s, i, List(all)).workers[i], |s.api.bindings|) < WorkLeft(s.workers[i], |s.api.bindings|)
  {
    var k := s.workers[i].k;
    ListingBounded(s.api, k.namespace, all);
    SelectFewer(all, k.serviceAccountName);
    UpdatesFewer(Select(all, k.serviceAccountName), Issue(k, Select(all, k.serviceAccountName)));
  }

  lemma WorkerMeasure(c: Config, s: State, i: nat, step: Step)
    requires i < |s.workers| && CanStep(s, s.workers[i], step) && step != WriteStatus(true)
    ensures Measure(StepOf(c, s, i, step), |s.api.bindings|) < Measure(s, |s.api.bindings|)
  {
    var n := |s.api.bindings|;
    var s' := StepOf(c, s, i, step);
    AllWorkUpdate(s.workers, i, s'.workers[i], n);
    assert s'.events == s.events && s'.watcher == s.watcher;
    StepWork(c, s, i, step);
  }

  /** What the worker has left shrinks, or it takes a key from the channel. */
  lemma StepWork(c: Config, s: State, i: nat, step: Step)
    requires i < |s.workers| && CanStep(s, s.workers[i], step)
    ensures var s', n := StepOf(c, s, i, step), |s.api.bindings|;
      if step.Receive? then |s.queue.channel| == |s'.queue.channel| + 1
      else s'.queue.channel == s.queue.channel && WorkLeft(s'.workers[i], n) < WorkLeft(s.workers[i], n)
  {
    if step.List? {
      ListMeasure(c, s, i, step.all);
    } else if step.Receive? {
      assert StepOf(c, s, i, step).queue.channel == s.queue.channel[1..];
    } else {
      OtherChannel(c, s, i, step);
      OtherWork(c, s, i, step);
    }
  }

  lemma OtherChannel(c: Config, s: State, i: nat, step: Step)
    requires i < |s.workers| && CanStep(s, s.workers[i], step) && !step.Receive?
    ensures StepOf(c, s, i, step).queue.channel == s.queue.channel
  {
  }

  /** The step is one that this worker can take, as far as it depends on the worker. */
  predicate Suits(w: Worker, step: Step) {
    match step
    case TakeReceiver => w.Idle?
    case Receive => w.Receiving?
    case List(_) => w.Got?
    case ListFails => w.Got?
    case WriteStatus(_) => w.Writing? && w.todo != []
    case WriteFails => w.Writing?
    case SpecPatch => w.Writing? && w.todo == []
    case SpecPatchFails => w.Writing?
    case StatusPatch => w.Between?
    case StatusPatchFails => w.Between?
    case LockForDone => w.Finishing?
    case RemoveKey => w.Removing?
  }

  /** Where the step takes it. */
  function Onward(w: Worker, step: Step): Worker
    requires Suits(w, step) && !step.List? && !step.Receive?
  {
    match step
    case TakeReceiver => Receiving
    case WriteStatus(_) => Writing(w.k, w.snap, w.todo[1..])
    case SpecPatch => Between(w.k, w.snap)
    case StatusPatch => Finishing(w.k, Some(w.snap))
    case LockForDone => Removing(w.k, w.seen)
    case RemoveKey => Idle
    case _ => Finishing(w.k, None)
  }

  lemma OnwardIsLess(w: Worker, step: Step, n: nat)
    requires Suits(w, step) && !step.List? && !step.Receive?
    ensures WorkLeft(Onward(w, step), n) < WorkLeft(w, n)
  {
  }

  lemma MovesOnward(c: Config, s: State, i: nat, step: Step)
    requires i < |s.workers| && CanStep(s, s.workers[i], step) && !step.List? && !step.Receive?
    ensures Suits(s.workers[i], step) && StepOf(c, s, i, step).workers[i] == Onward(s.workers[i], step)
  {
  }

  lemma OtherWork(c: Config, s: State, i: nat, step: Step)
    requires i < |s.workers| && CanStep(s, s.workers[i], step) && !step.List? && !step.Receive?
    ensures WorkLeft(StepOf(c, s, i, step).workers[i], |s.api.bindings|) < WorkLeft(s.workers[i], |s.api.bindings|)
  {
    MovesOnward(c, s, i, step);
    OnwardIsLess(s.workers[i], step, |s.api.bindings|);
  }

  /** A status write that emits an event adds at most the cost of that event. */
  lemma EmitMeasure(c: Config, s: State, i: nat)
    requires i < |s.workers| && CanStep(s, s.workers[i], WriteStatus(true))
    ensures Measure(StepOf(c, s, i, WriteStatus(true)), |s.api.bindings|) <
      Measure(s, |s.api.bindings|) + EventCost(|s.api.bindings|)
  {
    var s' := StepOf(c, s, i, WriteStatus(true));
    AllWorkUpdate(s.workers, i, s'.workers[i], |s.api.bindings|);
    assert |s'.events| == |s.events| + 1;
  }

  lemma StepMeasure(c: Config, s: State, a: Action)
    requires Enabled(c, s, a) && Internal(a)
    ensures Next(c, s, a).api.bindings.Keys == s.api.bindings.Keys
    ensures Measure(Next(c, s, a), |s.api.bindings|)
          < Measure(s, |s.api.bindings|) + if Draining(a) then 0 else EventCost(|s.api.bindings|)
  {
    match a
    case Work(i, step) =>
      if step == WriteStatus(true) { EmitMeasure(c, s, i); } else { WorkerMeasure(c, s, i, step); }
      if step.WriteStatus? {
        assert IdOf(s.workers[i].k.namespace, s.workers[i].todo[0]) in s.api.bindings;
      }
    case _ =>
  }

  /** The cost of the events a run's own status writes cause. */
  function Charge(run: seq<Action>, cost: nat): nat {
    if run == [] then 0 else (if Draining(run[0]) then 0 else cost) + Charge(run[1..], cost)
  }

  lemma SameCount(a: Store, b: Store)
    requires a.bindings.Keys == b.bindings.Keys
    ensures |a.bindings| == |b.bindings|
  {
    assert |a.bindings| == |a.bindings.Keys| && |b.bindings| == |b.bindings.Keys|;
  }

  /** The length of a run without edits is bounded by the state it starts in and by the number of
      events its own status writes cause. */
  lemma {:induction false} RunBounded(c: Config, s: State, run: seq<Action>)
    requires Legal(c, s, run) && forall a :: a in run ==> Internal(a)
    ensures |run| + Measure(After(c, s, run), |s.api.bindings|) <=
      Measure(s, |s.api.bindings|) + Charge(run, EventCost(|s.api.bindings|))
    decreases |run|
  {
    if run != [] {
      assert run[0] in run;
      StepMeasure(c, s, run[0]);
      var s1 := Next(c, s, run[0]);
      SameCount(s.api, s1.api);
      RunBounded(c, s1, run[1..]);
      assert After(c, s, run) == After(c, s1, run[1..]);
    }
  }

  lemma {:induction false} WorkersStay(c: Config, s: State, run: seq<Action>)
    requires Legal(c, s, run)
    ensures |After(c, s, run).workers| == |s.workers|
    decreases |run|
  {
    if run != [] { WorkersStay(c, Next(c, s, run[0]), run[1..]); }
  }

  /** Hence every run of a started controller without edits is as long as its first state and the
      events caused by its own status writes allow, and no longer; and one that cannot be prolonged
      by steps in which the server answers ends with an empty channel and nothing in flight. */
  lemma Drains(c: Config, s: State, run: seq<Action>)
    requires Inv(c, s) && |s.workers| > 0 && c.buffer > 0
    requires Legal(c, s, run) && forall a :: a in run ==> Internal(a)
    ensures |run| <= Measure(s, |s.api.bindings|) + Charge(run, EventCost(|s.api.bindings|))
    ensures (forall a :: Smooth(After(c, s, run), a) ==> !Enabled(c, After(c, s, run), a)) ==>
              Quiescent(After(c, s, run)) && After(c, s, run).queue.inFlight == {}
  {
    RunBounded(c, s, run);
    RunKeeps(c, s, run);
    WorkersStay(c, s, run);
    var end := After(c, s, run);
    if forall a :: Smooth(end, a) ==> !Enabled(c, end, a) {
      if !Quiescent(end) { NeverStuck(c, end); }
      QuietMeansIdle(end);
    }
  }

  /** Runs that cause no events are bounded by their first state alone. */
  lemma {:induction false} NoCharge(run: seq<Action>, cost: nat)
    requires forall a :: a in run ==> Draining(a)
    ensures Charge(run, cost) == 0
  {
    if run != [] {
      assert run[0] in run;
      NoCharge(run[1..], cost);
    }
  }
}
