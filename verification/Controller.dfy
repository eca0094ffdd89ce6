/** The controller as a step machine: the watcher task, the queue with its lock, the workers that
    share one receiver, and the API server. Every lock operation, channel operation and API call
    is one atomic step, any step of any task may come next, and any API call may fail
    (queue.rs, reconcile.rs and `upsert_resolved` of merge.rs in app/crates/kif-webhook/src). */
module Controller {
  import opened Crds
  import opened Merge
  import opened Build
  import opened ApiServer
  import opened Reconcile
  import Queue

  /** The watcher: waiting for an event, or inside `enqueue` for a key. */
  datatype Watcher = Waiting | WantsLock(k: Key) | Locked(k: Key) | Sending(k: Key)

  /** A worker: waiting for the receiver, waiting for a key, or somewhere in a reconcile. `snap` is
      what its list call returned, `todo` the status writes still to come, `seen` the listing that a
      finished reconcile stored the merge of, if it did not fail. */
  datatype Worker =
    | Idle
    | Receiving
    | Got(k: Key)
    | Writing(k: Key, snap: Bindings, todo: Bindings)
    | Between(k: Key, snap: Bindings)
    | Finishing(k: Key, seen: Option<Bindings>)
    | Removing(k: Key, seen: Option<Bindings>)

  datatype Holder = Nobody | TheWatcher | TheWorker(i: nat)

  /** `missed` and `torn` are book-keeping, read by no step: keys whose last change was not picked up
      (an event merged into a reconcile that had listed older bindings, a reconcile that failed, a
      binding moved to another account), and keys whose status patch failed after the spec patch. */
  datatype State = State(
    queue: Queue.View, lock: Holder, watcher: Watcher, workers: seq<Worker>,
    events: seq<Key>, api: Store, missed: set<Key>, torn: set<Key>)

  datatype Config = Config(hash: Hash, buffer: nat)

  datatype Step =
    | TakeReceiver
    | Receive
    | List(all: Bindings)
    | ListFails
    | WriteStatus(emits: bool)
    | WriteFails
    | SpecPatch
    | SpecPatchFails
    | StatusPatch
    | StatusPatchFails
    | LockForDone
    | RemoveKey

  datatype Action =
    // users
    | Edit(id: BindingId, c: CloudRoleBinding)
    | Delete(id: BindingId)
    // the watcher
    | NextEvent
    | LockSet
    | InsertOrDrop
    | SendKey
    // worker i
    | Work(i: nat, step: Step)

  predicate Internal(a: Action) {
    !a.Edit? && !a.Delete?
  }

  predicate CallFails(step: Step) {
    step.ListFails? || step.WriteFails? || step.SpecPatchFails? || step.StatusPatchFails?
  }

  function KeyOf(id: BindingId, c: CloudRoleBinding): Key {
    Key(id.namespace, c.spec.subject.serviceAccountName)
  }

  predicate ReceiverFree(s: State) {
    forall j :: 0 <= j < |s.workers| ==> s.workers[j] != Receiving
  }

  function Issue(k: Key, snap: Bindings): Option<MergeIssue> {
    IssueOf(Outcome(k.serviceAccountName, snap))
  }

  function Seen(w: Worker): Option<Bindings> {
    match w
    case Writing(_, snap, _) => Some(snap)
    case Between(_, snap) => Some(snap)
    case Finishing(_, seen) => seen
    case Removing(_, seen) => seen
    case _ => None
  }

  function Holds(w: Worker): Option<Key> {
    if w.Idle? || w.Receiving? then None else Some(w.k)
  }

  /** Some worker past its list call works for k from bindings that have changed since. */
  predicate Outdated(s: State, k: Key) {
    exists j :: 0 <= j < |s.workers| && Holds(s.workers[j]) == Some(k) && Seen(s.workers[j]).Some?
             && !Current(s.api, k, Seen(s.workers[j]).value)
  }

  ghost predicate Enabled(c: Config, s: State, a: Action) {
    match a
    case Edit(id, b) => b.name == Some(id.name)
    case Delete(id) => id in s.api.bindings
    case NextEvent => s.watcher.Waiting? && s.events != []
    case LockSet => s.watcher.WantsLock? && s.lock.Nobody?
    case InsertOrDrop => s.watcher.Locked?
    case SendKey => s.watcher.Sending? && |s.queue.channel| < c.buffer
    case Work(i, step) => i < |s.workers| && CanStep(s, s.workers[i], step)
  }

  ghost predicate CanStep(s: State, w: Worker, step: Step) {
    match step
    case TakeReceiver => w.Idle? && ReceiverFree(s)
    case Receive => w.Receiving? && s.queue.channel != []
    case List(all) => w.Got? && IsListing(s.api, w.k.namespace, all)
    case ListFails => w.Got?
    case WriteStatus(_) => w.Writing? && w.todo != [] && IdOf(w.k.namespace, w.todo[0]) in s.api.bindings
    case WriteFails => w.Writing? && w.todo != []
    case SpecPatch => w.Writing? && w.todo == [] && w.k.serviceAccountName != ""
    case SpecPatchFails => w.Writing? && w.todo == []
    case StatusPatch => w.Between? && w.k in s.api.resolved
    case StatusPatchFails => w.Between?
    case LockForDone => w.Finishing? && s.lock.Nobody?
    case RemoveKey => w.Removing?
  }

  function SetWorker(s: State, i: nat, w: Worker): State
    requires i < |s.workers|
  {
    s.(workers := s.workers[i := w])
  }

  ghost function EditBinding(s: State, id: BindingId, b: CloudRoleBinding): State {
    var stored := b.(status := if id in s.api.bindings then s.api.bindings[id].status else None);
    var moved := if id in s.api.bindings && KeyOf(id, s.api.bindings[id]) != KeyOf(id, b)
                 then {KeyOf(id, s.api.bindings[id])} else {};
    s.(api := s.api.(bindings := s.api.bindings[id := stored]), events := s.events + [KeyOf(id, b)],
      missed := s.missed + moved)
  }

  ghost function DeleteBinding(s: State, id: BindingId): State
    requires id in s.api.bindings
  {
    s.(api := s.api.(bindings := s.api.bindings - {id}), events := s.events + [KeyOf(id, s.api.bindings[id])])
  }

  /** The watcher's section under the lock, and the release. */
  ghost function InsertOrDropKey(s: State): State
    requires s.watcher.Locked?
  {
    var k := s.watcher.k;
    if k in s.queue.inFlight
    then s.(watcher := Waiting, lock := Nobody, missed := if Outdated(s, k) then s.missed + {k} else s.missed)
    else s.(watcher := Sending(k), lock := Nobody, queue := Queue.Insert(s.queue, k))
  }

  /** A reconcile returns an error: it is logged and the key is given back. */
  function Fail(s: State, i: nat): State
    requires i < |s.workers| && Holds(s.workers[i]).Some?
  {
    var w := s.workers[i];
    SetWorker(s, i, Finishing(w.k, None)).(missed := s.missed + {w.k})
  }

  ghost function Next(c: Config, s: State, a: Action): State
    requires Enabled(c, s, a)
  {
    match a
    case Edit(id, b) => EditBinding(s, id, b)
    case Delete(id) => DeleteBinding(s, id)
    case NextEvent => s.(watcher := WantsLock(s.events[0]), events := s.events[1..])
    case LockSet => s.(watcher := Locked(s.watcher.k), lock := TheWatcher)
    case InsertOrDrop => InsertOrDropKey(s)
    case SendKey => s.(watcher := Waiting, queue := Queue.Push(s.queue, s.watcher.k))
    case Work(i, step) => StepOf(c, s, i, step)
  }

  ghost function StepOf(c: Config, s: State, i: nat, step: Step): State
    requires i < |s.workers| && CanStep(s, s.workers[i], step)
  {
    var w := s.workers[i];
    match step
    case TakeReceiver => SetWorker(s, i, Receiving)
    case Receive => SetWorker(s, i, Got(s.queue.channel[0])).(queue := Queue.Pop(s.queue))
    case List(all) =>
      var snap := Select(all, w.k.serviceAccountName);
      SetWorker(s, i, Writing(w.k, snap, Updates(snap, Issue(w.k, snap)))).(missed := s.missed - {w.k})
    case ListFails => Fail(s, i)
    case WriteStatus(emits) =>
      var id := IdOf(w.k.namespace, w.todo[0]);
      SetWorker(s, i, Writing(w.k, w.snap, w.todo[1..]))
        .(api := ReplaceStatus(s.api, w.k.namespace, w.todo[0]),
          events := if emits then s.events + [KeyOf(id, s.api.bindings[id])] else s.events)
    case WriteFails => Fail(s, i)
    case SpecPatch =>
      SetWorker(s, i, Between(w.k, w.snap))
        .(api := PatchSpec(s.api, w.k, Built(c.hash, w.k.serviceAccountName, w.snap)))
    case SpecPatchFails => Fail(s, i)
    case StatusPatch =>
      SetWorker(s, i, Finishing(w.k, Some(w.snap)))
        .(api := PatchStatus(s.api, w.k, Built(c.hash, w.k.serviceAccountName, w.snap)), torn := s.torn - {w.k})
    case StatusPatchFails => Fail(s, i).(torn := s.torn + {w.k})
    case LockForDone => SetWorker(s, i, Removing(w.k, w.seen)).(lock := TheWorker(i))
    case RemoveKey => SetWorker(s, i, Idle).(queue := Queue.Remove(s.queue, w.k), lock := Nobody)
  }

  /** What the books say of an object found at a start. */
  ghost predicate FoundObject(c: Config, s: State, k: Key) {
    && (k in s.api.resolved ==> MadeOfParts(c.hash, k.serviceAccountName, s.api.resolved[k]))
    && (k in s.api.resolved && Now(s.api, k) == [] ==> k in s.missed)
    && (k in s.torn <==>
         k in s.api.resolved && !FromOneBuild(c.hash, k.serviceAccountName, s.api.resolved[k]))
  }

  /** A start, or a restart over what earlier processes left: an event for every existing binding,
      and the book-keeping says what those events will not repair. */
  ghost predicate Init(c: Config, s: State) {
    && s.queue == Queue.View({}, []) && s.lock.Nobody? && s.watcher.Waiting?
    && |s.workers| >= 1 && (forall i :: 0 <= i < |s.workers| ==> s.workers[i].Idle?)
    && WellNamed(s.api)
    && (forall id :: id in s.api.bindings ==> KeyOf(id, s.api.bindings[id]) in s.events)
    && (forall k :: FoundObject(c, s, k))
  }

  /** A run: every action is enabled when its turn comes. */
  ghost predicate Legal(c: Config, s: State, run: seq<Action>)
    decreases |run|
  {
    run == [] || (Enabled(c, s, run[0]) && Legal(c, Next(c, s, run[0]), run[1..]))
  }

  ghost function After(c: Config, s: State, run: seq<Action>): State
    requires Legal(c, s, run)
    decreases |run|
  {
    if run == [] then s else After(c, Next(c, s, run[0]), run[1..])
  }
}
