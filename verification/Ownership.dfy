/** Who holds a key in flight: exactly one of the watcher (between insert and send), the channel,
    and a worker (from receive to `done`). This is what serialises the reconciles of a key. */
module Ownership {
  import opened Crds
  import opened Controller
  import Queue

  // ---------- Counting the holders of a key ----------

  function OneIf(held: Option<Key>, k: Key): nat {
    if held == Some(k) then 1 else 0
  }

  function WatcherKey(w: Watcher): Option<Key> {
    if w.Sending? then Some(w.k) else None
  }

  function ByWorkers(ws: seq<Worker>, k: Key): nat {
    if ws == [] then 0 else OneIf(Holds(ws[0]), k) + ByWorkers(ws[1..], k)
  }

  /** How often k is held: by the watcher, in the channel, by the workers. */
  function Held(s: State, k: Key): nat {
    OneIf(WatcherKey(s.watcher), k) + multiset(s.queue.channel)[k] + ByWorkers(s.workers, k)
  }

  /** A key in flight has one holder, any other key has none. */
  ghost predicate Owned(s: State) {
    forall k :: Held(s, k) == if k in s.queue.inFlight then 1 else 0
  }

  /** The lock is held by the task that is inside its section. */
  predicate LockHeld(s: State) {
    && (s.lock == TheWatcher <==> s.watcher.Locked?)
    && (forall i :: 0 <= i < |s.workers| && s.workers[i].Removing? ==> s.lock == TheWorker(i))
    && (s.lock.TheWorker? ==> s.lock.i < |s.workers| && s.workers[s.lock.i].Removing?)
  }

  predicate OneReceiver(s: State) {
    forall i, j :: 0 <= i < j < |s.workers| ==> !(s.workers[i].Receiving? && s.workers[j].Receiving?)
  }

  lemma {:induction false} ByWorkersUpdate(ws: seq<Worker>, i: nat, w: Worker, k: Key)
    requires i < |ws|
    ensures ByWorkers(ws[i := w], k) == ByWorkers(ws, k) - OneIf(Holds(ws[i]), k) + OneIf(Holds(w), k)
  {
    if i > 0 {
      ByWorkersUpdate(ws[1..], i - 1, w, k);
      assert ws[i := w][1..] == ws[1..][i - 1 := w];
    } else {
      assert ws[i := w][1..] == ws[1..];
    }
  }

  lemma {:induction false} ByWorkersAt(ws: seq<Worker>, i: nat, k: Key)
    requires i < |ws| && Holds(ws[i]) == Some(k)
    ensures ByWorkers(ws, k) >= 1
    ensures forall j :: 0 <= j < |ws| && j != i && Holds(ws[j]) == Some(k) ==> ByWorkers(ws, k) >= 2
  {
    ByWorkersUpdate(ws, i, Idle, k);
    forall j | 0 <= j < |ws| && j != i && Holds(ws[j]) == Some(k) ensures ByWorkers(ws, k) >= 2 {
      ByWorkersUpdate(ws[i := Idle], j, Idle, k);
    }
  }

  lemma {:induction false} ByWorkersWitness(ws: seq<Worker>, k: Key)
    requires ByWorkers(ws, k) > 0
    ensures exists i :: 0 <= i < |ws| && Holds(ws[i]) == Some(k)
  {
    if Holds(ws[0]) != Some(k) {
      ByWorkersWitness(ws[1..], k);
      var i :| 0 <= i < |ws[1..]| && Holds(ws[1..][i]) == Some(k);
      assert Holds(ws[i + 1]) == Some(k);
    }
  }

  // ---------- Preservation ----------

  lemma InitOwned(c: Config, s: State)
    requires Init(c, s)
    ensures Owned(s) && LockHeld(s) && OneReceiver(s) && |s.queue.channel| <= c.buffer
  {
    forall k ensures Held(s, k) == 0 {
      if ByWorkers(s.workers, k) > 0 { ByWorkersWitness(s.workers, k); }
    }
  }

  /** Worker i goes on, and nothing else changes that holds keys. */
  lemma WorkerGoesOn(s: State, s': State, i: nat)
    requires i < |s.workers| && s'.workers == s.workers[i := if i < |s'.workers| then s'.workers[i] else Idle]
    requires Holds(s'.workers[i]) == Holds(s.workers[i])
    requires s'.queue == s.queue && s'.watcher == s.watcher && Owned(s)
    ensures Owned(s')
  {
    forall k ensures Held(s', k) == Held(s, k) { ByWorkersUpdate(s.workers, i, s'.workers[i], k); }
  }

  lemma ReceiveOwned(s: State, i: nat)
    requires i < |s.workers| && CanStep(s, s.workers[i], Receive) && Owned(s)
    ensures Owned(SetWorker(s, i, Got(s.queue.channel[0])).(queue := Queue.Pop(s.queue)))
  {
    var s' := SetWorker(s, i, Got(s.queue.channel[0])).(queue := Queue.Pop(s.queue));
    var ch := s.queue.channel;
    forall k ensures Held(s', k) == Held(s, k) {
      ByWorkersUpdate(s.workers, i, Got(ch[0]), k);
      assert ch == [ch[0]] + ch[1..];
    }
  }

  lemma RemoveOwned(s: State, i: nat)
    requires i < |s.workers| && CanStep(s, s.workers[i], RemoveKey) && Owned(s)
    ensures Owned(SetWorker(s, i, Idle).(queue := Queue.Remove(s.queue, s.workers[i].k), lock := Nobody))
  {
    var s' := SetWorker(s, i, Idle).(queue := Queue.Remove(s.queue, s.workers[i].k), lock := Nobody);
    forall k ensures Held(s', k) == if k in s'.queue.inFlight then 1 else 0 {
      ByWorkersUpdate(s.workers, i, Idle, k);
      assert Held(s, k) == if k in s.queue.inFlight then 1 else 0;
      if k == s.workers[i].k {
        assert Holds(s.workers[i]) == Some(k);
        ByWorkersAt(s.workers, i, k);
      } else {
        assert Holds(s.workers[i]) != Some(k);
        assert k in s'.queue.inFlight <==> k in s.queue.inFlight;
      }
    }
  }

  lemma WorkerStepOwned(c: Config, s: State, i: nat, step: Step)
    requires i < |s.workers| && CanStep(s, s.workers[i], step) && Owned(s)
    ensures Owned(StepOf(c, s, i, step))
  {
    match step
    case Receive => ReceiveOwned(s, i);
    case RemoveKey => RemoveOwned(s, i);
    case _ => WorkerGoesOn(s, StepOf(c, s, i, step), i);
  }

  lemma InsertOwned(s: State)
    requires s.watcher.Locked? && Owned(s)
    ensures Owned(InsertOrDropKey(s))
  {
    forall k
      ensures Held(InsertOrDropKey(s), k) == Held(s, k) + if k == s.watcher.k && k !in s.queue.inFlight then 1 else 0
    {
    }
  }

  lemma StepOwned(c: Config, s: State, a: Action)
    requires Enabled(c, s, a) && Owned(s)
    ensures Owned(Next(c, s, a))
  {
    if a.Work? {
      WorkerStepOwned(c, s, a.i, a.step);
    } else if a.InsertOrDrop? {
      InsertOwned(s);
    } else {
      forall k ensures Held(Next(c, s, a), k) == Held(s, k) {}
    }
  }

  lemma StepLockHeld(c: Config, s: State, a: Action)
    requires Enabled(c, s, a) && LockHeld(s)
    ensures LockHeld(Next(c, s, a))
  {
    if a.Work? { WorkLockHeld(c, s, a.i, a.step); }
  }

  lemma WorkLockHeld(c: Config, s: State, i: nat, step: Step)
    requires i < |s.workers| && CanStep(s, s.workers[i], step) && LockHeld(s)
    ensures LockHeld(StepOf(c, s, i, step))
  {
    var s' := StepOf(c, s, i, step);
    assert s'.watcher == s.watcher;
    assert forall j :: 0 <= j < |s.workers| && j != i ==> s'.workers[j] == s.workers[j];
  }

  lemma StepOneReceiver(c: Config, s: State, a: Action)
    requires Enabled(c, s, a) && OneReceiver(s)
    ensures OneReceiver(Next(c, s, a))
  {
    if a.Work? {
      var s' := StepOf(c, s, a.i, a.step);
      assert forall j :: 0 <= j < |s.workers| && j != a.i ==> s'.workers[j] == s.workers[j];
      assert s'.workers[a.i].Receiving? ==> a.step.TakeReceiver?;
    }
  }

  lemma StepWithinBuffer(c: Config, s: State, a: Action)
    requires Enabled(c, s, a) && |s.queue.channel| <= c.buffer
    ensures |Next(c, s, a).queue.channel| <= c.buffer
  {
  }

  // ---------- What ownership means ----------

  /** No two workers hold the same key, and a key in a worker's hands is nowhere else. */
  lemma Exclusive(s: State, i: nat, k: Key)
    requires Owned(s) && i < |s.workers| && Holds(s.workers[i]) == Some(k)
    ensures k in s.queue.inFlight && k !in s.queue.channel && WatcherKey(s.watcher) != Some(k)
    ensures forall j :: 0 <= j < |s.workers| && j != i ==> Holds(s.workers[j]) != Some(k)
  {
    ByWorkersAt(s.workers, i, k);
    assert Held(s, k) <= 1;
  }

  /** A key in flight is with the watcher, in the channel, or with a worker. */
  lemma SomeoneHolds(s: State, k: Key)
    requires Owned(s) && k in s.queue.inFlight
    ensures WatcherKey(s.watcher) == Some(k) || k in s.queue.channel
         || exists i :: 0 <= i < |s.workers| && Holds(s.workers[i]) == Some(k)
  {
    assert Held(s, k) == 1;
    if ByWorkers(s.workers, k) > 0 { ByWorkersWitness(s.workers, k); }
  }

  /** Keys in the channel are pairwise different, and different from the one being sent. */
  lemma ChannelDistinct(s: State, i: nat, j: nat)
    requires Owned(s) && i < j < |s.queue.channel|
    ensures s.queue.channel[i] != s.queue.channel[j]
    ensures WatcherKey(s.watcher) != Some(s.queue.channel[i])
  {
    var ch := s.queue.channel;
    assert Held(s, ch[i]) <= 1;
    assert ch == ch[..j] + [ch[j]] + ch[j + 1..] && ch[..j][i] == ch[i];
    assert multiset(ch) == multiset(ch[..j]) + multiset{ch[j]} + multiset(ch[j + 1..]);
  }

  // ---------- The size of the set ----------

  lemma {:induction false} Distinct(ks: seq<Key>) returns (keys: set<Key>)
    ensures (forall k :: k in keys <==> k in ks) && |keys| <= |ks|
  {
    if ks == [] {
      keys := {};
    } else {
      var rest := Distinct(ks[1..]);
      keys := rest + {ks[0]};
      assert ks == [ks[0]] + ks[1..];
    }
  }

  lemma {:induction false} KeysOfWorkers(ws: seq<Worker>) returns (keys: set<Key>)
    ensures (forall k :: k in keys <==> ByWorkers(ws, k) > 0) && |keys| <= |ws|
  {
    if ws == [] {
      keys := {};
    } else {
      var rest := KeysOfWorkers(ws[1..]);
      keys := if Holds(ws[0]).Some? then rest + {Holds(ws[0]).value} else rest;
    }
  }

  lemma UnionSize(a: set<Key>, b: set<Key>)
    ensures |a + b| <= |a| + |b|
  {
    assert a + b == a + (b - a) && a !! (b - a);
    SubsetSize(b - a, b);
  }

  lemma {:induction false} SubsetSize<T>(a: set<T>, b: set<T>)
    requires a <= b
    ensures |a| <= |b|
  {
    if x :| x in a { SubsetSize(a - {x}, b - {x}); }
  }

  /** The set never outgrows the buffer, the workers and the one producer. */
  lemma InFlightBounded(c: Config, s: State)
    requires Owned(s) && |s.queue.channel| <= c.buffer
    ensures |s.queue.inFlight| <= c.buffer + |s.workers| + 1
  {
    var inChannel := Distinct(s.queue.channel);
    var withWorkers := KeysOfWorkers(s.workers);
    var sending := if s.watcher.Sending? then {s.watcher.k} else {};
    forall k | k in s.queue.inFlight ensures k in inChannel + withWorkers + sending { assert Held(s, k) == 1; }
    UnionSize(inChannel, withWorkers);
    UnionSize(inChannel + withWorkers, sending);
    SubsetSize(s.queue.inFlight, inChannel + withWorkers + sending);
  }
}
