/** The step machine runs the code: a worker whose steps are not interleaved with others' does to
    the store exactly what one call of `reconcile` does, whichever call the server fails. */
module Solo {
  import opened Crds
  import opened Merge
  import opened Build
  import opened ApiServer
  import opened Reconcile
  import opened Controller
  import opened Witnesses

  /** Worker i moves on, the store becomes st. */
  function Moved(s: State, i: nat, w: Worker, st: Store): State
    requires i < |s.workers|
  {
    s.(workers := s.workers[i := w], api := st)
  }

  lemma MovedTwice(s: State, i: nat, w: Worker, st: Store, w': Worker, st': Store)
    requires i < |s.workers|
    ensures Moved(Moved(s, i, w, st), i, w', st') == Moved(s, i, w', st')
  {
  }

  function Missed(s: State, k: Key): State {
    s.(missed := s.missed + {k})
  }

  lemma WriteStep(c: Config, s: State, i: nat, k: Key, snap: Bindings, todo: Bindings)
    requires i < |s.workers| && s.workers[i] == Writing(k, snap, todo) && todo != []
    requires IdOf(k.namespace, todo[0]) in s.api.bindings
    ensures Enabled(c, s, Work(i, WriteStatus(false)))
    ensures Next(c, s, Work(i, WriteStatus(false))) ==
      Moved(s, i, Writing(k, snap, todo[1..]), ApiServer.ReplaceStatus(s.api, k.namespace, todo[0]))
  {
  }

  lemma WriteFailStep(c: Config, s: State, i: nat, k: Key, snap: Bindings, todo: Bindings)
    requires i < |s.workers| && s.workers[i] == Writing(k, snap, todo) && todo != []
    ensures Enabled(c, s, Work(i, WriteFails))
    ensures Next(c, s, Work(i, WriteFails)) == Missed(Moved(s, i, Finishing(k, None), s.api), k)
  {
  }

  /** The status writes. */
  lemma {:induction false} SoloWrites(c: Config, s: State, i: nat, k: Key, snap: Bindings, todo: Bindings, calls: nat)
    returns (run: seq<Action>)
    requires i < |s.workers| && s.workers[i] == Writing(k, snap, todo)
    ensures var w := WriteAll(s.api, k.namespace, todo, calls);
      Leads(c, s, run, if w.ok then Moved(s, i, Writing(k, snap, []), w.store)
                       else Missed(Moved(s, i, Finishing(k, None), w.store), k))
    ensures StepsOf(i, run)
    decreases |todo|
  {
    if todo == [] {
      run := [];
      assert Moved(s, i, Writing(k, snap, []), s.api) == s;
    } else if calls == 0 || IdOf(k.namespace, todo[0]) !in s.api.bindings {
      run := [Work(i, WriteFails)];
      WriteFailStep(c, s, i, k, snap, todo);
      SingleStep(c, s, run[0], Missed(Moved(s, i, Finishing(k, None), s.api), k));
    } else {
      WriteStep(c, s, i, k, snap, todo);
      var s1 := Moved(s, i, Writing(k, snap, todo[1..]), ApiServer.ReplaceStatus(s.api, k.namespace, todo[0]));
      var rest := SoloWrites(c, s1, i, k, snap, todo[1..], calls - 1);
      var w := WriteAll(s.api, k.namespace, todo, calls);
      MovedTwice(s, i, s1.workers[i], s1.api, Writing(k, snap, []), w.store);
      MovedTwice(s, i, s1.workers[i], s1.api, Finishing(k, None), w.store);
      run := [Work(i, WriteStatus(false))] + rest;
      PrependStep(c, s, Work(i, WriteStatus(false)), s1, rest,
        if w.ok then Moved(s, i, Writing(k, snap, []), w.store)
        else Missed(Moved(s, i, Finishing(k, None), w.store), k));
    }
  }

  predicate StepsOf(i: nat, run: seq<Action>) {
    forall a :: a in run ==> a.Work? && a.i == i
  }

  /** Where the upsert takes the worker and the books. */
  ghost function Upserted(s: State, i: nat, k: Key, snap: Bindings, u: Run, calls: nat): State
    requires i < |s.workers|
  {
    var t := Moved(s, i, Finishing(k, if u.ok then Some(snap) else None), u.store);
    if u.ok then t.(torn := t.torn - {k})
    else if k.serviceAccountName != "" && calls == 1 then Missed(t, k).(torn := t.torn + {k})
    else Missed(t, k)
  }

  lemma PatchStep(c: Config, s: State, i: nat, k: Key, snap: Bindings)
    requires i < |s.workers| && s.workers[i] == Writing(k, snap, [])
    ensures Enabled(c, s, Work(i, SpecPatchFails))
    ensures Next(c, s, Work(i, SpecPatchFails)) == Missed(Moved(s, i, Finishing(k, None), s.api), k)
    ensures k.serviceAccountName != "" ==> Enabled(c, s, Work(i, SpecPatch))
    ensures k.serviceAccountName != "" ==>
      Next(c, s, Work(i, SpecPatch)) ==
        Moved(s, i, Between(k, snap), PatchSpec(s.api, k, Built(c.hash, k.serviceAccountName, snap)))
  {
  }

  lemma SecondPatchStep(c: Config, s: State, i: nat, k: Key, snap: Bindings)
    requires i < |s.workers| && s.workers[i] == Between(k, snap) && k in s.api.resolved
    ensures Enabled(c, s, Work(i, StatusPatch)) && Enabled(c, s, Work(i, StatusPatchFails))
    ensures Next(c, s, Work(i, StatusPatch)) ==
      Moved(s, i, Finishing(k, Some(snap)), PatchStatus(s.api, k, Built(c.hash, k.serviceAccountName, snap)))
        .(torn := s.torn - {k})
    ensures Next(c, s, Work(i, StatusPatchFails)) ==
      Missed(Moved(s, i, Finishing(k, None), s.api), k).(torn := s.torn + {k})
  {
  }

  /** The two patches. */
  lemma SoloUpsert(c: Config, s: State, i: nat, k: Key, snap: Bindings, calls: nat) returns (run: seq<Action>)
    requires i < |s.workers| && s.workers[i] == Writing(k, snap, [])
    ensures Leads(c, s, run,
      Upserted(s, i, k, snap, Upsert(s.api, k, Built(c.hash, k.serviceAccountName, snap), calls), calls))
    ensures StepsOf(i, run)
  {
    if k.serviceAccountName == "" || calls == 0 {
      PatchStep(c, s, i, k, snap);
      run := [Work(i, SpecPatchFails)];
      SingleStep(c, s, Work(i, SpecPatchFails), Missed(Moved(s, i, Finishing(k, None), s.api), k));
    } else {
      run := SoloPatches(c, s, i, k, snap, calls);
    }
  }

  lemma TwoSteps(c: Config, s: State, first: Action, s1: State, second: Action, t: State)
    requires Enabled(c, s, first) && Next(c, s, first) == s1 && Enabled(c, s1, second) && Next(c, s1, second) == t
    ensures Leads(c, s, [first, second], t)
  {
    SingleStep(c, s1, second, t);
    PrependStep(c, s, first, s1, [second], t);
    assert [first] + [second] == [first, second];
  }

  lemma SoloPatches(c: Config, s: State, i: nat, k: Key, snap: Bindings, calls: nat) returns (run: seq<Action>)
    requires i < |s.workers| && s.workers[i] == Writing(k, snap, []) && k.serviceAccountName != "" && calls > 0
    ensures Leads(c, s, run,
      Upserted(s, i, k, snap, Upsert(s.api, k, Built(c.hash, k.serviceAccountName, snap), calls), calls))
    ensures StepsOf(i, run)
  {
    var built := Built(c.hash, k.serviceAccountName, snap);
    var s1 := Moved(s, i, Between(k, snap), PatchSpec(s.api, k, built));
    PatchStep(c, s, i, k, snap);
    var last := Work(i, if calls == 1 then StatusPatchFails else StatusPatch);
    var t := LastPatch(c, s, s1, i, k, snap, calls);
    TwoSteps(c, s, Work(i, SpecPatch), s1, last, t);
    run := [Work(i, SpecPatch), last];
  }

  lemma LastPatch(c: Config, s: State, s1: State, i: nat, k: Key, snap: Bindings, calls: nat) returns (t: State)
    requires i < |s.workers| && k.serviceAccountName != "" && calls > 0
    requires s1 == Moved(s, i, Between(k, snap), PatchSpec(s.api, k, Built(c.hash, k.serviceAccountName, snap)))
    ensures t == Upserted(s, i, k, snap, Upsert(s.api, k, Built(c.hash, k.serviceAccountName, snap), calls), calls)
    ensures var last := Work(i, if calls == 1 then StatusPatchFails else StatusPatch);
      Enabled(c, s1, last) && Next(c, s1, last) == t
  {
    var u := Upsert(s.api, k, Built(c.hash, k.serviceAccountName, snap), calls);
    SecondPatchStep(c, s1, i, k, snap);
    MovedTwice(s, i, s1.workers[i], s1.api, Finishing(k, if u.ok then Some(snap) else None), u.store);
    t := Upserted(s, i, k, snap, u, calls);
  }

  lemma ListStep(c: Config, s: State, i: nat, k: Key, all: Bindings)
    requires i < |s.workers| && s.workers[i] == Got(k) && IsListing(s.api, k.namespace, all)
    ensures Enabled(c, s, Work(i, List(all))) && Enabled(c, s, Work(i, ListFails))
    ensures var snap := Select(all, k.serviceAccountName);
      Next(c, s, Work(i, List(all))) ==
        Moved(s, i, Writing(k, snap, Updates(snap, IssueOf(Outcome(k.serviceAccountName, snap)))), s.api)
          .(missed := s.missed - {k})
    ensures Next(c, s, Work(i, ListFails)) == Missed(Moved(s, i, Finishing(k, None), s.api), k)
  {
  }

  /** Only worker i moved, it is done, and the store and the books are as after the run r of calls. */
  ghost predicate DoneWith(s: State, i: nat, k: Key, r: Run, t: State)
    requires i < |s.workers|
  {
    && i < |t.workers| && t.workers[i].Finishing? && t.workers == s.workers[i := t.workers[i]]
    && t.queue == s.queue && t.lock == s.lock && t.watcher == s.watcher && t.events == s.events
    && t.api == r.store && (k in t.missed <==> !r.ok)
  }

  lemma SoloFromList(c: Config, s: State, i: nat, k: Key, snap: Bindings, todo: Bindings, calls: nat)
    returns (run: seq<Action>, t: State)
    requires i < |s.workers| && s.workers[i] == Writing(k, snap, todo) && k !in s.missed
    ensures Leads(c, s, run, t) && StepsOf(i, run)
    ensures DoneWith(s, i, k, FromList(c.hash, s.api, k, snap, todo, calls), t)
  {
    var w := WriteAll(s.api, k.namespace, todo, calls);
    run := SoloWrites(c, s, i, k, snap, todo, calls);
    if w.ok {
      var s1 := Moved(s, i, Writing(k, snap, []), w.store);
      var rest := SoloUpsert(c, s1, i, k, snap, w.calls);
      t := Upserted(s1, i, k, snap, Upsert(w.store, k, Built(c.hash, k.serviceAccountName, snap), w.calls), w.calls);
      Joined(c, s, run, s1, rest, t);
      run := run + rest;
    } else {
      t := Missed(Moved(s, i, Finishing(k, None), w.store), k);
    }
  }

  lemma DoneFromBefore(s: State, s1: State, i: nat, k: Key, r: Run, t: State)
    requires i < |s.workers| == |s1.workers| && s1 == s.(workers := s.workers[i := s1.workers[i]], missed := s1.missed)
    requires DoneWith(s1, i, k, r, t)
    ensures DoneWith(s, i, k, r, t)
  {
  }

  /** From taking a key to being done with it: the store is what `reconcile` leaves, and the key is
      booked as missed exactly when it returns an error. */
  lemma SoloReconcile(c: Config, s: State, i: nat, k: Key, all: Bindings, calls: nat)
    returns (run: seq<Action>, t: State)
    requires i < |s.workers| && s.workers[i] == Got(k) && IsListing(s.api, k.namespace, all)
    ensures Leads(c, s, run, t) && StepsOf(i, run) && DoneWith(s, i, k, Reconciled(c.hash, s.api, k, all, calls), t)
  {
    ListStep(c, s, i, k, all);
    if calls == 0 {
      t := Missed(Moved(s, i, Finishing(k, None), s.api), k);
      run := [Work(i, ListFails)];
      SingleStep(c, s, Work(i, ListFails), t);
    } else {
      run, t := SoloListed(c, s, i, k, all, calls);
    }
  }

  /** One more step in front. */
  lemma DoneAfter(c: Config, s: State, a: Action, s1: State, i: nat, k: Key, r: Run, rest: seq<Action>, t: State)
    requires i < |s.workers| == |s1.workers| && a.Work? && a.i == i && Enabled(c, s, a) && Next(c, s, a) == s1
    requires s1 == s.(workers := s.workers[i := s1.workers[i]], missed := s1.missed)
    requires Leads(c, s1, rest, t) && StepsOf(i, rest) && DoneWith(s1, i, k, r, t)
    ensures Leads(c, s, [a] + rest, t) && StepsOf(i, [a] + rest) && DoneWith(s, i, k, r, t)
  {
    PrependStep(c, s, a, s1, rest, t);
    DoneFromBefore(s, s1, i, k, r, t);
  }

  /** What a reconcile comes to once it has listed. */
  function FromList(hash: Hash, st: Store, k: Key, snap: Bindings, todo: Bindings, calls: nat): Run {
    var w := WriteAll(st, k.namespace, todo, calls);
    if w.ok then Upsert(w.store, k, Built(hash, k.serviceAccountName, snap), w.calls) else w
  }

  lemma ListedFirst(hash: Hash, st: Store, k: Key, all: Bindings, calls: nat)
    requires calls > 0
    ensures var snap := Select(all, k.serviceAccountName);
      Reconciled(hash, st, k, all, calls)
      == FromList(hash, st, k, snap, Updates(snap, IssueOf(Outcome(k.serviceAccountName, snap))), calls - 1)
  {
  }

  lemma SoloListed(c: Config, s: State, i: nat, k: Key, all: Bindings, calls: nat) returns (run: seq<Action>, t: State)
    requires i < |s.workers| && s.workers[i] == Got(k) && IsListing(s.api, k.namespace, all) && calls > 0
    ensures Leads(c, s, run, t) && StepsOf(i, run) && DoneWith(s, i, k, Reconciled(c.hash, s.api, k, all, calls), t)
  {
    ListStep(c, s, i, k, all);
    ListedFirst(c.hash, s.api, k, all, calls);
    var snap := Select(all, k.serviceAccountName);
    var todo := Updates(snap, IssueOf(Outcome(k.serviceAccountName, snap)));
    var r := Reconciled(c.hash, s.api, k, all, calls);
    run, t := SoloFromStep(c, s, i, k, snap, todo, calls - 1, Work(i, List(all)), r);
  }

  lemma SoloFromStep(c: Config, s: State, i: nat, k: Key, snap: Bindings, todo: Bindings, calls: nat, a: Action, r: Run)
    returns (run: seq<Action>, t: State)
    requires i < |s.workers| && a.Work? && a.i == i && Enabled(c, s, a)
    requires r == FromList(c.hash, s.api, k, snap, todo, calls)
    requires Next(c, s, a) == Moved(s, i, Writing(k, snap, todo), s.api).(missed := s.missed - {k})
    ensures Leads(c, s, run, t) && StepsOf(i, run) && DoneWith(s, i, k, r, t)
  {
    var s1 := Moved(s, i, Writing(k, snap, todo), s.api).(missed := s.missed - {k});
    var rest;
    rest, t := SoloFromList(c, s1, i, k, snap, todo, calls);
    run := [a] + rest;
    DoneAfter(c, s, a, s1, i, k, r, rest, t);
  }
}
