/** The agent's loop and its token file (app/crates/kif-agent/src/main.rs and federation.rs). Files
    change by single system calls, each of which may fail; what a reader, or the next process after
    a stop at any point, can find is every state on the way. */
module AgentFiles {
  import opened Crds
  import opened Injection
  import opened Mint
  import opened AgentTiming

  type Files = map<string, string>

  /** What can be seen at one moment: the files, and what the probes answer. */
  datatype Snapshot = Snapshot(files: Files, ready: bool)

  function At(files: Files, path: string): Option<string> {
    if path in files then Some(files[path]) else None
  }

  function Tmp(path: string): string {
    path + ".tmp"
  }

  // ---------- Answers ----------

  /** No answer, or a status with a body, which may not be a mint response. */
  datatype HttpReply = NoReply | Http(status: nat, parsed: Option<Option<MintedToken>>)

  datatype MintError = ConfigHashMismatch | Other

  /** The mapping in the agent's `mint`. */
  function Interpret(reply: HttpReply): Result<Option<MintedToken>, MintError> {
    if reply.NoReply? then Err(Other)
    else if reply.status == 200 then (if reply.parsed.Some? then Ok(reply.parsed.value) else Err(Other))
    else if reply.status == 409 then Err(ConfigHashMismatch)
    else Err(Other)
  }

  /** How a reply of the federation service arrives. */
  function Sent(r: Reply): HttpReply {
    Http(r.code, if r.code == 200 then Some(r.aws) else None)
  }

  /** One turn of the loop: the ServiceAccount token read, the answer, and the jitter drawn. */
  datatype Turn = Turn(saToken: Option<string>, reply: HttpReply, jitter: U64)

  datatype Verdict = TryAgain | Token(t: MintedToken) | Changed

  function VerdictOf(turn: Turn): Verdict {
    if turn.saToken.None? || Blank(turn.saToken.value) then TryAgain
    else match Interpret(turn.reply)
      case Ok(aws) => if aws.Some? then Token(aws.value) else TryAgain
      case Err(e) => if e.ConfigHashMismatch? then Changed else TryAgain
  }

  function TokensOf(turns: seq<Turn>): set<string> {
    set i | 0 <= i < |turns| && VerdictOf(turns[i]).Token? :: VerdictOf(turns[i]).t.token
  }

  /** The token minted last, or what was there before. */
  function Latest(turns: seq<Turn>, before: Option<string>): Option<string> {
    if turns == [] then before
    else if VerdictOf(turns[|turns| - 1]).Token? then Some(VerdictOf(turns[|turns| - 1]).t.token)
    else Latest(turns[..|turns| - 1], before)
  }

  /** There is a ServiceAccount token to present. */
  predicate HasToken(turn: Turn) {
    turn.saToken.Some? && !Blank(turn.saToken.value)
  }

  /** The turn is told of a conflict, */
  predicate ToldOfConflict(turn: Turn) {
    HasToken(turn) && turn.reply.Http? && turn.reply.status == 409
  }

  /** or given a token. */
  predicate GivenToken(turn: Turn, t: MintedToken) {
    HasToken(turn) && turn.reply.Http? && turn.reply.status == 200 && turn.reply.parsed == Some(Some(t))
  }

  ghost predicate Succeeds(turn: Turn) {
    exists t :: GivenToken(turn, t)
  }

  /** The sleep after a turn: up to skew and jitter before the expiry of a token given, else the minimum. */
  ghost predicate Rests(t: Timing, turn: Turn, sleep: U64) {
    && (forall m :: GivenToken(turn, m) ==> SleepsUntil(m.expiresInSeconds, t.skew, t.min, turn.jitter, sleep))
    && ((forall m :: !GivenToken(turn, m)) ==> sleep == t.min)
  }

  /** Whatever comes back: status 409 alone means that the configuration has changed, and status 200
      with a token in its body alone is a token; everything else, no answer included, is tried again. */
  lemma VerdictExactly(turn: Turn)
    ensures VerdictOf(turn).Changed? <==> ToldOfConflict(turn)
    ensures forall t :: VerdictOf(turn) == Token(t) <==> GivenToken(turn, t)
    ensures Succeeds(turn) <==> VerdictOf(turn).Token?
  {
    if VerdictOf(turn).Token? { assert GivenToken(turn, VerdictOf(turn).t); }
  }

  /** A conflict from the federation service, and nothing else it answers, tells the agent that the
      configuration has changed; a minted token arrives as it is. */
  lemma ChangedOnlyOnConflict(f: Federation, auth: Option<string>, req: MintRequest, up: bool,
                              stored: map<Key, Resolved>, now: Instant, saToken: string, jitter: U64)
    requires !Blank(saToken)
    ensures var reply := MintReply(f, auth, req, up, stored, now); var turn := Turn(Some(saToken), Sent(reply), jitter);
      && (VerdictOf(turn).Changed? <==> reply.code == 409)
      && (forall t :: VerdictOf(turn) == Token(t) <==> reply == Reply(200, Some(t)))
  {
  }

  // ---------- The shared state ----------

  /** Untouched but for one file. */
  ghost predicate SameBut(a: Files, b: Files, except: string) {
    forall p :: p != except ==> At(a, p) == At(b, p)
  }

  /** A system call is answered while there are calls left, and fails when there are none. */
  class Node {
    var files: Files
    var ready: bool
    var calls: nat
    /** Every state there has been, the present one last. */
    ghost var trace: seq<Snapshot>

    ghost predicate Valid()
      reads this
    {
      trace != [] && trace[|trace| - 1] == Snapshot(files, ready)
    }

    /** A process starts, over the files it finds. */
    constructor (found: Files, calls: nat)
      ensures Valid() && files == found && !ready && this.calls == calls && trace == [Snapshot(found, false)]
    {
      files, ready, this.calls, trace := found, false, calls, [Snapshot(found, false)];
    }

    /** Spend one call; false when it fails. */
    method Answer() returns (ok: bool)
      modifies this`calls
      ensures ok == (old(calls) > 0) && calls == if ok then old(calls) - 1 else 0
    {
      ok := calls > 0;
      calls := if ok then calls - 1 else 0;
    }

    method Create(path: string) returns (ok: bool)
      requires Valid()
      modifies this
      ensures ok == (old(calls) > 0) && calls == if ok then old(calls) - 1 else 0
      ensures Valid() && ready == old(ready) && files == if ok then old(files)[path := ""] else old(files)
      ensures trace == if ok then old(trace) + [Snapshot(files, ready)] else old(trace)
    {
      ok := Answer();
      if ok {
        files := files[path := ""];
        trace := trace + [Snapshot(files, ready)];
      }
    }

    /** Adds the next piece of a text to a file. */
    method Append(path: string, piece: string) returns (ok: bool)
      requires Valid() && path in files
      modifies this
      ensures ok == (old(calls) > 0) && calls == if ok then old(calls) - 1 else 0
      ensures Valid() && ready == old(ready)
      ensures files == if ok then old(files)[path := old(files)[path] + piece] else old(files)
      ensures trace == if ok then old(trace) + [Snapshot(files, ready)] else old(trace)
    {
      ok := Answer();
      if ok {
        files := files[path := files[path] + piece];
        trace := trace + [Snapshot(files, ready)];
      }
    }

    method Rename(from: string, to: string) returns (ok: bool)
      requires Valid() && from in files && from != to
      modifies this
      ensures ok == (old(calls) > 0) && calls == if ok then old(calls) - 1 else 0
      ensures Valid() && ready == old(ready)
      ensures files == if ok then old(files)[to := old(files)[from]] - {from} else old(files)
      ensures trace == if ok then old(trace) + [Snapshot(files, ready)] else old(trace)
    {
      ok := Answer();
      if ok {
        files := files[to := files[from]] - {from};
        trace := trace + [Snapshot(files, ready)];
      }
    }

    method SetReady()
      requires Valid()
      modifies this
      ensures Valid() && files == old(files) && ready && trace == old(trace) + [Snapshot(files, true)]
      ensures calls == old(calls)
    {
      ready := true;
      trace := trace + [Snapshot(files, true)];
    }

    /** The states since the first n. */
    ghost function Since(n: nat): seq<Snapshot>
      requires n <= |trace|
      reads this
    {
      trace[n..]
    }

    /** `write_all`, in pieces of any size. */
    method WriteAll(path: string, contents: string) returns (ok: bool)
      requires Valid() && path in files && files[path] == ""
      modifies this
      ensures ok || calls == 0
      ensures Valid() && ready == old(ready) && old(trace) <= trace && path in files && SameBut(files, old(files), path)
      ensures ok ==> files[path] == contents
      ensures forall s :: s in Since(|old(trace)|) ==> s.ready == ready && SameBut(s.files, old(files), path)
    {
      var done := 0;
      while done < |contents|
        invariant done <= |contents| && Valid() && ready == old(ready) && old(trace) <= trace
        invariant path in files && files[path] == contents[..done] && SameBut(files, old(files), path)
        invariant forall s :: s in Since(|old(trace)|) ==> s.ready == ready && SameBut(s.files, old(files), path)
      {
        var n :| 1 <= n <= |contents| - done;
        ok := Append(path, contents[done..done + n]);
        if !ok { return; }
        assert contents[..done] + contents[done..done + n] == contents[..done + n];
        done := done + n;
      }
      assert contents[..done] == contents;
      ok := true;
    }

    /** Creates the file with the contents and flushes it. */
    method Stage(tmp: string, contents: string) returns (ok: bool)
      requires Valid()
      modifies this
      ensures ok || calls == 0
      ensures Valid() && ready == old(ready) && old(trace) <= trace && SameBut(files, old(files), tmp)
      ensures ok ==> At(files, tmp) == Some(contents)
      ensures forall s :: s in Since(|old(trace)|) ==> s.ready == ready && SameBut(s.files, old(files), tmp)
    {
      ghost var seen, found := trace, files;
      ok := Create(tmp);
      if !ok { return; }
      ghost var created := trace;
      assert SameBut(files, found, tmp);
      ok := WriteAll(tmp, contents);
      assert trace[|seen|..] == [created[|seen|]] + trace[|created|..];
      assert created[|seen|].files == found[tmp := ""];
      if !ok { return; }
      ok := Answer();
    }

    /** `atomic_write`: up to the rename, the last step of a write that succeeds, only the temporary
        file is ever different. */
    method AtomicWrite(path: string, contents: string) returns (ok: bool)
      requires Valid()
      modifies this
      ensures ok || calls == 0
      ensures Valid() && ready == old(ready) && old(trace) <= trace
      ensures ok ==> At(files, path) == Some(contents) && path + ".tmp" !in files
      ensures forall p :: p != path + ".tmp" && (p != path || !ok) ==> At(files, p) == At(old(files), p)
      ensures forall s :: s in Since(|old(trace)|) ==>
        s.ready == ready && (SameBut(s.files, old(files), path + ".tmp") || (ok && s.files == files))
    {
      ok := Answer();
      if !ok { return; }
      ghost var seen := trace;
      ok := Stage(Tmp(path), contents);
      if !ok { return; }
      assert |path| != |Tmp(path)|;
      ghost var staged := trace;
      ok := Rename(Tmp(path), path);
      assert trace[|seen|..] == staged[|seen|..] + trace[|staged|..];
    }
  }

  // ---------- The loop ----------

  datatype Ended = Running | ConfigChanged | WriteFailed

  /** The token file is absent or holds one of these tokens, whole. */
  predicate Sound(files: Files, path: string, tokens: set<string>) {
    path in files ==> files[path] in tokens
  }

  /** What anyone can see at every moment. */
  ghost predicate AllSound(seen: seq<Snapshot>, path: string, tokens: set<string>) {
    forall s :: s in seen ==> Sound(s.files, path, tokens) && (s.ready ==> path in s.files)
  }

  ghost predicate NeverReverts(seen: seq<Snapshot>) {
    forall i, j :: 0 <= i <= j < |seen| && seen[i].ready ==> seen[j].ready
  }

  /** `refresh_loop`, over the turns it gets to take; `known` are the tokens of earlier processes. The
      file shows the token minted last; a reader finds no file or a whole minted token at every
      moment; ready means there is one, and stays; the loop ends only when told that the
      configuration changed, or when a write fails. */
  method RefreshLoop(node: Node, path: string, t: Timing, turns: seq<Turn>, ghost known: set<string>)
    returns (end: Ended, sleeps: seq<U64>)
    requires node.Valid() && !node.ready && node.trace == [Snapshot(node.files, false)]
    requires Sound(node.files, path, known)
    modifies node
    ensures node.Valid() && |sleeps| <= |turns|
    ensures forall i :: 0 <= i < |sleeps| ==> Rests(t, turns[i], sleeps[i]) && !ToldOfConflict(turns[i])
    ensures At(node.files, path) == Latest(turns[..|sleeps|], old(At(node.files, path)))
    ensures node.ready <==> exists i :: 0 <= i < |sleeps| && Succeeds(turns[i])
    ensures AllSound(node.trace, path, known + TokensOf(turns)) && NeverReverts(node.trace)
    ensures end.Running? ==> |sleeps| == |turns|
    ensures end.ConfigChanged? <==> |sleeps| < |turns| && ToldOfConflict(turns[|sleeps|])
    ensures end.WriteFailed? ==> node.calls == 0 && |sleeps| < |turns| && Succeeds(turns[|sleeps|])
  {
    var firstSuccess := false;
    end, sleeps := Running, [];
    ghost var before := At(node.files, path);
    ghost var tokens := known + TokensOf(turns);
    while |sleeps| < |turns|
      invariant node.Valid() && |sleeps| <= |turns| && firstSuccess == node.ready
      invariant forall i :: 0 <= i < |sleeps| ==> Rests(t, turns[i], sleeps[i]) && !ToldOfConflict(turns[i])
      invariant At(node.files, path) == Latest(turns[..|sleeps|], before)
      invariant node.ready <==> exists i :: 0 <= i < |sleeps| && Succeeds(turns[i])
      invariant AllSound(node.trace, path, tokens) && NeverReverts(node.trace)
      decreases |turns| - |sleeps|
    {
      var turn := turns[|sleeps|];
      assert turns[..|sleeps| + 1] == turns[..|sleeps|] + [turn];
      VerdictExactly(turn);
      var sleep := t.min;
      match VerdictOf(turn) {
        case TryAgain =>
        case Changed =>
          return ConfigChanged, sleeps;
        case Token(minted) =>
          var ok := WriteToken(node, path, minted.token, tokens, firstSuccess);
          if !ok { return WriteFailed, sleeps; }
          firstSuccess := true;
          SleepKeepsSkew(minted.expiresInSeconds, t.skew, t.min);
          sleep := SleepSeconds(minted.expiresInSeconds, t.skew, t.min, turn.jitter);
      }
      sleeps := sleeps + [sleep];
    }
  }

  /** The write and, after the first one, the readiness. */
  method WriteToken(node: Node, path: string, token: string, ghost tokens: set<string>, firstSuccess: bool)
    returns (ok: bool)
    requires node.Valid() && firstSuccess == node.ready && token in tokens
    requires AllSound(node.trace, path, tokens) && NeverReverts(node.trace)
    modifies node
    ensures node.Valid() && AllSound(node.trace, path, tokens) && NeverReverts(node.trace)
    ensures ok ==> node.ready && At(node.files, path) == Some(token)
    ensures ok || node.calls == 0
    ensures !ok ==> node.ready == old(node.ready) && At(node.files, path) == old(At(node.files, path))
  {
    ghost var seen, found := node.trace, node.files;
    assert seen[|seen| - 1] in seen;
    ok := node.AtomicWrite(path, token);
    ghost var more := node.Since(|seen|);
    assert node.trace == seen + more;
    assert |path| != |Tmp(path)|;
    forall s | s in more ensures Sound(s.files, path, tokens) && (s.ready ==> path in s.files) {
      assert At(s.files, path) == At(if SameBut(s.files, found, Tmp(path)) then found else node.files, path);
    }
    assert forall i :: 0 <= i < |more| ==> more[i] in more;
    if ok && !firstSuccess {
      node.SetReady();
    }
  }
}
