/** When the agent refreshes its token (app/crates/kif-agent/src/main.rs), over real time. Agent and
    federation service share one clock, a request is over within the client's timeout, and a sleep
    overruns by at most `lag`. */
module AgentTiming {
  import opened Crds
  import opened Mint

  datatype Timing = Timing(timeout: real, lag: real, skew: U64, min: U64, maxJitter: U64)

  function SaturatingSub(a: U64, b: U64): U64 {
    if a < b then 0 else a - b
  }

  /** `compute_sleep_seconds`, given the jitter drawn. */
  function SleepSeconds(expiresIn: U64, skew: U64, min: U64, jitter: U64): U64 {
    var target := SaturatingSub(SaturatingSub(expiresIn, skew), jitter);
    if target < min then min else target
  }

  /** One turn of the loop: it ends without a token, or with one written at its end. */
  datatype Attempt =
    | Missed(start: real, end: real)
    | Wrote(start: real, end: real, issued: real, ttl: U64, jitter: U64)

  type Run = seq<Attempt>

  function Pause(t: Timing, a: Attempt): real {
    (if a.Missed? then t.min else SleepSeconds(a.ttl, t.skew, t.min, a.jitter)) as real
  }

  predicate Within(t: Timing, a: Attempt) {
    && 0.0 <= a.start <= a.end <= a.start + t.timeout
    && (a.Wrote? ==> a.start <= a.issued <= a.end && a.jitter <= t.maxJitter)
  }

  predicate Follows(t: Timing, a: Attempt, b: Attempt) {
    a.end + Pause(t, a) <= b.start <= a.end + Pause(t, a) + t.lag
  }

  predicate Timed(t: Timing, run: Run) {
    && (forall i :: 0 <= i < |run| ==> Within(t, run[i]))
    && (forall i :: 0 <= i < |run| - 1 ==> Follows(t, run[i], run[i + 1]))
  }

  /** The `exp` claim: the lifetime from the whole second of issue. */
  function Expiry(a: Attempt): int
    requires a.Wrote?
  {
    a.issued.Floor + a.ttl
  }

  /** It is what the federation service puts into a token issued then. */
  lemma ExpiryIsClaimed(a: Attempt, f: Federation, user: string, req: MintRequest, spec: BindingSpec, nanos: nat)
    requires a.Wrote? && 0 <= a.issued.Floor && Expiry(a) < 0x1_0000_0000_0000_0000
    requires spec.providers.aws.Some? && Ttl(spec.providers.aws.value) == a.ttl
    ensures ClaimsFor(f, user, req, spec, Instant(a.issued.Floor, nanos)).exp == Expiry(a)
  {
    ExpiryExactly(f, user, req, spec, Instant(a.issued.Floor, nanos));
  }

  /** The tokens of turns i and j are one after the other. */
  predicate Successive(run: Run, i: nat, j: nat) {
    i < j < |run| && run[i].Wrote? && run[j].Wrote? && forall h :: i < h < j ==> run[h].Missed?
  }

  /** At most k turns in a row fail between two tokens. */
  ghost predicate FewMisses(run: Run, k: nat) {
    forall i: nat, j: nat :: Successive(run, i, j) ==> j - i - 1 <= k
  }

  /** Every token lives for at least so many seconds. */
  predicate LongLived(run: Run, low: U64) {
    forall a :: a in run && a.Wrote? ==> a.ttl >= low
  }

  /** Every token is replaced no later than it expires. */
  ghost predicate Fresh(run: Run) {
    forall i: nat, j: nat :: Successive(run, i, j) ==> run[j].end <= Expiry(run[i]) as real
  }

  /** The sleep lasts until skew and jitter before expiry, but no shorter than the minimum. */
  predicate SleepsUntil(ttl: U64, skew: U64, min: U64, jitter: U64, sleep: U64) {
    && sleep >= min && sleep >= ttl - skew - jitter
    && (sleep == min || sleep == ttl - skew - jitter)
  }

  /** The sleep ends the skew before expiry at the latest exactly when the lifetime allows the
      shortest sleep to do so, whatever the jitter. */
  lemma SleepKeepsSkew(ttl: U64, skew: U64, min: U64)
    ensures (forall j: U64 :: SleepSeconds(ttl, skew, min, j) + skew <= ttl) <==> ttl >= skew + min
    ensures forall j: U64 :: SleepsUntil(ttl, skew, min, j, SleepSeconds(ttl, skew, min, j))
  {
    var most: U64 := 0xFFFF_FFFF_FFFF_FFFF;
    assert SleepSeconds(ttl, skew, min, most) == min;
  }

  /** How long before the expiry of a token the sleep is over at the latest. */
  function Spare(t: Timing, low: U64): int {
    if low >= t.skew + t.min then t.skew else low - t.min
  }

  /** Whatever the jitter, for every lifetime from low on; and for low itself without jitter just then. */
  lemma SleepSpares(t: Timing, low: U64)
    ensures forall ttl: U64, j: U64 :: ttl >= low ==> SleepSeconds(ttl, t.skew, t.min, j) <= ttl - Spare(t, low)
    ensures SleepSeconds(low, t.skew, t.min, 0) == low - Spare(t, low)
  {
  }

  // ---------- The bound ----------

  /** From one failed turn to the next. */
  function Retry(t: Timing): real {
    t.timeout + t.min as real + t.lag
  }

  /** The time of n failed turns, added up. */
  function Steps(t: Timing, n: nat): real {
    if n == 0 then 0.0 else Steps(t, n - 1) + Retry(t)
  }

  /** The longest time that issue, k failed turns and the next token take besides the sleep. */
  function Delay(t: Timing, k: nat): real {
    2.0 * t.timeout + t.lag + Steps(t, k)
  }

  lemma {:induction false} DelayAddsUp(t: Timing, k: nat)
    ensures Delay(t, k) == 2.0 * t.timeout + t.lag + k as real * (t.timeout + t.min as real + t.lag)
  {
    if k > 0 {
      DelayAddsUp(t, k - 1);
      var r := t.timeout + t.min as real + t.lag;
      calc {
        Delay(t, k);
        Delay(t, k - 1) + r;
        2.0 * t.timeout + t.lag + (k - 1) as real * r + r;
        2.0 * t.timeout + t.lag + (k as real - 1.0) * r + r;
        2.0 * t.timeout + t.lag + k as real * r;
      }
    }
  }

  lemma {:induction false} StepsGrow(t: Timing, m: nat, k: nat)
    requires m <= k && t.timeout >= 0.0 && t.lag >= 0.0
    ensures 0.0 <= Steps(t, m) <= Steps(t, k)
    decreases k
  {
    if m < k { StepsGrow(t, m, k - 1); } else if m > 0 { StepsGrow(t, m - 1, m - 1); }
  }

  /** After m failed turns. */
  lemma {:induction false} AfterMisses(t: Timing, run: Run, i: nat, m: nat)
    requires Timed(t, run) && i + 1 + m < |run| && forall h :: i < h <= i + m ==> run[h].Missed?
    ensures run[i + 1 + m].start <= run[i].end + Pause(t, run[i]) + t.lag + Steps(t, m)
  {
    assert Follows(t, run[i + m], run[i + m + 1]);
    if m > 0 {
      AfterMisses(t, run, i, m - 1);
      assert Within(t, run[i + m]);
    }
  }

  /** When the next token is written, against the exact time of issue. */
  lemma WrittenBy(t: Timing, low: U64, run: Run, i: nat, j: nat, k: nat)
    requires Timed(t, run) && LongLived(run, low) && Successive(run, i, j) && j - i - 1 <= k
    requires t.timeout >= 0.0 && t.lag >= 0.0
    ensures run[j].end <= run[i].issued + run[i].ttl as real - Spare(t, low) as real + Delay(t, k)
  {
    AfterMisses(t, run, i, j - i - 1);
    StepsGrow(t, j - i - 1, k);
    SleepSpares(t, low);
    assert Within(t, run[i]) && Within(t, run[j]) && run[i] in run;
    assert SleepSeconds(run[i].ttl, t.skew, t.min, run[i].jitter) <= run[i].ttl - Spare(t, low);
  }

  /** The worst run: the first token is issued at s0 and lives just so long, its answer takes the whole
      timeout, every sleep overruns as much as it can, and every turn takes the whole timeout, k failed
      ones and the last. */
  function Worst(t: Timing, low: U64, k: nat, s0: real): Run {
    seq(k + 2, i requires 0 <= i < k + 2 => WorstTurn(t, low, k, s0, i))
  }

  function WorstTurn(t: Timing, low: U64, k: nat, s0: real, i: nat): Attempt {
    if i == 0 then Wrote(s0, s0 + t.timeout, s0, low, 0)
    else
      var start := s0 + t.timeout + t.lag + SleepSeconds(low, t.skew, t.min, 0) as real + Steps(t, i - 1);
      if i == k + 1 then Wrote(start, start + t.timeout, start, low, 0) else Missed(start, start + t.timeout)
  }

  lemma WorstIsRun(t: Timing, low: U64, k: nat, s0: real)
    requires t.timeout >= 0.0 && t.lag >= 0.0 && s0 >= 0.0
    ensures var run := Worst(t, low, k, s0);
      Timed(t, run) && LongLived(run, low) && FewMisses(run, k) && Successive(run, 0, k + 1)
  {
    var run := Worst(t, low, k, s0);
    forall i | 0 <= i < |run| ensures Within(t, run[i]) {
      if i > 0 { StepsGrow(t, 0, i - 1); }
    }
    forall i | 0 <= i < |run| - 1 ensures Follows(t, run[i], run[i + 1]) {
      if i > 0 { assert Steps(t, i) == Steps(t, i - 1) + Retry(t); }
    }
  }

  lemma WorstIsLate(t: Timing, low: U64, k: nat, s0: real)
    requires t.timeout >= 0.0 && t.lag >= 0.0
    requires 0.0 <= s0 < 1.0 && Delay(t, k) + s0 > Spare(t, low) as real
    ensures !Fresh(Worst(t, low, k, s0))
  {
    var run := Worst(t, low, k, s0);
    WorstIsRun(t, low, k, s0);
    SleepSpares(t, low);
    assert run[0].issued == s0 && s0.Floor == 0;
    assert run[k + 1].end > Expiry(run[0]) as real;
  }

  /** Every run whose tokens live for at least low seconds, with at most k failures in a row, keeps its
      token fresh. */
  ghost predicate Survives(t: Timing, low: U64, k: nat) {
    forall run: Run :: Timed(t, run) && LongLived(run, low) && FewMisses(run, k) ==> Fresh(run)
  }

  /** It does, whatever the jitter, exactly when the longest delay and one second more fit between the
      latest end of a sleep and the expiry: into the skew for lifetimes that allow the shortest sleep
      before it, and for shorter ones into what that sleep leaves of them. The second is lost because
      a token's times are whole seconds, rounded down. */
  lemma FreshExactly(t: Timing, low: U64, k: nat)
    requires t.timeout >= 0.0 && t.lag >= 0.0
    ensures Survives(t, low, k) <==> Delay(t, k) + 1.0 <= Spare(t, low) as real
  {
    if Delay(t, k) + 1.0 <= Spare(t, low) as real {
      forall run: Run | Timed(t, run) && LongLived(run, low) && FewMisses(run, k) ensures Fresh(run) {
        forall i: nat, j: nat | Successive(run, i, j) ensures run[j].end <= Expiry(run[i]) as real {
          WrittenBy(t, low, run, i, j, k);
        }
      }
    } else {
      var spare := Spare(t, low) as real - Delay(t, k);
      var s0 := if spare < 0.0 then 0.0 else (spare + 1.0) / 2.0;
      WorstIsRun(t, low, k, s0);
      WorstIsLate(t, low, k, s0);
    }
  }

  /** If every token is issued on a whole second, no second is lost. */
  lemma FreshOnWholeSeconds(t: Timing, low: U64, k: nat, run: Run)
    requires t.timeout >= 0.0 && t.lag >= 0.0 && Delay(t, k) <= Spare(t, low) as real
    requires Timed(t, run) && LongLived(run, low) && FewMisses(run, k)
    requires forall a :: a in run && a.Wrote? ==> a.issued == a.issued.Floor as real
    ensures Fresh(run)
  {
    forall i: nat, j: nat | Successive(run, i, j) ensures run[j].end <= Expiry(run[i]) as real {
      WrittenBy(t, low, run, i, j, k);
      assert run[i] in run;
    }
  }

  /** A request takes ten seconds at most; the other values are the agent's defaults. */
  function Defaults(lag: real): Timing {
    Timing(10.0, lag, 300, 30, 60)
  }

  /** With the defaults a token that lives an hour is replaced between five and six minutes before it
      expires, and for every second of these there is a jitter. */
  lemma DefaultSleeps(lag: real, sleep: U64)
    ensures var t := Defaults(lag);
      (exists j: U64 :: j <= t.maxJitter && SleepSeconds(3600, t.skew, t.min, j) == sleep) <==> 3240 <= sleep <= 3300
  {
    if 3240 <= sleep <= 3300 {
      var j: U64 := 3300 - sleep;
      assert SleepSeconds(3600, Defaults(lag).skew, Defaults(lag).min, j) == sleep;
    }
  }

  /** With the defaults and lifetimes of 330 seconds or more six failures in a row are always survived
      exactly if seven times the overrun of a sleep is at most 39 seconds, and seven never are. */
  lemma DefaultsSurviveSix(lag: real, low: U64)
    requires lag >= 0.0 && low >= 330
    ensures Survives(Defaults(lag), low, 6) <==> 7.0 * lag <= 39.0
    ensures !Survives(Defaults(lag), low, 7)
  {
    var t := Defaults(lag);
    FreshExactly(t, low, 6);
    FreshExactly(t, low, 7);
    DefaultDelays(lag);
  }

  lemma DefaultDelays(lag: real)
    ensures Delay(Defaults(lag), 6) == 260.0 + 7.0 * lag && Delay(Defaults(lag), 7) == 300.0 + 8.0 * lag
  {
    DelayAddsUp(Defaults(lag), 6);
    DelayAddsUp(Defaults(lag), 7);
  }
}
