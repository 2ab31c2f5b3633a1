/** What holds after every run of the job queue, and exactly where late answers break the stronger claim. */
module JobRuns {
  import Sequences
  import opened Wrappers
  import opened Jobs

  // ---------------------------------------------------------------- attempts

  /**
   * In every run, whatever is late or lost: a row's attempt count is the number of times it was
   * claimed, which exceeds the limit by at most the number of expired leases taken over; and no
   * two rows share a tenant, type and key.
   */
  lemma AttemptsAreClaims(c: Config, now: int, evs: seq<Event>, j: nat)
    requires c.Valid() && j < |Run(c, Empty(now), evs).rows|
    ensures var s := Run(c, Empty(now), evs);
      && s.rows[j].attemptCount == ClaimsOn(s.claims, j) <= s.rows[j].maxAttempts + Reclaims(s.claims, j)
      && UniqueKeys(s.rows)
  {
    RunKeepsInv(c, Empty(now), evs);
    WithinLimit(c, Run(c, Empty(now), evs), j);
    assert GoodRow(Run(c, Empty(now), evs), j);
  }

  lemma WithinLimit(c: Config, s: State, j: nat)
    requires Inv(c, s) && j < |s.rows|
    ensures s.rows[j].attemptCount + (if s.rows[j].status == Queued then 1 else 0) <= s.rows[j].maxAttempts + Reclaims(s.claims, j)
  {
    assert GoodRow(s, j);
    forall k | 0 <= k < |s.claims| && s.claims[k].job == j && s.claims[k].requeued ensures s.claims[k].attempt < s.rows[j].maxAttempts {
      assert GoodClaim(s, k);
    }
    FewRequeues(s.claims, j, s.rows[j].maxAttempts);
  }

  /** The slack is real: an expired lease is taken over although the only attempt is spent. */
  lemma ReclaimIgnoresTheLimit()
    ensures var c := Config(60_000, 100, 1_000);
      var s := Run(c, Empty(0), [Enqueue("t", "process_inbound", None, 1), ClaimRow(0), Tick(60_000), ClaimRow(0)]);
      |s.rows| == 1 && s.rows[0].maxAttempts == 1 && s.rows[0].attemptCount == 2
  {
    var c := Config(60_000, 100, 1_000);
    var s1 := Step(c, Empty(0), Enqueue("t", "process_inbound", None, 1));
    var s2 := Step(c, s1, ClaimRow(0));
    var s3 := Step(c, s2, Tick(60_000));
    var s4 := Step(c, s3, ClaimRow(0));
    Unroll4(c, Empty(0), Enqueue("t", "process_inbound", None, 1), ClaimRow(0), Tick(60_000), ClaimRow(0));
    assert s4.rows[0].attemptCount == 2;
  }

  lemma Unroll4(c: Config, s: State, a: Event, b: Event, d: Event, e: Event)
    ensures Run(c, s, [a, b, d, e]) == Step(c, Step(c, Step(c, Step(c, s, a), b), d), e)
  {
    var s1 := Step(c, s, a);
    var s2 := Step(c, s1, b);
    assert [a, b, d, e][1..] == [b, d, e] && [b, d, e][1..] == [d, e] && [d, e][1..] == [e];
    assert Run(c, s, [a, b, d, e]) == Run(c, s1, [b, d, e]) == Run(c, s2, [d, e]) == Run(c, Step(c, s2, d), [e]);
  }

  // ---------------------------------------------------------------- live leases

  lemma {:induction false} ClaimsOnGrow(claims: seq<Claim>, m: nat, n: nat, j: nat)
    requires m <= n <= |claims|
    ensures ClaimsOn(claims[..m], j) <= ClaimsOn(claims[..n], j)
  {
    if m < n {
      assert claims[..n][..n - 1] == claims[..n - 1];
      ClaimsOnGrow(claims, m, n - 1, j);
    }
  }

  lemma AttemptsDiffer(claims: seq<Claim>, a: nat, b: nat)
    requires Numbered(claims) && a < b < |claims| && claims[a].job == claims[b].job
    ensures claims[a].attempt < claims[b].attempt
  {
    assert claims[..a + 1][..a] == claims[..a];
    ClaimsOnGrow(claims, a + 1, b, claims[b].job);
  }

  /**
   * In every reachable state a live, unanswered claim keeps its row to itself exactly as long as
   * no other claim of the same job has been answered since it was made; nobody can claim the row
   * meanwhile, nor after the claim's own completion took effect without being acknowledged.
   */
  lemma LiveClaimHoldsUnlessDisturbed(c: Config, s: State, k: nat)
    requires Inv(c, s) && Live(s, k)
    ensures !s.claims[k].lost ==> (Holds(s, k) <==> !s.claims[k].disturbed)
    ensures !s.claims[k].disturbed ==> Owns(s, k) && !Eligible(s, s.claims[k].job)
  {
    assert GoodClaim(s, k);
  }

  /** The event is not an answer whose lease has run out. */
  predicate Timely(s: State, ev: Event) {
    match ev
    case Complete(k) => CanAnswer(s, k) ==> Live(s, k)
    case CompleteUnacknowledged(k) => CanAnswer(s, k) ==> Live(s, k)
    case Fail(k, _) => CanAnswer(s, k) ==> Live(s, k)
    case _ => true
  }

  predicate TimelyRun(c: Config, s: State, evs: seq<Event>)
    decreases evs
  {
    evs == [] || (Timely(s, evs[0]) && TimelyRun(c, Step(c, s, evs[0]), evs[1..]))
  }

  ghost predicate Undisturbed(s: State) {
    forall k :: 0 <= k < |s.claims| && Live(s, k) ==> !s.claims[k].disturbed
  }

  /** Two live undisturbed claims are not of the same job: each would be its latest. */
  lemma OwnersDiffer(c: Config, s: State, a: nat, b: nat)
    requires Inv(c, s) && Live(s, a) && Live(s, b) && !s.claims[a].disturbed && !s.claims[b].disturbed && a != b
    ensures s.claims[a].job != s.claims[b].job
  {
    assert GoodClaim(s, a) && GoodClaim(s, b);
    if s.claims[a].job == s.claims[b].job {
      if a < b { AttemptsDiffer(s.claims, a, b); } else { AttemptsDiffer(s.claims, b, a); }
    }
  }

  function AnswerOf(ev: Event): Option<nat> {
    match ev
    case Complete(k) => Some(k)
    case CompleteUnacknowledged(k) => Some(k)
    case Fail(k, _) => Some(k)
    case _ => None
  }

  lemma TimelyStepsDisturbNobody(c: Config, s: State, ev: Event)
    requires Inv(c, s) && Undisturbed(s) && Timely(s, ev)
    ensures Undisturbed(Step(c, s, ev))
  {
    var s' := Step(c, s, ev);
    if AnswerOf(ev).Some? && s' != s {
      var a := AnswerOf(ev).value;
      forall k | 0 <= k < |s'.claims| && Live(s', k) ensures !s'.claims[k].disturbed {
        assert Live(s, k) && Live(s, a);
        if k != a { OwnersDiffer(c, s, a, k); }
      }
    }
  }

  /** If no answer comes after its lease, a job is never claimed while an earlier claim of it is live. */
  lemma {:induction false} TimelyAnswersExclude(c: Config, s: State, evs: seq<Event>, k: nat)
    requires Inv(c, s) && Undisturbed(s) && TimelyRun(c, s, evs)
    requires k < |Run(c, s, evs).claims| && Live(Run(c, s, evs), k)
    ensures !Eligible(Run(c, s, evs), Run(c, s, evs).claims[k].job)
    decreases evs
  {
    if evs == [] {
      LiveClaimHoldsUnlessDisturbed(c, s, k);
    } else {
      StepKeepsInv(c, s, evs[0]);
      TimelyStepsDisturbNobody(c, s, evs[0]);
      TimelyAnswersExclude(c, Step(c, s, evs[0]), evs[1..], k);
    }
  }

  /** One late `fail` is enough: the row is queued again and can be claimed under a live lease. */
  lemma LateFailExposesALiveClaim()
    ensures var c := Config(60_000, 100, 1_000);
      var s := Run(c, Run(c, Empty(0), [Enqueue("t", "process_inbound", None, 5), ClaimRow(0), Tick(60_000), ClaimRow(0)]),
                   [Fail(0, 0.0), Tick(60_100)]);
      |s.claims| == 2 && s.claims[1].job == 0 && Live(s, 1) && Eligible(s, 0)
  {
    var c := Config(60_000, 100, 1_000);
    var e := Enqueue("t", "process_inbound", None, 5);
    Unroll4(c, Empty(0), e, ClaimRow(0), Tick(60_000), ClaimRow(0));
    var s1 := Step(c, Empty(0), e);
    var s2 := Step(c, s1, ClaimRow(0));
    var s3 := Step(c, s2, Tick(60_000));
    var s4 := Step(c, s3, ClaimRow(0));
    assert s4.rows[0].status == Running && s4.claims[0].attempt == 1 && |s4.claims| == 2 && s4.claims[1].leasedUntil == 120_000;
    assert Pow2(0) == 1 && RetryDelay(c, 1, 0.0) == 100;
    var s5 := Step(c, s4, Fail(0, 0.0));
    var s6 := Step(c, s5, Tick(60_100));
    assert [Fail(0, 0.0), Tick(60_100)][1..] == [Tick(60_100)];
    assert Run(c, s4, [Fail(0, 0.0), Tick(60_100)]) == s6;
  }

  // ---------------------------------------------------------------- waiting times

  /** The event takes effect as an answer of some claim of the job. */
  predicate AnswersFor(s: State, ev: Event, j: nat) {
    AnswerOf(ev).Some? && (if ev.Fail? then CanAnswer(s, ev.claim) else CanComplete(s, AnswerOf(ev).value))
    && s.claims[AnswerOf(ev).value].job == j
  }

  /** No claim of the job is answered in the run. */
  predicate Unanswered(c: Config, s: State, evs: seq<Event>, j: nat)
    decreases evs
  {
    evs == [] || (!AnswersFor(s, evs[0], j) && Unanswered(c, Step(c, s, evs[0]), evs[1..], j))
  }

  /** How often the run claims the job. */
  function TimesClaimed(c: Config, s: State, evs: seq<Event>, j: nat): nat
    decreases evs
  {
    if evs == [] then 0 else (if Claims(s, evs[0], j) then 1 else 0) + TimesClaimed(c, Step(c, s, evs[0]), evs[1..], j)
  }

  /** From when on the job may be claimed: a queued one waits, a running one keeps its lease. */
  function ReadyAt(row: Row): int {
    if row.status == Queued then row.availableAt else row.leasedUntil
  }

  /** Without an answer, an unfinished row is neither eligible nor claimed before its time, and eligible from it on. */
  lemma {:induction false} NobodyIsEarly(c: Config, s: State, evs: seq<Event>, j: nat)
    requires j < |s.rows| && !Terminal(s.rows[j]) && Unanswered(c, s, evs, j)
    ensures var s', ready := Run(c, s, evs), ReadyAt(s.rows[j]);
      && j < |s'.rows| && !Terminal(s'.rows[j])
      && (s'.now < ready ==> TimesClaimed(c, s, evs, j) == 0)
      && (TimesClaimed(c, s, evs, j) == 0 ==> s'.rows[j] == s.rows[j] && (Eligible(s', j) <==> s'.now >= ready))
    decreases evs
  {
    if evs != [] {
      var s1 := Step(c, s, evs[0]);
      ClockGrows(c, s1, evs[1..]);
      NobodyIsEarly(c, s1, evs[1..], j);
    }
  }

  lemma {:induction false} ClockGrows(c: Config, s: State, evs: seq<Event>)
    ensures Run(c, s, evs).now >= s.now
    decreases evs
  {
    if evs != [] { ClockGrows(c, Step(c, s, evs[0]), evs[1..]); }
  }

  /**
   * A job that fails below its limit waits: whatever else happens, as long as no other claim of it
   * is answered, it is neither eligible nor claimed before `min(max, base * 2^(n - 1))` has passed
   * since the failure of attempt `n`; it becomes eligible exactly after the retry delay.
   */
  lemma FailedJobsWait(c: Config, s: State, k: nat, jitter: real, evs: seq<Event>)
    requires Inv(c, s) && CanAnswer(s, k) && s.claims[k].attempt < s.rows[s.claims[k].job].maxAttempts
    requires Unanswered(c, Step(c, s, Fail(k, jitter)), evs, s.claims[k].job)
    ensures var j, n, s1 := s.claims[k].job, s.claims[k].attempt, Step(c, s, Fail(k, jitter));
      var s', times := Run(c, s1, evs), TimesClaimed(c, s1, evs, j);
      && n >= 1 && (s'.now < s.now + MinInt(c.maxRetryMs, c.baseRetryMs * Pow2(n - 1)) ==> times == 0 && !Eligible(s', j))
      && (times == 0 ==> (Eligible(s', j) <==> s'.now >= s.now + RetryDelay(c, n, jitter)))
  {
    assert GoodClaim(s, k);
    var n := s.claims[k].attempt;
    assert n == ClaimsOn(s.claims[..k], s.claims[k].job) + 1;
    RetryDelayIsBoundedAndMonotone(c, n, n, jitter);
    NobodyIsEarly(c, Step(c, s, Fail(k, jitter)), evs, s.claims[k].job);
  }

  /** A claimed job is leased: as long as no claim of it is answered, nobody else gets it before the lease time has passed. */
  lemma ClaimedJobsAreLeased(c: Config, s: State, j: nat, evs: seq<Event>)
    requires Eligible(s, j) && Unanswered(c, Step(c, s, ClaimRow(j)), evs, j)
    ensures var s1 := Step(c, s, ClaimRow(j)); var s', times := Run(c, s1, evs), TimesClaimed(c, s1, evs, j);
      && (s'.now < s.now + c.leaseMs ==> times == 0)
      && (times == 0 ==> (Eligible(s', j) <==> s'.now >= s.now + c.leaseMs))
  {
    NobodyIsEarly(c, Step(c, s, ClaimRow(j)), evs, j);
  }

  /** A new job can be claimed at once, with the attempts asked for, but at least one. */
  lemma NewJobsAreReady(c: Config, s: State, tenantId: string, jobType: string, key: Option<string>, maxAttempts: nat)
    requires tenantId != "" && jobType != "" && (forall i :: 0 <= i < |s.rows| ==> !SameKey(s.rows[i], tenantId, jobType, key))
    ensures var s', j := Step(c, s, Enqueue(tenantId, jobType, key, maxAttempts)), |s.rows|;
      && |s'.rows| == j + 1 && s'.rows[..j] == s.rows && s'.claims == s.claims && Eligible(s', j)
      && s'.rows[j].tenantId == tenantId && s'.rows[j].jobType == jobType && s'.rows[j].key == key
      && s'.rows[j].attemptCount == 0 && 1 <= s'.rows[j].maxAttempts
      && (maxAttempts >= 1 ==> s'.rows[j].maxAttempts == maxAttempts) && (maxAttempts == 0 ==> s'.rows[j].maxAttempts == 1)
  {
    FindFinds(s.rows, tenantId, jobType, key);
  }

  // ---------------------------------------------------------------- the end of a job

  predicate Terminal(row: Row) {
    row.status == Completed || row.status == Dead
  }

  /** Claim `k` of the job is still to be answered, also if its completion took effect unacknowledged. */
  predicate Outstanding(s: State, k: nat, j: nat) {
    k < |s.claims| && s.claims[k].job == j && !s.claims[k].answered
  }

  ghost predicate Owed(s: State, j: nat) {
    exists k: nat :: Outstanding(s, k, j)
  }

  ghost predicate OwedBelowTheLimit(s: State, j: nat)
    requires j < |s.rows|
  {
    exists k: nat :: Outstanding(s, k, j) && s.claims[k].attempt < s.rows[j].maxAttempts
  }

  lemma EnqueueFindsTheRow(c: Config, s: State, j: nat, maxAttempts: nat)
    requires Inv(c, s) && j < |s.rows| && s.rows[j].key.Some?
    ensures Step(c, s, Enqueue(s.rows[j].tenantId, s.rows[j].jobType, s.rows[j].key, maxAttempts)) == s
  {
    FindFinds(s.rows, s.rows[j].tenantId, s.rows[j].jobType, s.rows[j].key);
    assert SameKey(s.rows[j], s.rows[j].tenantId, s.rows[j].jobType, s.rows[j].key);
  }

  /** A finished job with no answer outstanding stays exactly as it is, whatever is enqueued again. */
  lemma {:induction false} SettledJobsStay(c: Config, s: State, evs: seq<Event>, j: nat)
    requires j < |s.rows| && Terminal(s.rows[j]) && !Owed(s, j)
    ensures j < |Run(c, s, evs).rows| && Run(c, s, evs).rows[j] == s.rows[j]
    decreases evs
  {
    if evs != [] {
      var s' := Step(c, s, evs[0]);
      forall k: nat ensures !Outstanding(s', k, j) { assert !Outstanding(s, k, j); }
      assert s'.rows[j] == s.rows[j] by { assert AnswerOf(evs[0]).Some? ==> !Outstanding(s, AnswerOf(evs[0]).value, j); }
      SettledJobsStay(c, s', evs[1..], j);
    }
  }

  ghost predicate FinishedAfter(c: Config, s: State, evs: seq<Event>, j: nat) {
    j < |Run(c, s, evs).rows| && Terminal(Run(c, s, evs).rows[j])
  }

  lemma FinishedStep(c: Config, s: State, ev: Event, j: nat)
    requires Inv(c, s) && j < |s.rows| && Terminal(s.rows[j]) && !OwedBelowTheLimit(s, j)
    ensures var s' := Step(c, s, ev);
      && j < |s'.rows| && Terminal(s'.rows[j]) && !OwedBelowTheLimit(s', j)
      && s'.rows[j].attemptCount == s.rows[j].attemptCount && s'.rows[j].maxAttempts == s.rows[j].maxAttempts
  {
    var s' := Step(c, s, ev);
    if AnswerOf(ev).Some? && CanAnswer(s, AnswerOf(ev).value) && s.claims[AnswerOf(ev).value].job == j {
      assert Outstanding(s, AnswerOf(ev).value, j);
    }
    forall k: nat | Outstanding(s', k, j) ensures s'.claims[k].attempt >= s'.rows[j].maxAttempts { assert Outstanding(s, k, j); }
  }

  lemma {:induction false} FinishedRun(c: Config, s: State, evs: seq<Event>, j: nat)
    requires Inv(c, s) && j < |s.rows| && Terminal(s.rows[j]) && !OwedBelowTheLimit(s, j)
    ensures FinishedAfter(c, s, evs, j) && AttemptsAfter(c, s, evs, j) == s.rows[j].attemptCount
    ensures Run(c, s, evs).rows[j].maxAttempts == s.rows[j].maxAttempts
    decreases evs
  {
    if evs != [] {
      FinishedStep(c, s, evs[0], j);
      StepKeepsInv(c, s, evs[0]);
      FinishedRun(c, Step(c, s, evs[0]), evs[1..], j);
    }
  }

  /**
   * A finished job stays finished for ever, in every run, if and only if no claim of it below the
   * limit is still to be answered, the one that completed it without being acknowledged included.
   */
  lemma FinishedJobsStayIff(c: Config, s: State, j: nat)
    requires Inv(c, s) && j < |s.rows| && Terminal(s.rows[j])
    ensures (forall evs :: FinishedAfter(c, s, evs, j)) <==> !OwedBelowTheLimit(s, j)
  {
    if OwedBelowTheLimit(s, j) {
      var k: nat :| Outstanding(s, k, j) && s.claims[k].attempt < s.rows[j].maxAttempts;
      LateFailRevives(c, s, k, 0.0);
      assert Run(c, s, [Fail(k, 0.0)]) == Step(c, s, Fail(k, 0.0));
      assert !FinishedAfter(c, s, [Fail(k, 0.0)], j);
    } else {
      forall evs ensures FinishedAfter(c, s, evs, j) { FinishedRun(c, s, evs, j); }
    }
  }

  /** An outstanding answer below the limit queues the job again whatever its row says by now. */
  lemma LateFailRevives(c: Config, s: State, k: nat, jitter: real)
    requires Inv(c, s) && CanAnswer(s, k)
    ensures Step(c, s, Fail(k, jitter)).rows[s.claims[k].job].status ==
            if s.claims[k].attempt < s.rows[s.claims[k].job].maxAttempts then Queued else Dead
  {
  }

  /** A completion that is not acknowledged: the worker fails the finished job, and it is handed out again. */
  lemma LostAcknowledgementRevives()
    ensures var c := Config(60_000, 100, 1_000);
      var done := Run(c, Empty(0), [Enqueue("t", "process_inbound", None, 5), ClaimRow(0), CompleteUnacknowledged(0), Tick(1)]);
      var again := Run(c, done, [Fail(0, 0.0), Tick(101), ClaimRow(0), Tick(102)]);
      && done.rows[0].status == Completed
      && again.rows[0].status == Running && again.rows[0].attemptCount == 2
  {
    var c := Config(60_000, 100, 1_000);
    var e := Enqueue("t", "process_inbound", None, 5);
    Unroll4(c, Empty(0), e, ClaimRow(0), CompleteUnacknowledged(0), Tick(1));
    var done := Step(c, Step(c, Step(c, Step(c, Empty(0), e), ClaimRow(0)), CompleteUnacknowledged(0)), Tick(1));
    Unroll4(c, done, Fail(0, 0.0), Tick(101), ClaimRow(0), Tick(102));
    assert Pow2(0) == 1 && RetryDelay(c, 1, 0.0) == 100;
    assert done.claims[0].lost && done.claims[0].attempt == 1;
    var queued := Step(c, done, Fail(0, 0.0));
    assert queued.rows[0].availableAt == 101;
  }

  // ---------------------------------------------------------------- the attempt limit

  function AttemptsAfter(c: Config, s: State, evs: seq<Event>, j: nat): nat {
    if j < |Run(c, s, evs).rows| then Run(c, s, evs).rows[j].attemptCount else 0
  }

  /** All attempts that the limit grants are used up. */
  predicate Spent(s: State, j: nat) {
    j < |s.rows| && s.rows[j].attemptCount >= s.rows[j].maxAttempts
  }

  /** The event takes over an expired lease although the attempts are spent. */
  predicate TakesOverSpent(s: State, ev: Event, j: nat) {
    ev == ClaimRow(j) && Spent(s, j) && Eligible(s, j) && s.rows[j].status == Running
  }

  /** The event is the failure of an attempt below the limit, come so late that the attempts are spent. */
  predicate QueuesSpent(s: State, ev: Event, j: nat) {
    && ev.Fail? && Spent(s, j) && CanAnswer(s, ev.claim) && s.claims[ev.claim].job == j
    && s.claims[ev.claim].attempt < s.rows[j].maxAttempts
  }

  predicate Claims(s: State, ev: Event, j: nat) {
    ev == ClaimRow(j) && Eligible(s, j)
  }

  /** The state in which event `i` of the run happens. */
  function At(c: Config, s: State, evs: seq<Event>, i: nat): State
    requires i < |evs|
  {
    Run(c, s, evs[..i])
  }

  ghost predicate SomeTakeOver(c: Config, s: State, evs: seq<Event>, j: nat) {
    exists i: nat :: i < |evs| && TakesOverSpent(At(c, s, evs, i), evs[i], j)
  }

  ghost predicate SomeLateFail(c: Config, s: State, evs: seq<Event>, j: nat) {
    exists i: nat :: i < |evs| && QueuesSpent(At(c, s, evs, i), evs[i], j)
  }

  ghost predicate SomeLateFailThenClaim(c: Config, s: State, evs: seq<Event>, j: nat) {
    exists i: nat, l: nat :: i < l < |evs| && QueuesSpent(At(c, s, evs, i), evs[i], j) && Claims(At(c, s, evs, l), evs[l], j)
  }

  lemma {:induction false} RunAppend(c: Config, s: State, a: seq<Event>, b: seq<Event>)
    ensures Run(c, s, a + b) == Run(c, Run(c, s, a), b)
    decreases a
  {
    if a == [] {
      Sequences.Empty(b);
    } else {
      assert (a + b)[0] == a[0] && (a + b)[1..] == a[1..] + b;
      RunAppend(c, Step(c, s, a[0]), a[1..], b);
    }
  }

  lemma RunOneMore(c: Config, s: State, evs: seq<Event>)
    requires evs != []
    ensures var last := |evs| - 1; Run(c, s, evs) == Step(c, Run(c, s, evs[..last]), evs[last])
  {
    var last := |evs| - 1;
    assert evs == evs[..last] + [evs[last]];
    RunAppend(c, s, evs[..last], [evs[last]]);
    assert [evs[last]][1..] == [];
  }

  /** Only a claim raises the count, and the limit of a row is fixed. */
  lemma AttemptsStep(c: Config, s: State, ev: Event, j: nat)
    requires j < |s.rows|
    ensures var s' := Step(c, s, ev);
      && j < |s'.rows| && s'.rows[j].maxAttempts == s.rows[j].maxAttempts
      && s'.rows[j].attemptCount == s.rows[j].attemptCount + (if Claims(s, ev, j) then 1 else 0)
  {
  }

  lemma {:induction false} AttemptsGrow(c: Config, s: State, evs: seq<Event>, j: nat)
    requires j < |s.rows|
    ensures j < |Run(c, s, evs).rows| && Run(c, s, evs).rows[j].maxAttempts == s.rows[j].maxAttempts
    ensures s.rows[j].attemptCount <= Run(c, s, evs).rows[j].attemptCount
    decreases evs
  {
    if evs != [] {
      AttemptsStep(c, s, evs[0], j);
      AttemptsGrow(c, Step(c, s, evs[0]), evs[1..], j);
    }
  }

  /** How a row can come to wait with its attempts spent: by that failure, or it did already. */
  lemma SpentAndQueued(c: Config, s: State, ev: Event, j: nat)
    requires Inv(c, s) && Spent(Step(c, s, ev), j) && Step(c, s, ev).rows[j].status == Queued
    ensures QueuesSpent(s, ev, j) || (Spent(s, j) && s.rows[j].status == Queued)
  {
    if j < |s.rows| { AttemptsStep(c, s, ev, j); }
  }

  lemma {:induction false} SpentAndQueuedFrom(c: Config, now: int, evs: seq<Event>, j: nat)
    requires c.Valid() && Spent(Run(c, Empty(now), evs), j) && Run(c, Empty(now), evs).rows[j].status == Queued
    ensures SomeLateFail(c, Empty(now), evs, j)
    decreases |evs|
  {
    var last := |evs| - 1;
    var before := evs[..last];
    var s := At(c, Empty(now), evs, last);
    RunOneMore(c, Empty(now), evs);
    RunKeepsInv(c, Empty(now), before);
    SpentAndQueued(c, s, evs[last], j);
    if !QueuesSpent(s, evs[last], j) {
      SpentAndQueuedFrom(c, now, before, j);
      var i: nat :| i < last && QueuesSpent(At(c, Empty(now), before, i), before[i], j);
      assert before[..i] == evs[..i];
    }
  }

  lemma {:induction false} ExceededFrom(c: Config, now: int, evs: seq<Event>, j: nat)
    requires c.Valid() && j < |Run(c, Empty(now), evs).rows|
    requires Run(c, Empty(now), evs).rows[j].attemptCount > Run(c, Empty(now), evs).rows[j].maxAttempts
    ensures SomeTakeOver(c, Empty(now), evs, j) || SomeLateFailThenClaim(c, Empty(now), evs, j)
    decreases |evs|
  {
    var last := |evs| - 1;
    var before := evs[..last];
    var s := At(c, Empty(now), evs, last);
    RunOneMore(c, Empty(now), evs);
    if j < |s.rows| { AttemptsStep(c, s, evs[last], j); }
    if j < |s.rows| && s.rows[j].attemptCount > s.rows[j].maxAttempts {
      ExceededFrom(c, now, before, j);
      forall i: nat | i < last ensures before[..i] == evs[..i] && before[i] == evs[i] { }
      assert forall i: nat :: i < last ==> At(c, Empty(now), before, i) == At(c, Empty(now), evs, i);
    } else if s.rows[j].status == Queued {
      SpentAndQueuedFrom(c, now, before, j);
      var i: nat :| i < last && QueuesSpent(At(c, Empty(now), before, i), before[i], j);
      assert before[..i] == evs[..i];
      assert Claims(s, evs[last], j);
    } else {
      assert TakesOverSpent(s, evs[last], j);
    }
  }

  /** A claim of a row whose attempts are spent exceeds the limit from then on. */
  lemma ClaimOfSpentExceeds(c: Config, s: State, evs: seq<Event>, l: nat, j: nat)
    requires l < |evs| && Claims(At(c, s, evs, l), evs[l], j) && Spent(At(c, s, evs, l), j)
    ensures j < |Run(c, s, evs).rows| && Run(c, s, evs).rows[j].attemptCount > Run(c, s, evs).rows[j].maxAttempts
  {
    assert evs[..l + 1][..l] == evs[..l] && evs == evs[..l + 1] + evs[l + 1..];
    RunOneMore(c, s, evs[..l + 1]);
    RunAppend(c, s, evs[..l + 1], evs[l + 1..]);
    AttemptsGrow(c, Run(c, s, evs[..l + 1]), evs[l + 1..], j);
  }

  lemma SpentStays(c: Config, s: State, evs: seq<Event>, i: nat, l: nat, j: nat)
    requires i <= l < |evs| && Spent(At(c, s, evs, i), j)
    ensures Spent(At(c, s, evs, l), j)
  {
    assert evs[..l] == evs[..i] + evs[i..l];
    RunAppend(c, s, evs[..i], evs[i..l]);
    AttemptsGrow(c, At(c, s, evs, i), evs[i..l], j);
  }

  /**
   * A run claims a job more than `max_attempts` times if and only if an expired lease is taken
   * over when the attempts are spent, or the failure of an attempt below the limit comes when
   * they are spent, which queues the row again, and the row is claimed after that.
   */
  lemma LimitIsExceededIff(c: Config, now: int, evs: seq<Event>, j: nat)
    requires c.Valid() && j < |Run(c, Empty(now), evs).rows|
    ensures var s := Run(c, Empty(now), evs);
      ClaimsOn(s.claims, j) > s.rows[j].maxAttempts <==>
        SomeTakeOver(c, Empty(now), evs, j) || SomeLateFailThenClaim(c, Empty(now), evs, j)
  {
    AttemptsAreClaims(c, now, evs, j);
    if Run(c, Empty(now), evs).rows[j].attemptCount > Run(c, Empty(now), evs).rows[j].maxAttempts { ExceededFrom(c, now, evs, j); }
    if SomeTakeOver(c, Empty(now), evs, j) {
      var i: nat :| i < |evs| && TakesOverSpent(At(c, Empty(now), evs, i), evs[i], j);
      ClaimOfSpentExceeds(c, Empty(now), evs, i, j);
    }
    if SomeLateFailThenClaim(c, Empty(now), evs, j) {
      var i: nat, l: nat :| i < l < |evs| && QueuesSpent(At(c, Empty(now), evs, i), evs[i], j)
        && Claims(At(c, Empty(now), evs, l), evs[l], j);
      SpentStays(c, Empty(now), evs, i, l, j);
      ClaimOfSpentExceeds(c, Empty(now), evs, l, j);
    }
  }

  /** The second way: no lease is taken over beyond the limit, a late failure queues the spent row. */
  lemma LateFailIgnoresTheLimit()
    ensures var c := Config(60_000, 100, 1_000);
      var taken := Run(c, Empty(0), [Enqueue("t", "process_inbound", None, 2), ClaimRow(0), Tick(60_000), ClaimRow(0)]);
      var s := Run(c, taken, [Fail(0, 0.0), Tick(60_100), ClaimRow(0), Tick(60_101)]);
      && |taken.rows| == 1 && taken.rows[0].attemptCount == taken.rows[0].maxAttempts == 2
      && |s.rows| == 1 && s.rows[0].attemptCount == 3 && |s.claims| == 3 && !s.claims[2].reclaim
  {
    var c := Config(60_000, 100, 1_000);
    var e := Enqueue("t", "process_inbound", None, 2);
    Unroll4(c, Empty(0), e, ClaimRow(0), Tick(60_000), ClaimRow(0));
    var taken := Step(c, Step(c, Step(c, Step(c, Empty(0), e), ClaimRow(0)), Tick(60_000)), ClaimRow(0));
    assert taken.claims[0] == Claim(0, 1, 60_000, false, false, false, false, false);
    assert taken.rows == [Row("t", "process_inbound", None, Running, 2, 2, 0, 0, 120_000)];
    assert Pow2(0) == 1 && RetryDelay(c, 1, 0.0) == 100;
    Unroll4(c, taken, Fail(0, 0.0), Tick(60_100), ClaimRow(0), Tick(60_101));
    var queued := Step(c, taken, Fail(0, 0.0));
    assert queued.rows[0].status == Queued && queued.rows[0].availableAt == 60_100;
  }

  // What a caller can read off a state: from where on the limit is safe.

  ghost predicate WithinLimitAfter(c: Config, s: State, evs: seq<Event>, j: nat) {
    j < |Run(c, s, evs).rows| && Run(c, s, evs).rows[j].attemptCount <= Run(c, s, evs).rows[j].maxAttempts
  }

  /** An unfinished row can be claimed again and again, so some run goes beyond the limit. */
  lemma {:induction false} UnfinishedCanExceed(c: Config, s: State, j: nat) returns (evs: seq<Event>)
    requires Inv(c, s) && j < |s.rows| && !Terminal(s.rows[j]) && s.rows[j].attemptCount <= s.rows[j].maxAttempts
    ensures !WithinLimitAfter(c, s, evs, j)
    decreases s.rows[j].maxAttempts - s.rows[j].attemptCount
  {
    UnfinishedJobsCanMove(c, s, j);
    var t :| Eligible(Step(c, s, Tick(t)), j);
    evs := [Tick(t), ClaimRow(j)];
    var s1 := Step(c, s, Tick(t));
    var s2 := Step(c, s1, ClaimRow(j));
    assert evs[1..] == [ClaimRow(j)] && evs[1..][1..] == [];
    assert Run(c, s, evs) == Run(c, s1, [ClaimRow(j)]) == Run(c, s2, []) == s2;
    if s2.rows[j].attemptCount <= s2.rows[j].maxAttempts {
      StepKeepsInv(c, s, Tick(t));
      StepKeepsInv(c, s1, ClaimRow(j));
      var rest := UnfinishedCanExceed(c, s2, j);
      RunAppend(c, s, evs, rest);
      evs := evs + rest;
    }
  }

  /** An answer that is still owed below the limit queues the job again, and then it can be exceeded too. */
  lemma OwedCanExceed(c: Config, s: State, j: nat) returns (evs: seq<Event>)
    requires Inv(c, s) && j < |s.rows| && s.rows[j].attemptCount <= s.rows[j].maxAttempts && OwedBelowTheLimit(s, j)
    ensures !WithinLimitAfter(c, s, evs, j)
  {
    var k: nat :| Outstanding(s, k, j) && s.claims[k].attempt < s.rows[j].maxAttempts;
    var s' := Step(c, s, Fail(k, 0.0));
    LateFailRevives(c, s, k, 0.0);
    AttemptsStep(c, s, Fail(k, 0.0), j);
    StepKeepsInv(c, s, Fail(k, 0.0));
    var rest := UnfinishedCanExceed(c, s', j);
    evs := [Fail(k, 0.0)] + rest;
    assert evs[1..] == rest;
  }

  /**
   * From a state within the limit, every run stays within it if and only if the job is finished
   * and no claim of it below the limit is still to be answered.
   */
  lemma LimitIsKeptIff(c: Config, s: State, j: nat)
    requires Inv(c, s) && j < |s.rows| && s.rows[j].attemptCount <= s.rows[j].maxAttempts
    ensures (forall evs :: WithinLimitAfter(c, s, evs, j)) <==> Terminal(s.rows[j]) && !OwedBelowTheLimit(s, j)
  {
    if !Terminal(s.rows[j]) {
      var evs := UnfinishedCanExceed(c, s, j);
      assert !WithinLimitAfter(c, s, evs, j);
    } else if OwedBelowTheLimit(s, j) {
      var evs := OwedCanExceed(c, s, j);
      assert !WithinLimitAfter(c, s, evs, j);
    } else {
      forall evs ensures WithinLimitAfter(c, s, evs, j) { FinishedRun(c, s, evs, j); }
    }
  }

  // ---------------------------------------------------------------- punctual jobs

  /** Every claim of the job that is not answered yet is within its lease. */
  ghost predicate Punctual(s: State, j: nat) {
    forall k: nat :: Outstanding(s, k, j) ==> s.now < s.claims[k].leasedUntil
  }

  /** At every moment of the run every claim of the job is answered before its lease expires. */
  ghost predicate PunctualRun(c: Config, s: State, evs: seq<Event>, j: nat)
    decreases evs
  {
    Punctual(s, j) && (evs == [] || PunctualRun(c, Step(c, s, evs[0]), evs[1..], j))
  }

  /** What a punctual past leaves behind. */
  ghost predicate GoodJob(c: Config, s: State, j: nat) {
    && Inv(c, s) && Reclaims(s.claims, j) == 0
    && forall k: nat :: Outstanding(s, k, j) ==> !s.claims[k].disturbed
  }

  /** At most one claim is outstanding, and the row is as that claim left it; otherwise it waits or is over. */
  lemma OutstandingOwns(c: Config, s: State, k: nat, j: nat)
    requires GoodJob(c, s, j) && Punctual(s, j) && Outstanding(s, k, j)
    ensures Live(s, k) && Owns(s, k) && j < |s.rows|
    ensures forall i: nat :: Outstanding(s, i, j) ==> i == k
  {
    assert GoodClaim(s, k);
    forall i: nat | Outstanding(s, i, j) ensures i == k {
      if i != k { OwnersDiffer(c, s, i, k); }
    }
  }

  /** A running row is held by an outstanding claim, so it is not eligible before that lease expires. */
  lemma RunningIsOwed(c: Config, s: State, j: nat) returns (k: nat)
    requires Inv(c, s) && j < |s.rows| && s.rows[j].status == Running
    ensures Outstanding(s, k, j) && Holds(s, k) && !s.claims[k].lost
  {
    assert Held(s, j);
    k :| Holds(s, k) && s.claims[k].job == j;
    assert GoodClaim(s, k);
  }

  /** What every answer is to the claims: a settlement of one that is not queued again yet. */
  function HowOf(s: State, ev: Event): How
    requires AnswerOf(ev).Some? && CanAnswer(s, AnswerOf(ev).value)
  {
    var k := AnswerOf(ev).value;
    match ev
    case CompleteUnacknowledged(_) => Unacknowledged
    case Fail(_, _) => Acknowledged(s.claims[k].attempt < s.rows[s.claims[k].job].maxAttempts)
    case _ => Acknowledged(false)
  }

  lemma AnswersSettle(c: Config, s: State, ev: Event)
    requires AnswerOf(ev).Some? && Step(c, s, ev) != s
    ensures CanAnswer(s, AnswerOf(ev).value) && (!ev.Fail? ==> !s.claims[AnswerOf(ev).value].lost)
    ensures Step(c, s, ev).claims == Settle(s.claims, AnswerOf(ev).value, HowOf(s, ev))
    ensures forall i :: 0 <= i < |s.rows| && i != s.claims[AnswerOf(ev).value].job ==> Step(c, s, ev).rows[i] == s.rows[i]
    ensures |Step(c, s, ev).rows| == |s.rows|
  {
  }

  lemma NotQueuedAgainYet(c: Config, s: State, k: nat)
    requires Inv(c, s) && CanAnswer(s, k)
    ensures !s.claims[k].requeued
  {
    assert GoodClaim(s, k);
  }

  lemma RunningIsNotEligible(c: Config, s: State, j: nat)
    requires GoodJob(c, s, j) && Punctual(s, j) && j < |s.rows| && s.rows[j].status == Running
    ensures !Eligible(s, j)
  {
    var k := RunningIsOwed(c, s, j);
  }

  lemma AnswerIsNoReclaim(c: Config, s: State, ev: Event, j: nat)
    requires Inv(c, s) && AnswerOf(ev).Some? && Step(c, s, ev) != s
    ensures Reclaims(Step(c, s, ev).claims, j) == Reclaims(s.claims, j)
  {
    AnswersSettle(c, s, ev);
    NotQueuedAgainYet(c, s, AnswerOf(ev).value);
    SettleCounts(s.claims, AnswerOf(ev).value, HowOf(s, ev), j);
  }

  lemma ClaimIsNoReclaim(c: Config, s: State, i: nat, j: nat)
    requires Eligible(s, i) && (i == j ==> s.rows[j].status != Running)
    ensures Reclaims(Step(c, s, ClaimRow(i)).claims, j) == Reclaims(s.claims, j)
  {
    AppendCounts(s.claims, Step(c, s, ClaimRow(i)).claims[|s.claims|], j);
  }

  lemma NoReclaims(c: Config, s: State, ev: Event, j: nat)
    requires GoodJob(c, s, j) && Punctual(s, j)
    ensures Reclaims(Step(c, s, ev).claims, j) == 0
  {
    if AnswerOf(ev).Some? && Step(c, s, ev) != s {
      AnswerIsNoReclaim(c, s, ev, j);
    } else if ev.ClaimRow? && Eligible(s, ev.job) {
      if ev.job == j && s.rows[j].status == Running { RunningIsNotEligible(c, s, j); }
      ClaimIsNoReclaim(c, s, ev.job, j);
    } else {
      assert Step(c, s, ev).claims == s.claims;
    }
  }

  lemma NobodyIsDisturbed(c: Config, s: State, ev: Event, j: nat, k: nat)
    requires GoodJob(c, s, j) && Punctual(s, j) && Outstanding(Step(c, s, ev), k, j)
    ensures !Step(c, s, ev).claims[k].disturbed
  {
    if AnswerOf(ev).Some? && Step(c, s, ev) != s {
      var a := AnswerOf(ev).value;
      AnswersSettle(c, s, ev);
      assert Outstanding(s, k, j);
      if Outstanding(s, a, j) { OutstandingOwns(c, s, a, j); }
    } else if k < |s.claims| {
      assert Outstanding(s, k, j);
    }
  }

  lemma GoodJobStays(c: Config, s: State, ev: Event, j: nat)
    requires GoodJob(c, s, j) && Punctual(s, j)
    ensures GoodJob(c, Step(c, s, ev), j)
  {
    StepKeepsInv(c, s, ev);
    NoReclaims(c, s, ev, j);
    forall k: nat | Outstanding(Step(c, s, ev), k, j) ensures !Step(c, s, ev).claims[k].disturbed {
      NobodyIsDisturbed(c, s, ev, j, k);
    }
  }

  /** Three times the attempts left, and more the further the current attempt is from its end. */
  ghost function Measure(s: State, j: nat): int
    requires j < |s.rows|
  {
    3 * (s.rows[j].maxAttempts - s.rows[j].attemptCount) +
    match s.rows[j].status
    case Queued => 1
    case Running => 3
    case _ => if Owed(s, j) then 2 else -3 * (s.rows[j].maxAttempts - s.rows[j].attemptCount)
  }

  /** Completed or dead, and nobody is left to answer. */
  ghost predicate Over(s: State, j: nat)
    requires j < |s.rows|
  {
    Terminal(s.rows[j]) && !Owed(s, j)
  }

  /** The event changes row `j`. */
  predicate ActsOn(c: Config, s: State, ev: Event, j: nat) {
    j < |s.rows| && Step(c, s, ev).rows[j] != s.rows[j]
  }

  function Acts(c: Config, s: State, evs: seq<Event>, j: nat): nat
    decreases evs
  {
    if evs == [] then 0 else (if ActsOn(c, s, evs[0], j) then 1 else 0) + Acts(c, Step(c, s, evs[0]), evs[1..], j)
  }

  lemma MeasureIsZeroWhenOver(c: Config, s: State, j: nat)
    requires GoodJob(c, s, j) && j < |s.rows|
    ensures 0 <= Measure(s, j) && (Measure(s, j) == 0 <==> Over(s, j)) && s.rows[j].attemptCount <= s.rows[j].maxAttempts
  {
    WithinLimit(c, s, j);
  }

  lemma ClaimCountsDown(c: Config, s: State, j: nat)
    requires GoodJob(c, s, j) && Punctual(s, j) && Eligible(s, j)
    ensures Measure(Step(c, s, ClaimRow(j)), j) < Measure(s, j)
  {
    if s.rows[j].status == Running { var k := RunningIsOwed(c, s, j); }
  }

  lemma AnswerLeaves(c: Config, s: State, ev: Event, k: nat, j: nat)
    requires Outstanding(s, k, j) && j < |s.rows| && AnswerOf(ev) == Some(k) && (!ev.Fail? ==> !s.claims[k].lost)
    requires s.rows[j].attemptCount == s.claims[k].attempt
    ensures var s' := Step(c, s, ev);
      && |s'.rows| == |s.rows| && s'.claims == Settle(s.claims, k, HowOf(s, ev))
      && s'.rows[j].attemptCount == s.rows[j].attemptCount && s'.rows[j].maxAttempts == s.rows[j].maxAttempts
      && s'.rows[j].status == (if !ev.Fail? then Completed else if s.rows[j].attemptCount < s.rows[j].maxAttempts then Queued else Dead)
  {
  }

  lemma NobodyIsOwed(s: State, k: nat, j: nat, claims: seq<Claim>, how: How)
    requires Outstanding(s, k, j) && claims == Settle(s.claims, k, how) && how.Acknowledged?
    requires forall i: nat :: Outstanding(s, i, j) ==> i == k
    ensures !Owed(s.(claims := claims), j)
  {
    forall i: nat ensures !Outstanding(s.(claims := claims), i, j) {
      assert Outstanding(s.(claims := claims), i, j) ==> Outstanding(s, i, j);
    }
  }

  lemma AnswerCountsDown(c: Config, s: State, ev: Event, k: nat, j: nat)
    requires GoodJob(c, s, j) && Punctual(s, j) && Outstanding(s, k, j) && AnswerOf(ev) == Some(k)
    requires !ev.Fail? ==> !s.claims[k].lost
    ensures var s' := Step(c, s, ev); j < |s.rows| && j < |s'.rows| && Measure(s', j) < Measure(s, j) && s'.rows[j] != s.rows[j]
  {
    var s' := Step(c, s, ev);
    OutstandingOwns(c, s, k, j);
    AnswerLeaves(c, s, ev, k, j);
    MeasureIsZeroWhenOver(c, s, j);
    assert Owed(s, j);
    if !ev.CompleteUnacknowledged? {
      NobodyIsOwed(s, k, j, s'.claims, HowOf(s, ev));
      OwedByClaims(s', s.(claims := s'.claims), j);
    }
  }

  lemma OwedByClaims(s: State, t: State, j: nat)
    requires s.claims == t.claims
    ensures Owed(s, j) == Owed(t, j)
  {
    if Owed(s, j) { var k: nat :| Outstanding(s, k, j); assert Outstanding(t, k, j); }
    if Owed(t, j) { var k: nat :| Outstanding(t, k, j); assert Outstanding(s, k, j); }
  }

  lemma OutstandingStays(c: Config, s: State, ev: Event, k: nat, j: nat)
    requires j < |s.rows| && ev != ClaimRow(j)
    requires AnswerOf(ev).Some? && Step(c, s, ev) != s ==> s.claims[AnswerOf(ev).value].job != j
    ensures Outstanding(Step(c, s, ev), k, j) == Outstanding(s, k, j)
  {
  }

  lemma OtherRowsStay(c: Config, s: State, ev: Event, j: nat)
    requires j < |s.rows| && ev != ClaimRow(j)
    requires AnswerOf(ev).Some? && Step(c, s, ev) != s ==> s.claims[AnswerOf(ev).value].job != j
    ensures j < |Step(c, s, ev).rows| && Step(c, s, ev).rows[j] == s.rows[j]
  {
  }

  lemma OthersDoNotCount(c: Config, s: State, ev: Event, j: nat)
    requires j < |s.rows| && ev != ClaimRow(j)
    requires AnswerOf(ev).Some? && Step(c, s, ev) != s ==> s.claims[AnswerOf(ev).value].job != j
    ensures j < |Step(c, s, ev).rows| && Step(c, s, ev).rows[j] == s.rows[j] && Measure(Step(c, s, ev), j) == Measure(s, j)
  {
    OtherRowsStay(c, s, ev, j);
    if Owed(s, j) {
      var k: nat :| Outstanding(s, k, j);
      OutstandingStays(c, s, ev, k, j);
    }
    if Owed(Step(c, s, ev), j) {
      var k: nat :| Outstanding(Step(c, s, ev), k, j);
      OutstandingStays(c, s, ev, k, j);
    }
  }

  lemma MeasureStep(c: Config, s: State, ev: Event, j: nat)
    requires GoodJob(c, s, j) && Punctual(s, j) && j < |s.rows|
    ensures j < |Step(c, s, ev).rows|
    ensures (if ActsOn(c, s, ev, j) then 1 else 0) + Measure(Step(c, s, ev), j) <= Measure(s, j)
  {
    if ev == ClaimRow(j) {
      if Eligible(s, j) { ClaimCountsDown(c, s, j); }
    } else if AnswerOf(ev).Some? && Step(c, s, ev) != s && s.claims[AnswerOf(ev).value].job == j {
      AnswerCountsDown(c, s, ev, AnswerOf(ev).value, j);
    } else {
      OthersDoNotCount(c, s, ev, j);
    }
  }

  /**
   * If every claim of the job is answered before its lease expires, then in every run: it is
   * claimed at most `max_attempts` times and no lease is taken over, at most `Measure` events
   * change it, and once that many have it is completed or dead with nobody left to answer.
   */
  lemma {:induction false} PunctualJobsEnd(c: Config, s: State, evs: seq<Event>, j: nat)
    requires GoodJob(c, s, j) && PunctualRun(c, s, evs, j) && j < |s.rows|
    ensures var s' := Run(c, s, evs);
      && j < |s'.rows| && GoodJob(c, s', j) && Punctual(s', j)
      && s'.rows[j].attemptCount == ClaimsOn(s'.claims, j) <= s'.rows[j].maxAttempts
      && Acts(c, s, evs, j) + Measure(s', j) <= Measure(s, j)
      && 0 <= Measure(s', j) && (Measure(s', j) == 0 <==> Over(s', j))
    decreases evs
  {
    if evs == [] {
      MeasureIsZeroWhenOver(c, s, j);
      assert GoodRow(s, j);
    } else {
      GoodJobStays(c, s, evs[0], j);
      MeasureStep(c, s, evs[0], j);
      PunctualJobsEnd(c, Step(c, s, evs[0]), evs[1..], j);
    }
  }

  lemma {:induction false} PunctualRunKeeps(c: Config, s: State, evs: seq<Event>, j: nat)
    requires GoodJob(c, s, j) && PunctualRun(c, s, evs, j)
    ensures GoodJob(c, Run(c, s, evs), j) && Punctual(Run(c, s, evs), j)
    decreases evs
  {
    if evs != [] {
      GoodJobStays(c, s, evs[0], j);
      PunctualRunKeeps(c, Step(c, s, evs[0]), evs[1..], j);
    }
  }

  lemma EmptyIsGood(c: Config, now: int, j: nat)
    requires c.Valid()
    ensures GoodJob(c, Empty(now), j)
  {
  }

  /** From the empty table nothing else is assumed: a punctual run leaves a good job behind, within its limit. */
  lemma PunctualFromTheStart(c: Config, now: int, evs: seq<Event>, j: nat)
    requires c.Valid() && PunctualRun(c, Empty(now), evs, j)
    ensures var s := Run(c, Empty(now), evs);
      && GoodJob(c, s, j) && Punctual(s, j)
      && (j < |s.rows| ==> ClaimsOn(s.claims, j) <= s.rows[j].maxAttempts)
  {
    EmptyIsGood(c, now, j);
    PunctualRunKeeps(c, Empty(now), evs, j);
    if j < |Run(c, Empty(now), evs).rows| { AttemptsAreClaims(c, now, evs, j); }
  }

  /** A job that is not over can move on in time: it waits to be claimed, or its one claim can be answered now. */
  lemma PunctualJobsCanMove(c: Config, s: State, j: nat) returns (evs: seq<Event>)
    requires GoodJob(c, s, j) && Punctual(s, j) && j < |s.rows| && !Over(s, j)
    ensures PunctualRun(c, s, evs, j) && Acts(c, s, evs, j) >= 1
  {
    if s.rows[j].status == Queued {
      evs := WaitAndClaim(c, s, j);
    } else {
      var k: nat;
      if s.rows[j].status == Running { k := RunningIsOwed(c, s, j); } else { k :| Outstanding(s, k, j); }
      evs := [Fail(k, 0.0)];
      OutstandingOwns(c, s, k, j);
      AnswerCountsDown(c, s, evs[0], k, j);
      NobodyElse(c, s, evs[0], k, j);
      assert PunctualRun(c, Step(c, s, evs[0]), [], j) && evs[1..] == [];
    }
  }

  lemma NobodyElse(c: Config, s: State, ev: Event, k: nat, j: nat)
    requires GoodJob(c, s, j) && Punctual(s, j) && Outstanding(s, k, j) && ev.Fail? && ev.claim == k
    ensures Punctual(Step(c, s, ev), j)
  {
    forall i: nat | Outstanding(Step(c, s, ev), i, j) ensures Step(c, s, ev).now < Step(c, s, ev).claims[i].leasedUntil {
      assert Outstanding(s, i, j);
    }
  }

  lemma WaitAndClaim(c: Config, s: State, j: nat) returns (evs: seq<Event>)
    requires GoodJob(c, s, j) && Punctual(s, j) && j < |s.rows| && s.rows[j].status == Queued
    ensures PunctualRun(c, s, evs, j) && Acts(c, s, evs, j) >= 1
  {
    var t := if s.now < s.rows[j].availableAt then s.rows[j].availableAt else s.now;
    evs := [Tick(t), ClaimRow(j)];
    forall k: nat ensures !Outstanding(s, k, j) { if Outstanding(s, k, j) { OutstandingOwns(c, s, k, j); } }
    var s1 := Step(c, s, Tick(t));
    var s2 := Step(c, s1, ClaimRow(j));
    assert Punctual(s1, j) && Punctual(s2, j) by {
      forall k: nat | Outstanding(s1, k, j) ensures false { assert Outstanding(s, k, j); }
      forall k: nat | Outstanding(s2, k, j) ensures s2.now < s2.claims[k].leasedUntil { assert k < |s.claims| ==> Outstanding(s, k, j); }
    }
    assert evs[1..] == [ClaimRow(j)] && evs[1..][1..] == [];
    assert PunctualRun(c, s2, [], j);
    assert PunctualRun(c, s1, [ClaimRow(j)], j);
  }

  /** Every job can be brought to its end in time, from wherever a punctual past has left it. */
  lemma {:induction false} EveryPunctualJobCanEnd(c: Config, s: State, j: nat) returns (evs: seq<Event>)
    requires GoodJob(c, s, j) && Punctual(s, j) && j < |s.rows|
    ensures PunctualRun(c, s, evs, j) && j < |Run(c, s, evs).rows| && Over(Run(c, s, evs), j)
    decreases Measure(s, j)
  {
    MeasureIsZeroWhenOver(c, s, j);
    evs := [];
    if !Over(s, j) {
      var first := PunctualJobsCanMove(c, s, j);
      PunctualJobsEnd(c, s, first, j);
      var rest := EveryPunctualJobCanEnd(c, Run(c, s, first), j);
      PunctualAppend(c, s, first, rest, j);
      evs := first + rest;
    }
  }

  lemma {:induction false} PunctualAppend(c: Config, s: State, a: seq<Event>, b: seq<Event>, j: nat)
    requires PunctualRun(c, s, a, j) && PunctualRun(c, Run(c, s, a), b, j)
    ensures PunctualRun(c, s, a + b, j) && Run(c, s, a + b) == Run(c, Run(c, s, a), b)
    decreases a
  {
    RunAppend(c, s, a, b);
    if a == [] {
      Sequences.Empty(b);
    } else {
      assert (a + b)[0] == a[0] && (a + b)[1..] == a[1..] + b;
      PunctualAppend(c, Step(c, s, a[0]), a[1..], b, j);
    }
  }

  /** Nor is an unpunctual job ever stuck: waiting for its time or its lease makes it eligible. */
  lemma UnfinishedJobsCanMove(c: Config, s: State, j: nat)
    requires j < |s.rows| && !Terminal(s.rows[j])
    ensures exists t :: Eligible(Step(c, s, Tick(t)), j)
  {
    var t := if s.now < s.rows[j].availableAt then s.rows[j].availableAt else s.now;
    var u := if t < s.rows[j].leasedUntil then s.rows[j].leasedUntil else t;
    assert Eligible(Step(c, s, Tick(u)), j);
  }
}
