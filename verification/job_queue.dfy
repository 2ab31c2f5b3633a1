/** The jobs table with its statements, and the worker that drives them. */
module JobQueue {
  import opened Wrappers
  import opened Jobs

  predicate Before(a: Row, b: Row) {
    a.availableAt < b.availableAt || (a.availableAt == b.availableAt && a.createdAt < b.createdAt)
  }

  class Queue {
    const config: Config
    var now: int
    var rows: seq<Row>
    ghost var claims: seq<Claim>

    ghost function View(): State
      reads this
    {
      State(now, rows, claims)
    }

    ghost predicate Valid()
      reads this
    {
      Inv(config, View())
    }

    constructor (config: Config, now: int)
      requires config.Valid()
      ensures Valid() && View() == Empty(now) && this.config == config
    {
      this.config, this.now, rows, claims := config, now, [], [];
    }

    /** INSERT ... ON CONFLICT: the result is the row that has the key, new or not. */
    method Enqueue(tenantId: string, jobType: string, key: Option<string>, maxAttempts: nat) returns (r: Option<nat>)
      requires Valid()
      modifies this
      ensures Valid() && View() == Step(config, old(View()), Event.Enqueue(tenantId, jobType, key, maxAttempts))
      ensures r == None <==> tenantId == "" || jobType == ""
      ensures r.Some? ==> r.value < |rows|
      ensures r.Some? ==> var row := rows[r.value]; row.tenantId == tenantId && row.jobType == jobType && row.key == key
    {
      StepKeepsInv(config, View(), Event.Enqueue(tenantId, jobType, key, maxAttempts));
      if tenantId == "" || jobType == "" { return None; }
      FindFinds(rows, tenantId, jobType, key);
      var existing := Find(rows, tenantId, jobType, key);
      if existing.Some? { return existing; }
      rows := rows + [Row(tenantId, jobType, key, Queued, 0, if maxAttempts < 1 then 1 else maxAttempts, now, now, 0)];
      r := Some(|rows| - 1);
    }

    /** `i` is the earliest eligible row among the first `n`, by availability and then creation. */
    ghost predicate IsNext(i: Option<nat>, n: nat, locked: set<nat>)
      requires n <= |rows|
      reads this
    {
      && (i.Some? ==> i.value < n && i.value !in locked && Eligible(View(), i.value))
      && forall j :: 0 <= j < n && j !in locked && Eligible(View(), j) ==>
           i.Some? && !Before(rows[j], rows[i.value])
    }

    /** ORDER BY available_at, created_at; rows locked by other transactions are skipped. */
    method SelectNext(locked: set<nat>) returns (r: Option<nat>)
      ensures IsNext(r, |rows|, locked)
      ensures r.Some? ==> forall j :: 0 <= j < |rows| && j !in locked && Eligible(View(), j) ==>
        rows[r.value].availableAt <= rows[j].availableAt
        && (rows[r.value].availableAt == rows[j].availableAt ==> rows[r.value].createdAt <= rows[j].createdAt)
    {
      r := None;
      for n := 0 to |rows|
        invariant IsNext(r, n, locked)
      {
        var row := rows[n];
        if n !in locked && ((row.status == Queued && row.availableAt <= now) || (row.status == Running && row.leasedUntil <= now)) {
          if r == None || Before(row, rows[r.value]) { r := Some(n); }
        }
      }
    }

    /** The handed-out job carries the attempt it was claimed with. */
    method ClaimNext(locked: set<nat>) returns (job: Option<nat>, attempt: nat, ghost claim: nat)
      requires Valid()
      modifies this
      ensures Valid()
      ensures job == None ==> View() == old(View()) && forall j :: 0 <= j < |rows| && j !in locked ==> !Eligible(View(), j)
      ensures job.Some? ==> View() == Step(config, old(View()), ClaimRow(job.value)) && Eligible(old(View()), job.value)
      ensures job.Some? ==> claim == old(|claims|) && |claims| == claim + 1
      ensures job.Some? ==> claims[claim].job == job.value && claims[claim].attempt == attempt
      ensures job.Some? ==> Holds(View(), claim) && Live(View(), claim)
    {
      attempt, claim := 0, |claims|;
      job := SelectNext(locked);
      if job.None? { return; }
      ghost var s := View();
      var row := rows[job.value];
      attempt := row.attemptCount + 1;
      rows := rows[job.value := row.(status := Running, attemptCount := attempt, leasedUntil := now + config.leaseMs)];
      claims := claims + [Claim(job.value, attempt, now + config.leaseMs, false, false, false, row.status == Running, false)];
      assert View() == Claimed(config, s, job.value);
      ClaimedKeeps(config, s, job.value);
    }

    /** UPDATE by id alone: neither the owner nor the lease is checked. The answer may get lost on its way back. */
    method Complete(job: nat, acknowledged: bool, ghost claim: nat)
      requires Valid() && CanComplete(View(), claim) && claims[claim].job == job
      modifies this
      ensures Valid()
      ensures View() == Step(config, old(View()), if acknowledged then Event.Complete(claim) else Event.CompleteUnacknowledged(claim))
    {
      StepKeepsInv(config, View(), if acknowledged then Event.Complete(claim) else Event.CompleteUnacknowledged(claim));
      rows := rows[job := rows[job].(status := Completed)];
      claims := Settle(claims, claim, if acknowledged then Acknowledged(false) else Unacknowledged);
    }

    /** Time passes while a handler runs. */
    method Pass(elapsedMs: nat)
      requires Valid()
      modifies this`now
      ensures Valid() && View() == Step(config, old(View()), Tick(old(now) + elapsedMs))
    {
      StepKeepsInv(config, View(), Tick(now + elapsedMs));
      now := now + elapsedMs;
    }

    method Fail(job: nat, attemptCount: nat, jitter: real, ghost claim: nat)
      requires Valid() && CanAnswer(View(), claim) && claims[claim].job == job && claims[claim].attempt == attemptCount
      modifies this
      ensures Valid() && View() == Step(config, old(View()), Event.Fail(claim, jitter))
    {
      ghost var s := View();
      if attemptCount >= rows[job].maxAttempts {
        rows := rows[job := rows[job].(status := Dead)];
        claims := Settle(claims, claim, Acknowledged(false));
      } else {
        var delayMs := RetryDelay(config, attemptCount, jitter);
        rows := rows[job := rows[job].(status := Queued, availableAt := now + delayMs)];
        claims := Settle(claims, claim, Acknowledged(true));
      }
      assert View() == Failed(config, s, claim, jitter);
      StepKeepsInv(config, s, Event.Fail(claim, jitter));
    }
  }

  /** `Broken`: `fail` itself threw, and so does `runOnce`. */
  datatype Once = Idle | Ended(job: nat, status: Status) | Broken(job: nat)

  /** A statement takes effect and answers, does not take effect, or takes effect without answering. */
  datatype Reach = Answers | Fails | FailsAfterwards

  /** What happens inside one `runOnce`: how long the handler takes, whether it works, and how the statements fare. */
  datatype Chance = Chance(elapsedMs: nat, succeeds: bool, complete: Reach, fail: Reach, jitter: real)

  /** The claim, and the time the handler takes. */
  function Taken(c: Config, s: State, j: nat, chance: Chance): State {
    Step(c, Step(c, s, ClaimRow(j)), Tick(s.now + chance.elapsedMs))
  }

  /** The call of `complete`, if there is one. */
  function Completion(c: Config, s: State, claim: nat, handled: bool, chance: Chance): State {
    if !handled || chance.complete == Fails then s
    else Step(c, s, if chance.complete == Answers then Event.Complete(claim) else Event.CompleteUnacknowledged(claim))
  }

  /** The one or two statements that answer the claim. */
  function Worked(c: Config, s: State, j: nat, handled: bool, chance: Chance): State {
    var claim := |s.claims|;
    var s2 := Completion(c, Taken(c, s, j, chance), claim, handled, chance);
    if (handled && chance.complete == Answers) || chance.fail == Fails then s2 else Step(c, s2, Event.Fail(claim, chance.jitter))
  }

  /** `x` and `row` are claim `k` and the row it is for; no other row differs from `before`. */
  predicate IsFor(s: State, k: nat, x: Claim, j: nat, row: Row, before: seq<Row>) {
    && |s.claims| == k + 1 && s.claims[k] == x && x.job == j < |s.rows| == |before|
    && s.rows == before[j := row]
  }

  lemma TakenLeaves(c: Config, s: State, j: nat, chance: Chance)
    requires Eligible(s, j)
    ensures var s' := Taken(c, s, j, chance);
      && |s'.claims| == |s.claims| + 1 && |s'.rows| == |s.rows|
      && var x, row := s'.claims[|s.claims|], s'.rows[j];
      && IsFor(s', |s.claims|, x, j, row, s.rows) && !x.answered && !x.lost && CanComplete(s', |s.claims|)
      && x.attempt == row.attemptCount == s.rows[j].attemptCount + 1 && row.status == Running
      && row.maxAttempts == s.rows[j].maxAttempts && row.jobType == s.rows[j].jobType
  {
  }

  lemma CompletionLeaves(c: Config, s: State, claim: nat, j: nat, before: seq<Row>, handled: bool, chance: Chance)
    requires CanComplete(s, claim) && s.claims[claim].job == j && IsFor(s, claim, s.claims[claim], j, s.rows[j], before)
    ensures var s' := Completion(c, s, claim, handled, chance);
      && IsFor(s', claim, s.claims[claim].(answered := handled && chance.complete == Answers,
                                           lost := handled && chance.complete == FailsAfterwards,
                                           requeued := if handled && chance.complete == Answers then false else s.claims[claim].requeued),
               j, s.rows[j].(status := if handled && chance.complete != Fails then Completed else s.rows[j].status), before)
  {
    var s' := Completion(c, s, claim, handled, chance);
    assert s'.claims[claim].job == j;
  }

  lemma FailureLeaves(c: Config, s: State, claim: nat, j: nat, before: seq<Row>, jitter: real)
    requires CanAnswer(s, claim) && s.claims[claim].job == j && IsFor(s, claim, s.claims[claim], j, s.rows[j], before)
    ensures var s' := Step(c, s, Event.Fail(claim, jitter)); var below := s.claims[claim].attempt < s.rows[j].maxAttempts;
      && |s'.claims| == claim + 1 && s'.claims[claim].answered && j < |s'.rows| == |before|
      && s'.claims[claim].attempt == s.claims[claim].attempt && s'.claims[claim].job == j
      && s'.rows == before[j := s'.rows[j]] && s'.rows[j].status == (if below then Queued else Dead)
      && s'.rows[j].attemptCount == s.rows[j].attemptCount && s'.rows[j].maxAttempts == s.rows[j].maxAttempts
  {
  }

  /**
   * The job ends completed, and its claim answered, exactly when it has a handler, the handler
   * succeeds and the completion is acknowledged. In every other case the worker fails it, also
   * when its own completion has already finished it: it is queued again below its limit and dead
   * at it, unless `fail` does not take effect either, which leaves the claim unanswered.
   */
  lemma WorkedLeaves(c: Config, s: State, j: nat, handled: bool, chance: Chance)
    requires Eligible(s, j)
    ensures var s' := Worked(c, s, j, handled, chance); var completed := handled && chance.complete == Answers;
      && |s'.claims| == |s.claims| + 1 && j < |s'.rows| && s'.rows == s.rows[j := s'.rows[j]] && s'.now == s.now + chance.elapsedMs
      && var claim, row := s'.claims[|s.claims|], s'.rows[j];
      && claim.job == j && claim.attempt == row.attemptCount == s.rows[j].attemptCount + 1
      && (claim.answered <==> completed || chance.fail != Fails)
      && row.status == if completed then Completed
                       else if chance.fail != Fails then (if row.attemptCount < row.maxAttempts then Queued else Dead)
                       else if handled && chance.complete == FailsAfterwards then Completed else Running
  {
    var claim, s1 := |s.claims|, Taken(c, s, j, chance);
    var s2 := Completion(c, s1, claim, handled, chance);
    TakenLeaves(c, s, j, chance);
    CompletionLeaves(c, s1, claim, j, s.rows, handled, chance);
    if !(handled && chance.complete == Answers) && chance.fail != Fails { FailureLeaves(c, s2, claim, j, s.rows, chance.jitter); }
  }

  class Worker {
    const queue: Queue
    const handles: string -> bool

    constructor (queue: Queue, handles: string -> bool)
      ensures this.queue == queue && this.handles == handles
    {
      this.queue, this.handles := queue, handles;
    }

    /** Claims the next job, if there is one, and answers it by `complete`, by `fail`, or by both. */
    method RunOnce(chance: Chance) returns (r: Once)
      requires queue.Valid()
      modifies queue
      ensures queue.Valid()
      ensures r == Idle ==> queue.View() == old(queue.View()) && forall j :: 0 <= j < |queue.rows| ==> !Eligible(queue.View(), j)
      ensures r != Idle ==> Eligible(old(queue.View()), r.job) && r.job < |queue.rows|
      ensures r != Idle ==>
        var handled := handles(old(queue.View()).rows[r.job].jobType) && chance.succeeds;
        && queue.View() == Worked(queue.config, old(queue.View()), r.job, handled, chance)
        && r == if (handled && chance.complete == Answers) || chance.fail == Answers then Ended(r.job, queue.rows[r.job].status)
                else Broken(r.job)
    {
      ghost var s := queue.View();
      var job, attempt, claim := queue.ClaimNext({});
      if job.None? { return Idle; }
      ghost var handled := handles(s.rows[job.value].jobType) && chance.succeeds;
      TakenLeaves(queue.config, s, job.value, chance);
      CompletionLeaves(queue.config, Taken(queue.config, s, job.value, chance), claim, job.value, s.rows, handled, chance);
      queue.Pass(chance.elapsedMs);
      assert queue.View() == Taken(queue.config, s, job.value, chance);
      if handles(queue.rows[job.value].jobType) && chance.succeeds && chance.complete != Fails {
        queue.Complete(job.value, chance.complete == Answers, claim);
        if chance.complete == Answers { return Ended(job.value, queue.rows[job.value].status); }
      }
      assert queue.View() == Completion(queue.config, Taken(queue.config, s, job.value, chance), claim, handled, chance);
      if chance.fail == Fails { return Broken(job.value); }
      FailureLeaves(queue.config, queue.View(), claim, job.value, s.rows, chance.jitter);
      queue.Fail(job.value, attempt, chance.jitter, claim);
      r := if chance.fail == Answers then Ended(job.value, queue.rows[job.value].status) else Broken(job.value);
    }
  }
}
