/**
 * Leased durable jobs. A run is any sequence of clock ticks, enqueues, claims by any workers and
 * answers, late ones included; each is one committed statement or transaction.
 */
module Jobs {
  import opened Wrappers

  datatype Status = Queued | Running | Completed | Dead

  datatype Row = Row(tenantId: string, jobType: string, key: Option<string>, status: Status, attemptCount: nat,
                     maxAttempts: nat, availableAt: int, createdAt: int, leasedUntil: int)

  /**
   * What one `claimNext` handed out. The last five fields record what became of it: its completion
   * took effect but was not acknowledged, so that `fail` is still to come; answered for good;
   * answered by being queued again; made by taking over an expired lease; and overtaken by the
   * answer of another claim of the same job.
   */
  datatype Claim = Claim(job: nat, attempt: nat, leasedUntil: int, lost: bool, answered: bool, requeued: bool,
                         reclaim: bool, disturbed: bool)

  datatype Config = Config(leaseMs: nat, baseRetryMs: nat, maxRetryMs: nat) {
    predicate Valid() { leaseMs >= 1_000 && baseRetryMs >= 100 && maxRetryMs >= baseRetryMs }
  }

  datatype State = State(now: int, rows: seq<Row>, claims: seq<Claim>)

  datatype Event =
    | Tick(now: int)
    | Enqueue(tenantId: string, jobType: string, key: Option<string>, maxAttempts: nat)
    | ClaimRow(job: nat)
    | Complete(claim: nat)
    | CompleteUnacknowledged(claim: nat)
    | Fail(claim: nat, jitter: real)

  // ---------------------------------------------------------------- the retry delay

  function Pow2(n: nat): nat { if n == 0 then 1 else 2 * Pow2(n - 1) }

  function MinInt(a: int, b: int): int { if a < b then a else b }

  function Clamp(j: real): real { if j < 0.0 then 0.0 else if j > 1.0 then 1.0 else j }

  /** The capped exponential back-off before jitter. */
  function BaseDelay(c: Config, attemptCount: nat): int {
    MinInt(c.maxRetryMs, c.baseRetryMs * Pow2(if attemptCount == 0 then 0 else attemptCount - 1))
  }

  /** `Math.round` is the floor of one half more. */
  function RetryDelay(c: Config, attemptCount: nat, jitter: real): int {
    MinInt(c.maxRetryMs, Jittered(BaseDelay(c, attemptCount), jitter))
  }

  function Jittered(base: int, jitter: real): int {
    (base as real + base as real * 0.2 * Clamp(jitter) + 0.5).Floor
  }

  lemma {:induction false} Pow2Grows(m: nat, n: nat)
    requires m <= n
    ensures 1 <= Pow2(m) <= Pow2(n)
  {
    if m < n { Pow2Grows(m, n - 1); } else if m > 0 { Pow2Grows(m - 1, n - 1); }
  }

  lemma Scales(a: real, b: real, f: real)
    requires a <= b && f >= 0.0
    ensures a * f <= b * f
  {
  }

  lemma JitterIsMonotone(a: int, b: int, jitter: real)
    requires 0 <= a <= b
    ensures a <= Jittered(a, jitter) <= Jittered(b, jitter)
  {
    var f := 0.2 * Clamp(jitter);
    Scales(a as real, b as real, f);
    Scales(0.0, a as real, f);
    assert a as real * 0.2 * Clamp(jitter) == a as real * f && b as real * 0.2 * Clamp(jitter) == b as real * f;
  }

  lemma BackOffGrows(c: Config, m: nat, n: nat)
    requires c.Valid() && m <= n
    ensures 0 < BaseDelay(c, m) <= BaseDelay(c, n) <= c.maxRetryMs
  {
    var em, en := if m == 0 then 0 else m - 1, if n == 0 then 0 else n - 1;
    Pow2Grows(em, en);
    TimesGrows(c.baseRetryMs, 1, Pow2(em));
    TimesGrows(c.baseRetryMs, Pow2(em), Pow2(en));
  }

  lemma TimesGrows(x: nat, a: nat, b: nat)
    requires a <= b
    ensures x * a <= x * b
  {
  }

  /** The delay lies between the capped back-off and the cap, and grows with the attempts. */
  lemma RetryDelayIsBoundedAndMonotone(c: Config, m: nat, n: nat, jitter: real)
    requires c.Valid() && m <= n
    ensures 0 < BaseDelay(c, n) <= RetryDelay(c, n, jitter) <= c.maxRetryMs
    ensures RetryDelay(c, m, jitter) <= RetryDelay(c, n, jitter)
  {
    BackOffGrows(c, m, n);
    JitterIsMonotone(BaseDelay(c, m), BaseDelay(c, n), jitter);
  }

  /** The capped back-off starts at the base and doubles with every further attempt. */
  lemma BackOffDoubles(c: Config, n: nat)
    requires c.Valid() && n >= 1
    ensures BaseDelay(c, 1) == c.baseRetryMs
    ensures BaseDelay(c, n + 1) == if 2 * BaseDelay(c, n) <= c.maxRetryMs then 2 * BaseDelay(c, n) else c.maxRetryMs
  {
    assert Pow2(0) == 1 && Pow2(n) == 2 * Pow2(n - 1);
    assert c.baseRetryMs * Pow2(n) == 2 * (c.baseRetryMs * Pow2(n - 1));
  }

  /** The jitter adds at most a fifth, and what is beyond its range counts as the end of the range. */
  lemma JitterAddsUpToAFifth(c: Config, n: nat, jitter: real)
    requires c.Valid()
    ensures var base, delay := BaseDelay(c, n), RetryDelay(c, n, jitter);
      && base <= delay && 10 * delay <= 12 * base + 5
      && (jitter <= 0.0 ==> delay == base)
      && (jitter >= 1.0 ==> delay == c.maxRetryMs || 10 * delay > 12 * base - 5)
  {
    RetryDelayIsBoundedAndMonotone(c, n, n, jitter);
    JitterIsAPortion(BaseDelay(c, n), jitter);
  }

  lemma JitterIsAPortion(base: nat, jitter: real)
    ensures var rounded := Jittered(base, jitter);
      && base <= rounded && 10 * rounded <= 12 * base + 5
      && (jitter <= 0.0 ==> rounded == base) && (jitter >= 1.0 ==> 10 * rounded > 12 * base - 5)
  {
    var added := JitterOf(base, Clamp(jitter));
    assert Jittered(base, jitter) == (base as real + added + 0.5).Floor;
    Rounds(base, added, Jittered(base, jitter));
  }

  lemma JitterOf(base: nat, f: real) returns (added: real)
    requires 0.0 <= f <= 1.0
    ensures added == base as real * 0.2 * f && 0.0 <= added && 5.0 * added <= base as real
    ensures (f == 0.0 ==> added == 0.0) && (f == 1.0 ==> 5.0 * added == base as real)
  {
    var fifth := base as real * 0.2;
    added := fifth * f;
    Scales(0.0, f, fifth);
    Scales(f, 1.0, fifth);
  }

  lemma Rounds(base: int, added: real, rounded: int)
    requires rounded == (base as real + added + 0.5).Floor && 0.0 <= added && 5.0 * added <= base as real
    ensures base <= rounded && 10 * rounded <= 12 * base + 5
    ensures added == 0.0 ==> rounded == base
    ensures 5.0 * added == base as real ==> 10 * rounded > 12 * base - 5
  {
    assert rounded as real <= base as real + added + 0.5 < rounded as real + 1.0;
  }

  // ---------------------------------------------------------------- statements

  predicate SameKey(row: Row, tenantId: string, jobType: string, key: Option<string>) {
    row.tenantId == tenantId && row.jobType == jobType && key.Some? && row.key == key
  }

  /** ON CONFLICT finds the row that already has the key; a null key conflicts with nothing. */
  function Find(rows: seq<Row>, tenantId: string, jobType: string, key: Option<string>): Option<nat> {
    if rows == [] then None
    else if SameKey(rows[|rows| - 1], tenantId, jobType, key) then Some(|rows| - 1)
    else Find(rows[..|rows| - 1], tenantId, jobType, key)
  }

  function Enqueued(s: State, tenantId: string, jobType: string, key: Option<string>, maxAttempts: nat): State {
    if tenantId == "" || jobType == "" || Find(s.rows, tenantId, jobType, key).Some? then s
    else s.(rows := s.rows + [Row(tenantId, jobType, key, Queued, 0, if maxAttempts < 1 then 1 else maxAttempts, s.now, s.now, 0)])
  }

  predicate Eligible(s: State, j: nat) {
    && j < |s.rows|
    && ((s.rows[j].status == Queued && s.rows[j].availableAt <= s.now) || (s.rows[j].status == Running && s.rows[j].leasedUntil <= s.now))
  }

  function Claimed(c: Config, s: State, j: nat): State
    requires Eligible(s, j)
  {
    var row := s.rows[j];
    var attempt := row.attemptCount + 1;
    s.(rows := s.rows[j := row.(status := Running, attemptCount := attempt, leasedUntil := s.now + c.leaseMs)],
       claims := s.claims + [Claim(j, attempt, s.now + c.leaseMs, false, false, false, row.status == Running, false)])
  }

  predicate CanAnswer(s: State, k: nat) {
    k < |s.claims| && !s.claims[k].answered && s.claims[k].job < |s.rows|
  }

  /** The worker's `complete` comes once: after one that was not acknowledged it calls `fail`. */
  predicate CanComplete(s: State, k: nat) {
    CanAnswer(s, k) && !s.claims[k].lost
  }

  datatype How = Acknowledged(requeued: bool) | Unacknowledged

  function Marked(x: Claim, how: How): Claim {
    match how
    case Acknowledged(requeued) => x.(answered := true, requeued := requeued)
    case Unacknowledged => x.(lost := true)
  }

  /** An answer marks its own claim, and every other claim of the job as overtaken. */
  function Settle(claims: seq<Claim>, k: nat, how: How): (r: seq<Claim>)
    requires k < |claims|
    ensures |r| == |claims|
    ensures forall i :: 0 <= i < |r| ==>
      r[i] == if i == k then Marked(claims[i], how)
              else if claims[i].job == claims[k].job then claims[i].(disturbed := true) else claims[i]
  {
    seq(|claims|, i requires 0 <= i < |claims| =>
      if i == k then Marked(claims[i], how)
      else if claims[i].job == claims[k].job then claims[i].(disturbed := true) else claims[i])
  }

  function Finished(s: State, k: nat, how: How): State
    requires CanComplete(s, k)
  {
    var j := s.claims[k].job;
    s.(rows := s.rows[j := s.rows[j].(status := Completed)], claims := Settle(s.claims, k, how))
  }

  /** `fail` judges by the attempt the claim was handed out with, whatever the row says by now. */
  function Failed(c: Config, s: State, k: nat, jitter: real): State
    requires CanAnswer(s, k)
  {
    var j := s.claims[k].job;
    if s.claims[k].attempt >= s.rows[j].maxAttempts then
      s.(rows := s.rows[j := s.rows[j].(status := Dead)], claims := Settle(s.claims, k, Acknowledged(false)))
    else
      s.(rows := s.rows[j := s.rows[j].(status := Queued, availableAt := s.now + RetryDelay(c, s.claims[k].attempt, jitter))],
         claims := Settle(s.claims, k, Acknowledged(true)))
  }

  function Step(c: Config, s: State, ev: Event): State {
    match ev
    case Tick(t) => if t >= s.now then s.(now := t) else s
    case Enqueue(tenantId, jobType, key, n) => Enqueued(s, tenantId, jobType, key, n)
    case ClaimRow(j) => if Eligible(s, j) then Claimed(c, s, j) else s
    case Complete(k) => if CanComplete(s, k) then Finished(s, k, Acknowledged(false)) else s
    case CompleteUnacknowledged(k) => if CanComplete(s, k) then Finished(s, k, Unacknowledged) else s
    case Fail(k, jitter) => if CanAnswer(s, k) then Failed(c, s, k, jitter) else s
  }

  function Run(c: Config, s: State, evs: seq<Event>): State
    decreases evs
  {
    if evs == [] then s else Run(c, Step(c, s, evs[0]), evs[1..])
  }

  function Empty(now: int): State {
    State(now, [], [])
  }

  // ---------------------------------------------------------------- counting claims

  function ClaimsOn(claims: seq<Claim>, j: nat): nat {
    if claims == [] then 0 else ClaimsOn(claims[..|claims| - 1], j) + if claims[|claims| - 1].job == j then 1 else 0
  }

  function Reclaims(claims: seq<Claim>, j: nat): nat {
    if claims == [] then 0
    else Reclaims(claims[..|claims| - 1], j) + if claims[|claims| - 1].job == j && claims[|claims| - 1].reclaim then 1 else 0
  }

  function Requeues(claims: seq<Claim>, j: nat): nat {
    if claims == [] then 0
    else Requeues(claims[..|claims| - 1], j) + if claims[|claims| - 1].job == j && claims[|claims| - 1].requeued then 1 else 0
  }

  function Requeued(how: How): nat {
    if how.Acknowledged? && how.requeued then 1 else 0
  }

  lemma {:induction false} SettleCounts(claims: seq<Claim>, k: nat, how: How, j: nat)
    requires k < |claims| && !claims[k].requeued
    ensures ClaimsOn(Settle(claims, k, how), j) == ClaimsOn(claims, j)
    ensures Reclaims(Settle(claims, k, how), j) == Reclaims(claims, j)
    ensures Requeues(Settle(claims, k, how), j) == Requeues(claims, j) + if claims[k].job == j then Requeued(how) else 0
  {
    SettleCountsUpTo(claims, k, how, j, |claims|);
    assert claims[..|claims|] == claims && Settle(claims, k, how)[..|claims|] == Settle(claims, k, how);
  }

  lemma {:induction false} SettleCountsUpTo(claims: seq<Claim>, k: nat, how: How, j: nat, n: nat)
    requires k < |claims| && n <= |claims| && !claims[k].requeued
    ensures var settled := Settle(claims, k, how);
      && ClaimsOn(settled[..n], j) == ClaimsOn(claims[..n], j)
      && Reclaims(settled[..n], j) == Reclaims(claims[..n], j)
      && Requeues(settled[..n], j) == Requeues(claims[..n], j) + if claims[k].job == j && k < n then Requeued(how) else 0
  {
    if n > 0 {
      var settled := Settle(claims, k, how);
      SettleCountsUpTo(claims, k, how, j, n - 1);
      assert settled[..n][..n - 1] == settled[..n - 1] && claims[..n][..n - 1] == claims[..n - 1];
    }
  }

  lemma AppendCounts(claims: seq<Claim>, x: Claim, j: nat)
    ensures ClaimsOn(claims + [x], j) == ClaimsOn(claims, j) + if x.job == j then 1 else 0
    ensures Reclaims(claims + [x], j) == Reclaims(claims, j) + if x.job == j && x.reclaim then 1 else 0
    ensures Requeues(claims + [x], j) == Requeues(claims, j) + if x.job == j && x.requeued then 1 else 0
  {
    assert (claims + [x])[..|claims|] == claims;
  }

  /** The attempts of a job's claims are numbered from one in the order they were handed out. */
  ghost predicate Numbered(claims: seq<Claim>) {
    forall k :: 0 <= k < |claims| ==> claims[k].attempt == ClaimsOn(claims[..k], claims[k].job) + 1
  }

  /** Only claims below the limit are queued again, so there are fewer of them than the limit. */
  lemma {:induction false} FewRequeues(claims: seq<Claim>, j: nat, limit: nat)
    requires Numbered(claims) && limit >= 1
    requires forall k :: 0 <= k < |claims| && claims[k].job == j && claims[k].requeued ==> claims[k].attempt < limit
    ensures Requeues(claims, j) <= limit - 1 && Requeues(claims, j) <= ClaimsOn(claims, j)
  {
    if claims != [] {
      var last := |claims| - 1;
      var before := claims[..last];
      assert forall k :: 0 <= k < last ==> before[..k] == claims[..k];
      FewRequeues(before, j, limit);
    }
  }

  // ---------------------------------------------------------------- what every event keeps

  /** The row still carries this claim's lease. */
  predicate Holds(s: State, k: nat) {
    && k < |s.claims| && s.claims[k].job < |s.rows|
    && var row := s.rows[s.claims[k].job];
       row.status == Running && row.attemptCount == s.claims[k].attempt && row.leasedUntil == s.claims[k].leasedUntil
  }

  predicate Live(s: State, k: nat) {
    k < |s.claims| && !s.claims[k].answered && s.now < s.claims[k].leasedUntil
  }

  /** The row is as this claim left it: running under its lease, or completed by it. */
  predicate Owns(s: State, k: nat) {
    && k < |s.claims| && s.claims[k].job < |s.rows|
    && var row := s.rows[s.claims[k].job];
       && row.status == (if s.claims[k].lost then Completed else Running)
       && row.attemptCount == s.claims[k].attempt && row.leasedUntil == s.claims[k].leasedUntil
  }

  ghost predicate GoodRow(s: State, j: nat)
    requires j < |s.rows|
  {
    var row := s.rows[j];
    && row.maxAttempts >= 1 && row.attemptCount == ClaimsOn(s.claims, j)
    && row.attemptCount + (if row.status == Queued then 1 else 0) <= 1 + Requeues(s.claims, j) + Reclaims(s.claims, j)
    && (row.status == Queued && row.attemptCount == 0 ==> Requeues(s.claims, j) == Reclaims(s.claims, j) == 0)
  }

  /** A running job is held by a claim. */
  ghost predicate Held(s: State, j: nat)
    requires j < |s.rows|
  {
    s.rows[j].status == Running ==> exists k: nat :: Holds(s, k) && s.claims[k].job == j
  }

  ghost predicate GoodClaim(s: State, k: nat)
    requires k < |s.claims|
  {
    var x := s.claims[k];
    && x.job < |s.rows| && (x.requeued ==> x.answered && x.attempt < s.rows[x.job].maxAttempts)
    && x.attempt <= s.rows[x.job].attemptCount
    && (Live(s, k) && !x.disturbed ==> Owns(s, k))
    && (x.disturbed || x.answered || x.lost ==> !Holds(s, k))
  }

  ghost predicate UniqueKeys(rows: seq<Row>) {
    forall i, j :: 0 <= i < j < |rows| ==> !SameKey(rows[i], rows[j].tenantId, rows[j].jobType, rows[j].key)
  }

  ghost predicate Inv(c: Config, s: State) {
    && c.Valid() && Numbered(s.claims) && UniqueKeys(s.rows)
    && (forall j :: 0 <= j < |s.rows| ==> GoodRow(s, j))
    && (forall j :: 0 <= j < |s.rows| ==> Held(s, j))
    && (forall k :: 0 <= k < |s.claims| ==> GoodClaim(s, k))
  }

  lemma {:induction false} FindFinds(rows: seq<Row>, tenantId: string, jobType: string, key: Option<string>)
    ensures match Find(rows, tenantId, jobType, key)
            case Some(i) => i < |rows| && SameKey(rows[i], tenantId, jobType, key)
            case None => forall i :: 0 <= i < |rows| ==> !SameKey(rows[i], tenantId, jobType, key)
  {
    if rows != [] && !SameKey(rows[|rows| - 1], tenantId, jobType, key) {
      FindFinds(rows[..|rows| - 1], tenantId, jobType, key);
    }
  }

  lemma {:induction false} NoClaimsOn(claims: seq<Claim>, j: nat)
    requires forall k :: 0 <= k < |claims| ==> claims[k].job != j
    ensures ClaimsOn(claims, j) == Requeues(claims, j) == Reclaims(claims, j) == 0
  {
    if claims != [] { NoClaimsOn(claims[..|claims| - 1], j); }
  }

  lemma HeldStays(s: State, s': State, j: nat)
    requires j < |s.rows| && Held(s, j) && |s.rows| <= |s'.rows| && |s.claims| <= |s'.claims| && s'.rows[j] == s.rows[j]
    requires forall k :: 0 <= k < |s.claims| && s.claims[k].job == j ==>
      s'.claims[k].job == j && s'.claims[k].attempt == s.claims[k].attempt && s'.claims[k].leasedUntil == s.claims[k].leasedUntil
    ensures Held(s', j)
  {
    if s.rows[j].status == Running {
      var k: nat :| Holds(s, k) && s.claims[k].job == j;
      assert Holds(s', k) && s'.claims[k].job == j;
    }
  }

  lemma EnqueuedKeeps(c: Config, s: State, tenantId: string, jobType: string, key: Option<string>, n: nat)
    requires Inv(c, s)
    ensures Inv(c, Enqueued(s, tenantId, jobType, key, n))
  {
    var s' := Enqueued(s, tenantId, jobType, key, n);
    if s' != s {
      FindFinds(s.rows, tenantId, jobType, key);
      forall k | 0 <= k < |s.claims| ensures GoodClaim(s', k) && s.claims[k].job != |s.rows| { assert GoodClaim(s, k); }
      NoClaimsOn(s.claims, |s.rows|);
      forall j | 0 <= j < |s'.rows| ensures GoodRow(s', j) { if j < |s.rows| { assert GoodRow(s, j); } }
      forall j | 0 <= j < |s'.rows| ensures Held(s', j) { if j < |s.rows| { HeldStays(s, s', j); } }
      forall i, j | 0 <= i < j < |s'.rows| ensures !SameKey(s'.rows[i], s'.rows[j].tenantId, s'.rows[j].jobType, s'.rows[j].key) {
        if j < |s.rows| { assert s'.rows[j] == s.rows[j]; }
      }
    }
  }

  lemma KeysStay(rows: seq<Row>, j: nat, row: Row)
    requires UniqueKeys(rows) && j < |rows|
    requires row.tenantId == rows[j].tenantId && row.jobType == rows[j].jobType && row.key == rows[j].key
    ensures UniqueKeys(rows[j := row])
  {
    var rows' := rows[j := row];
    forall a, b | 0 <= a < b < |rows'| ensures !SameKey(rows'[a], rows'[b].tenantId, rows'[b].jobType, rows'[b].key) {
      assert !SameKey(rows[a], rows[b].tenantId, rows[b].jobType, rows[b].key);
    }
  }

  lemma ClaimedClaims(c: Config, s: State, j: nat)
    requires Inv(c, s) && Eligible(s, j)
    ensures Numbered(Claimed(c, s, j).claims)
    ensures forall k :: 0 <= k < |s.claims| + 1 ==> GoodClaim(Claimed(c, s, j), k)
  {
    var s' := Claimed(c, s, j);
    assert GoodRow(s, j);
    forall k | 0 <= k < |s'.claims| ensures s'.claims[k].attempt == ClaimsOn(s'.claims[..k], s'.claims[k].job) + 1 {
      assert s'.claims[..k] == s.claims[..k];
      assert s.claims[..|s.claims|] == s.claims;
    }
    forall k | 0 <= k < |s.claims| ensures GoodClaim(s', k) { assert GoodClaim(s, k); }
  }

  lemma ClaimedKeeps(c: Config, s: State, j: nat)
    requires Inv(c, s) && Eligible(s, j)
    ensures Inv(c, Claimed(c, s, j))
  {
    var s' := Claimed(c, s, j);
    ClaimedClaims(c, s, j);
    KeysStay(s.rows, j, s'.rows[j]);
    forall i | 0 <= i < |s'.rows| ensures GoodRow(s', i) && Held(s', i) { ClaimedRows(c, s, j, i); }
  }

  lemma ClaimedRows(c: Config, s: State, j: nat, i: nat)
    requires Inv(c, s) && Eligible(s, j) && i < |s.rows|
    ensures GoodRow(Claimed(c, s, j), i) && Held(Claimed(c, s, j), i)
  {
    var s' := Claimed(c, s, j);
    assert GoodRow(s, i);
    AppendCounts(s.claims, s'.claims[|s.claims|], i);
    if i == j { assert Holds(s', |s.claims|) && s'.claims[|s.claims|].job == j; } else { HeldStays(s, s', i); }
  }

  /** What claim `k` may leave behind: any status but running, the one its answer stands for. */
  predicate Leaves(s: State, k: nat, row: Row, how: How)
    requires CanAnswer(s, k)
  {
    var before := s.rows[s.claims[k].job];
    && row == before.(status := row.status, availableAt := row.availableAt) && row.status != Running
    && (row.status == Queued <==> Requeued(how) == 1) && (Requeued(how) == 1 ==> s.claims[k].attempt < row.maxAttempts)
    && (how == Unacknowledged ==> row.status == Completed && !s.claims[k].lost)
  }

  function Answered(s: State, k: nat, row: Row, how: How): State
    requires CanAnswer(s, k)
  {
    s.(rows := s.rows[s.claims[k].job := row], claims := Settle(s.claims, k, how))
  }

  lemma AnsweredNumbers(c: Config, s: State, k: nat, how: How)
    requires Inv(c, s) && CanAnswer(s, k)
    ensures Numbered(Settle(s.claims, k, how)) && !s.claims[k].requeued
  {
    assert GoodClaim(s, k);
    var claims := Settle(s.claims, k, how);
    forall i | 0 <= i < |claims| ensures claims[i].attempt == ClaimsOn(claims[..i], claims[i].job) + 1 {
      SettleCountsUpTo(s.claims, k, how, s.claims[i].job, i);
    }
  }

  lemma AnsweredClaims(c: Config, s: State, k: nat, row: Row, how: How, i: nat)
    requires Inv(c, s) && CanAnswer(s, k) && Leaves(s, k, row, how) && i < |s.claims|
    ensures GoodClaim(Answered(s, k, row, how), i)
  {
    assert GoodClaim(s, k) && GoodClaim(s, i);
  }

  lemma AnsweredKeeps(c: Config, s: State, k: nat, row: Row, how: How)
    requires Inv(c, s) && CanAnswer(s, k) && Leaves(s, k, row, how)
    ensures Inv(c, Answered(s, k, row, how))
  {
    var s' := Answered(s, k, row, how);
    AnsweredNumbers(c, s, k, how);
    KeysStay(s.rows, s.claims[k].job, row);
    forall i | 0 <= i < |s'.claims| ensures GoodClaim(s', i) { AnsweredClaims(c, s, k, row, how, i); }
    forall i | 0 <= i < |s'.rows| ensures GoodRow(s', i) && Held(s', i) { AnsweredRows(c, s, k, row, how, i); }
  }

  lemma AnsweredRows(c: Config, s: State, k: nat, row: Row, how: How, i: nat)
    requires Inv(c, s) && CanAnswer(s, k) && Leaves(s, k, row, how) && i < |s.rows|
    ensures GoodRow(Answered(s, k, row, how), i) && Held(Answered(s, k, row, how), i)
  {
    assert GoodClaim(s, k) && GoodRow(s, i);
    SettleCounts(s.claims, k, how, i);
    if i != s.claims[k].job { HeldStays(s, Answered(s, k, row, how), i); }
  }

  lemma TickKeeps(c: Config, s: State, t: int)
    requires Inv(c, s)
    ensures Inv(c, Step(c, s, Tick(t)))
  {
    var s' := Step(c, s, Tick(t));
    forall k | 0 <= k < |s'.claims| ensures GoodClaim(s', k) { assert GoodClaim(s, k); }
    forall j | 0 <= j < |s'.rows| ensures GoodRow(s', j) && Held(s', j) {
      assert GoodRow(s, j);
      HeldStays(s, s', j);
    }
  }

  lemma CompletedKeeps(c: Config, s: State, k: nat, how: How)
    requires Inv(c, s) && CanComplete(s, k) && Requeued(how) == 0
    ensures Inv(c, Finished(s, k, how))
  {
    AnsweredKeeps(c, s, k, s.rows[s.claims[k].job].(status := Completed), how);
  }

  lemma FailedKeeps(c: Config, s: State, k: nat, jitter: real)
    requires Inv(c, s) && CanAnswer(s, k)
    ensures Inv(c, Failed(c, s, k, jitter))
  {
    var below := s.claims[k].attempt < s.rows[s.claims[k].job].maxAttempts;
    AnsweredKeeps(c, s, k, Failed(c, s, k, jitter).rows[s.claims[k].job], Acknowledged(below));
  }

  lemma StepKeepsInv(c: Config, s: State, ev: Event)
    requires Inv(c, s)
    ensures Inv(c, Step(c, s, ev))
  {
    match ev
    case Tick(t) => TickKeeps(c, s, t);
    case Enqueue(tenantId, jobType, key, n) => EnqueuedKeeps(c, s, tenantId, jobType, key, n);
    case ClaimRow(j) => if Eligible(s, j) { ClaimedKeeps(c, s, j); }
    case Complete(k) => if CanComplete(s, k) { CompletedKeeps(c, s, k, Acknowledged(false)); }
    case CompleteUnacknowledged(k) => if CanComplete(s, k) { CompletedKeeps(c, s, k, Unacknowledged); }
    case Fail(k, jitter) => if CanAnswer(s, k) { FailedKeeps(c, s, k, jitter); }
  }

  lemma {:induction false} RunKeepsInv(c: Config, s: State, evs: seq<Event>)
    requires Inv(c, s)
    ensures Inv(c, Run(c, s, evs))
    decreases evs
  {
    if evs != [] {
      StepKeepsInv(c, s, evs[0]);
      RunKeepsInv(c, Step(c, s, evs[0]), evs[1..]);
    }
  }
}
