/** What holds after every run of the send queue. */
module SendQueueRuns {
  import opened Sequences
  import opened Text
  import opened Wrappers
  import opened SendQueue

  // ---------------------------------------------------------------- the call list

  /** A later call list: settled calls stay settled the same way, nothing is dropped. */
  ghost predicate Later(ops: seq<Op>, ops': seq<Op>) {
    && |ops| <= |ops'|
    && forall i :: 0 <= i < |ops| ==>
         && ops'[i].operation == ops[i].operation
         && (ops[i].phase.Settled? ==> ops'[i].phase == ops[i].phase)
  }

  lemma ReturnedStays(ops: seq<Op>, ops': seq<Op>, operation: string, id: string)
    requires Later(ops, ops') && ReturnedId(ops, operation, id)
    ensures ReturnedId(ops', operation, id)
  {
    var i :| 0 <= i < |ops| && Gave(ops[i], operation, id);
    assert Gave(ops'[i], operation, id);
  }

  lemma {:induction false} UnclosedUpdate(ops: seq<Op>, i: nat, op: Op)
    requires i < |ops|
    ensures Unclosed(ops[i := op]) + (if ops[i].closed then 0 else 1) == Unclosed(ops) + (if op.closed then 0 else 1)
  {
    var last := |ops| - 1;
    if i < last {
      assert ops[i := op][..last] == ops[..last][i := op];
      UnclosedUpdate(ops[..last], i, op);
    } else {
      assert ops[i := op][..last] == ops[..last];
    }
  }

  lemma UnclosedAppend(ops: seq<Op>, op: Op)
    ensures Unclosed(ops + [op]) == Unclosed(ops) + if op.closed then 0 else 1
  {
    assert (ops + [op])[..|ops|] == ops;
  }

  // ---------------------------------------------------------------- the cache

  ghost predicate DistinctIds(r: seq<Cached>) {
    forall j, k :: 0 <= j < k < |r| ==> r[j].id != r[k].id
  }

  /** Every entry of `r` is an entry of `old`. */
  ghost predicate From(r: seq<Cached>, old_: seq<Cached>) {
    forall k :: 0 <= k < |r| ==> r[k] in old_
  }

  lemma {:induction false} PutEntries(r: seq<Cached>, e: Cached)
    requires DistinctIds(r)
    ensures DistinctIds(Put(r, e)) && From(Put(r, e), r + [e])
    ensures forall x :: x in Put(r, e) ==> x == e || (x in r && x.id != e.id)
  {
    if r != [] && r[0].id != e.id {
      assert DistinctIds(r[1..]);
      PutEntries(r[1..], e);
      assert forall x :: x in Put(r[1..], e) ==> x in r[1..] + [e];
    }
  }

  lemma {:induction false} UnexpiredIn(r: seq<Cached>, now: int, x: Cached)
    ensures x in Unexpired(r, now) <==> x in r && x.expiresAt > now
  {
    if r != [] {
      UnexpiredIn(r[1..], now, x);
      assert r == [r[0]] + r[1..];
    }
  }

  lemma {:induction false} UnexpiredDistinct(r: seq<Cached>, now: int)
    requires DistinctIds(r)
    ensures DistinctIds(Unexpired(r, now))
  {
    if r != [] {
      var u := Unexpired(r[1..], now);
      UnexpiredDistinct(r[1..], now);
      forall k | 0 <= k < |u| ensures u[k].id != r[0].id { UnexpiredIn(r[1..], now, u[k]); }
    }
  }

  lemma UnexpiredEntries(r: seq<Cached>, now: int)
    requires DistinctIds(r)
    ensures DistinctIds(Unexpired(r, now)) && From(Unexpired(r, now), r)
    ensures forall x :: x in Unexpired(r, now) <==> x in r && x.expiresAt > now
  {
    UnexpiredDistinct(r, now);
    forall x: Cached ensures x in Unexpired(r, now) <==> x in r && x.expiresAt > now { UnexpiredIn(r, now, x); }
  }

  lemma PruneEntries(c: Config, r: seq<Cached>, now: int)
    requires DistinctIds(r)
    ensures DistinctIds(Prune(c, r, now)) && From(Prune(c, r, now), r) && |Prune(c, r, now)| <= c.maxRecent
    ensures forall x :: x in Prune(c, r, now) ==> x.expiresAt > now
  {
    UnexpiredEntries(r, now);
    var u := Unexpired(r, now);
    forall x | x in Prune(c, r, now) ensures x in u { }
  }

  lemma {:induction false} LookupFinds(r: seq<Cached>, id: string)
    ensures match Lookup(r, id)
            case Some(operation) => exists k :: 0 <= k < |r| && r[k].id == id && r[k].operation == operation
            case None => forall k :: 0 <= k < |r| ==> r[k].id != id
  {
    if r != [] && r[0].id != id {
      LookupFinds(r[1..], id);
      if Lookup(r, id).Some? {
        var k :| 0 <= k < |r[1..]| && r[1..][k].id == id && r[1..][k].operation == Lookup(r, id).value;
        assert r[k + 1] == r[1..][k];
      } else {
        forall k | 0 <= k < |r| ensures r[k].id != id { if k > 0 { assert r[k] == r[1..][k - 1]; } }
      }
    }
  }

  // ---------------------------------------------------------------- every event keeps the invariant

  lemma LabelsAndCacheStay(c: Config, s: State, s': State)
    requires Inv(c, s) && Later(s.ops, s'.ops) && s'.now >= s.now && s'.echoes == s.echoes && s'.recent == s.recent
    requires forall e :: 0 <= e < |s.echoes| ==> GoodEcho(s', s.echoes[e])
    ensures Labels(s') && Cache(c, s')
  {
    forall e | 0 <= e < |s.echoes| && s.echoes[e].origin.WorkerApi?
      ensures ReturnedId(s'.ops, s.echoes[e].origin.operation, s.echoes[e].id)
    {
      ReturnedStays(s.ops, s'.ops, s.echoes[e].origin.operation, s.echoes[e].id);
    }
    forall k | 0 <= k < |s.recent| ensures ReturnedId(s'.ops, s.recent[k].operation, s.recent[k].id) {
      ReturnedStays(s.ops, s'.ops, s.recent[k].operation, s.recent[k].id);
    }
  }

  lemma StartedTimes(c: Config, s: State, i: nat)
    requires Serial(s.ops) && Times(c, s) && Spaced(c, s.ops) && (CanBegin(s, i) || CanWake(s, i))
    requires s.lastSentAt > 0 ==> s.lastSentAt + c.minSendIntervalMs <= s.now
    ensures Serial(Started(s, i).ops) && Times(c, Started(s, i)) && Spaced(c, Started(s, i).ops)
  {
    var ops := Started(s, i).ops;
    forall j, k | 0 <= j < k < |ops| && ops[j].phase.Settled? && ops[j].phase.receipt.Sent? && ops[k].startedAt.Some?
      ensures ops[j].phase.receipt.endedAt + c.minSendIntervalMs <= ops[k].startedAt.value
    {
      assert ops[j] == s.ops[j];
    }
  }

  lemma StartedActive(s: State, i: nat)
    requires Serial(s.ops) && ActiveSlot(s) && (CanBegin(s, i) || CanWake(s, i))
    ensures ActiveSlot(Started(s, i)) && s.active.None?
    ensures forall k :: 0 <= k < |s.ops| ==> !s.ops[k].phase.Sending?
  {
    var s' := Started(s, i);
    forall k | 0 <= k < |s.ops| ensures !s.ops[k].phase.Sending? {
      if k > i { assert !s.ops[i].phase.Settled?; }
    }
    assert s.ops[i].operation.Some? ==> IsActive(s', i);
  }

  lemma StartedKeeps(c: Config, s: State, i: nat)
    requires Inv(c, s) && (CanBegin(s, i) || CanWake(s, i))
    requires s.lastSentAt > 0 ==> s.lastSentAt + c.minSendIntervalMs <= s.now
    ensures Inv(c, Started(s, i))
  {
    var s' := Started(s, i);
    StartedTimes(c, s, i);
    StartedActive(s, i);
    UnclosedUpdate(s.ops, i, s'.ops[i]);
    forall e | 0 <= e < |s.echoes| ensures GoodEcho(s', s.echoes[e]) { assert GoodEcho(s, s.echoes[e]); }
    LabelsAndCacheStay(c, s, s');
  }

  /** Changes that leave every send in flight and the active slot alone. */
  lemma QuietKeeps(c: Config, s: State, s': State)
    requires Inv(c, s) && Later(s.ops, s'.ops) && s'.now >= s.now && s'.echoes == s.echoes && s'.recent == s.recent
    requires forall k :: 0 <= k < |s.ops| ==> IsActive(s, k) == IsActive(s', k)
    requires forall k :: 0 <= k < |s.ops| ==>
      s'.ops[k].peer == s.ops[k].peer && s'.ops[k].text == s.ops[k].text && s'.ops[k].operation == s.ops[k].operation
    requires Serial(s'.ops) && Queue(c, s') && ActiveSlot(s') && Times(c, s') && Spaced(c, s'.ops)
    ensures Inv(c, s')
  {
    forall e | 0 <= e < |s.echoes| ensures GoodEcho(s', s.echoes[e]) { assert GoodEcho(s, s.echoes[e]); }
    LabelsAndCacheStay(c, s, s');
  }

  /** A call that joins the end of the queue. */
  ghost predicate Joins(op: Op) {
    op.phase.Waiting? && op.startedAt.None? && !op.closed
  }

  function Joined(s: State, op: Op): State {
    s.(pendingSends := s.pendingSends + 1, ops := s.ops + [op])
  }

  lemma JoinedTimes(c: Config, s: State, op: Op)
    requires Serial(s.ops) && Times(c, s) && Spaced(c, s.ops) && ActiveSlot(s) && Joins(op)
    ensures var s' := Joined(s, op); Serial(s'.ops) && Times(c, s') && Spaced(c, s'.ops) && ActiveSlot(s')
    ensures forall k :: 0 <= k < |s.ops| ==> IsActive(s, k) == IsActive(Joined(s, op), k)
  {
    var s' := Joined(s, op);
    assert forall k :: 0 <= k < |s.ops| ==> s'.ops[k] == s.ops[k];
  }

  lemma JoinedQueue(c: Config, s: State, op: Op)
    requires Queue(c, s) && Joins(op) && s.pendingSends < c.maxSendQueue
    ensures Queue(c, Joined(s, op)) && Later(s.ops, Joined(s, op).ops)
  {
    UnclosedAppend(s.ops, op);
  }

  lemma JoinedKeeps(c: Config, s: State, op: Op)
    requires Inv(c, s) && Joins(op) && s.pendingSends < c.maxSendQueue
    ensures Inv(c, Joined(s, op))
  {
    JoinedTimes(c, s, op);
    JoinedQueue(c, s, op);
    QuietKeeps(c, s, Joined(s, op));
  }

  lemma SubmittedKeeps(c: Config, s: State, to: string, text: string, operationId: Option<string>)
    requires Inv(c, s) && Submitted(c, s, to, text, operationId).Success?
    ensures Inv(c, Submitted(c, s, to, text, operationId).value)
  {
    JoinedKeeps(c, s, Op(NormalizeOperation(operationId).value, Target(to), Trim(text), Waiting, None, false));
  }

  ghost predicate Defers(c: Config, s: State, phase: Phase) {
    phase == Settled(NotReady) || (s.lastSentAt > 0 && phase == Sleeping(s.lastSentAt + c.minSendIntervalMs))
  }

  lemma DeferredTimes(c: Config, s: State, i: nat, phase: Phase)
    requires Serial(s.ops) && Times(c, s) && Spaced(c, s.ops) && CanBegin(s, i) && Defers(c, s, phase)
    ensures var s' := s.(ops := s.ops[i := s.ops[i].(phase := phase)]);
            Serial(s'.ops) && Times(c, s') && Spaced(c, s'.ops)
  {
    var ops := s.ops[i := s.ops[i].(phase := phase)];
    forall j, k | 0 <= j < k < |ops| && ops[j].phase.Settled? && ops[j].phase.receipt.Sent? && ops[k].startedAt.Some?
      ensures ops[j].phase.receipt.endedAt + c.minSendIntervalMs <= ops[k].startedAt.value
    {
      assert ops[j] == s.ops[j];
    }
  }

  /** A call that fails at once, or that waits out the interval. */
  lemma DeferredKeeps(c: Config, s: State, i: nat, phase: Phase)
    requires Inv(c, s) && CanBegin(s, i) && Defers(c, s, phase)
    ensures Inv(c, s.(ops := s.ops[i := s.ops[i].(phase := phase)]))
  {
    var s' := s.(ops := s.ops[i := s.ops[i].(phase := phase)]);
    DeferredTimes(c, s, i, phase);
    UnclosedUpdate(s.ops, i, s'.ops[i]);
    assert Queue(c, s');
    assert forall k :: 0 <= k < |s.ops| ==> IsActive(s, k) == IsActive(s', k);
    QuietKeeps(c, s, s');
  }

  lemma BegunKeeps(c: Config, s: State, i: nat)
    requires Inv(c, s) && CanBegin(s, i)
    ensures Inv(c, Begun(c, s, i))
  {
    if !s.ready {
      DeferredKeeps(c, s, i, Settled(NotReady));
    } else if WaitMs(c, s) <= 0 {
      StartedKeeps(c, s, i);
    } else {
      DeferredKeeps(c, s, i, Sleeping(s.lastSentAt + c.minSendIntervalMs));
    }
  }

  /** Send `i` has settled: `sendMessage` returned, or threw. */
  function Ended(s: State, i: nat, receipt: Receipt, recent: seq<Cached>): State
    requires i < |s.ops|
  {
    s.(ops := s.ops[i := s.ops[i].(phase := Settled(receipt))],
       lastSentAt := if receipt.Sent? then s.now else s.lastSentAt, recent := recent,
       echoes := ResolveAll(s.echoes, i, s.ops[i].operation, if receipt.Sent? then receipt.id else None),
       active := ActiveAfter(s, s.ops[i]))
  }

  lemma EndedTimes(c: Config, s: State, i: nat, receipt: Receipt, recent: seq<Cached>)
    requires Inv(c, s) && CanReturn(s, i) && receipt != NotReady && (receipt.Sent? ==> receipt.endedAt == s.now)
    ensures var s' := Ended(s, i, receipt, recent);
      && Serial(s'.ops) && Queue(c, s') && ActiveSlot(s') && Times(c, s') && Spaced(c, s'.ops) && s'.active.None?
  {
    var s' := Ended(s, i, receipt, recent);
    UnclosedUpdate(s.ops, i, s'.ops[i]);
    assert forall k :: 0 <= k < |s.ops| && k != i ==> !s.ops[k].phase.Sending?;
    assert s'.active.None?;
  }

  lemma EndedLabels(c: Config, s: State, i: nat, receipt: Receipt, recent: seq<Cached>)
    requires Serial(s.ops) && ActiveSlot(s) && Labels(s) && CanReturn(s, i) && receipt != NotReady
    ensures Labels(Ended(s, i, receipt, recent))
  {
    var s' := Ended(s, i, receipt, recent);
    forall e | 0 <= e < |s'.echoes| && s'.echoes[e].origin.WorkerApi?
      ensures ReturnedId(s'.ops, s'.echoes[e].origin.operation, s'.echoes[e].id)
    {
      if s.echoes[e].origin.WorkerApi? {
        ReturnedStays(s.ops, s'.ops, s.echoes[e].origin.operation, s.echoes[e].id);
      } else {
        assert GoodEcho(s, s.echoes[e]);
        assert Gave(s'.ops[i], s'.echoes[e].origin.operation, s'.echoes[e].id);
      }
    }
    forall e | 0 <= e < |s'.echoes| ensures GoodEcho(s', s'.echoes[e]) { assert GoodEcho(s, s.echoes[e]); }
  }

  lemma SettledKeeps(c: Config, s: State, i: nat, receipt: Receipt, recent: seq<Cached>)
    requires Inv(c, s) && CanReturn(s, i) && receipt != NotReady && (receipt.Sent? ==> receipt.endedAt == s.now)
    requires Cache(c, Ended(s, i, receipt, recent))
    ensures Inv(c, Ended(s, i, receipt, recent))
  {
    EndedTimes(c, s, i, receipt, recent);
    EndedLabels(c, s, i, receipt, recent);
  }

  lemma ReturnedKeeps(c: Config, s: State, i: nat, id: Option<string>)
    requires Inv(c, s) && CanReturn(s, i)
    ensures Inv(c, Returned(c, s, i, id))
  {
    var s' := Returned(c, s, i, id);
    forall x | x in s.recent
      ensures ReturnedId(s'.ops, x.operation, x.id) && x.expiresAt <= s.now + c.ttlMs
    {
      ReturnedStays(s.ops, s'.ops, x.operation, x.id);
    }
    if Caches(s.ops[i], id) {
      var entry := Cached(id.value, s.ops[i].operation.value, s.now + c.ttlMs);
      assert Gave(s'.ops[i], entry.operation, entry.id);
      PutEntries(s.recent, entry);
      PruneEntries(c, Put(s.recent, entry), s.now);
      forall k | 0 <= k < |s'.recent|
        ensures s'.recent[k].expiresAt <= s.now + c.ttlMs && ReturnedId(s'.ops, s'.recent[k].operation, s'.recent[k].id)
      {
        assert s'.recent[k] in Put(s.recent, entry);
      }
    }
    assert s' == Ended(s, i, Sent(id, s.now), s'.recent);
    SettledKeeps(c, s, i, Sent(id, s.now), s'.recent);
  }

  lemma ThrownKeeps(c: Config, s: State, i: nat)
    requires Inv(c, s) && CanReturn(s, i)
    ensures Inv(c, Thrown(s, i))
  {
    var s' := Thrown(s, i);
    forall k | 0 <= k < |s.recent| ensures ReturnedId(s'.ops, s.recent[k].operation, s.recent[k].id) {
      ReturnedStays(s.ops, s'.ops, s.recent[k].operation, s.recent[k].id);
    }
    assert s' == Ended(s, i, SendFailed, s.recent);
    SettledKeeps(c, s, i, SendFailed, s.recent);
  }

  lemma ClosedTimes(c: Config, s: State, i: nat)
    requires Serial(s.ops) && Times(c, s) && Spaced(c, s.ops) && ActiveSlot(s) && CanClose(s, i)
    ensures var s' := Closed(s, i); Serial(s'.ops) && Times(c, s') && Spaced(c, s'.ops) && ActiveSlot(s')
    ensures forall k :: 0 <= k < |s.ops| ==> IsActive(s, k) == IsActive(Closed(s, i), k)
  {
    var s' := Closed(s, i);
    assert forall k :: 0 <= k < |s.ops| ==> s'.ops[k] == s.ops[k].(closed := s'.ops[k].closed);
  }

  lemma ClosedKeeps(c: Config, s: State, i: nat)
    requires Inv(c, s) && CanClose(s, i)
    ensures Inv(c, Closed(s, i))
  {
    var s' := Closed(s, i);
    UnclosedUpdate(s.ops, i, s'.ops[i]);
    ClosedTimes(c, s, i);
    assert Queue(c, s');
    QuietKeeps(c, s, s');
  }

  lemma ObservedKeeps(c: Config, s: State, id: string, peer: string, text: string)
    requires Inv(c, s)
    ensures Inv(c, Observed(c, s, id, peer, text))
  {
    var s' := Observed(c, s, id, peer, text);
    PruneEntries(c, s.recent, s.now);
    LookupFinds(s'.recent, id);
    forall k | 0 <= k < |s'.recent|
      ensures s'.recent[k].expiresAt <= s.now + c.ttlMs && ReturnedId(s'.ops, s'.recent[k].operation, s'.recent[k].id)
    {
      assert s'.recent[k] in s.recent;
    }
    forall e | 0 <= e < |s'.echoes| ensures GoodEcho(s', s'.echoes[e]) {
      if e < |s.echoes| { assert GoodEcho(s, s.echoes[e]); }
    }
  }

  lemma ExpiredKeeps(c: Config, s: State, e: nat)
    requires Inv(c, s) && CanExpire(s, e)
    ensures Inv(c, Expired(s, e))
  {
    var s' := Expired(s, e);
    assert forall k :: 0 <= k < |s.ops| ==> IsActive(s, k) == IsActive(s', k);
    forall e | 0 <= e < |s'.echoes| ensures GoodEcho(s', s'.echoes[e]) { assert GoodEcho(s, s.echoes[e]); }
  }

  lemma AmbientKeeps(c: Config, s: State, s': State)
    requires Inv(c, s) && s'.now >= s.now && s' == s.(now := s'.now, ready := s'.ready)
    ensures Inv(c, s')
  {
    assert forall k :: 0 <= k < |s.ops| ==> IsActive(s, k) == IsActive(s', k);
    QuietKeeps(c, s, s');
  }

  lemma SendStepKeeps(c: Config, s: State, ev: Event)
    requires Inv(c, s) && (ev.Begin? || ev.Wake? || ev.Return? || ev.Throw? || ev.Close?)
    ensures Inv(c, Step(c, s, ev))
  {
    match ev
    case Begin(i) => if CanBegin(s, i) { BegunKeeps(c, s, i); }
    case Wake(i) => if CanWake(s, i) { StartedKeeps(c, s, i); }
    case Return(i, id) => if CanReturn(s, i) { ReturnedKeeps(c, s, i, id); }
    case Throw(i) => if CanReturn(s, i) { ThrownKeeps(c, s, i); }
    case Close(i) => if CanClose(s, i) { ClosedKeeps(c, s, i); }
  }

  lemma StepKeepsInv(c: Config, s: State, ev: Event)
    requires Inv(c, s)
    ensures Inv(c, Step(c, s, ev))
  {
    match ev
    case Submit(to, text, o) => if Submitted(c, s, to, text, o).Success? { SubmittedKeeps(c, s, to, text, o); }
    case Observe(id, peer, text) => ObservedKeeps(c, s, id, peer, text);
    case Tick(t) => if t >= s.now { AmbientKeeps(c, s, s.(now := t)); }
    case SetReady(ready) => AmbientKeeps(c, s, s.(ready := ready));
    case Expire(e) => if CanExpire(s, e) { ExpiredKeeps(c, s, e); }
    case _ => SendStepKeeps(c, s, ev);
  }

  lemma {:induction false} RunKeepsInv(c: Config, s: State, evs: seq<Event>)
    requires Inv(c, s)
    ensures Inv(c, Run(c, s, evs))
    decreases evs
  {
    if evs != [] {
      StepKeepsInv(c, s, evs[0]);
      RunKeepsInv(c, Step(c, s, evs[0]), evs[1..]);
    }
  }

  lemma InitialInv(c: Config, now: int)
    requires c.Valid() && now > 0
    ensures Inv(c, Initial(now))
  {
  }

  lemma {:induction false} RunAppend(c: Config, s: State, a: seq<Event>, b: seq<Event>)
    ensures Run(c, s, a + b) == Run(c, Run(c, s, a), b)
    decreases a
  {
    if a == [] {
      Empty(b);
    } else {
      assert (a + b)[0] == a[0] && (a + b)[1..] == a[1..] + b;
      RunAppend(c, Step(c, s, a[0]), a[1..], b);
    }
  }

  lemma {:induction false} ClockGrows(c: Config, s: State, evs: seq<Event>)
    ensures Run(c, s, evs).now >= s.now
    decreases evs
  {
    if evs != [] { ClockGrows(c, Step(c, s, evs[0]), evs[1..]); }
  }

  // ---------------------------------------------------------------- whole runs: safety

  /**
   * In every run: a label `worker_api` with operation o is only put on a message whose id some
   * send of o got back; sends leave the queue one at a time and in admission order; the counter
   * counts the calls that have not given back their place and stays within the bound; the active
   * slot is empty unless a send is in flight; the cache stays within its cap; and successful
   * sends are followed by the minimum interval.
   */
  lemma EveryRunIsSafe(c: Config, now: int, evs: seq<Event>)
    requires c.Valid() && now > 0
    ensures var s := Run(c, Initial(now), evs);
      && (forall e :: 0 <= e < |s.echoes| && s.echoes[e].origin.WorkerApi? ==>
            ReturnedId(s.ops, s.echoes[e].origin.operation, s.echoes[e].id))
      && (forall i, j :: 0 <= i < j < |s.ops| && !s.ops[j].phase.Waiting? ==> s.ops[i].phase.Settled?)
      && s.pendingSends == Unclosed(s.ops) <= c.maxSendQueue
      && (s.active.Some? ==> IsActive(s, s.active.value.op))
      && |s.recent| <= c.maxRecent
      && Spaced(c, s.ops)
  {
    InitialInv(c, now);
    RunKeepsInv(c, Initial(now), evs);
  }

  // ---------------------------------------------------------------- whole runs: when a send starts

  /** `at` is when the latest successful send ended; without one it is 0. */
  ghost predicate IsLatestEnd(ops: seq<Op>, at: int) {
    && (forall i :: 0 <= i < |ops| && ops[i].phase.Settled? && ops[i].phase.receipt.Sent? ==> ops[i].phase.receipt.endedAt <= at)
    && (at == 0 || exists i :: 0 <= i < |ops| && ops[i].phase.Settled? && ops[i].phase.receipt.Sent? && ops[i].phase.receipt.endedAt == at)
  }

  /** Only a return ends a call with success, and what has settled stays. */
  lemma SuccessesStay(c: Config, s: State, ev: Event)
    requires !(ev.Return? && CanReturn(s, ev.op))
    ensures var ops := Step(c, s, ev).ops;
      && Step(c, s, ev).lastSentAt == s.lastSentAt && |ops| >= |s.ops|
      && (forall i :: 0 <= i < |s.ops| && s.ops[i].phase.Settled? ==> ops[i].phase == s.ops[i].phase)
      && (forall i :: 0 <= i < |ops| && ops[i].phase.Settled? && ops[i].phase.receipt.Sent? ==> i < |s.ops| && ops[i].phase == s.ops[i].phase)
  {
  }

  lemma StepKeepsLatestEnd(c: Config, s: State, ev: Event)
    requires Inv(c, s) && IsLatestEnd(s.ops, s.lastSentAt)
    ensures IsLatestEnd(Step(c, s, ev).ops, Step(c, s, ev).lastSentAt)
  {
    if ev.Return? && CanReturn(s, ev.op) {
      assert Returned(c, s, ev.op, ev.messageId).ops[ev.op].phase.receipt.endedAt == s.now;
    } else {
      SuccessesStay(c, s, ev);
      if s.lastSentAt != 0 {
        var i :| 0 <= i < |s.ops| && s.ops[i].phase.Settled? && s.ops[i].phase.receipt.Sent? && s.ops[i].phase.receipt.endedAt == s.lastSentAt;
        assert Step(c, s, ev).ops[i].phase == s.ops[i].phase;
      }
    }
  }

  lemma {:induction false} RunKeepsLatestEnd(c: Config, s: State, evs: seq<Event>)
    requires Inv(c, s) && IsLatestEnd(s.ops, s.lastSentAt)
    ensures IsLatestEnd(Run(c, s, evs).ops, Run(c, s, evs).lastSentAt)
    decreases evs
  {
    if evs != [] {
      StepKeepsInv(c, s, evs[0]);
      StepKeepsLatestEnd(c, s, evs[0]);
      RunKeepsLatestEnd(c, Step(c, s, evs[0]), evs[1..]);
    }
  }

  /**
   * In every run, a call whose turn has come starts at once if the interval since the latest
   * successful send has passed, or if there was none; otherwise it sleeps exactly until then, and
   * starts when it wakes; and a session that is no longer ready fails it without a send.
   */
  lemma SendsStartOnTime(c: Config, now: int, evs: seq<Event>, i: nat)
    requires c.Valid() && now > 0 && CanBegin(Run(c, Initial(now), evs), i)
    ensures var s := Run(c, Initial(now), evs); var op := Step(c, s, Begin(i)).ops[i];
      && IsLatestEnd(s.ops, s.lastSentAt)
      && (!s.ready ==> op.phase == Settled(NotReady) && op.startedAt == None)
      && (s.ready && (s.lastSentAt == 0 || s.now >= s.lastSentAt + c.minSendIntervalMs) ==>
            op.phase == Sending && op.startedAt == Some(s.now))
      && (s.ready && s.lastSentAt > 0 && s.now < s.lastSentAt + c.minSendIntervalMs ==>
            op.phase == Sleeping(s.lastSentAt + c.minSendIntervalMs) && op.startedAt == None)
  {
    InitialInv(c, now);
    RunKeepsInv(c, Initial(now), evs);
    RunKeepsLatestEnd(c, Initial(now), evs);
  }

  /** A call that sleeps starts at the first wake-up from its time on, and at no earlier one. */
  lemma SleepersWake(c: Config, s: State, i: nat)
    requires i < |s.ops| && s.ops[i].phase.Sleeping?
    ensures Step(c, s, Wake(i)).ops[i] == if s.now < s.ops[i].phase.wakeAt then s.ops[i] else s.ops[i].(phase := Sending, startedAt := Some(s.now))
  {
  }

  /** The status last reported, or not ready. */
  function LastReport(evs: seq<Event>, before: bool): bool {
    if evs == [] then before else if evs[|evs| - 1].SetReady? then evs[|evs| - 1].ready else LastReport(evs[..|evs| - 1], before)
  }

  /** In every run the session is ready exactly when it was last reported so, and the clock shows the latest time. */
  lemma {:induction false} ReadyIsTheLastReport(c: Config, s: State, evs: seq<Event>)
    ensures Run(c, s, evs).ready == LastReport(evs, s.ready)
    ensures forall k :: 0 <= k < |evs| && evs[k].Tick? ==> evs[k].now <= Run(c, s, evs).now
    decreases |evs|
  {
    if evs != [] {
      var last := |evs| - 1;
      assert evs == evs[..last] + [evs[last]] && [evs[last]][1..] == [];
      RunAppend(c, s, evs[..last], [evs[last]]);
      ReadyIsTheLastReport(c, s, evs[..last]);
      forall k | 0 <= k < |evs| && evs[k].Tick? ensures evs[k].now <= Run(c, s, evs).now { if k < last { assert evs[..last][k] == evs[k]; } }
    }
  }

  /** How a call settles: with the id and the time of its return, failed by what it threw, or not sent at all. */
  lemma CallsSettleAs(c: Config, s: State, ev: Event, i: nat)
    requires i < |s.ops| && !s.ops[i].phase.Settled? && Step(c, s, ev).ops[i].phase.Settled?
    ensures match ev
      case Return(op, id) => op == i && s.ops[i].phase == Sending && Step(c, s, ev).ops[i].phase.receipt == Sent(id, s.now)
      case Throw(op) => op == i && s.ops[i].phase == Sending && Step(c, s, ev).ops[i].phase.receipt == SendFailed
      case Begin(op) => op == i && s.ops[i].phase == Waiting && !s.ready && Step(c, s, ev).ops[i].phase.receipt == NotReady
      case _ => false
  {
  }

  /** A message that still waits when its time is up gets no label then, and not before. */
  lemma WaitingEndsUnlabelled(c: Config, s: State, e: nat)
    requires e < |s.echoes| && s.echoes[e].origin.Pending?
    ensures |Step(c, s, Expire(e)).echoes| == |s.echoes|
    ensures Step(c, s, Expire(e)).echoes[e].origin == if s.now < s.echoes[e].origin.deadline then s.echoes[e].origin else NoHint
  {
  }

  /** A message whose id is in nobody's cache and that the active send does not show has no label from the start. */
  lemma UnknownIsUnlabelled(c: Config, s: State, id: string, peer: string, text: string)
    requires Cache(c, s) && id != "" && peer != "" && text != ""
    requires forall k :: 0 <= k < |s.recent| ==> s.recent[k].id != id || s.recent[k].expiresAt <= s.now
    requires s.active == None || s.active.value.peer != peer || s.active.value.text != text
    ensures Step(c, s, Observe(id, peer, text)).echoes == s.echoes + [Echo(id, peer, text, NoHint)]
  {
    PruneEntries(c, s.recent, s.now);
    LookupFinds(Prune(c, s.recent, s.now), id);
  }

  // ---------------------------------------------------------------- whole runs: what is sent to whom

  /** The text is a recipient with a host, or a bare number completed by the host. */
  predicate Addresses(peer: string, to: string) {
    peer == if exists i :: 0 <= i < |to| && to[i] == '@' then to else to + "@c.us"
  }

  /** A given operation id is kept without outer white space; one that is missing or empty is none. */
  ghost predicate Names(operation: Option<string>, given: Option<string>) {
    if given == None || given == Some("") then operation == None
    else operation.Some? && IsTrimmed(operation.value, given.value) && 1 <= |operation.value| <= 200
  }

  /** The call is what the caller asked for. */
  ghost predicate IsCallOf(op: Op, ev: Event) {
    ev.Submit? && Addresses(op.peer, ev.to) && IsTrimmed(op.text, ev.text) && Names(op.operation, ev.operationId)
  }

  /** An operation id that is neither missing nor empty has between 1 and 200 characters inside its white space. */
  predicate GoodOperation(given: Option<string>) {
    given == None || given == Some("") || (!AllSpace(given.value) && |Trim(given.value)| <= 200)
  }

  /** The call is admitted: the session is ready, there is something to send to somebody, and room in the queue. */
  predicate Admitted(c: Config, s: State, ev: Event) {
    && ev.Submit? && s.ready && |ev.to| > 0 && !AllSpace(ev.text) && GoodOperation(ev.operationId)
    && s.pendingSends < c.maxSendQueue
  }

  /** The submissions of the run that were admitted, in order. */
  function Submissions(c: Config, s: State, evs: seq<Event>): seq<Event>
    decreases evs
  {
    if evs == [] then [] else (if Admitted(c, s, evs[0]) then [evs[0]] else []) + Submissions(c, Step(c, s, evs[0]), evs[1..])
  }

  lemma NormalizedIsNamed(given: Option<string>)
    ensures NormalizeOperation(given).Success? <==> GoodOperation(given)
    ensures GoodOperation(given) ==> Names(NormalizeOperation(given).value, given)
  {
    if given.Some? {
      TrimTrims(given.value);
      TrimIsEmptyIff(given.value);
    }
  }

  lemma TargetAddresses(to: string)
    ensures Addresses(Target(to), to)
  {
  }

  /** An admitted submission joins the end of the queue, as the caller wrote it. */
  lemma AdmittedIsQueued(c: Config, s: State, ev: Event)
    requires Admitted(c, s, ev)
    ensures var s' := Step(c, s, ev);
      && |s'.ops| == |s.ops| + 1 && s'.ops[..|s.ops|] == s.ops && s'.pendingSends == s.pendingSends + 1
      && IsCallOf(s'.ops[|s.ops|], ev) && s'.ops[|s.ops|].phase == Waiting && !s'.ops[|s.ops|].closed
  {
    TrimTrims(ev.text);
    TrimIsEmptyIff(ev.text);
    NormalizedIsNamed(ev.operationId);
    TargetAddresses(ev.to);
  }

  /** Nothing else queues a call, and no call ever changes its peer, its text or its operation. */
  lemma OthersKeepTheCalls(c: Config, s: State, ev: Event)
    requires !Admitted(c, s, ev)
    ensures |Step(c, s, ev).ops| == |s.ops|
    ensures forall i :: 0 <= i < |s.ops| ==> SameCall(Step(c, s, ev).ops[i], s.ops[i])
  {
    if ev.Submit? {
      TrimIsEmptyIff(ev.text);
      NormalizedIsNamed(ev.operationId);
      assert Step(c, s, ev) == s;
    }
  }

  predicate SameCall(a: Op, b: Op) {
    a.peer == b.peer && a.text == b.text && a.operation == b.operation
  }

  /** The calls of `s` are still the same, and behind them are those of the submissions. */
  ghost predicate Extends(ops: seq<Op>, ops': seq<Op>, sent: seq<Event>) {
    && |ops'| == |ops| + |sent|
    && (forall i :: 0 <= i < |ops| ==> SameCall(ops'[i], ops[i]))
    && (forall i :: 0 <= i < |sent| ==> IsCallOf(ops'[|ops| + i], sent[i]))
  }

  lemma StepExtends(c: Config, s: State, ev: Event)
    ensures Extends(s.ops, Step(c, s, ev).ops, if Admitted(c, s, ev) then [ev] else [])
  {
    if Admitted(c, s, ev) {
      AdmittedIsQueued(c, s, ev);
      forall i | 0 <= i < |s.ops| ensures SameCall(Step(c, s, ev).ops[i], s.ops[i]) { assert Step(c, s, ev).ops[..|s.ops|][i] == s.ops[i]; }
    } else {
      OthersKeepTheCalls(c, s, ev);
    }
  }

  lemma SameCallsFit(a: Op, b: Op, ev: Event)
    requires SameCall(a, b) && IsCallOf(b, ev)
    ensures IsCallOf(a, ev)
  {
  }

  lemma ExtendsTwice(a: seq<Op>, b: seq<Op>, d: seq<Op>, sent: seq<Event>, more: seq<Event>)
    requires Extends(a, b, sent) && Extends(b, d, more)
    ensures Extends(a, d, sent + more)
  {
    forall i | 0 <= i < |sent + more| ensures IsCallOf(d[|a| + i], (sent + more)[i]) {
      if i < |sent| { SameCallsFit(d[|a| + i], b[|a| + i], sent[i]); } else { assert |a| + i == |b| + (i - |sent|); }
    }
  }

  lemma {:induction false} CallsFollow(c: Config, s: State, evs: seq<Event>)
    ensures Extends(s.ops, Run(c, s, evs).ops, Submissions(c, s, evs))
    decreases evs
  {
    if evs != [] {
      var s1 := Step(c, s, evs[0]);
      StepExtends(c, s, evs[0]);
      CallsFollow(c, s1, evs[1..]);
      ExtendsTwice(s.ops, s1.ops, Run(c, s1, evs[1..]).ops, if Admitted(c, s, evs[0]) then [evs[0]] else [], Submissions(c, s1, evs[1..]));
    }
  }

  ghost predicate IsActiveOf(a: ActiveSend, ev: Event) {
    ev.Submit? && Addresses(a.peer, ev.to) && IsTrimmed(a.text, ev.text) && Names(Some(a.operation), ev.operationId)
  }

  /** The calls are those of the submissions, one for one. */
  ghost predicate CallsAre(s: State, sent: seq<Event>) {
    |s.ops| == |sent| && forall i :: 0 <= i < |sent| ==> IsCallOf(s.ops[i], sent[i])
  }

  ghost predicate ActiveIsItsCall(s: State, sent: seq<Event>) {
    s.active.Some? ==>
      var a := s.active.value; a.op < |s.ops| == |sent| && s.ops[a.op].phase == Sending && IsActiveOf(a, sent[a.op])
  }

  lemma ActiveCall(c: Config, s: State, sent: seq<Event>)
    requires Inv(c, s) && CallsAre(s, sent)
    ensures ActiveIsItsCall(s, sent)
  {
    if s.active.Some? {
      var i := s.active.value.op;
      assert IsActive(s, i) && IsCallOf(s.ops[i], sent[i]);
    }
  }

  lemma NoCallsBefore(ops: seq<Op>, sent: seq<Event>, s: State)
    requires Extends([], ops, sent) && ops == s.ops
    ensures CallsAre(s, sent)
  {
    forall i | 0 <= i < |sent| ensures IsCallOf(s.ops[i], sent[i]) { assert ops[0 + i] == s.ops[i]; }
  }

  /**
   * In every run the calls are the admitted submissions, in their order: call `i` goes to the
   * recipient of the `i`-th one, with `@c.us` behind a bare number, and carries its text and its
   * operation id without outer white space. The call in flight is what the active slot shows.
   */
  lemma CallsAreTheSubmissions(c: Config, now: int, evs: seq<Event>, s: State, sent: seq<Event>)
    requires c.Valid() && now > 0 && s == Run(c, Initial(now), evs) && sent == Submissions(c, Initial(now), evs)
    ensures Inv(c, s) && |s.ops| == |sent| && (forall i :: 0 <= i < |sent| ==> IsCallOf(s.ops[i], sent[i]))
    ensures s.active.Some? ==>
      var a := s.active.value; a.op < |sent| && s.ops[a.op].phase == Sending && IsActiveOf(a, sent[a.op])
  {
    InitialInv(c, now);
    RunKeepsInv(c, Initial(now), evs);
    CallsFollow(c, Initial(now), evs);
    NoCallsBefore(s.ops, sent, s);
    ActiveCall(c, s, sent);
  }

  // ---------------------------------------------------------------- whole runs: an early echo

  /** Echo `e` waits for send `i`, or has been decided by what that send returned. */
  ghost predicate Follows(s: State, e: nat, i: nat, deadline: int, id: string, operation: string) {
    && e < |s.echoes| && i < |s.ops| && s.echoes[e].id == id && s.ops[i].operation == Some(operation)
    && if s.ops[i].phase.Settled?
       then s.echoes[e].origin == if s.ops[i].phase.receipt.Sent? && s.ops[i].phase.receipt.id == Some(id)
                                  then WorkerApi(operation) else NoHint
       else s.ops[i].phase.Sending? && s.echoes[e].origin == Pending(i, deadline)
  }

  lemma StepFollows(c: Config, s: State, ev: Event, e: nat, i: nat, deadline: int, id: string, operation: string)
    requires Inv(c, s) && Follows(s, e, i, deadline, id, operation) && Step(c, s, ev).now < deadline
    ensures Follows(Step(c, s, ev), e, i, deadline, id, operation)
  {
  }

  lemma {:induction false} RunFollows(c: Config, s: State, evs: seq<Event>, e: nat, i: nat, deadline: int, id: string, operation: string)
    requires Inv(c, s) && Follows(s, e, i, deadline, id, operation) && Run(c, s, evs).now < deadline
    ensures Follows(Run(c, s, evs), e, i, deadline, id, operation)
    decreases evs
  {
    if evs != [] {
      var s' := Step(c, s, evs[0]);
      ClockGrows(c, s', evs[1..]);
      StepKeepsInv(c, s, evs[0]);
      StepFollows(c, s, evs[0], e, i, deadline, id, operation);
      RunFollows(c, s', evs[1..], e, i, deadline, id, operation);
    }
  }

  /**
   * A message with the active send's peer and text that arrives before the send returns is,
   * whatever else happens within the resolution time, labelled with that send's operation
   * exactly when the send returns the message's own id.
   */
  lemma EarlyEchoIsDecidedByItsSend(c: Config, s: State, id: string, peer: string, text: string, evs: seq<Event>)
    requires Inv(c, s) && id != "" && peer != "" && text != ""
    requires Lookup(Prune(c, s.recent, s.now), id) == None && Matches(s.active, peer, text)
    requires Run(c, Step(c, s, Observe(id, peer, text)), evs).now < s.now + c.resolutionMs
    ensures Follows(Run(c, Step(c, s, Observe(id, peer, text)), evs), |s.echoes|, s.active.value.op,
                    s.now + c.resolutionMs, id, s.active.value.operation)
  {
    StepKeepsInv(c, s, Observe(id, peer, text));
    RunFollows(c, Step(c, s, Observe(id, peer, text)), evs, |s.echoes|, s.active.value.op,
               s.now + c.resolutionMs, id, s.active.value.operation);
  }

  /** What WhatsApp shows of the submission: its text, at its recipient. */
  ghost predicate IsShown(ev: Event, peer: string, text: string, operation: string) {
    ev.Submit? && Addresses(peer, ev.to) && IsTrimmed(text, ev.text) && Names(Some(operation), ev.operationId)
  }

  /** The call of an admitted submission, in flight, is the active send. */
  lemma InFlightIsActive(c: Config, s: State, i: nat, ev: Event, peer: string, text: string, operation: string)
    requires Inv(c, s) && i < |s.ops| && s.ops[i].phase == Sending && IsCallOf(s.ops[i], ev) && IsShown(ev, peer, text, operation)
    ensures Matches(s.active, peer, text) && s.active.value.op == i && s.active.value.operation == operation
  {
    TrimmedIsUnique(text, s.ops[i].text, ev.text);
    OperationsAgree(operation, s.ops[i].operation, ev.operationId);
    assert IsActive(s, i);
  }

  lemma ShownIsSomething(ev: Event, peer: string, text: string, operation: string)
    requires IsShown(ev, peer, text, operation) && |ev.to| > 0 && !AllSpace(ev.text)
    ensures peer != "" && text != ""
  {
    TrimTrims(ev.text);
    TrimIsEmptyIff(ev.text);
    TrimmedIsUnique(text, Trim(ev.text), ev.text);
  }

  /**
   * The same said from outside: a `sendText` with an operation id was admitted as call `i` and is
   * in flight; WhatsApp shows its text at its recipient before the send returns. Within the
   * resolution time that message is labelled with that operation exactly when the send returns
   * the message's own id.
   */
  lemma EarlyEchoOfASubmission(c: Config, now: int, before: seq<Event>, s: State, sent: seq<Event>, i: nat, id: string, peer: string,
                               text: string, operation: string, evs: seq<Event>)
    requires c.Valid() && now > 0 && s == Run(c, Initial(now), before) && sent == Submissions(c, Initial(now), before)
    requires i < |sent| && IsShown(sent[i], peer, text, operation) && i < |s.ops| && s.ops[i].phase == Sending
    requires id != "" && forall k :: 0 <= k < |s.recent| ==> s.recent[k].id != id
    requires Run(c, Step(c, s, Observe(id, peer, text)), evs).now < s.now + c.resolutionMs
    ensures Follows(Run(c, Step(c, s, Observe(id, peer, text)), evs), |s.echoes|, i, s.now + c.resolutionMs, id, operation)
  {
    CallsAreTheSubmissions(c, now, before, s, sent);
    SubmissionsAreAdmitted(c, Initial(now), before, i);
    ShownIsSomething(sent[i], peer, text, operation);
    InFlightIsActive(c, s, i, sent[i], peer, text, operation);
    NotCached(c, s, id);
    EarlyEchoIsDecidedByItsSend(c, s, id, peer, text, evs);
  }

  lemma OperationsAgree(operation: string, kept: Option<string>, given: Option<string>)
    requires Names(Some(operation), given) && Names(kept, given)
    ensures kept == Some(operation)
  {
    TrimmedIsUnique(operation, kept.value, given.value);
  }

  lemma {:induction false} SubmissionsAreAdmitted(c: Config, s: State, evs: seq<Event>, i: nat)
    requires i < |Submissions(c, s, evs)|
    ensures var sent := Submissions(c, s, evs)[i]; sent.Submit? && |sent.to| > 0 && !AllSpace(sent.text)
    decreases evs
  {
    var rest := Submissions(c, Step(c, s, evs[0]), evs[1..]);
    if !Admitted(c, s, evs[0]) { SubmissionsAreAdmitted(c, Step(c, s, evs[0]), evs[1..], i); }
    else if i > 0 { SubmissionsAreAdmitted(c, Step(c, s, evs[0]), evs[1..], i - 1); }
  }

  lemma NotCached(c: Config, s: State, id: string)
    requires Cache(c, s) && forall k :: 0 <= k < |s.recent| ==> s.recent[k].id != id
    ensures Lookup(Prune(c, s.recent, s.now), id) == None
  {
    PruneEntries(c, s.recent, s.now);
    LookupFinds(Prune(c, s.recent, s.now), id);
  }

  /** A decided origin is never revised, so an echo that outwaits its send stays without a label. */
  lemma {:induction false} DecidedOriginsAreFinal(c: Config, s: State, evs: seq<Event>, e: nat)
    requires e < |s.echoes| && !s.echoes[e].origin.Pending?
    ensures e < |Run(c, s, evs).echoes| && Run(c, s, evs).echoes[e] == s.echoes[e]
    decreases evs
  {
    if evs != [] { DecidedOriginsAreFinal(c, Step(c, s, evs[0]), evs[1..], e); }
  }

  // ---------------------------------------------------------------- whole runs: a late echo

  predicate Has(r: seq<Cached>, id: string) {
    r != [] && (r[0].id == id || Has(r[1..], id))
  }

  /** How many entries are younger than the entry of `id`. */
  function Behind(r: seq<Cached>, id: string): nat
    requires Has(r, id)
  {
    if r[0].id == id then |r| - 1 else Behind(r[1..], id)
  }

  function ExpiryOf(r: seq<Cached>, id: string): int
    requires Has(r, id)
  {
    if r[0].id == id then r[0].expiresAt else ExpiryOf(r[1..], id)
  }

  lemma {:induction false} HasFacts(r: seq<Cached>, id: string)
    requires Has(r, id)
    ensures Behind(r, id) < |r| && Lookup(r, id).Some? && exists k :: 0 <= k < |r| && r[k].expiresAt == ExpiryOf(r, id)
  {
    if r[0].id == id {
      assert r[0].expiresAt == ExpiryOf(r, id);
    } else {
      HasFacts(r[1..], id);
      var k :| 0 <= k < |r[1..]| && r[1..][k].expiresAt == ExpiryOf(r[1..], id);
      assert r[k + 1].expiresAt == ExpiryOf(r, id);
    }
  }

  lemma {:induction false} PutKeepsEntry(r: seq<Cached>, e: Cached, id: string)
    requires Has(r, id) || e.id == id
    ensures Has(Put(r, e), id) && |Put(r, e)| <= |r| + 1
    ensures Has(r, id) ==> Behind(Put(r, e), id) <= Behind(r, id) + if e.id == id then 0 else 1
    ensures !Has(r, id) ==> Behind(Put(r, e), id) == 0
    ensures ExpiryOf(Put(r, e), id) == if e.id == id then e.expiresAt else ExpiryOf(r, id)
  {
    if r != [] && r[0].id != e.id {
      if r[0].id != id {
        PutKeepsEntry(r[1..], e, id);
      } else {
        PutSize(r[1..], e);
      }
    }
  }

  lemma {:induction false} PutSize(r: seq<Cached>, e: Cached)
    ensures |Put(r, e)| <= |r| + 1
  {
    if r != [] && r[0].id != e.id { PutSize(r[1..], e); }
  }

  lemma {:induction false} UnexpiredKeepsEntry(r: seq<Cached>, now: int, id: string)
    requires Has(r, id) && ExpiryOf(r, id) > now
    ensures Has(Unexpired(r, now), id) && |Unexpired(r, now)| <= |r|
    ensures Behind(Unexpired(r, now), id) <= Behind(r, id) && ExpiryOf(Unexpired(r, now), id) == ExpiryOf(r, id)
  {
    if r[0].id != id {
      UnexpiredKeepsEntry(r[1..], now, id);
      var u := Unexpired(r[1..], now);
      assert ([r[0]] + u)[1..] == u && [] + u == u;
    } else {
      UnexpiredSize(r[1..], now);
    }
  }

  lemma {:induction false} UnexpiredSize(r: seq<Cached>, now: int)
    ensures |Unexpired(r, now)| <= |r|
  {
    if r != [] { UnexpiredSize(r[1..], now); }
  }

  lemma {:induction false} DropKeepsEntry(r: seq<Cached>, n: nat, id: string)
    requires Has(r, id) && n + Behind(r, id) < |r|
    ensures Has(r[n..], id) && Behind(r[n..], id) == Behind(r, id) && ExpiryOf(r[n..], id) == ExpiryOf(r, id)
  {
    if n == 0 {
      assert r[n..] == r;
    } else {
      assert r[n..] == r[1..][n - 1..];
      DropKeepsEntry(r[1..], n - 1, id);
    }
  }

  lemma PruneKeepsEntry(c: Config, r: seq<Cached>, now: int, id: string)
    requires Has(r, id) && ExpiryOf(r, id) > now && Behind(r, id) < c.maxRecent
    ensures Has(Prune(c, r, now), id) && Behind(Prune(c, r, now), id) <= Behind(r, id)
    ensures ExpiryOf(Prune(c, r, now), id) == ExpiryOf(r, id)
  {
    UnexpiredKeepsEntry(r, now, id);
    var u := Unexpired(r, now);
    HasFacts(u, id);
    if |u| > c.maxRecent { DropKeepsEntry(u, |u| - c.maxRecent, id); }
  }

  function InsertionsOf(ev: Event): nat {
    if ev.Return? && ev.messageId.Some? then 1 else 0
  }

  /** An upper bound on how many ids the events can add to the cache. */
  function Insertions(evs: seq<Event>): nat {
    if evs == [] then 0 else InsertionsOf(evs[0]) + Insertions(evs[1..])
  }

  /** The entry of `id` is still there, no more entries have got behind it than `more`, and it lives as long. */
  ghost predicate StillHas(r: seq<Cached>, r': seq<Cached>, id: string, more: nat)
    requires Has(r, id)
  {
    Has(r', id) && Behind(r', id) <= Behind(r, id) + more && ExpiryOf(r', id) >= ExpiryOf(r, id)
  }

  lemma PutAndPruneRemember(c: Config, r: seq<Cached>, entry: Cached, now: int, id: string)
    requires Has(r, id) && now < ExpiryOf(r, id) <= entry.expiresAt && Behind(r, id) + 1 < c.maxRecent
    ensures StillHas(r, Prune(c, Put(r, entry), now), id, 1)
  {
    PutKeepsEntry(r, entry, id);
    PruneKeepsEntry(c, Put(r, entry), now, id);
  }

  lemma ExpiryIsWithinTtl(c: Config, s: State, id: string)
    requires Cache(c, s) && Has(s.recent, id)
    ensures ExpiryOf(s.recent, id) <= s.now + c.ttlMs
  {
    HasFacts(s.recent, id);
  }

  lemma ReturnKeepsEntry(c: Config, s: State, i: nat, mid: Option<string>, id: string)
    requires Cache(c, s) && Has(s.recent, id) && CanReturn(s, i) && s.now < ExpiryOf(s.recent, id)
    requires Behind(s.recent, id) + (if mid.Some? then 1 else 0) < c.maxRecent
    ensures StillHas(s.recent, Returned(c, s, i, mid).recent, id, if mid.Some? then 1 else 0)
  {
    if Caches(s.ops[i], mid) {
      ExpiryIsWithinTtl(c, s, id);
      var entry := Cached(mid.value, s.ops[i].operation.value, s.now + c.ttlMs);
      PutAndPruneRemember(c, s.recent, entry, s.now, id);
      assert Returned(c, s, i, mid).recent == Prune(c, Put(s.recent, entry), s.now);
    } else {
      assert Returned(c, s, i, mid).recent == s.recent;
    }
  }

  lemma OthersLeaveTheCache(c: Config, s: State, ev: Event)
    requires !ev.Observe? && !(ev.Return? && CanReturn(s, ev.op))
    ensures Step(c, s, ev).recent == s.recent && InsertionsOf(ev) >= 0
  {
  }

  lemma StepRemembers(c: Config, s: State, ev: Event, id: string)
    requires Cache(c, s) && Has(s.recent, id) && Step(c, s, ev).now < ExpiryOf(s.recent, id)
    requires Behind(s.recent, id) + InsertionsOf(ev) < c.maxRecent
    ensures StillHas(s.recent, Step(c, s, ev).recent, id, InsertionsOf(ev))
  {
    if ev.Observe? { PruneKeepsEntry(c, s.recent, s.now, id); }
    else if ev.Return? && CanReturn(s, ev.op) { ReturnKeepsEntry(c, s, ev.op, ev.messageId, id); }
    else { OthersLeaveTheCache(c, s, ev); }
  }

  lemma {:induction false} RunRemembers(c: Config, s: State, evs: seq<Event>, id: string)
    requires Inv(c, s) && Has(s.recent, id) && Run(c, s, evs).now < ExpiryOf(s.recent, id)
    requires Behind(s.recent, id) + Insertions(evs) < c.maxRecent
    ensures var r := Run(c, s, evs).recent; Has(r, id) && Behind(r, id) < c.maxRecent && ExpiryOf(r, id) >= ExpiryOf(s.recent, id)
    decreases evs
  {
    if evs != [] {
      var s' := Step(c, s, evs[0]);
      ClockGrows(c, s', evs[1..]);
      StepKeepsInv(c, s, evs[0]);
      StepRemembers(c, s, evs[0], id);
      RunRemembers(c, s', evs[1..], id);
    }
  }

  /** Entries that stay younger than the entry of `id` once `id` is set: a known id keeps its place. */
  function Younger(r: seq<Cached>, id: string): nat {
    if Has(r, id) then Behind(r, id) else 0
  }

  lemma PutYounger(r: seq<Cached>, entry: Cached)
    ensures var put := Put(r, entry);
            Has(put, entry.id) && Behind(put, entry.id) <= Younger(r, entry.id) && ExpiryOf(put, entry.id) == entry.expiresAt
  {
    PutKeepsEntry(r, entry, entry.id);
  }

  lemma ReturnRemembers(c: Config, s: State, i: nat, id: string)
    requires c.Valid() && CanReturn(s, i) && Caches(s.ops[i], Some(id)) && Younger(s.recent, id) < c.maxRecent
    ensures var r := Returned(c, s, i, Some(id)).recent;
            Has(r, id) && Behind(r, id) <= Younger(s.recent, id) && ExpiryOf(r, id) == s.now + c.ttlMs
  {
    var put := Put(s.recent, Cached(id, s.ops[i].operation.value, s.now + c.ttlMs));
    PutYounger(s.recent, Cached(id, s.ops[i].operation.value, s.now + c.ttlMs));
    PruneKeepsEntry(c, put, s.now, id);
    assert Returned(c, s, i, Some(id)).recent == Prune(c, put, s.now);
  }

  lemma RememberedIsLabelled(c: Config, s: State, id: string, peer: string, text: string)
    requires Inv(c, s) && Has(s.recent, id) && s.now < ExpiryOf(s.recent, id) && Behind(s.recent, id) < c.maxRecent
    requires id != "" && peer != "" && text != ""
    ensures var echo := Observed(c, s, id, peer, text).echoes[|s.echoes|];
            echo.id == id && echo.origin.WorkerApi? && ReturnedId(s.ops, echo.origin.operation, id)
  {
    PruneKeepsEntry(c, s.recent, s.now, id);
    HasFacts(Prune(c, s.recent, s.now), id);
    ObservedKeeps(c, s, id, peer, text);
    var s' := Observed(c, s, id, peer, text);
    assert s'.echoes[|s.echoes|].origin.WorkerApi?;
  }

  /**
   * A message observed after its send returned is labelled, with an operation that got its id
   * back, as long as the time to live has not passed and the entries younger than its own,
   * counting the ids returned in between, are fewer than `maxRecent`. Peer and text do not matter.
   */
  lemma LateEchoIsLabelled(c: Config, s: State, i: nat, id: string, evs: seq<Event>, peer: string, text: string)
    requires Inv(c, s) && CanReturn(s, i) && Caches(s.ops[i], Some(id))
    requires Younger(s.recent, id) + Insertions(evs) < c.maxRecent && peer != "" && text != ""
    requires Run(c, Returned(c, s, i, Some(id)), evs).now < s.now + c.ttlMs
    ensures var s' := Run(c, Returned(c, s, i, Some(id)), evs);
            var echo := Observed(c, s', id, peer, text).echoes[|s'.echoes|];
            echo.id == id && echo.origin.WorkerApi? && ReturnedId(s'.ops, echo.origin.operation, id)
  {
    ReturnRemembers(c, s, i, id);
    ReturnedKeeps(c, s, i, Some(id));
    var s1 := Returned(c, s, i, Some(id));
    RunRemembers(c, s1, evs, id);
    RunKeepsInv(c, s1, evs);
    RememberedIsLabelled(c, Run(c, s1, evs), id, peer, text);
  }

  // ---------------------------------------------------------------- whole runs: nothing blocks the queue

  lemma StepSettles(c: Config, s: State, i: nat) returns (evs: seq<Event>)
    requires Inv(c, s) && i < |s.ops| && (i > 0 ==> s.ops[i - 1].phase.Settled?)
    ensures i < |Run(c, s, evs).ops| && Run(c, s, evs).ops[i].phase.Settled? && |Run(c, s, evs).ops| == |s.ops|
  {
    var s1 := Step(c, s, Begin(i));
    var s2 := Step(c, s1, Tick(if s1.ops[i].phase.Sleeping? then Max(s1.now, s1.ops[i].phase.wakeAt) else s1.now));
    var s3 := Step(c, s2, Wake(i));
    var s4 := Step(c, s3, Throw(i));
    evs := [Begin(i), Tick(s2.now), Wake(i), Throw(i)];
    assert s2 == Step(c, s1, Tick(s2.now));
    calc {
      Run(c, s, evs);
      { assert evs[1..] == [Tick(s2.now), Wake(i), Throw(i)]; }
      Run(c, s1, [Tick(s2.now), Wake(i), Throw(i)]);
      { assert [Tick(s2.now), Wake(i), Throw(i)][1..] == [Wake(i), Throw(i)]; }
      Run(c, s2, [Wake(i), Throw(i)]);
      { assert [Wake(i), Throw(i)][1..] == [Throw(i)]; }
      Run(c, s3, [Throw(i)]);
      Run(c, s4, []);
    }
  }

  /** From every reachable state each admitted call can still settle, even if every send fails. */
  lemma {:induction false} EverySendCanSettle(c: Config, s: State, i: nat) returns (evs: seq<Event>)
    requires Inv(c, s) && i < |s.ops|
    ensures i < |Run(c, s, evs).ops| && Run(c, s, evs).ops[i].phase.Settled? && |Run(c, s, evs).ops| == |s.ops|
    decreases i
  {
    if i == 0 {
      evs := StepSettles(c, s, i);
    } else {
      var before := EverySendCanSettle(c, s, i - 1);
      RunKeepsInv(c, s, before);
      var after := StepSettles(c, Run(c, s, before), i);
      evs := before + after;
      RunAppend(c, s, before, after);
    }
  }
}
