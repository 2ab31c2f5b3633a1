/**
 * The model gateway's rules: the counting semaphore with its queue of cancellable waiters, and
 * the circuit breaker of each candidate.
 */
module GatewayRules {
  import opened Wrappers

  // ---------------------------------------------------------------- the semaphore

  /** One `decide` call. `Released` has called its handle; `Withdrawn` timed out in the queue. */
  datatype Phase = Queued | Holding | Released | Withdrawn

  /** Calls are numbered by arrival; `granted` lists them in the order they got a slot. */
  datatype Slots = Slots(maxConcurrent: nat, active: int, waiters: seq<nat>, calls: seq<Phase>, granted: seq<nat>)

  datatype SlotEvent = Arrive | Deadline(call: nat) | Finish(call: nat)

  function NoCalls(maxConcurrent: nat): Slots {
    Slots(maxConcurrent, 0, [], [], [])
  }

  function Arrived(s: Slots): Slots {
    var c := |s.calls|;
    if s.active < s.maxConcurrent then
      s.(active := s.active + 1, calls := s.calls + [Holding], granted := s.granted + [c])
    else s.(waiters := s.waiters + [c], calls := s.calls + [Queued])
  }

  function Without(waiters: seq<nat>, c: nat): seq<nat> {
    if waiters == [] then [] else if waiters[0] == c then waiters[1..] else [waiters[0]] + Without(waiters[1..], c)
  }

  /** The abort listener of a waiter. */
  function Aborted(s: Slots, c: nat): Slots
    requires c < |s.calls|
  {
    s.(waiters := Without(s.waiters, c), calls := s.calls[c := Withdrawn])
  }

  function Max(a: int, b: int): int { if a < b then b else a }

  /** The handle of a holder: give the slot back, then pass it to the oldest waiter. */
  function HandleCalled(s: Slots, c: nat): Slots
    requires c < |s.calls| && WaitersExist(s)
  {
    var s1 := s.(active := Max(0, s.active - 1), calls := s.calls[c := Released]);
    if s.waiters == [] then s1
    else
      var w := s.waiters[0];
      s1.(active := s1.active + 1, waiters := s.waiters[1..], calls := s1.calls[w := Holding], granted := s.granted + [w])
  }

  ghost predicate WaitersExist(s: Slots) {
    forall k :: 0 <= k < |s.waiters| ==> s.waiters[k] < |s.calls|
  }

  function Step(s: Slots, ev: SlotEvent): Slots
    requires WaitersExist(s)
  {
    match ev
    case Arrive => Arrived(s)
    case Deadline(c) =>
      if c >= |s.calls| then s
      else if s.calls[c] == Queued then Aborted(s, c)
      else if s.calls[c] == Holding then HandleCalled(s, c)
      else s
    case Finish(c) => if c < |s.calls| && s.calls[c] == Holding then HandleCalled(s, c) else s
  }

  function HolderCount(calls: seq<Phase>): nat {
    if calls == [] then 0 else HolderCount(calls[..|calls| - 1]) + if calls[|calls| - 1] == Holding then 1 else 0
  }

  ghost predicate Increasing(s: seq<nat>) {
    forall i, j :: 0 <= i < j < |s| ==> s[i] < s[j]
  }

  ghost predicate Inv(s: Slots) {
    && WaitersExist(s)
    && s.maxConcurrent > 0 && s.active == HolderCount(s.calls) <= s.maxConcurrent
    && (s.waiters != [] ==> s.active == s.maxConcurrent)
    && Increasing(s.granted + s.waiters)
    && (forall c: nat :: c in s.waiters <==> c < |s.calls| && s.calls[c] == Queued)
    && (forall c: nat :: c in s.granted <==> c < |s.calls| && (s.calls[c] == Holding || s.calls[c] == Released))
  }

  lemma {:induction false} HolderCountUpdate(calls: seq<Phase>, c: nat, phase: Phase)
    requires c < |calls|
    ensures HolderCount(calls[c := phase]) + (if calls[c] == Holding then 1 else 0) ==
            HolderCount(calls) + (if phase == Holding then 1 else 0)
  {
    var last := |calls| - 1;
    if c < last {
      assert calls[c := phase][..last] == calls[..last][c := phase];
      HolderCountUpdate(calls[..last], c, phase);
    } else {
      assert calls[c := phase][..last] == calls[..last];
    }
  }

  lemma {:induction false} SomeoneHolds(calls: seq<Phase>, c: nat)
    requires c < |calls| && calls[c] == Holding
    ensures HolderCount(calls) >= 1
  {
    if c < |calls| - 1 { SomeoneHolds(calls[..|calls| - 1], c); }
  }

  lemma {:induction false} WithoutFacts(waiters: seq<nat>, c: nat)
    requires Increasing(waiters)
    ensures Increasing(Without(waiters, c))
    ensures forall x :: x in Without(waiters, c) <==> x in waiters && x != c
  {
    if waiters != [] && waiters[0] != c {
      assert forall x :: x in waiters <==> x == waiters[0] || x in waiters[1..];
      WithoutFacts(waiters[1..], c);
      forall j | 1 <= j < |Without(waiters, c)| ensures waiters[0] < Without(waiters, c)[j] {
        assert Without(waiters, c)[j] in waiters[1..];
      }
    } else if waiters != [] {
      assert forall x :: x in waiters <==> x == c || x in waiters[1..];
    }
  }

  lemma LargestLast(s: seq<nat>, c: nat)
    requires Increasing(s) && forall x :: x in s ==> x < c
    ensures Increasing(s + [c])
  {
    forall i | 0 <= i < |s| ensures s[i] < c { assert s[i] in s; }
  }

  lemma ArrivedKeeps(s: Slots)
    requires Inv(s)
    ensures Inv(Arrived(s))
  {
    var s', c := Arrived(s), |s.calls|;
    assert s'.calls[..|s.calls|] == s.calls;
    forall x | x in s.granted + s.waiters ensures x < c { assert x in s.granted || x in s.waiters; }
    LargestLast(s.granted + s.waiters, c);
    if s.active < s.maxConcurrent {
      assert s.waiters == [];
      assert s'.granted + s'.waiters == (s.granted + s.waiters) + [c];
    } else {
      assert s'.granted + s'.waiters == (s.granted + s.waiters) + [c];
    }
  }

  lemma {:induction false} WithoutStaysAbove(granted: seq<nat>, waiters: seq<nat>, c: nat)
    requires Increasing(granted + waiters)
    ensures Increasing(waiters) && Increasing(granted + Without(waiters, c))
  {
    var all := granted + waiters;
    forall i, j | 0 <= i < j < |waiters| ensures waiters[i] < waiters[j] {
      assert all[|granted| + i] < all[|granted| + j];
    }
    WithoutFacts(waiters, c);
    forall i, j | 0 <= i < |granted| && 0 <= j < |Without(waiters, c)| ensures granted[i] < Without(waiters, c)[j] {
      assert Without(waiters, c)[j] in waiters;
      var k :| 0 <= k < |waiters| && waiters[k] == Without(waiters, c)[j];
      assert all[i] < all[|granted| + k];
    }
    forall i, j | 0 <= i < j < |granted| ensures granted[i] < granted[j] {
      assert all[i] < all[j];
    }
  }

  lemma AbortedKeeps(s: Slots, c: nat)
    requires Inv(s) && c < |s.calls| && s.calls[c] == Queued
    ensures Inv(Aborted(s, c))
  {
    HolderCountUpdate(s.calls, c, Withdrawn);
    WithoutStaysAbove(s.granted, s.waiters, c);
    WithoutFacts(s.waiters, c);
    var left := Without(s.waiters, c);
    forall k | 0 <= k < |left| ensures left[k] < |s.calls| { assert left[k] in s.waiters; }
  }

  lemma OldestLeaves(granted: seq<nat>, waiters: seq<nat>)
    requires Increasing(granted + waiters) && waiters != []
    ensures granted + waiters == (granted + [waiters[0]]) + waiters[1..]
    ensures forall x :: x in waiters[1..] <==> x in waiters && x != waiters[0]
    ensures forall x :: x in granted + [waiters[0]] <==> x in granted || x == waiters[0]
  {
    forall k | 0 <= k < |waiters[1..]| ensures waiters[1..][k] != waiters[0] {
      assert (granted + waiters)[|granted|] < (granted + waiters)[|granted| + k + 1];
    }
    assert waiters == [waiters[0]] + waiters[1..];
  }

  /** With an unreleased handle around, `active` is positive: the clamp at zero never matters. */
  lemma HandleCalledKeeps(s: Slots, c: nat)
    requires Inv(s) && c < |s.calls| && s.calls[c] == Holding
    ensures s.active >= 1 && Inv(HandleCalled(s, c))
  {
    var s' := HandleCalled(s, c);
    SomeoneHolds(s.calls, c);
    HolderCountUpdate(s.calls, c, Released);
    if s.waiters != [] {
      var w, rest := s.waiters[0], s.waiters[1..];
      assert w in s.waiters;
      HolderCountUpdate(s.calls[c := Released], w, Holding);
      assert s'.granted + s'.waiters == s.granted + s.waiters;
      OldestLeaves(s.granted, s.waiters);
    }
  }

  lemma StepKeepsInv(s: Slots, ev: SlotEvent)
    requires Inv(s)
    ensures Inv(Step(s, ev))
  {
    match ev
    case Arrive => ArrivedKeeps(s);
    case Deadline(c) =>
      if c < |s.calls| && s.calls[c] == Queued { AbortedKeeps(s, c); }
      else if c < |s.calls| && s.calls[c] == Holding { HandleCalledKeeps(s, c); }
    case Finish(c) => if c < |s.calls| && s.calls[c] == Holding { HandleCalledKeeps(s, c); }
  }

  ghost function Run(s: Slots, evs: seq<SlotEvent>): (r: Slots)
    requires Inv(s)
    ensures Inv(r)
    decreases evs
  {
    if evs == [] then s
    else
      StepKeepsInv(s, evs[0]);
      Run(Step(s, evs[0]), evs[1..])
  }

  /**
   * `active` is the number of unreleased handles and within the bound; somebody waits only when
   * every slot is taken; and the calls that got a slot, followed by those still waiting, are all
   * that were not withdrawn, in order of arrival: a slot is never passed over an older waiting call.
   */
  ghost predicate FairAndExact(s: Slots, maxConcurrent: nat) {
    && 0 <= s.active <= maxConcurrent && s.active == HolderCount(s.calls)
    && (s.waiters != [] ==> s.active == maxConcurrent)
    && Increasing(s.granted + s.waiters)
    && (forall c :: 0 <= c < |s.calls| && s.calls[c] != Withdrawn ==> c in s.granted || c in s.waiters)
  }

  lemma SlotsAreFairAndExact(maxConcurrent: nat, evs: seq<SlotEvent>)
    requires maxConcurrent > 0
    ensures FairAndExact(Run(NoCalls(maxConcurrent), evs), maxConcurrent)
  {
    BoundStays(NoCalls(maxConcurrent), evs);
    InvIsFair(Run(NoCalls(maxConcurrent), evs));
  }

  lemma InvIsFair(s: Slots)
    requires Inv(s)
    ensures FairAndExact(s, s.maxConcurrent)
  {
    forall c: nat | c < |s.calls| && s.calls[c] != Withdrawn ensures c in s.granted || c in s.waiters {
      assert s.calls[c] == Queued || s.calls[c] == Holding || s.calls[c] == Released;
    }
  }

  lemma {:induction false} BoundStays(s: Slots, evs: seq<SlotEvent>)
    requires Inv(s)
    ensures Run(s, evs).maxConcurrent == s.maxConcurrent
    decreases evs
  {
    if evs != [] {
      StepKeepsInv(s, evs[0]);
      BoundStays(Step(s, evs[0]), evs[1..]);
    }
  }

  /** A call that has given its slot back, or withdrew, never holds one again: the slot goes back once. */
  lemma {:induction false} ReleaseIsFinal(s: Slots, c: nat, evs: seq<SlotEvent>)
    requires Inv(s) && c < |s.calls| && (s.calls[c] == Released || s.calls[c] == Withdrawn)
    ensures c < |Run(s, evs).calls| && Run(s, evs).calls[c] == s.calls[c]
    decreases evs
  {
    if evs != [] {
      StepKeepsInv(s, evs[0]);
      ReleaseIsFinal(Step(s, evs[0]), c, evs[1..]);
    }
  }

  /** Whether it waits or runs, a call that meets its deadline or finishes is over, and not a holder. */
  lemma EveryEndGivesTheSlotBack(s: Slots, c: nat)
    requires Inv(s) && c < |s.calls|
    ensures |Step(s, Deadline(c)).calls| == |s.calls| == |Step(s, Finish(c)).calls|
    ensures Step(s, Deadline(c)).calls[c] in {Released, Withdrawn}
    ensures s.calls[c] == Holding ==>
      && Step(s, Finish(c)).calls[c] == Released
      && HolderCount(Step(s, Finish(c)).calls) == HolderCount(s.calls) - if s.waiters == [] then 1 else 0
  {
    if s.calls[c] == Holding {
      HandleCalledKeeps(s, c);
      assert s.waiters != [] ==> s.waiters[0] in s.waiters;
    }
  }

  // ---------------------------------------------------------------- the circuit breaker

  /** An entry of `circuits`. The clock is positive, so an unset `openedAt` is not a time. */
  datatype Circuit = Circuit(failures: nat, openedAt: Option<int>, halfOpen: bool)

  type Circuits = map<string, Circuit>

  datatype Limits = Limits(threshold: nat, openMs: nat)

  datatype Outcome = Succeeded(key: string) | FailedWith(key: string, retryable: bool, at: int) | Asked(key: string, at: int)

  function CanAttempt(l: Limits, circuits: Circuits, key: string, now: int): bool {
    if key !in circuits || circuits[key].openedAt.None? then true
    else if now - circuits[key].openedAt.value < l.openMs then false
    else !circuits[key].halfOpen
  }

  /** What `canAttempt` leaves behind: granting a try to an open circuit makes it half open. */
  function AfterAsking(l: Limits, circuits: Circuits, key: string, now: int): Circuits {
    if CanAttempt(l, circuits, key, now) && key in circuits && circuits[key].openedAt.Some?
    then circuits[key := circuits[key].(halfOpen := true)]
    else circuits
  }

  function AfterSuccess(circuits: Circuits, key: string): Circuits {
    circuits - {key}
  }

  function AfterFailure(l: Limits, circuits: Circuits, key: string, retryable: bool, now: int): Circuits {
    if !retryable then circuits
    else
      var current := if key in circuits then circuits[key] else Circuit(0, None, false);
      var failures := current.failures + 1;
      var shouldOpen := current.halfOpen || failures >= l.threshold;
      circuits[key := Circuit(failures, if shouldOpen then Some(now) else None, false)]
  }

  function Record(l: Limits, circuits: Circuits, o: Outcome): Circuits {
    match o
    case Succeeded(key) => AfterSuccess(circuits, key)
    case FailedWith(key, retryable, at) => AfterFailure(l, circuits, key, retryable, at)
    case Asked(key, at) => AfterAsking(l, circuits, key, at)
  }

  function RecordAll(l: Limits, outcomes: seq<Outcome>): Circuits {
    if outcomes == [] then map[] else Record(l, RecordAll(l, outcomes[..|outcomes| - 1]), outcomes[|outcomes| - 1])
  }

  // The same state, read off the history of one key.

  /** Retryable failures since the last success. */
  function FailuresSince(outcomes: seq<Outcome>, key: string): nat {
    if outcomes == [] then 0
    else
      var before, o := FailuresSince(outcomes[..|outcomes| - 1], key), outcomes[|outcomes| - 1];
      if o == Succeeded(key) then 0 else if o.FailedWith? && o.key == key && o.retryable then before + 1 else before
  }

  /** When the latest retryable failure happened. */
  function LastFailure(outcomes: seq<Outcome>, key: string): int {
    if outcomes == [] then 0
    else
      var o := outcomes[|outcomes| - 1];
      if o.FailedWith? && o.key == key && o.retryable then o.at else LastFailure(outcomes[..|outcomes| - 1], key)
  }

  /** Somebody asked, after the open time had passed, since the latest success or retryable failure. */
  function ProbeGranted(l: Limits, outcomes: seq<Outcome>, key: string): bool {
    if outcomes == [] then false
    else
      var earlier, o := outcomes[..|outcomes| - 1], outcomes[|outcomes| - 1];
      if o == Succeeded(key) || (o.FailedWith? && o.key == key && o.retryable) then false
      else ProbeGranted(l, earlier, key) ||
           (o.Asked? && o.key == key && FailuresSince(earlier, key) >= l.threshold && o.at - LastFailure(earlier, key) >= l.openMs)
  }

  /** The stored circuit is a function of the key's own history. */
  lemma {:induction false} CircuitIsItsHistory(l: Limits, outcomes: seq<Outcome>, key: string)
    requires l.threshold > 0
    ensures var n := FailuresSince(outcomes, key); var circuits := RecordAll(l, outcomes);
      && (key in circuits <==> n > 0)
      && (n > 0 ==> circuits[key] == Circuit(n, if n >= l.threshold then Some(LastFailure(outcomes, key)) else None,
                                             ProbeGranted(l, outcomes, key)))
      && (ProbeGranted(l, outcomes, key) ==> n >= l.threshold)
  {
    if outcomes != [] { CircuitIsItsHistory(l, outcomes[..|outcomes| - 1], key); }
  }

  /** When a candidate may be tried. */
  lemma AttemptsAreAllowedWhen(l: Limits, outcomes: seq<Outcome>, key: string, now: int)
    requires l.threshold > 0
    ensures CanAttempt(l, RecordAll(l, outcomes), key, now) <==>
            || FailuresSince(outcomes, key) < l.threshold
            || (now - LastFailure(outcomes, key) >= l.openMs && !ProbeGranted(l, outcomes, key))
  {
    CircuitIsItsHistory(l, outcomes, key);
  }

  predicate Settles(o: Outcome, key: string) {
    o == Succeeded(key) || (o.FailedWith? && o.key == key && o.retryable)
  }

  /** Once a probe was granted nobody else is let through until its key records a success or a retryable failure. */
  lemma {:induction false} OneProbeAtATime(l: Limits, outcomes: seq<Outcome>, key: string, at: int, more: seq<Outcome>, now: int)
    requires l.threshold > 0 && FailuresSince(outcomes, key) >= l.threshold && CanAttempt(l, RecordAll(l, outcomes), key, at)
    requires forall k :: 0 <= k < |more| ==> !Settles(more[k], key)
    ensures ProbeGranted(l, outcomes + [Asked(key, at)] + more, key)
    ensures !CanAttempt(l, RecordAll(l, outcomes + [Asked(key, at)] + more), key, now)
  {
    var all := outcomes + [Asked(key, at)] + more;
    AttemptsAreAllowedWhen(l, outcomes, key, at);
    if more == [] {
      assert all[..|all| - 1] == outcomes;
    } else {
      OneProbeAtATime(l, outcomes, key, at, more[..|more| - 1], now);
      assert all[..|all| - 1] == outcomes + [Asked(key, at)] + more[..|more| - 1];
    }
    CircuitIsItsHistory(l, all, key);
    AttemptsAreAllowedWhen(l, all, key, now);
  }
}
