/**
 * Any number of `decide` calls at once: each races the slot and then the execution against its
 * own deadline, and gives back in its `finally` whatever it was given. A slot that was granted is
 * in `release` only once the awaiting code has continued; the deadline may come in between.
 */
module DecideCalls {
  import opened Sequences
  import opened GatewayRules

  /** Where the call's own code is: in the first race, in the second, at the `finally`, or done. */
  datatype Pc = Acquiring | Executing | Finally | Done

  datatype Decide = Decide(pc: Pc, release: bool, timedOut: bool, handleCalls: nat)

  datatype World = World(slots: Slots, decides: seq<Decide>)

  datatype Event =
    | Call
    | Continue(call: nat)
    | Timer(call: nat)
    | Settle(call: nat)
    | Finalize(call: nat)

  function With(w: World, c: nat, d: Decide): World
    requires c < |w.decides|
  {
    w.(decides := w.decides[c := d])
  }

  ghost predicate Inv(w: World) {
    && GatewayRules.Inv(w.slots) && |w.decides| == |w.slots.calls|
    && forall c :: 0 <= c < |w.decides| ==> Good(w.decides[c], w.slots.calls[c])
  }

  /** A slot is held from its grant to the one call of its handle, and only a waiter withdraws. */
  predicate Good(d: Decide, slot: Phase) {
    && (d.pc == Acquiring ==> (slot == Queued || slot == Holding) && !d.release && (slot == Queued ==> !d.timedOut))
    && (d.pc == Executing ==> slot == Holding && d.release)
    && (d.pc == Finally ==> if d.release then slot == Holding else slot == Withdrawn)
    && (d.pc == Done ==> if d.release then slot == Released else slot == Withdrawn)
    && d.handleCalls == if d.pc == Done && d.release then 1 else 0
  }

  /** The slot of a waiting call was granted, or the call found one free: its promise has resolved. */
  predicate Granted(w: World, c: nat) {
    c < |w.decides| && c < |w.slots.calls| && w.decides[c].pc == Acquiring && w.slots.calls[c] == Holding
  }

  function Step(w: World, ev: Event): World
    requires Inv(w)
  {
    match ev
    case Call => World(Arrived(w.slots), w.decides + [Decide(Acquiring, false, false, 0)])
    case Continue(c) =>
      if Granted(w, c) then With(w, c, w.decides[c].(pc := Executing, release := true)) else w
    case Timer(c) =>
      if c >= |w.decides| || w.decides[c].timedOut || w.decides[c].pc == Done then w
      else if w.decides[c].pc == Acquiring && w.slots.calls[c] == Queued then
        // The abort listener leaves the queue and rejects, and so does the race.
        With(w.(slots := Aborted(w.slots, c)), c, w.decides[c].(pc := Finally, timedOut := true))
      else if w.decides[c].pc == Executing then With(w, c, w.decides[c].(pc := Finally, timedOut := true))
      else With(w, c, w.decides[c].(timedOut := true))
    case Settle(c) =>
      if c < |w.decides| && w.decides[c].pc == Executing then With(w, c, w.decides[c].(pc := Finally)) else w
    case Finalize(c) =>
      if c >= |w.decides| || w.decides[c].pc != Finally then w
      else if w.decides[c].release then
        With(w.(slots := HandleCalled(w.slots, c)), c, w.decides[c].(pc := Done, handleCalls := w.decides[c].handleCalls + 1))
      else With(w, c, w.decides[c].(pc := Done))
  }

  lemma CallKeeps(w: World)
    requires Inv(w)
    ensures Inv(Step(w, Call))
  {
    ArrivedKeeps(w.slots);
  }

  lemma AbortKeeps(w: World, c: nat)
    requires Inv(w) && c < |w.decides| && w.decides[c].pc == Acquiring && w.slots.calls[c] == Queued
    ensures Inv(Step(w, Timer(c)))
  {
    AbortedKeeps(w.slots, c);
  }

  lemma ReleaseKeeps(w: World, c: nat)
    requires Inv(w) && c < |w.decides| && w.decides[c].pc == Finally && w.decides[c].release
    ensures Inv(Step(w, Finalize(c)))
  {
    var w' := Step(w, Finalize(c));
    HandleCalledKeeps(w.slots, c);
    forall i | 0 <= i < |w'.decides| ensures Good(w'.decides[i], w'.slots.calls[i]) {
      assert Good(w.decides[i], w.slots.calls[i]);
      if w.slots.waiters != [] { assert w.slots.waiters[0] in w.slots.waiters; }
    }
  }

  lemma StepKeepsInv(w: World, ev: Event)
    requires Inv(w)
    ensures Inv(Step(w, ev))
  {
    match ev
    case Call => CallKeeps(w);
    case Timer(c) => if c < |w.decides| && w.decides[c].pc == Acquiring && w.slots.calls[c] == Queued { AbortKeeps(w, c); }
    case Finalize(c) => if c < |w.decides| && w.decides[c].pc == Finally && w.decides[c].release { ReleaseKeeps(w, c); }
    case _ =>
  }

  ghost function Run(w: World, evs: seq<Event>): World
    requires Inv(w)
    decreases evs
  {
    if evs == [] then w
    else
      StepKeepsInv(w, evs[0]);
      Run(Step(w, evs[0]), evs[1..])
  }

  lemma {:induction false} RunKeepsInv(w: World, evs: seq<Event>)
    requires Inv(w)
    ensures Inv(Run(w, evs))
    decreases evs
  {
    if evs != [] {
      StepKeepsInv(w, evs[0]);
      RunKeepsInv(Step(w, evs[0]), evs[1..]);
    }
  }

  function Idle(maxConcurrent: nat): World {
    World(NoCalls(maxConcurrent), [])
  }

  /** How often the call's handle was called is how often it got a slot, once it is done. */
  ghost predicate PaidBack(w: World, c: nat)
    requires c < |w.decides|
  {
    && c < |w.slots.calls| && w.decides[c].handleCalls <= 1
    && (w.decides[c].pc == Done ==> (w.decides[c].handleCalls == 1 <==> c in w.slots.granted) && w.slots.calls[c] in {Released, Withdrawn})
    && (w.slots.calls[c] == Holding ==> w.decides[c].pc != Done && w.decides[c].handleCalls == 0)
  }

  /**
   * In every interleaving of calls, grants, deadlines, results and clean-ups: a call that is done
   * called its handle exactly once if it was ever granted a slot and never otherwise, whichever
   * of its races the deadline won; and when all calls are done no slot is taken and nobody waits.
   */
  lemma EverySlotIsPaidBackOnce(maxConcurrent: nat, evs: seq<Event>)
    requires maxConcurrent > 0
    ensures var w := Run(Idle(maxConcurrent), evs);
      && (forall c: nat :: c < |w.decides| ==> PaidBack(w, c))
      && ((forall c :: 0 <= c < |w.decides| ==> w.decides[c].pc == Done) ==> w.slots.active == 0 && w.slots.waiters == [])
  {
    var w := Run(Idle(maxConcurrent), evs);
    RunKeepsInv(Idle(maxConcurrent), evs);
    forall c: nat | c < |w.decides| ensures PaidBack(w, c) { assert Good(w.decides[c], w.slots.calls[c]); }
    if forall c :: 0 <= c < |w.decides| ==> w.decides[c].pc == Done {
      forall c | 0 <= c < |w.slots.calls| ensures w.slots.calls[c] != Holding && w.slots.calls[c] != Queued {
        assert Good(w.decides[c], w.slots.calls[c]);
      }
      NobodyHolds(w.slots.calls);
      NothingIn(w.slots.waiters);
    }
  }

  lemma {:induction false} NobodyHolds(calls: seq<Phase>)
    requires forall c :: 0 <= c < |calls| ==> calls[c] != Holding
    ensures HolderCount(calls) == 0
  {
    if calls != [] { NobodyHolds(calls[..|calls| - 1]); }
  }

  /** The deadline leaves nobody in the queue. */
  lemma TimerEndsTheWait(w: World, c: nat)
    requires Inv(w) && c < |w.decides|
    ensures var w' := Step(w, Timer(c)); c < |w'.decides| && (w'.decides[c].pc == Acquiring ==> Granted(w', c))
  {
    assert Good(w.decides[c], w.slots.calls[c]);
  }

  lemma ContinueEndsTheRace(w: World, c: nat)
    requires Inv(w) && c < |w.decides| && (w.decides[c].pc == Acquiring ==> Granted(w, c))
    ensures var w' := Step(w, Continue(c)); c < |w'.decides| && w'.decides[c].pc != Acquiring
  {
  }

  lemma SettleAndFinalizeEndTheCall(w: World, c: nat)
    requires Inv(w) && c < |w.decides| && w.decides[c].pc != Acquiring
    ensures Inv(Step(w, Settle(c)))
    ensures var w' := Step(Step(w, Settle(c)), Finalize(c)); c < |w'.decides| && w'.decides[c].pc == Done
  {
    StepKeepsInv(w, Settle(c));
  }

  /** The deadline alone brings every call to its end, whatever it waits for. */
  lemma DeadlineEndsTheCall(w: World, c: nat)
    requires Inv(w) && c < |w.decides|
    ensures var after := Run(w, [Timer(c), Continue(c), Settle(c), Finalize(c)]);
            c < |after.decides| && after.decides[c].pc == Done
  {
    RunFour(w, Timer(c), Continue(c), Settle(c), Finalize(c));
    TimerEndsTheWait(w, c);
    ContinueEndsTheRace(Step(w, Timer(c)), c);
    SettleAndFinalizeEndTheCall(Step(Step(w, Timer(c)), Continue(c)), c);
  }

  lemma RunFour(w: World, a: Event, b: Event, d: Event, e: Event)
    requires Inv(w)
    ensures Inv(Step(w, a)) && Inv(Step(Step(w, a), b)) && Inv(Step(Step(Step(w, a), b), d))
    ensures Run(w, [a, b, d, e]) == Step(Step(Step(Step(w, a), b), d), e)
  {
    StepKeepsInv(w, a);
    var w1 := Step(w, a);
    StepKeepsInv(w1, b);
    var w2 := Step(w1, b);
    StepKeepsInv(w2, d);
    var w3 := Step(w2, d);
    StepKeepsInv(w3, e);
    assert [a, b, d, e][1..] == [b, d, e] && [b, d, e][1..] == [d, e] && [d, e][1..] == [e] && [e][1..] == [];
    assert Run(w, [a, b, d, e]) == Run(w1, [b, d, e]) == Run(w2, [d, e]) == Run(w3, [e]) == Run(Step(w3, e), []);
  }
}
