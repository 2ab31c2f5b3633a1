/** The gateway object: its slots, its circuits, and the retry and fallback loops. */
module ModelGateway {
  import opened Sequences
  import opened Wrappers
  import opened GatewayRules
  import opened GatewayExecution

  /** `whole` is the calls made so far, and then `rest`. */
  ghost predicate RunsOn(whole: Ran, made: seq<Call>, rest: Ran) {
    whole == Ran(rest.result, made + rest.calls, rest.after)
  }

  lemma RunsOnAfter(whole: Ran, made: seq<Call>, call: Call, rest: Ran, next: Ran)
    requires RunsOn(whole, made, rest) && rest == Ran(next.result, [call] + next.calls, next.after)
    ensures RunsOn(whole, made + [call], next)
  {
    Associative(made, [call], next.calls);
  }

  /** `whole` is the visits made and the failures kept so far, and then `rest`. */
  ghost predicate ExecutesOn(whole: Done, visits: seq<Visit>, failures: seq<Error>, rest: Done) {
    && whole.visits == visits + rest.visits && whole.after == rest.after
    && whole.result == if rest.result.AllFailed? then AllFailed(failures + rest.result.failures) else rest.result
  }

  lemma ExecutesOnAfter(whole: Done, visits: seq<Visit>, failures: seq<Error>, v: Visit, e: Error, next: Done)
    requires ExecutesOn(whole, visits, failures, Behind(v, e, next))
    ensures ExecutesOn(whole, visits + [v], failures + [e], next)
  {
    Associative(visits, [v], next.visits);
    if next.result.AllFailed? { Associative(failures, [e], next.result.failures); }
  }

  class Gateway {
    const limits: Limits
    const maxRetriesPerCandidate: nat
    const retryDelayMs: nat
    const maxCandidates: nat
    const maxConcurrent: nat
    const world: World
    var active: int
    var waiters: seq<nat>
    var calls: seq<Phase>
    ghost var granted: seq<nat>
    var circuits: Circuits
    var tick: nat

    constructor (limits: Limits, maxRetriesPerCandidate: nat, retryDelayMs: nat, maxCandidates: nat, maxConcurrent: nat, world: World)
      requires limits.threshold > 0 && maxCandidates > 0 && maxConcurrent > 0
      ensures ValidSlots() && View() == NoCalls(maxConcurrent) && circuits == map[]
    {
      this.limits, this.maxRetriesPerCandidate, this.retryDelayMs := limits, maxRetriesPerCandidate, retryDelayMs;
      this.maxCandidates, this.maxConcurrent, this.world := maxCandidates, maxConcurrent, world;
      active, waiters, calls, granted, circuits, tick := 0, [], [], [], map[], 0;
    }

    // -------------------------------------------------------------- slots

    ghost function View(): Slots
      reads this
    {
      Slots(maxConcurrent, active, waiters, calls, granted)
    }

    function Config(): Settings {
      Settings(limits, maxRetriesPerCandidate, retryDelayMs, maxCandidates)
    }

    ghost function Sees(): Machine
      reads this
    {
      Machine(circuits, tick)
    }

    ghost predicate ValidSlots()
      reads this
    {
      Inv(View())
    }

    method Acquire() returns (call: nat)
      requires ValidSlots()
      modifies this`active, this`waiters, this`calls, this`granted
      ensures ValidSlots() && View() == Step(old(View()), Arrive)
      ensures call == old(|calls|) < |calls|
    {
      StepKeepsInv(View(), Arrive);
      call := |calls|;
      if active < maxConcurrent {
        active := active + 1;
        calls := calls + [Holding];
        granted := granted + [call];
      } else {
        calls := calls + [Queued];
        waiters := waiters + [call];
      }
    }

    /** The deadline of a call that still waits: its abort listener. */
    method OnAbort(call: nat)
      requires ValidSlots() && call < |calls| && calls[call] == Queued
      modifies this`active, this`waiters, this`calls, this`granted
      ensures ValidSlots() && View() == Step(old(View()), Deadline(call))
    {
      StepKeepsInv(View(), Deadline(call));
      waiters := Without(waiters, call);
      calls := calls[call := Withdrawn];
    }

    /** A release handle. A second call of the same handle does nothing. */
    method CallHandle(call: nat)
      requires ValidSlots() && call < |calls| && (calls[call] == Holding || calls[call] == Released)
      modifies this`active, this`waiters, this`calls, this`granted
      ensures ValidSlots() && View() == Step(old(View()), Finish(call))
      ensures old(calls[call]) == Released ==> View() == old(View())
    {
      StepKeepsInv(View(), Finish(call));
      if calls[call] == Released { return; }
      calls := calls[call := Released];
      active := Max(0, active - 1);
      if |waiters| > 0 {
        var waiter := waiters[0];
        waiters := waiters[1..];
        active := active + 1;
        calls := calls[waiter := Holding];
        granted := granted + [waiter];
      }
    }

    // -------------------------------------------------------------- circuits

    method AskCircuit(c: Candidate) returns (allowed: bool)
      modifies this`circuits
      ensures allowed == Allowed(Config(), world, old(Sees()), c)
      ensures Sees() == AfterAsked(Config(), world, old(Sees()), c)
    {
      var key := CircuitKey(c);
      if key !in circuits || circuits[key].openedAt.None? { return true; }
      if world.clock(tick) - circuits[key].openedAt.value < limits.openMs { return false; }
      if circuits[key].halfOpen { return false; }
      circuits := circuits[key := circuits[key].(halfOpen := true)];
      return true;
    }

    method RecordSuccess(c: Candidate)
      modifies this`circuits
      ensures Sees() == AfterWon(Config(), old(Sees()), c)
    {
      circuits := circuits - {CircuitKey(c)};
    }

    method RecordFailure(c: Candidate, e: Error)
      modifies this`circuits
      ensures Sees() == AfterLost(Config(), world, old(Sees()), c, e)
    {
      if !e.retryable { return; }
      var key := CircuitKey(c);
      var current := if key in circuits then circuits[key] else Circuit(0, None, false);
      var failures := current.failures + 1;
      var shouldOpen := current.halfOpen || failures >= limits.threshold;
      circuits := circuits[key := Circuit(failures, if shouldOpen then Some(world.clock(tick)) else None, false)];
    }

    method Await()
      modifies this`circuits, this`tick
      ensures Sees() == Awaited(world, old(Sees()))
    {
      tick := tick + 1;
      circuits := world.others(tick, circuits);
    }

    // -------------------------------------------------------------- retry and fallback

    method RunCandidate(c: Candidate) returns (r: Attempted, made: seq<Call>)
      modifies this`circuits, this`tick
      ensures Ran(r, made, Sees()) == RunFrom(Config(), world, c, 0, old(Sees()))
    {
      made := [];
      var attempt := 0;
      ghost var whole := RunFrom(Config(), world, c, 0, Sees());
      Empty(whole.calls);
      while attempt <= maxRetriesPerCandidate
        invariant 0 <= attempt <= maxRetriesPerCandidate
        invariant RunsOn(whole, made, RunFrom(Config(), world, c, attempt, Sees()))
        decreases maxRetriesPerCandidate - attempt
      {
        ghost var rest := RunFrom(Config(), world, c, attempt, Sees());
        Empty(made);
        if world.aborted(tick) { return Overdue, made; }
        var asked, reply := Machine(circuits, tick), world.reply(c, tick);
        Await();
        if world.aborted(tick) { return Overdue, made + [Call(asked, reply, Machine(circuits, tick))]; }
        if reply.Answer? {
          RecordSuccess(c);
          return Decided(reply.text), made + [Call(asked, reply, Machine(circuits, tick))];
        }
        var error := Normalize(reply.error, c.provider);
        RecordFailure(c, error);
        var call := Call(asked, reply, Machine(circuits, tick));
        if !error.retryable || attempt >= maxRetriesPerCandidate { return GaveUp(error), made + [call]; }
        var allowed := AskCircuit(c);
        if !allowed { return GaveUp(error), made + [call]; }
        attempt := attempt + 1;
        if retryDelayMs > 0 { Await(); }
        RunsOnAfter(whole, made, call, rest, RunFrom(Config(), world, c, attempt, Sees()));
        made := made + [call];
      }
      assert false;
    }

    method Execute(routes: map<string, seq<Candidate>>, route: string, providers: set<string>)
      returns (r: Executed, visits: seq<Visit>)
      modifies this`circuits, this`tick
      ensures Done(r, visits, Sees()) == ExecutionOf(Config(), world, routes, route, providers, old(Sees()))
    {
      visits := [];
      var configured := Configured(routes, route);
      if |configured| == 0 { return NoRoute, visits; }
      var failures: seq<Error> := [];
      var examined := Examined(configured, maxCandidates);
      ghost var whole := ExecuteFrom(Config(), world, providers, examined, Sees());
      Empty(whole.visits);
      if whole.result.AllFailed? { Empty(whole.result.failures); }
      for i := 0 to |examined|
        invariant ExecutesOn(whole, visits, failures, ExecuteFrom(Config(), world, providers, examined[i..], Sees()))
      {
        Empty(visits);
        assert examined[i..][0] == examined[i] && examined[i..][1..] == examined[i + 1..];
        if world.aborted(tick) { return TimedOut(DEADLINE), visits; }
        var c := examined[i];
        var visit, error;
        if !Resolves(providers, c.provider) {
          visit, error := Unknown(Machine(circuits, tick)), Error("unavailable", Some(c.provider), false);
        } else {
          var at := Machine(circuits, tick);
          var allowed := AskCircuit(c);
          if !allowed {
            visit, error := CircuitOpen(at), Error("circuit_open", Some(c.provider), false);
          } else {
            var result, made := RunCandidate(c);
            visit := Tried(at, made, result, Machine(circuits, tick));
            match result {
              case Decided(text) => return Won(text), visits + [visit];
              case Overdue => return TimedOut(DEADLINE), visits + [visit];
              case GaveUp(e) =>
                if e.code == "deadline_exceeded" { return TimedOut(e), visits + [visit]; }
                error := e;
            }
          }
        }
        ExecutesOnAfter(whole, visits, failures, visit, error, ExecuteFrom(Config(), world, providers, examined[i + 1..], Sees()));
        visits, failures := visits + [visit], failures + [error];
      }
      Empty(visits);
      Empty(failures);
      r := AllFailed(failures);
    }
  }
}
