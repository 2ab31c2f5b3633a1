/**
 * One execution of the model gateway: retries of a candidate and the fall-back along a route.
 * Providers, the clock, the abort signal and what other calls do to the circuits while this one
 * waits are functions of the number of awaits passed so far, its tick.
 */
module GatewayExecution {
  import opened Wrappers
  import opened GatewayRules

  datatype Candidate = Candidate(provider: string, model: string)

  datatype Error = Error(code: string, provider: Option<string>, retryable: bool)

  datatype Reply = Answer(text: string) | Rejected(error: Error)

  datatype Attempted = Decided(text: string) | Overdue | GaveUp(error: Error)

  datatype Executed = Won(text: string) | TimedOut(error: Error) | NoRoute | AllFailed(failures: seq<Error>)

  datatype World = World(reply: (Candidate, nat) -> Reply, aborted: nat -> bool, clock: nat -> int, others: (nat, Circuits) -> Circuits)

  datatype Settings = Settings(limits: Limits, maxRetries: nat, retryDelayMs: nat, maxCandidates: nat)

  /** What an execution sees change: the circuits, and how many awaits have passed. */
  datatype Machine = Machine(circuits: Circuits, tick: nat)

  /** One call of a provider: when, what came back, and what was left once that was recorded. */
  datatype Call = Call(at: Machine, reply: Reply, left: Machine)

  /** What became of one candidate of the route, from one machine to another. */
  datatype Visit =
    | Unknown(at: Machine)
    | CircuitOpen(at: Machine)
    | Tried(at: Machine, calls: seq<Call>, result: Attempted, ended: Machine)

  const DEADLINE := Error("deadline_exceeded", None, false)

  /** `normalizeProviderError`, on an error whose code and retryability are known. */
  function Normalize(e: Error, provider: string): Error {
    if e.provider.Some? then e else e.(provider := Some(provider))
  }

  function CircuitKey(c: Candidate): string {
    c.provider + ":" + c.model
  }

  predicate Resolves(providers: set<string>, name: string) {
    && name != ""
    && (|| name in providers || (name == "tabitoken" && "anthropic" in providers)
        || (name == "anthropic" && "tabitoken" in providers))
  }

  function Configured(routes: map<string, seq<Candidate>>, route: string): seq<Candidate> {
    if route in routes then routes[route] else if "standard" in routes then routes["standard"] else []
  }

  /** `slice(0, maxCandidates)` */
  function Examined(route: seq<Candidate>, maxCandidates: nat): seq<Candidate> {
    if |route| <= maxCandidates then route else route[..maxCandidates]
  }

  /** A provider answers to its own name, and the two names of one vendor stand in for each other. */
  lemma ResolvesWhen(providers: set<string>, name: string)
    ensures Resolves(providers, name) <==>
      name != "" && exists p :: p in providers && (p == name || {p, name} == {"tabitoken", "anthropic"})
  {
    if name == "tabitoken" && "anthropic" in providers { assert {"anthropic", name} == {"tabitoken", "anthropic"}; }
    if exists p :: p in providers && {p, name} == {"tabitoken", "anthropic"} {
      var p :| p in providers && {p, name} == {"tabitoken", "anthropic"};
      assert name in {"tabitoken", "anthropic"} && p in {"tabitoken", "anthropic"} && "tabitoken" in {p, name} && "anthropic" in {p, name};
    }
  }

  /** An error keeps its code, its retryability and the provider it names; the candidate's is put in otherwise. */
  lemma NormalizedKeepsTheError(e: Error, provider: string)
    ensures var n := Normalize(e, provider);
      n.code == e.code && n.retryable == e.retryable && n.provider == Some(if e.provider == None then provider else e.provider.value)
  {
  }

  /** Two models of one provider have their own circuits, and so has one model at two providers without a colon. */
  lemma CircuitsAreSeparate(c: Candidate, d: Candidate)
    requires c.provider == d.provider || (':' !in c.provider && ':' !in d.provider)
    ensures CircuitKey(c) == CircuitKey(d) <==> c == d
  {
    var k, l := CircuitKey(c), CircuitKey(d);
    assert k[|c.provider|] == ':' && l[|d.provider|] == ':';
    assert k[..|c.provider|] == c.provider && l[..|d.provider|] == d.provider;
    assert k[|c.provider| + 1..] == c.model && l[|d.provider| + 1..] == d.model;
    if ':' !in c.provider && ':' !in d.provider {
      assert forall i :: 0 <= i < |c.provider| ==> k[i] == c.provider[i] && k[i] != ':';
      assert forall i :: 0 <= i < |d.provider| ==> l[i] == d.provider[i] && l[i] != ':';
    }
  }

  /** What happens to one candidate never changes whether another one may be tried. */
  lemma OthersKeepTheirCircuit(l: Limits, circuits: Circuits, o: Outcome, c: Candidate, d: Candidate, now: int)
    requires (c.provider == d.provider || (':' !in c.provider && ':' !in d.provider)) && c != d
    requires o.key == CircuitKey(c)
    ensures CanAttempt(l, Record(l, circuits, o), CircuitKey(d), now) == CanAttempt(l, circuits, CircuitKey(d), now)
  {
    CircuitsAreSeparate(c, d);
  }

  // ---------------------------------------------------------------- the steps

  /** While this call waits, others may do anything to the circuits. */
  function Awaited(w: World, m: Machine): Machine {
    Machine(w.others(m.tick + 1, m.circuits), m.tick + 1)
  }

  predicate Allowed(s: Settings, w: World, m: Machine, c: Candidate) {
    CanAttempt(s.limits, m.circuits, CircuitKey(c), w.clock(m.tick))
  }

  function AfterAsked(s: Settings, w: World, m: Machine, c: Candidate): Machine {
    m.(circuits := Record(s.limits, m.circuits, Asked(CircuitKey(c), w.clock(m.tick))))
  }

  function AfterWon(s: Settings, m: Machine, c: Candidate): Machine {
    m.(circuits := Record(s.limits, m.circuits, Succeeded(CircuitKey(c))))
  }

  function AfterLost(s: Settings, w: World, m: Machine, c: Candidate, e: Error): Machine {
    m.(circuits := Record(s.limits, m.circuits, FailedWith(CircuitKey(c), e.retryable, w.clock(m.tick))))
  }

  function AfterDelay(s: Settings, w: World, m: Machine): Machine {
    if s.retryDelayMs > 0 then Awaited(w, m) else m
  }

  // ---------------------------------------------------------------- one candidate

  datatype Ran = Ran(result: Attempted, calls: seq<Call>, after: Machine)

  /** The loop of `runCandidate` from its `attempt`-th round on. */
  function RunFrom(s: Settings, w: World, c: Candidate, attempt: nat, m: Machine): Ran
    requires attempt <= s.maxRetries
    decreases s.maxRetries - attempt
  {
    if w.aborted(m.tick) then Ran(Overdue, [], m)
    else
      var reply, m1 := w.reply(c, m.tick), Awaited(w, m);
      if w.aborted(m1.tick) then Ran(Overdue, [Call(m, reply, m1)], m1)
      else match reply
        case Answer(text) => Ran(Decided(text), [Call(m, reply, AfterWon(s, m1, c))], AfterWon(s, m1, c))
        case Rejected(raw) =>
          var e := Normalize(raw, c.provider);
          var m2 := AfterLost(s, w, m1, c, e);
          var call := Call(m, reply, m2);
          if !e.retryable || attempt >= s.maxRetries || !Allowed(s, w, m2, c) then Ran(GaveUp(e), [call], m2)
          else
            var rest := RunFrom(s, w, c, attempt + 1, AfterDelay(s, w, AfterAsked(s, w, m2, c)));
            Ran(rest.result, [call] + rest.calls, rest.after)
  }

  /** The call was in time, and the candidate's circuit, as others left it, has recorded how it went. */
  predicate IsRecorded(s: Settings, w: World, c: Candidate, call: Call) {
    var now := call.at.tick + 1;
    && call.left.tick == now && !w.aborted(now)
    && call.left.circuits == Record(s.limits, w.others(now, call.at.circuits),
                                    match call.reply
                                    case Answer(_) => Succeeded(c.provider + ":" + c.model)
                                    case Rejected(e) => FailedWith(c.provider + ":" + c.model, e.retryable, w.clock(now)))
  }

  /** The call failed with a retryable error, in time, and its circuit lets another one pass. */
  predicate MayRetry(s: Settings, w: World, c: Candidate, call: Call) {
    call.reply.Rejected? && call.reply.error.retryable && IsRecorded(s, w, c, call) && Allowed(s, w, call.left, c)
  }

  /** The machine in which a candidate's circuit has been asked for a try, and then the delay has passed. */
  predicate IsRetry(s: Settings, w: World, c: Candidate, left: Machine, next: Machine) {
    var asked := Record(s.limits, left.circuits, Asked(c.provider + ":" + c.model, w.clock(left.tick)));
    next == if s.retryDelayMs > 0 then Machine(w.others(left.tick + 1, asked), left.tick + 1) else Machine(asked, left.tick)
  }

  /** Every call is this candidate's, at its own time; another one comes only after one that may be retried. */
  ghost predicate GoodCalls(s: Settings, w: World, c: Candidate, calls: seq<Call>) {
    && (forall k :: 0 <= k < |calls| ==> calls[k].reply == w.reply(c, calls[k].at.tick) && !w.aborted(calls[k].at.tick))
    && (forall k :: 0 <= k < |calls| - 1 ==> MayRetry(s, w, c, calls[k]) && IsRetry(s, w, c, calls[k].left, calls[k + 1].at))
  }

  /** Why the candidate was left: its answer, the deadline, or an error that cannot or must not be retried. */
  ghost predicate GoodEnd(s: Settings, w: World, c: Candidate, rounds: nat, last: Call, count: nat, result: Attempted, after: Machine) {
    match result
    case Overdue =>
      && w.aborted(after.tick)
      && (after == Machine(w.others(last.at.tick + 1, last.at.circuits), last.at.tick + 1)
          || (MayRetry(s, w, c, last) && IsRetry(s, w, c, last.left, after)))
    case Decided(text) => last.reply == Answer(text) && last.left == after && IsRecorded(s, w, c, last) && CircuitKey(c) !in after.circuits
    case GaveUp(e) =>
      && last.reply.Rejected? && e == Normalize(last.reply.error, c.provider) && last.left == after
      && IsRecorded(s, w, c, last)
      && (!e.retryable || count == rounds || !Allowed(s, w, after, c))
  }

  ghost predicate GoodRun(s: Settings, w: World, c: Candidate, rounds: nat, m: Machine, ran: Ran) {
    && GoodCalls(s, w, c, ran.calls) && |ran.calls| <= rounds
    && if ran.calls == [] then w.aborted(m.tick) && ran.result == Overdue && ran.after == m
       else ran.calls[0].at == m && GoodEnd(s, w, c, rounds, ran.calls[|ran.calls| - 1], |ran.calls|, ran.result, ran.after)
  }

  lemma OneMoreCall(s: Settings, w: World, c: Candidate, call: Call, calls: seq<Call>)
    requires GoodCalls(s, w, c, calls) && call.reply == w.reply(c, call.at.tick) && !w.aborted(call.at.tick)
    requires calls != [] ==> MayRetry(s, w, c, call)
    requires calls != [] ==> IsRetry(s, w, c, call.left, calls[0].at)
    ensures GoodCalls(s, w, c, [call] + calls)
  {
  }

  lemma OneMoreRound(s: Settings, w: World, c: Candidate, rounds: nat, m: Machine, call: Call, m3: Machine, rest: Ran)
    requires rounds > 0 && GoodRun(s, w, c, rounds - 1, m3, rest)
    requires call.at == m && call.reply == w.reply(c, m.tick) && !w.aborted(m.tick) && MayRetry(s, w, c, call)
    requires IsRetry(s, w, c, call.left, m3)
    ensures GoodRun(s, w, c, rounds, m, Ran(rest.result, [call] + rest.calls, rest.after))
  {
    OneMoreCall(s, w, c, call, rest.calls);
    var calls := [call] + rest.calls;
    assert rest.calls != [] ==> calls[|calls| - 1] == rest.calls[|rest.calls| - 1];
  }

  /** What one round leaves: the call that failed is recorded, and the circuit is asked for the next one. */
  lemma RoundIsRecorded(s: Settings, w: World, c: Candidate, m: Machine)
    requires w.reply(c, m.tick).Rejected? && !w.aborted(m.tick + 1)
    ensures var reply := w.reply(c, m.tick); var e := Normalize(reply.error, c.provider);
      var m2 := AfterLost(s, w, Awaited(w, m), c, e); var m3 := AfterDelay(s, w, AfterAsked(s, w, m2, c));
      && IsRecorded(s, w, c, Call(m, reply, m2)) && IsRetry(s, w, c, m2, m3)
      && (e.retryable && Allowed(s, w, m2, c) ==> MayRetry(s, w, c, Call(m, reply, m2)))
  {
  }

  lemma AnswerIsRecorded(s: Settings, w: World, c: Candidate, m: Machine)
    requires w.reply(c, m.tick).Answer? && !w.aborted(m.tick + 1)
    ensures var m1 := AfterWon(s, Awaited(w, m), c);
      IsRecorded(s, w, c, Call(m, w.reply(c, m.tick), m1)) && CircuitKey(c) !in m1.circuits
  {
  }

  /** A run of one call, or of none. */
  lemma LastRound(s: Settings, w: World, c: Candidate, rounds: nat, m: Machine, ran: Ran)
    requires rounds > 0 && !w.aborted(m.tick) && |ran.calls| == 1 && ran.calls[0].at == m && ran.calls[0].reply == w.reply(c, m.tick)
    requires GoodEnd(s, w, c, rounds, ran.calls[0], 1, ran.result, ran.after)
    ensures GoodRun(s, w, c, rounds, m, ran)
  {
  }

  /** At most the rounds that are left, and another call only after a retryable error that its circuit lets pass. */
  lemma {:induction false} RunsAreExact(s: Settings, w: World, c: Candidate, attempt: nat, m: Machine)
    requires attempt <= s.maxRetries
    ensures GoodRun(s, w, c, s.maxRetries + 1 - attempt, m, RunFrom(s, w, c, attempt, m))
    decreases s.maxRetries - attempt
  {
    var ran, rounds := RunFrom(s, w, c, attempt, m), s.maxRetries + 1 - attempt;
    if !w.aborted(m.tick) {
      var reply, m1 := w.reply(c, m.tick), Awaited(w, m);
      if w.aborted(m1.tick) {
        LastRound(s, w, c, rounds, m, ran);
      } else if reply.Answer? {
        AnswerIsRecorded(s, w, c, m);
        LastRound(s, w, c, rounds, m, ran);
      } else {
        var e := Normalize(reply.error, c.provider);
        var m2 := AfterLost(s, w, m1, c, e);
        RoundIsRecorded(s, w, c, m);
        if e.retryable && attempt < s.maxRetries && Allowed(s, w, m2, c) {
          var m3 := AfterDelay(s, w, AfterAsked(s, w, m2, c));
          RunsAreExact(s, w, c, attempt + 1, m3);
          OneMoreRound(s, w, c, rounds, m, Call(m, reply, m2), m3, RunFrom(s, w, c, attempt + 1, m3));
        } else {
          LastRound(s, w, c, rounds, m, ran);
        }
      }
    }
  }

  // ---------------------------------------------------------------- the route

  datatype Done = Done(result: Executed, visits: seq<Visit>, after: Machine)

  /** The loop of `execute` over the candidates that are left. */
  function ExecuteFrom(s: Settings, w: World, providers: set<string>, route: seq<Candidate>, m: Machine): Done {
    if route == [] then Done(AllFailed([]), [], m)
    else if w.aborted(m.tick) then Done(TimedOut(DEADLINE), [], m)
    else
      var c := route[0];
      if !Resolves(providers, c.provider) then
        Behind(Unknown(m), Error("unavailable", Some(c.provider), false), ExecuteFrom(s, w, providers, route[1..], m))
      else if !Allowed(s, w, m, c) then
        Behind(CircuitOpen(m), Error("circuit_open", Some(c.provider), false), ExecuteFrom(s, w, providers, route[1..], m))
      else
        var ran := RunFrom(s, w, c, 0, AfterAsked(s, w, m, c));
        var v := Tried(m, ran.calls, ran.result, ran.after);
        match ran.result
        case Decided(text) => Done(Won(text), [v], ran.after)
        case Overdue => Done(TimedOut(DEADLINE), [v], ran.after)
        case GaveUp(e) =>
          if e.code == "deadline_exceeded" then Done(TimedOut(e), [v], ran.after)
          else Behind(v, e, ExecuteFrom(s, w, providers, route[1..], ran.after))
  }

  /** What followed a failed visit, with the visit and its failure in front. */
  function Behind(v: Visit, e: Error, rest: Done): Done {
    Done(if rest.result.AllFailed? then AllFailed([e] + rest.result.failures) else rest.result, [v] + rest.visits, rest.after)
  }

  function ExecutionOf(s: Settings, w: World, routes: map<string, seq<Candidate>>, route: string, providers: set<string>, m: Machine): Done {
    if Configured(routes, route) == [] then Done(NoRoute, [], m)
    else ExecuteFrom(s, w, providers, Examined(Configured(routes, route), s.maxCandidates), m)
  }

  function End(v: Visit): Machine {
    if v.Tried? then v.ended else v.at
  }

  /** A candidate is passed over exactly when its provider is unknown or its circuit refuses at that moment. */
  ghost predicate GoodVisit(s: Settings, w: World, providers: set<string>, c: Candidate, v: Visit) {
    && !w.aborted(v.at.tick)
    && (v.Unknown? <==> !Resolves(providers, c.provider))
    && (v.CircuitOpen? <==> Resolves(providers, c.provider) && !Allowed(s, w, v.at, c))
    && (v.Tried? ==>
          && v.calls != []
          && GoodRun(s, w, c, s.maxRetries + 1, Machine(Record(s.limits, v.at.circuits, Asked(CircuitKey(c), w.clock(v.at.tick))), v.at.tick),
                     Ran(v.result, v.calls, v.ended)))
  }

  /** The one error that is kept for a visit that failed. */
  function FailureOf(v: Visit, c: Candidate): Option<Error> {
    match v
    case Unknown(_) => Some(Error("unavailable", Some(c.provider), false))
    case CircuitOpen(_) => Some(Error("circuit_open", Some(c.provider), false))
    case Tried(_, _, result, _) => if result.GaveUp? && result.error.code != "deadline_exceeded" then Some(result.error) else None
  }

  /** Visit `i` is about candidate `i`, and starts where the one before it ended. */
  ghost predicate InOrder(s: Settings, w: World, providers: set<string>, route: seq<Candidate>, m: Machine, visits: seq<Visit>) {
    AllGood(s, w, providers, route, visits) && Chained(m, visits)
  }

  ghost predicate AllGood(s: Settings, w: World, providers: set<string>, route: seq<Candidate>, visits: seq<Visit>) {
    |visits| <= |route| && forall i :: 0 <= i < |visits| ==> GoodVisit(s, w, providers, route[i], visits[i])
  }

  /** Each visit starts where the one before it ended. */
  ghost predicate Chained(m: Machine, visits: seq<Visit>) {
    forall i :: 0 <= i < |visits| ==> visits[i].at == StartOf(m, visits, i)
  }

  function StartOf(m: Machine, visits: seq<Visit>, i: nat): Machine
    requires i < |visits|
  {
    if i == 0 then m else End(visits[i - 1])
  }

  ghost predicate FailedUpTo(route: seq<Candidate>, visits: seq<Visit>, n: nat) {
    n <= |visits| <= |route| && forall i :: 0 <= i < n ==> FailureOf(visits[i], route[i]).Some?
  }

  /** What an end says about the visits made. */
  ghost predicate GoodResult(w: World, route: seq<Candidate>, done: Done) {
    var visits := done.visits;
    match done.result
    case NoRoute => false
    case Won(text) => visits != [] && FailedUpTo(route, visits, |visits| - 1) && visits[|visits| - 1].Tried?
                      && visits[|visits| - 1].result == Decided(text)
    case AllFailed(failures) =>
      && |visits| == |failures| == |route| && (route != [] ==> !w.aborted(done.after.tick))
      && forall i :: 0 <= i < |route| ==> FailureOf(visits[i], route[i]) == Some(failures[i])
    case TimedOut(e) =>
      || (e == DEADLINE && w.aborted(done.after.tick) && |visits| < |route| && FailedUpTo(route, visits, |visits|))
      || (visits != [] && FailedUpTo(route, visits, |visits| - 1) && visits[|visits| - 1].Tried?
          && EndsInDeadline(w, visits[|visits| - 1].result, e, done.after))
  }

  predicate EndsInDeadline(w: World, result: Attempted, e: Error, after: Machine) {
    || (result == Overdue && e == DEADLINE && w.aborted(after.tick))
    || (result == GaveUp(e) && e.code == "deadline_exceeded")
  }

  ghost predicate GoodExecution(s: Settings, w: World, providers: set<string>, route: seq<Candidate>, m: Machine, done: Done) {
    && InOrder(s, w, providers, route, m, done.visits) && GoodResult(w, route, done)
    && done.after == if done.visits == [] then m else End(done.visits[|done.visits| - 1])
  }

  lemma OneMoreVisit(s: Settings, w: World, providers: set<string>, route: seq<Candidate>, m: Machine, v: Visit, e: Error, rest: Done)
    requires route != [] && GoodExecution(s, w, providers, route[1..], End(v), rest)
    requires v.at == m && GoodVisit(s, w, providers, route[0], v) && FailureOf(v, route[0]) == Some(e)
    requires !w.aborted(End(v).tick)
    ensures GoodExecution(s, w, providers, route, m, Behind(v, e, rest))
  {
    VisitsGrow(s, w, providers, route, v, rest.visits);
    ChainGrows(m, v, rest.visits);
    ResultGrows(w, route, v, e, rest);
  }

  lemma VisitsGrow(s: Settings, w: World, providers: set<string>, route: seq<Candidate>, v: Visit, visits: seq<Visit>)
    requires route != [] && GoodVisit(s, w, providers, route[0], v) && AllGood(s, w, providers, route[1..], visits)
    ensures AllGood(s, w, providers, route, [v] + visits)
  {
    forall i | 0 <= i < |[v] + visits| ensures GoodVisit(s, w, providers, route[i], ([v] + visits)[i]) {
      if i > 0 { assert GoodVisit(s, w, providers, route[1..][i - 1], visits[i - 1]); }
    }
  }

  lemma ChainGrows(m: Machine, v: Visit, visits: seq<Visit>)
    requires v.at == m && Chained(End(v), visits)
    ensures Chained(m, [v] + visits)
  {
    var longer := [v] + visits;
    forall i | 0 <= i < |longer| ensures longer[i].at == StartOf(m, longer, i) {
      if i > 0 { assert visits[i - 1].at == StartOf(End(v), visits, i - 1); }
    }
  }

  lemma ResultGrows(w: World, route: seq<Candidate>, v: Visit, e: Error, rest: Done)
    requires route != [] && GoodResult(w, route[1..], rest) && FailureOf(v, route[0]) == Some(e)
    requires rest.visits == [] ==> rest.after == End(v)
    requires !w.aborted(End(v).tick)
    ensures GoodResult(w, route, Behind(v, e, rest))
  {
    var done, tail := Behind(v, e, rest), route[1..];
    forall i | 0 < i < |done.visits| && i < |route| ensures FailureOf(done.visits[i], route[i]) == FailureOf(rest.visits[i - 1], tail[i - 1]) {
      assert route[i] == tail[i - 1];
    }
  }

  lemma OnlyVisit(s: Settings, w: World, providers: set<string>, route: seq<Candidate>, m: Machine, ran: Ran, result: Executed)
    requires route != [] && !w.aborted(m.tick) && Resolves(providers, route[0].provider) && Allowed(s, w, m, route[0])
    requires ran == RunFrom(s, w, route[0], 0, AfterAsked(s, w, m, route[0]))
    requires match ran.result
             case Decided(text) => result == Won(text)
             case Overdue => result == TimedOut(DEADLINE)
             case GaveUp(e) => e.code == "deadline_exceeded" && result == TimedOut(e)
    ensures GoodExecution(s, w, providers, route, m, Done(result, [Tried(m, ran.calls, ran.result, ran.after)], ran.after))
  {
    RunsAreExact(s, w, route[0], 0, AfterAsked(s, w, m, route[0]));
  }

  lemma {:induction false} RoutesAreExact(s: Settings, w: World, providers: set<string>, route: seq<Candidate>, m: Machine)
    ensures GoodExecution(s, w, providers, route, m, ExecuteFrom(s, w, providers, route, m))
    decreases |route|
  {
    if route != [] && !w.aborted(m.tick) {
      var c, rest := route[0], route[1..];
      if !Resolves(providers, c.provider) {
        RoutesAreExact(s, w, providers, rest, m);
        OneMoreVisit(s, w, providers, route, m, Unknown(m), Error("unavailable", Some(c.provider), false), ExecuteFrom(s, w, providers, rest, m));
      } else if !Allowed(s, w, m, c) {
        RoutesAreExact(s, w, providers, rest, m);
        OneMoreVisit(s, w, providers, route, m, CircuitOpen(m), Error("circuit_open", Some(c.provider), false),
                     ExecuteFrom(s, w, providers, rest, m));
      } else {
        var ran := RunFrom(s, w, c, 0, AfterAsked(s, w, m, c));
        if ran.result.GaveUp? && ran.result.error.code != "deadline_exceeded" {
          RunsAreExact(s, w, c, 0, AfterAsked(s, w, m, c));
          RoutesAreExact(s, w, providers, rest, ran.after);
          OneMoreVisit(s, w, providers, route, m, Tried(m, ran.calls, ran.result, ran.after), ran.result.error,
                       ExecuteFrom(s, w, providers, rest, ran.after));
        } else {
          OnlyVisit(s, w, providers, route, m, ran, ExecuteFrom(s, w, providers, route, m).result);
        }
      }
    }
  }

  // ---------------------------------------------------------------- what an execution promises

  lemma {:induction false} VisitsAdvance(m: Machine, visits: seq<Visit>, i: nat, j: nat)
    requires Chained(m, visits) && i < j < |visits|
    requires forall k :: 0 <= k < |visits| ==> visits[k].at.tick <= End(visits[k]).tick
    ensures End(visits[i]).tick <= visits[j].at.tick
    decreases j
  {
    assert visits[j].at == StartOf(m, visits, j);
    if i < j - 1 { VisitsAdvance(m, visits, i, j - 1); }
  }

  lemma {:induction false} CallsStart(s: Settings, w: World, c: Candidate, calls: seq<Call>, k: nat)
    requires GoodCalls(s, w, c, calls) && k < |calls|
    ensures calls[0].at.tick <= calls[k].at.tick <= calls[|calls| - 1].at.tick
    ensures k > 0 ==> calls[0].at.tick < calls[k].at.tick
    decreases |calls|
  {
    if k == |calls| - 1 && k > 0 {
      assert GoodCalls(s, w, c, calls[..k]);
      CallsStart(s, w, c, calls[..k], k - 1);
    } else if |calls| > 1 {
      var before := calls[..|calls| - 1];
      assert GoodCalls(s, w, c, before);
      CallsStart(s, w, c, before, k);
    }
  }

  /** All calls of a visit fall between its start and its end. */
  lemma CallsAreInside(s: Settings, w: World, providers: set<string>, c: Candidate, v: Visit)
    requires GoodVisit(s, w, providers, c, v)
    ensures v.at.tick <= End(v).tick
    ensures v.Tried? ==> forall k :: 0 <= k < |v.calls| ==> v.at.tick <= v.calls[k].at.tick < v.ended.tick
  {
    if v.Tried? {
      forall k | 0 <= k < |v.calls| ensures v.at.tick <= v.calls[k].at.tick < v.ended.tick { CallsStart(s, w, c, v.calls, k); }
    }
  }

  predicate IsCall(visits: seq<Visit>, i: nat, k: nat) {
    i < |visits| && visits[i].Tried? && k < |visits[i].calls|
  }

  /** A provider's answer is there only where the execution ended. */
  ghost predicate AnswersEndIt(visits: seq<Visit>) {
    forall i: nat, k: nat :: IsCall(visits, i, k) && visits[i].calls[k].reply.Answer? ==>
      i == |visits| - 1 && k == |visits[i].calls| - 1
  }

  /** Calls of an earlier visit are earlier; within a visit the ticks are those of `GoodCalls`. */
  ghost predicate OneAfterTheOther(visits: seq<Visit>) {
    forall i: nat, j: nat, k: nat, l: nat :: i < j && IsCall(visits, i, k) && IsCall(visits, j, l) ==>
      visits[i].calls[k].at.tick < visits[j].calls[l].at.tick
  }

  /**
   * Candidates are visited in route order, each where the one before it ended and no two calls at
   * once; one is passed over exactly when its provider is unknown or its circuit refuses at that
   * moment; the first answer in time is returned; without one, and unless the deadline came, there
   * is exactly one failure for each examined candidate, in order; and it times out exactly when
   * the signal is aborted at the end or the last candidate said so.
   */
  ghost predicate Exact(s: Settings, w: World, providers: set<string>, examined: seq<Candidate>, m: Machine, done: Done) {
    && InOrder(s, w, providers, examined, m, done.visits) && GoodResult(w, examined, done)
    && OneAfterTheOther(done.visits) && AnswersEndIt(done.visits)
    && (done.result.Won? ==> IsAnsweredBy(done.visits[|done.visits| - 1], done.result.text))
    && (done.result.TimedOut? <==>
          w.aborted(done.after.tick) || (done.visits != [] && SaysDeadline(done.visits[|done.visits| - 1])))
  }

  predicate IsAnsweredBy(v: Visit, text: string) {
    v.Tried? && v.calls != [] && v.calls[|v.calls| - 1].reply == Answer(text)
  }

  lemma ExactnessFollows(s: Settings, w: World, providers: set<string>, route: seq<Candidate>, m: Machine, done: Done)
    requires route != [] && GoodExecution(s, w, providers, route, m, done)
    ensures Exact(s, w, providers, route, m, done)
  {
    OrderIsTime(s, w, providers, route, m, done.visits);
    AnswersAreLast(s, w, providers, route, m, done);
    DeadlineIff(s, w, providers, route, m, done);
    if done.result.Won? { WinnerAnswered(s, w, providers, route, m, done); }
  }

  lemma WinnerAnswered(s: Settings, w: World, providers: set<string>, route: seq<Candidate>, m: Machine, done: Done)
    requires GoodExecution(s, w, providers, route, m, done) && done.result.Won?
    ensures IsAnsweredBy(done.visits[|done.visits| - 1], done.result.text)
  {
    var last := |done.visits| - 1;
    assert GoodVisit(s, w, providers, route[last], done.visits[last]);
  }

  /**
   * Every execution is exact, for all providers, clocks, aborts and interference; there is no
   * route exactly when none is configured; and no more than the first `maxCandidates` are examined.
   */
  lemma ExecutionsAreExact(s: Settings, w: World, routes: map<string, seq<Candidate>>, route: string, providers: set<string>, m: Machine)
    requires s.maxCandidates > 0
    ensures var configured := Configured(routes, route); var examined := Examined(configured, s.maxCandidates);
            var done := ExecutionOf(s, w, routes, route, providers, m);
      && (route in routes ==> configured == routes[route])
      && (route !in routes ==> configured == if "standard" in routes then routes["standard"] else [])
      && |examined| <= s.maxCandidates && examined <= configured && (|examined| == s.maxCandidates || examined == configured)
      && (done.result == NoRoute <==> configured == [])
      && (if configured == [] then done == Done(NoRoute, [], m) else Exact(s, w, providers, examined, m, done))
  {
    var examined := Examined(Configured(routes, route), s.maxCandidates);
    if Configured(routes, route) != [] {
      RoutesAreExact(s, w, providers, examined, m);
      ExactnessFollows(s, w, providers, examined, m, ExecuteFrom(s, w, providers, examined, m));
    }
  }

  /** The candidate's own error carries the deadline's code. */
  predicate SaysDeadline(v: Visit) {
    v.Tried? && v.result.GaveUp? && v.result.error.code == "deadline_exceeded"
  }

  lemma OrderIsTime(s: Settings, w: World, providers: set<string>, route: seq<Candidate>, m: Machine, visits: seq<Visit>)
    requires InOrder(s, w, providers, route, m, visits)
    ensures OneAfterTheOther(visits)
  {
    forall k | 0 <= k < |visits| ensures visits[k].at.tick <= End(visits[k]).tick { CallsAreInside(s, w, providers, route[k], visits[k]); }
    forall i: nat, j: nat, k: nat, l: nat | i < j && IsCall(visits, i, k) && IsCall(visits, j, l)
      ensures visits[i].calls[k].at.tick < visits[j].calls[l].at.tick
    {
      VisitsAdvance(m, visits, i, j);
      CallsAreInside(s, w, providers, route[i], visits[i]);
      CallsAreInside(s, w, providers, route[j], visits[j]);
    }
  }

  lemma AnswersAreLast(s: Settings, w: World, providers: set<string>, route: seq<Candidate>, m: Machine, done: Done)
    requires GoodExecution(s, w, providers, route, m, done)
    ensures AnswersEndIt(done.visits)
  {
    var visits := done.visits;
    forall i: nat, k: nat | IsCall(visits, i, k) && visits[i].calls[k].reply.Answer?
      ensures i == |visits| - 1 && k == |visits[i].calls| - 1
    {
      assert GoodVisit(s, w, providers, route[i], visits[i]);
      assert i < |visits| - 1 ==> FailureOf(visits[i], route[i]).Some?;
    }
  }

  lemma DeadlineIff(s: Settings, w: World, providers: set<string>, route: seq<Candidate>, m: Machine, done: Done)
    requires route != [] && GoodExecution(s, w, providers, route, m, done)
    ensures done.result.TimedOut? <==>
      w.aborted(done.after.tick) || (done.visits != [] && SaysDeadline(done.visits[|done.visits| - 1]))
  {
    if done.visits != [] {
      var last := |done.visits| - 1;
      assert GoodVisit(s, w, providers, route[last], done.visits[last]);
    }
  }
}
