/**
 * A mutex per key built from promise tails: a call waits for the tail it found, and the table of
 * tails forgets a key when the call that put the tail there leaves.
 */
module KeyedMutex {
  import opened Wrappers

  datatype Phase = Waiting | Running | Done

  /** A call with the tail it waits for; `previous.None?` is a promise that is already resolved. */
  datatype Ticket<K> = Ticket(key: K, previous: Option<nat>, phase: Phase)

  /** Every call ever made, and the last tail of each key as the number of the call that made it. */
  datatype State<K> = State(tickets: seq<Ticket<K>>, locks: map<K, nat>)

  datatype Event<K> =
    | Call(key: K)
    | Start(ticket: nat)
    | Finish(ticket: nat)

  /** `previous.then(() => current)` resolves once the chain before it and its own call are done. */
  predicate TailResolved<K>(tickets: seq<Ticket<K>>, t: nat)
    requires t < |tickets|
    decreases t
  {
    && tickets[t].phase == Done
    && (tickets[t].previous.Some? ==> tickets[t].previous.value < t && TailResolved(tickets, tickets[t].previous.value))
  }

  predicate MayStart<K>(tickets: seq<Ticket<K>>, t: nat) {
    && t < |tickets| && tickets[t].phase == Waiting
    && (tickets[t].previous.Some? ==> tickets[t].previous.value < t && TailResolved(tickets, tickets[t].previous.value))
  }

  function Called<K(==)>(s: State<K>, key: K): State<K> {
    var previous := if key in s.locks then Some(s.locks[key]) else None;
    State(s.tickets + [Ticket(key, previous, Waiting)], s.locks[key := |s.tickets|])
  }

  function Finished<K(==)>(s: State<K>, t: nat): State<K>
    requires t < |s.tickets|
  {
    var key := s.tickets[t].key;
    State(s.tickets[t := s.tickets[t].(phase := Done)],
          if key in s.locks && s.locks[key] == t then s.locks - {key} else s.locks)
  }

  function Step<K(==)>(s: State<K>, ev: Event<K>): State<K> {
    match ev
    case Call(key) => Called(s, key)
    case Start(t) => if MayStart(s.tickets, t) then s.(tickets := s.tickets[t := s.tickets[t].(phase := Running)]) else s
    case Finish(t) => if t < |s.tickets| && s.tickets[t].phase == Running then Finished(s, t) else s
  }

  function Run<K(==)>(s: State<K>, evs: seq<Event<K>>): State<K>
    decreases evs
  {
    if evs == [] then s else Run(Step(s, evs[0]), evs[1..])
  }

  // ---------------------------------------------------------------- what every event keeps

  /** A call waits for the call on its key just before it, or every earlier one is already done. */
  ghost predicate Chained<K>(tickets: seq<Ticket<K>>, i: nat)
    requires i < |tickets|
  {
    match tickets[i].previous
    case None => forall j :: 0 <= j < i && tickets[j].key == tickets[i].key ==> tickets[j].phase == Done
    case Some(p) => p < i && tickets[p].key == tickets[i].key && forall j :: p < j < i ==> tickets[j].key != tickets[i].key
  }

  /** A call that has started found every earlier call on its key done. */
  ghost predicate InTurn<K>(tickets: seq<Ticket<K>>) {
    forall i, j :: 0 <= i < j < |tickets| && tickets[i].key == tickets[j].key && tickets[j].phase != Waiting ==> tickets[i].phase == Done
  }

  /** The table holds exactly the keys with an unfinished call, each with its latest call. */
  ghost predicate LocksAreLive<K>(s: State<K>) {
    && (forall i :: 0 <= i < |s.tickets| && s.tickets[i].phase != Done ==> s.tickets[i].key in s.locks)
    && (forall key :: key in s.locks ==>
          s.locks[key] < |s.tickets| && s.tickets[s.locks[key]].key == key && s.tickets[s.locks[key]].phase != Done)
    && (forall i :: 0 <= i < |s.tickets| && s.tickets[i].key in s.locks ==> i <= s.locks[s.tickets[i].key])
  }

  ghost predicate Inv<K>(s: State<K>) {
    (forall i :: 0 <= i < |s.tickets| ==> Chained(s.tickets, i)) && InTurn(s.tickets) && LocksAreLive(s)
  }

  /** A resolved tail means that its call, and every earlier one on the key, is done. */
  lemma {:induction false} ResolvedMeansDone<K>(tickets: seq<Ticket<K>>, t: nat, j: nat)
    requires (forall i :: 0 <= i < |tickets| ==> Chained(tickets, i)) && t < |tickets|
    requires TailResolved(tickets, t) && j <= t && tickets[j].key == tickets[t].key
    ensures tickets[j].phase == Done
    decreases t
  {
    assert Chained(tickets, t);
    if j < t && tickets[t].previous.Some? { ResolvedMeansDone(tickets, tickets[t].previous.value, j); }
  }

  /** Conversely, once every call up to `t` on its key is done the tail is resolved. */
  lemma {:induction false} DoneMeansResolved<K>(tickets: seq<Ticket<K>>, t: nat)
    requires (forall i :: 0 <= i < |tickets| ==> Chained(tickets, i)) && t < |tickets|
    requires forall j :: 0 <= j <= t && tickets[j].key == tickets[t].key ==> tickets[j].phase == Done
    ensures TailResolved(tickets, t)
    decreases t
  {
    assert Chained(tickets, t);
    if tickets[t].previous.Some? { DoneMeansResolved(tickets, tickets[t].previous.value); }
  }

  lemma CallKeeps<K>(s: State<K>, key: K)
    requires Inv(s)
    ensures Inv(Called(s, key))
  {
    var s' := Called(s, key);
    forall i | 0 <= i < |s'.tickets| ensures Chained(s'.tickets, i) {
      if i < |s.tickets| { assert Chained(s.tickets, i); }
    }
  }

  lemma StartKeeps<K>(s: State<K>, t: nat)
    requires Inv(s) && MayStart(s.tickets, t)
    ensures Inv(Step(s, Start(t)))
  {
    var s' := Step(s, Start(t));
    forall i | 0 <= i < |s'.tickets| ensures Chained(s'.tickets, i) { assert Chained(s.tickets, i); }
    forall j | 0 <= j < t && s.tickets[j].key == s.tickets[t].key ensures s.tickets[j].phase == Done {
      assert Chained(s.tickets, t);
      if s.tickets[t].previous.Some? { ResolvedMeansDone(s.tickets, s.tickets[t].previous.value, j); }
    }
  }

  lemma FinishKeeps<K>(s: State<K>, t: nat)
    requires Inv(s) && t < |s.tickets| && s.tickets[t].phase == Running
    ensures Inv(Finished(s, t))
  {
    var s' := Finished(s, t);
    forall i | 0 <= i < |s'.tickets| ensures Chained(s'.tickets, i) { assert Chained(s.tickets, i); }
  }

  lemma {:induction false} RunKeepsInv<K>(s: State<K>, evs: seq<Event<K>>)
    requires Inv(s)
    ensures Inv(Run(s, evs))
    decreases evs
  {
    if evs != [] {
      var ev := evs[0];
      match ev {
        case Call(key) => CallKeeps(s, key);
        case Start(t) => if MayStart(s.tickets, t) { StartKeeps(s, t); }
        case Finish(t) => if t < |s.tickets| && s.tickets[t].phase == Running { FinishKeeps(s, t); }
      }
      RunKeepsInv(Step(s, ev), evs[1..]);
    }
  }

  /** A call joins behind all others, a call that may start opens its section, and one that is open closes it. */
  lemma EventsDo<K>(s: State<K>, key: K, t: nat)
    ensures var called := Step(s, Call(key)).tickets;
      |called| == |s.tickets| + 1 && called[..|s.tickets|] == s.tickets && called[|s.tickets|].key == key && called[|s.tickets|].phase == Waiting
    ensures t < |s.tickets| && MayStart(s.tickets, t) ==> Step(s, Start(t)).tickets == s.tickets[t := s.tickets[t].(phase := Running)]
    ensures t < |s.tickets| && s.tickets[t].phase == Running ==> Step(s, Finish(t)).tickets == s.tickets[t := s.tickets[t].(phase := Done)]
    ensures t >= |s.tickets| || !MayStart(s.tickets, t) ==> Step(s, Start(t)) == s
    ensures t >= |s.tickets| || s.tickets[t].phase != Running ==> Step(s, Finish(t)) == s
  {
  }

  /**
   * In every interleaving: no two critical sections on one key are open together, a call starts
   * only after every earlier call on its key has finished, the table holds a key exactly while a
   * call on it is unfinished, and the oldest unfinished call on a key is open or may start.
   */
  lemma SectionsAreExclusiveAndInOrder<K>(evs: seq<Event<K>>)
    ensures var s := Run(State<K>.State([], map[]), evs);
      && (forall i, j :: 0 <= i < j < |s.tickets| && s.tickets[i].key == s.tickets[j].key && s.tickets[j].phase != Waiting ==>
            s.tickets[i].phase == Done)
      && (forall key :: key in s.locks <==> Unfinished(s.tickets, key))
      && (forall t: nat :: t < |s.tickets| && s.tickets[t].phase == Waiting && Oldest(s.tickets, t) ==> MayStart(s.tickets, t))
  {
    RunKeepsInv(State<K>.State([], map[]), evs);
    var s := Run(State<K>.State([], map[]), evs);
    forall t: nat | t < |s.tickets| && s.tickets[t].phase == Waiting && Oldest(s.tickets, t) ensures MayStart(s.tickets, t) {
      assert Chained(s.tickets, t);
      if s.tickets[t].previous.Some? {
        var p := s.tickets[t].previous.value;
        assert Chained(s.tickets, p);
        DoneMeansResolved(s.tickets, p);
      }
    }
  }

  ghost predicate Unfinished<K>(tickets: seq<Ticket<K>>, key: K) {
    exists i :: 0 <= i < |tickets| && tickets[i].key == key && tickets[i].phase != Done
  }

  ghost predicate Oldest<K>(tickets: seq<Ticket<K>>, t: nat)
    requires t < |tickets|
  {
    forall j :: 0 <= j < t && tickets[j].key == tickets[t].key ==> tickets[j].phase == Done
  }

  /** The store's field `locks` and the promises its calls hold. */
  class LockTable<K(==)> {
    var locks: map<K, nat>
    var tickets: seq<Ticket<K>>

    function View(): State<K>
      reads this
    {
      State(tickets, locks)
    }

    constructor ()
      ensures Inv(View()) && View() == State([], map[])
    {
      locks, tickets := map[], [];
    }

    /** Up to the first suspension: take the tail found, leave one's own. */
    method Enter(key: K) returns (t: nat)
      requires Inv(View())
      modifies this
      ensures Inv(View()) && View() == Step(old(View()), Call(key)) && t == |old(tickets)|
    {
      CallKeeps(View(), key);
      var previous := if key in locks then Some(locks[key]) else None;
      t := |tickets|;
      tickets := tickets + [Ticket(key, previous, Waiting)];
      locks := locks[key := t];
    }

    /** The awaited tail has resolved: the work begins. */
    method Proceed(t: nat)
      requires Inv(View()) && MayStart(tickets, t)
      modifies this
      ensures Inv(View()) && View() == Step(old(View()), Start(t))
    {
      StartKeeps(View(), t);
      tickets := tickets[t := tickets[t].(phase := Running)];
    }

    /** The work has returned or thrown: release, and forget the key if no later call has come. */
    method Leave(t: nat)
      requires Inv(View()) && t < |tickets| && tickets[t].phase == Running
      modifies this
      ensures Inv(View()) && View() == Step(old(View()), Finish(t))
    {
      FinishKeeps(View(), t);
      var key := tickets[t].key;
      tickets := tickets[t := tickets[t].(phase := Done)];
      if key in locks && locks[key] == t { locks := locks - {key}; }
    }
  }
}
