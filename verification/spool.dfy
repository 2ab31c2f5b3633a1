/**
 * The worker's inbound spool: a file per message until the supervisor has accepted it. The hashed
 * file names are taken to be as distinct as the keys they hash.
 */
module Spool {
  import opened Wrappers

  datatype Key = Key(sessionId: string, messageId: string)

  datatype Payload = Payload(key: Key, customerId: string, text: string)

  /** A file without contents is one whose write failed after it was created. */
  datatype State = State(files: map<Key, Option<Payload>>, accepted: seq<Payload>)

  datatype Response = Accepted | AcceptedNotRemoved | Refused

  datatype Enqueued = Stored | AlreadyThere | WriteFailed

  datatype Event =
    | Enqueue(payload: Payload, writeWorks: bool)
    | Deliver(key: Key, response: Response)

  function Answer(s: State, p: Payload, writeWorks: bool): Enqueued {
    if p.key in s.files then AlreadyThere else if writeWorks then Stored else WriteFailed
  }

  function Step(s: State, ev: Event): State {
    match ev
    case Enqueue(p, writeWorks) =>
      if p.key in s.files then s else s.(files := s.files[p.key := if writeWorks then Some(p) else None])
    case Deliver(key, response) =>
      if key !in s.files || s.files[key].None? || response == Refused then s
      else State(if response == Accepted then s.files - {key} else s.files, s.accepted + [s.files[key].value])
  }

  function Run(s: State, evs: seq<Event>): State
    decreases evs
  {
    if evs == [] then s else Run(Step(s, evs[0]), evs[1..])
  }

  /** A file holds the payload it is named after. */
  ghost predicate Inv(s: State) {
    forall key :: key in s.files && s.files[key].Some? ==> s.files[key].value.key == key
  }

  /** The message is in the spool, readable, or a payload of it has been accepted. */
  ghost predicate Kept(s: State, key: Key) {
    (key in s.files && s.files[key].Some?) || AcceptedFor(s.accepted, key)
  }

  ghost predicate AcceptedFor(accepted: seq<Payload>, key: Key) {
    exists i :: 0 <= i < |accepted| && accepted[i].key == key
  }

  lemma StepKeeps(s: State, ev: Event, key: Key)
    requires Inv(s)
    ensures Inv(Step(s, ev)) && s.accepted <= Step(s, ev).accepted && (Kept(s, key) ==> Kept(Step(s, ev), key))
  {
    var s' := Step(s, ev);
    if AcceptedFor(s.accepted, key) {
      var i :| 0 <= i < |s.accepted| && s.accepted[i].key == key;
      assert s'.accepted[i].key == key;
    } else if ev == Deliver(key, Accepted) && Kept(s, key) {
      assert s'.accepted[|s.accepted|].key == key;
    }
  }

  lemma {:induction false} RunKeeps(s: State, evs: seq<Event>, key: Key)
    requires Inv(s)
    ensures Inv(Run(s, evs)) && (Kept(s, key) ==> Kept(Run(s, evs), key))
    decreases evs
  {
    if evs != [] {
      StepKeeps(s, evs[0], key);
      RunKeeps(Step(s, evs[0]), evs[1..], key);
    }
  }

  /** An unreadable file answers for its message for good, and nothing of it is ever delivered. */
  lemma {:induction false} UnreadableStays(s: State, evs: seq<Event>, key: Key)
    requires Inv(s) && key in s.files && s.files[key].None?
    ensures key in Run(s, evs).files && Run(s, evs).files[key].None?
    ensures AcceptedFor(Run(s, evs).accepted, key) ==> AcceptedFor(s.accepted, key)
    decreases evs
  {
    if evs != [] {
      var s' := Step(s, evs[0]);
      StepKeeps(s, evs[0], key);
      if AcceptedFor(s'.accepted, key) {
        var i :| 0 <= i < |s'.accepted| && s'.accepted[i].key == key;
        assert i < |s.accepted| && s.accepted[i].key == key;
      }
      UnreadableStays(s', evs[1..], key);
    }
  }

  /**
   * At least once, and exactly when not: after an enqueue, whatever it answers, the message is in
   * the spool or accepted for ever after if and only if it was accepted before, or no unreadable
   * file has its name and its own write works.
   */
  lemma MessageIsKeptIff(s: State, p: Payload, writeWorks: bool, evs: seq<Event>)
    requires Inv(s)
    ensures Kept(Run(Step(s, Enqueue(p, writeWorks)), evs), p.key) <==>
      AcceptedFor(s.accepted, p.key) || (if p.key in s.files then s.files[p.key].Some? else writeWorks)
  {
    var s' := Step(s, Enqueue(p, writeWorks));
    StepKeeps(s, Enqueue(p, writeWorks), p.key);
    RunKeeps(s', evs, p.key);
    if p.key in s'.files && s'.files[p.key].None? { UnreadableStays(s', evs, p.key); }
  }

  // ---------------------------------------------------------------- the spool

  /** The readable files of a listing, in its order. */
  function Readable(files: map<Key, Option<Payload>>, names: seq<Key>): seq<Payload> {
    if names == [] then []
    else Readable(files, names[..|names| - 1])
         + if names[|names| - 1] in files && files[names[|names| - 1]].Some? then [files[names[|names| - 1]].value] else []
  }

  /** `at` are the places in the listing whose files can be read, in its order. */
  ghost predicate ListsReadable(at: seq<nat>, files: map<Key, Option<Payload>>, names: seq<Key>) {
    && (forall j, k :: 0 <= j < k < |at| ==> at[j] < at[k]) && (forall k :: 0 <= k < |at| ==> at[k] < |names|)
    && forall i: nat :: i < |names| ==> (i in at <==> names[i] in files && files[names[i]].Some?)
  }

  /** A flush delivers exactly the readable files of the listing, in its order. */
  lemma {:induction false} ReadableAreListed(files: map<Key, Option<Payload>>, names: seq<Key>) returns (at: seq<nat>)
    ensures ListsReadable(at, files, names) && |Readable(files, names)| == |at|
    ensures forall k :: 0 <= k < |at| ==> Some(Readable(files, names)[k]) == files[names[at[k]]]
  {
    at := [];
    if names != [] {
      var last := |names| - 1;
      var before := ReadableAreListed(files, names[..last]);
      at := before + if names[last] in files && files[names[last]].Some? then [last] else [];
      forall i: nat | i < |names| ensures i in at <==> names[i] in files && files[names[i]].Some? {
        if i < last { assert names[..last][i] == names[i] && (i in at <==> i in before); }
      }
      forall k | 0 <= k < |before| ensures Some(Readable(files, names)[k]) == files[names[at[k]]] {
        assert names[..last][before[k]] == names[at[k]];
      }
    }
  }

  /** The deliveries of one flush. */
  function Deliveries(items: seq<Payload>, respond: Key -> Response): seq<Event> {
    seq(|items|, i requires 0 <= i < |items| => Deliver(items[i].key, respond(items[i].key)))
  }

  lemma {:induction false} RunExtends(s: State, evs: seq<Event>, ev: Event)
    ensures Run(s, evs + [ev]) == Step(Run(s, evs), ev)
    decreases evs
  {
    if evs == [] {
      assert evs + [ev] == [ev];
    } else {
      assert (evs + [ev])[1..] == evs[1..] + [ev];
      RunExtends(Step(s, evs[0]), evs[1..], ev);
    }
  }

  /** Each item's file holds it, and no two items share a file. */
  ghost predicate Pending(files: map<Key, Option<Payload>>, items: seq<Payload>) {
    && (forall i :: 0 <= i < |items| ==> items[i].key in files && files[items[i].key] == Some(items[i]))
    && (forall i, j :: 0 <= i < j < |items| ==> items[i].key != items[j].key)
  }

  lemma NextDelivery(s: State, items: seq<Payload>, n: nat, respond: Key -> Response)
    requires n < |items|
    ensures Run(s, Deliveries(items[..n + 1], respond)) ==
            Step(Run(s, Deliveries(items[..n], respond)), Deliver(items[n].key, respond(items[n].key)))
  {
    assert Deliveries(items[..n + 1], respond) == Deliveries(items[..n], respond) + [Deliver(items[n].key, respond(items[n].key))];
    RunExtends(s, Deliveries(items[..n], respond), Deliver(items[n].key, respond(items[n].key)));
  }

  lemma NextPending(files: map<Key, Option<Payload>>, items: seq<Payload>)
    requires Pending(files, items) && items != []
    ensures Pending(files, items[1..]) && Pending(files - {items[0].key}, items[1..])
  {
  }

  class DiskInboundSpool {
    var files: map<Key, Option<Payload>>
    /** What the supervisor has answered with success. */
    ghost var accepted: seq<Payload>

    ghost function View(): State
      reads this
    {
      State(files, accepted)
    }

    constructor ()
      ensures View() == State(map[], [])
    {
      files, accepted := map[], [];
    }

    method EnqueuePayload(p: Payload, writeWorks: bool) returns (r: Enqueued)
      modifies this
      ensures View() == Step(old(View()), Enqueue(p, writeWorks)) && r == Answer(old(View()), p, writeWorks)
      ensures (r == AlreadyThere <==> p.key in old(files)) && (r == WriteFailed <==> p.key !in old(files) && !writeWorks)
    {
      if p.key in files { return AlreadyThere; }
      files := files[p.key := None];
      if !writeWorks { return WriteFailed; }
      files := files[p.key := Some(p)];
      r := Stored;
    }

    /** `item` was read from the spool; true only if it was accepted and its file removed. */
    method DeliverItem(item: Payload, response: Response) returns (removed: bool)
      requires item.key in files && files[item.key] == Some(item)
      modifies this
      ensures View() == Step(old(View()), Deliver(item.key, response)) && removed == (response == Accepted)
    {
      if response == Refused { return false; }
      accepted := accepted + [item];
      if response == AcceptedNotRemoved { return false; }
      files := files - {item.key};
      removed := true;
    }

    method ListPending(names: seq<Key>) returns (items: seq<Payload>)
      requires Inv(View()) && forall i, j :: 0 <= i < j < |names| ==> names[i] != names[j]
      ensures items == Readable(files, names) && Pending(files, items)
    {
      items := [];
      for n := 0 to |names|
        invariant items == Readable(files, names[..n]) && Pending(files, items)
        invariant forall i :: 0 <= i < |items| ==> items[i].key in names[..n]
      {
        assert names[..n + 1][..n] == names[..n] && names[..n + 1][n] == names[n];
        assert names[n] !in names[..n];
        if names[n] in files && files[names[n]].Some? { items := items + [files[names[n]].value]; }
      }
      assert names[..|names|] == names;
    }

    /** Deliver everything readable once; every item is counted as delivered or as retained. */
    method FlushOnce(names: seq<Key>, respond: Key -> Response) returns (delivered: nat, retained: nat)
      requires Inv(View()) && forall i, j :: 0 <= i < j < |names| ==> names[i] != names[j]
      modifies this
      ensures View() == Run(old(View()), Deliveries(Readable(old(files), names), respond))
      ensures delivered + retained == |Readable(old(files), names)| && delivered == |old(files)| - |files|
    {
      var items := ListPending(names);
      delivered, retained := 0, 0;
      for n := 0 to |items|
        invariant View() == Run(old(View()), Deliveries(items[..n], respond))
        invariant Pending(files, items[n..])
        invariant delivered + retained == n && delivered == |old(files)| - |files|
      {
        var item := items[n];
        NextDelivery(old(View()), items, n, respond);
        NextPending(files, items[n..]);
        assert items[n..][0] == item && items[n..][1..] == items[n + 1..];
        ghost var before := files;
        var removed := DeliverItem(item, respond(item.key));
        assert files == if removed then before - {item.key} else before;
        if removed { delivered := delivered + 1; } else { retained := retained + 1; }
      }
      assert items[..|items|] == items;
    }
  }
}
