/** The append-only ledger implementation of the ownership store. */
module FileOwnershipStore {
  import opened Wrappers
  import opened Sequences
  import opened Ownership
  import opened OwnershipStore
  import opened TenantFiles

  function OfConversation(entries: seq<Entry>, conversationId: string): seq<Entry> {
    if entries == [] then []
    else (if entries[0].input.conversationId == conversationId then [entries[0]] else []) + OfConversation(entries[1..], conversationId)
  }

  lemma {:induction false} OneMoreEntry(entries: seq<Entry>, e: Entry, conversationId: string)
    ensures OfConversation(entries + [e], conversationId) ==
            OfConversation(entries, conversationId) + if e.input.conversationId == conversationId then [e] else []
  {
    if entries == [] {
      assert entries + [e] == [e];
    } else {
      assert (entries + [e])[0] == entries[0] && (entries + [e])[1..] == entries[1..] + [e];
      OneMoreEntry(entries[1..], e, conversationId);
      Associative(if entries[0].input.conversationId == conversationId then [entries[0]] else [],
                  OfConversation(entries[1..], conversationId),
                  if e.input.conversationId == conversationId then [e] else []);
    }
  }

  /** What one pass over a ledger has found: the last result of each conversation asked for. */
  ghost predicate LatestOf(latest: map<string, Record>, ids: seq<string>, entries: seq<Entry>) {
    forall c :: c in ids ==> var own := OfConversation(entries, c);
      (c in latest <==> own != []) && (own != [] ==> latest[c] == own[|own| - 1].result)
  }

  lemma OneMoreLatest(latest: map<string, Record>, ids: seq<string>, entries: seq<Entry>, e: Entry)
    requires LatestOf(latest, ids, entries)
    ensures LatestOf(if e.input.conversationId in ids then latest[e.input.conversationId := e.result] else latest, ids, entries + [e])
  {
    forall c | c in ids
      ensures OfConversation(entries + [e], c) == OfConversation(entries, c) + if e.input.conversationId == c then [e] else []
    {
      OneMoreEntry(entries, e, c);
    }
  }

  class Store {
    var files: Files<Entry>
    ghost var history: History

    ghost predicate Valid()
      reads this
    {
      && Inv(history)
      && forall key :: Entries(history, key) == OfConversation(ReadLedger(files, key.tenantId), key.conversationId)
    }

    constructor ()
      ensures Valid() && history == map[]
    {
      files, history := map[], map[];
    }

    method Transition(input: Input, now: int) returns (r: Result<Record, Error>)
      requires Valid()
      modifies this
      ensures Valid()
      ensures Outcome(history, r) == Apply(old(history), Request(input, now))
    {
      var invalid := CheckInput(input);
      if invalid.Some? { return Failure(invalid.value); }
      ghost var key := KeyOf(input);
      ApplyKeepsInv(history, Request(input, now));
      var entries := OfConversation(ReadLedger(files, input.tenantId), input.conversationId);
      assert entries == Entries(history, key);
      var duplicate := Answered(entries, input.transitionId);
      if duplicate.Some? { return Success(duplicate.value); }
      var current := if |entries| > 0 then entries[|entries| - 1].result else Initial(KeyOf(input), now);
      if input.expectedVersion.Some? && input.expectedVersion.value != current.version {
        return Failure(VersionConflict(current.version));
      }
      r := Ownership.Transition(current, input, now);
      if r.Failure? { return; }
      AppendEntry(Entry(input, now, r.value));
    }

    /** One synchronous append, under the tenant's encoded name. */
    method AppendEntry(e: Entry)
      requires forall key :: Entries(history, key) == OfConversation(ReadLedger(files, key.tenantId), key.conversationId)
      modifies this
      ensures history == old(history)[KeyOf(e.input) := Entries(old(history), KeyOf(e.input)) + [e]]
      ensures forall key :: Entries(history, key) == OfConversation(ReadLedger(files, key.tenantId), key.conversationId)
    {
      forall key: Key
        ensures OfConversation(ReadLedger(Append(files, e.input.tenantId, e), key.tenantId), key.conversationId) ==
                Entries(history, key) + if key == KeyOf(e.input) then [e] else []
      {
        var before := ReadLedger(files, key.tenantId);
        AppendIsRead(files, e.input.tenantId, e, key.tenantId);
        OneMoreEntry(before, e, key.conversationId);
        assert before + [] == before && Entries(history, key) + [] == Entries(history, key);
      }
      files := Append(files, e.input.tenantId, e);
      history := history[KeyOf(e.input) := Entries(history, KeyOf(e.input)) + [e]];
    }

    method GetMany(tenantId: string, ids: seq<string>, now: int) returns (r: Result<seq<Record>, Error>)
      requires Valid()
      ensures IsBatchOf(r, history, tenantId, ids, now)
    {
      var invalid := BatchError(tenantId, ids);
      if invalid.Some? { return Failure(invalid.value); }
      var entries := ReadLedger(files, tenantId);
      var latest: map<string, Record> := map[];
      for k := 0 to |entries|
        invariant LatestOf(latest, ids, entries[..k])
      {
        var e := entries[k];
        assert entries[..k + 1] == entries[..k] + [e];
        OneMoreLatest(latest, ids, entries[..k], e);
        if e.input.conversationId in ids {
          EntryIsItsOwn(tenantId, entries, k);
          if e.result.tenantId == tenantId && e.result.conversationId == e.input.conversationId {
            latest := latest[e.input.conversationId := e.result];
          }
        }
      }
      assert entries[..|entries|] == entries;
      r := Success(seq(|ids|, i requires 0 <= i < |ids| =>
        if ids[i] in latest then latest[ids[i]] else Initial(Key(tenantId, ids[i]), now)));
      forall i | 0 <= i < |ids| ensures r.value[i] == Get(history, Key(tenantId, ids[i]), now) {
        assert Entries(history, Key(tenantId, ids[i])) == OfConversation(entries, ids[i]);
      }
    }

    /** Every stored result names the conversation it is stored for. */
    lemma EntryIsItsOwn(tenantId: string, entries: seq<Entry>, k: nat)
      requires Valid() && entries == ReadLedger(files, tenantId) && k < |entries|
      ensures entries[k].result.tenantId == tenantId && entries[k].result.conversationId == entries[k].input.conversationId
    {
      var key := Key(tenantId, entries[k].input.conversationId);
      var own := OfConversation(entries, key.conversationId);
      var i := Kept(entries, k);
      assert Entries(history, key) == own;
      assert key in history && Good(history[key], key);
      assert GoodEntry(own, key, i);
    }
  }

  lemma {:induction false} Kept(entries: seq<Entry>, k: nat) returns (i: nat)
    requires k < |entries|
    ensures var own := OfConversation(entries, entries[k].input.conversationId); i < |own| && own[i] == entries[k]
  {
    if k == 0 {
      i := 0;
    } else {
      i := Kept(entries[1..], k - 1);
      if entries[0].input.conversationId == entries[k].input.conversationId { i := i + 1; }
    }
  }
}
