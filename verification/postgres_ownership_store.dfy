/** The table implementation of the ownership store: a row per conversation and a row per transition. */
module PostgresOwnershipStore {
  import opened Wrappers
  import opened Ownership
  import opened OwnershipStore

  datatype TransitionKey = TransitionKey(key: Key, transitionId: string)

  datatype TransitionRow = TransitionRow(command: Command, actor: string, reasonCode: Option<string>,
                                         expectedVersion: Option<int>, result: Record, recordedAt: int)

  /** The rows hold the latest record of each conversation, the transitions every answer given. */
  ghost predicate Tables(rows: map<Key, Record>, transitions: map<TransitionKey, TransitionRow>, h: History) {
    && (forall key :: key in rows <==> Entries(h, key) != [])
    && (forall key :: key in rows ==> rows[key] == Current(Entries(h, key), key, 0))
    && (forall slot :: slot in transitions <==> Answered(Entries(h, slot.key), slot.transitionId).Some?)
    && (forall slot :: slot in transitions ==> Some(transitions[slot].result) == Answered(Entries(h, slot.key), slot.transitionId))
  }

  lemma TablesFollow(rows: map<Key, Record>, transitions: map<TransitionKey, TransitionRow>, h: History,
                     key: Key, e: Entry, row: TransitionRow)
    requires Tables(rows, transitions, h) && row.result == e.result && TransitionKey(key, e.input.transitionId) !in transitions
    ensures Tables(rows[key := e.result], transitions[TransitionKey(key, e.input.transitionId) := row], h[key := Entries(h, key) + [e]])
  {
    var h' := h[key := Entries(h, key) + [e]];
    var slot := TransitionKey(key, e.input.transitionId);
    var transitions' := transitions[slot := row];
    forall s: TransitionKey ensures Answered(Entries(h', s.key), s.transitionId) ==
                     if s == slot then Some(e.result) else Answered(Entries(h, s.key), s.transitionId)
    {
      if s.key == key { AnsweredStays(Entries(h, key), e, s.transitionId); }
    }
    assert forall s: TransitionKey :: s in transitions' <==> s == slot || s in transitions;
    forall s | s in transitions' ensures Some(transitions'[s].result) == Answered(Entries(h', s.key), s.transitionId) {
      if s != slot { assert s in transitions; }
    }
    assert forall k :: Entries(h', k) == if k == key then Entries(h, key) + [e] else Entries(h, k);
  }

  class Store {
    var rows: map<Key, Record>
    var transitions: map<TransitionKey, TransitionRow>
    ghost var history: History

    ghost predicate Valid()
      reads this
    {
      && Inv(history)
      && Tables(rows, transitions, history)
    }

    constructor ()
      ensures Valid() && history == map[]
    {
      rows, transitions, history := map[], map[], map[];
    }

    /** One transaction; a failure rolls both tables back. */
    method Transition(input: Input, now: int) returns (r: Result<Record, Error>)
      requires Valid()
      modifies this
      ensures Valid()
      ensures Outcome(history, r) == Apply(old(history), Request(input, now))
    {
      var invalid := CheckInput(input);
      if invalid.Some? { return Failure(invalid.value); }
      var key := KeyOf(input);
      ApplyKeepsInv(history, Request(input, now));
      var savedRows := rows;
      if key !in rows { rows := rows[key := Initial(key, now)]; }
      var current := rows[key];
      assert current == Current(Entries(history, key), key, now);
      var slot := TransitionKey(key, input.transitionId);
      if slot in transitions { return Success(transitions[slot].result); }
      if input.expectedVersion.Some? && input.expectedVersion.value != current.version {
        rows := savedRows;
        return Failure(VersionConflict(current.version));
      }
      var next := Ownership.Transition(current, input, now);
      if next.Failure? {
        rows := savedRows;
        return next;
      }
      var persisted := current;
      if next.value.version != current.version || next.value.state != current.state {
        // The row was locked when it was read, so the UPDATE's guard on the version always holds.
        assert rows[key].version == current.version;
        rows := rows[key := rows[key].(state := next.value.state, version := next.value.version, changedAt := next.value.changedAt,
                                       changedBy := next.value.changedBy, reasonCode := next.value.reasonCode,
                                       transitionId := next.value.transitionId)];
        persisted := rows[key];
      }
      assert rows == savedRows[key := next.value] && persisted == next.value;
      r := Success(persisted);
      var row := TransitionRow(input.command, input.actor, input.reasonCode, input.expectedVersion, persisted, now);
      TablesFollow(savedRows, transitions, history, key, Entry(input, now, persisted), row);
      transitions := transitions[slot := row];
      history := history[key := Entries(history, key) + [Entry(input, now, persisted)]];
    }

    method GetMany(tenantId: string, ids: seq<string>, now: int) returns (r: Result<seq<Record>, Error>)
      requires Valid()
      ensures IsBatchOf(r, history, tenantId, ids, now)
    {
      var invalid := BatchError(tenantId, ids);
      if invalid.Some? { return Failure(invalid.value); }
      var byConversation := map key | key in rows && key.tenantId == tenantId && key.conversationId in ids :: rows[key];
      r := Success(seq(|ids|, i requires 0 <= i < |ids| =>
        if Key(tenantId, ids[i]) in byConversation then byConversation[Key(tenantId, ids[i])] else Initial(Key(tenantId, ids[i]), now)));
    }
  }
}
