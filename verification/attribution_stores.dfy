/** The two attribution stores: an append-only ledger per tenant, and a table with an upsert. */
module AttributionStores {
  import opened Wrappers
  import opened Sequences
  import opened Attribution
  import opened TenantFiles

  datatype Entry =
    | Recorded(key: Key, record: Record)
    | Echoed(key: Key, observedAt: int)

  function OfKey(entries: seq<Entry>, key: Key): seq<Entry> {
    if entries == [] then [] else (if entries[0].key == key then [entries[0]] else []) + OfKey(entries[1..], key)
  }

  function FirstRecorded(entries: seq<Entry>): Option<Record> {
    if entries == [] then None else if entries[0].Recorded? then Some(entries[0].record) else FirstRecorded(entries[1..])
  }

  function FirstEchoed(entries: seq<Entry>): Option<int> {
    if entries == [] then None else if entries[0].Echoed? then Some(entries[0].observedAt) else FirstEchoed(entries[1..])
  }

  /** `findUnlocked` on the entries of one key: the first record, with the first echo over it. */
  function Found(own: seq<Entry>, key: Key): Option<Record> {
    var recorded := FirstRecorded(own);
    if recorded.None? || recorded.value.key.tenantId != key.tenantId then None
    else if FirstEchoed(own).Some? then Some(recorded.value.(echoObservedAt := FirstEchoed(own)))
    else recorded
  }

  /** A key has no entry, or one record, or one record that had no echo time and then one echo. */
  ghost predicate OneOfEach(own: seq<Entry>, found: Option<Record>) {
    match found
    case None => own == []
    case Some(r) =>
      || own == [Recorded(r.key, r)]
      || (r.echoObservedAt.Some? && own == [Recorded(r.key, r.(echoObservedAt := None)), Echoed(r.key, r.echoObservedAt.value)])
  }

  lemma OneOfEachIsFound(own: seq<Entry>, found: Option<Record>, key: Key)
    requires OneOfEach(own, found) && (found.Some? ==> found.value.key == key)
    ensures Found(own, key) == found
  {
    if found.Some? {
      assert FirstRecorded(own).Some?;
      if |own| == 2 { assert FirstEchoed(own[1..]) == found.value.echoObservedAt; } else { assert FirstEchoed(own[1..]) == None; }
    }
  }

  lemma {:induction false} OneMoreOfKey(entries: seq<Entry>, e: Entry, key: Key)
    ensures OfKey(entries + [e], key) == OfKey(entries, key) + if e.key == key then [e] else []
  {
    if entries == [] {
      assert entries + [e] == [e];
    } else {
      assert (entries + [e])[0] == entries[0] && (entries + [e])[1..] == entries[1..] + [e];
      OneMoreOfKey(entries[1..], e, key);
      Associative(if entries[0].key == key then [entries[0]] else [], OfKey(entries[1..], key), if e.key == key then [e] else []);
    }
  }

  function Own(files: Files<Entry>, key: Key): seq<Entry> {
    OfKey(ReadLedger(files, key.tenantId), key)
  }

  /** Every key's entries say what the table says. */
  ghost predicate Ledgers(files: Files<Entry>, table: Table) {
    forall key :: OneOfEach(Own(files, key), Lookup(table, key))
  }

  lemma AppendedTo(files: Files<Entry>, e: Entry, key: Key)
    ensures Own(Append(files, e.key.tenantId, e), key) == Own(files, key) + if e.key == key then [e] else []
  {
    AppendIsRead(files, e.key.tenantId, e, key.tenantId);
    OneMoreOfKey(ReadLedger(files, key.tenantId), e, key);
    if e.key.tenantId != key.tenantId { assert ReadLedger(files, key.tenantId) + [] == ReadLedger(files, key.tenantId); }
    assert Own(files, key) + [] == Own(files, key);
  }

  lemma AppendKeepsLedgers(files: Files<Entry>, table: Table, e: Entry, r: Record)
    requires Ledgers(files, table) && r.key == e.key && OneOfEach(Own(files, e.key) + [e], Some(r))
    ensures Ledgers(Append(files, e.key.tenantId, e), table[e.key := r])
  {
    forall key ensures OneOfEach(Own(Append(files, e.key.tenantId, e), key), Lookup(table[e.key := r], key)) {
      AppendedTo(files, e, key);
      assert OneOfEach(Own(files, key), Lookup(table, key));
      assert Own(files, key) + [] == Own(files, key);
    }
  }

  /** Each critical section runs without suspending, so it is one call here. */
  class FileStore {
    var files: Files<Entry>
    ghost var table: Table

    ghost predicate Valid()
      reads this
    {
      Inv(table) && Ledgers(files, table)
    }

    constructor ()
      ensures Valid() && table == map[]
    {
      files, table := map[], map[];
    }

    method Find(key: Key) returns (r: Answer)
      requires Valid()
      ensures Outcome(table, r) == Apply(table, Op.Find(key))
    {
      var invalid := CheckKey(key);
      if invalid.Some? { return Failure(invalid.value); }
      OneOfEachIsFound(Own(files, key), Lookup(table, key), key);
      r := Success(Found(OfKey(ReadLedger(files, key.tenantId), key), key));
    }

    method Record(record: Record) returns (r: Answer)
      requires Valid()
      modifies this
      ensures Valid() && Outcome(table, r) == Apply(old(table), Put(record))
    {
      var invalid := CheckRecord(record);
      if invalid.Some? { return Failure(invalid.value); }
      r := Find(record.key);
      if r.value.Some? { return; }
      assert OneOfEach(Own(files, record.key), Lookup(table, record.key));
      AppendKeepsLedgers(files, table, Recorded(record.key, record), record);
      files := Append(files, record.key.tenantId, Recorded(record.key, record));
      table := table[record.key := record];
      r := Success(Some(record));
    }

    method ConsumeEcho(key: Key, now: int) returns (r: Answer)
      requires Valid()
      modifies this
      ensures Valid() && Outcome(table, r) == Apply(old(table), Echo(key, now))
    {
      var invalid := CheckKey(key);
      if invalid.Some? { return Failure(invalid.value); }
      r := Find(key);
      if r.value.None? || r.value.value.echoObservedAt.Some? { return; }
      var current := r.value.value;
      var echoed := current.(echoObservedAt := Some(now));
      assert OneOfEach(Own(files, key), Lookup(table, key));
      AppendKeepsLedgers(files, table, Echoed(key, now), echoed);
      files := Append(files, key.tenantId, Echoed(key, now));
      table := table[key := echoed];
      r := Success(Some(echoed));
    }
  }

  function Coalesce<T>(a: Option<T>, b: Option<T>): Option<T> {
    if a.Some? then a else b
  }

  /** One statement per operation on rows unique by tenant, session and message. */
  class PostgresStore {
    var rows: Table

    ghost predicate Valid()
      reads this
    {
      Inv(rows)
    }

    constructor ()
      ensures Valid() && rows == map[]
    {
      rows := map[];
    }

    /** The conflict branch writes a column back unchanged, so that the old row is returned. */
    method Record(record: Record) returns (r: Answer)
      requires Valid()
      modifies this
      ensures Valid() && Outcome(rows, r) == Apply(old(rows), Put(record))
    {
      var invalid := CheckRecord(record);
      if invalid.Some? { return Failure(invalid.value); }
      if record.key in rows {
        rows := rows[record.key := rows[record.key].(key := record.key)];
      } else {
        rows := rows[record.key := record];
      }
      r := Success(Some(rows[record.key]));
    }

    method Find(key: Key) returns (r: Answer)
      ensures Outcome(rows, r) == Apply(rows, Op.Find(key))
    {
      var invalid := CheckKey(key);
      if invalid.Some? { return Failure(invalid.value); }
      r := Success(if key in rows then Some(rows[key]) else None);
    }

    method ConsumeEcho(key: Key, now: int) returns (r: Answer)
      requires Valid()
      modifies this
      ensures Valid() && Outcome(rows, r) == Apply(old(rows), Echo(key, now))
    {
      var invalid := CheckKey(key);
      if invalid.Some? { return Failure(invalid.value); }
      if key in rows {
        rows := rows[key := rows[key].(echoObservedAt := Coalesce(rows[key].echoObservedAt, Some(now)))];
        r := Success(Some(rows[key]));
      } else {
        r := Success(None);
      }
    }
  }

  /** Given the same operations the two stores give the same answers, one for one. */
  method Replay(file: FileStore, postgres: PostgresStore, ops: seq<Op>) returns (fromFile: seq<Answer>, fromPostgres: seq<Answer>)
    requires file.Valid() && postgres.Valid() && file.table == postgres.rows
    modifies file, postgres
    ensures file.Valid() && postgres.Valid() && |fromFile| == |ops| && fromFile == fromPostgres
    ensures file.table == postgres.rows == Run(old(postgres.rows), ops)
  {
    fromFile, fromPostgres := [], [];
    for i := 0 to |ops|
      invariant file.Valid() && postgres.Valid()
      invariant |fromFile| == i && fromFile == fromPostgres
      invariant file.table == postgres.rows == Run(old(postgres.rows), ops[..i])
    {
      assert ops[..i + 1] == ops[..i] + [ops[i]];
      RunExtends(old(postgres.rows), ops[..i], ops[i]);
      ghost var before := postgres.rows;
      var f: Answer;
      var p: Answer;
      match ops[i] {
        case Put(record) => f := file.Record(record); p := postgres.Record(record);
        case Find(key) => f := file.Find(key); p := postgres.Find(key);
        case Echo(key, now) => f := file.ConsumeEcho(key, now); p := postgres.ConsumeEcho(key, now);
      }
      assert f == Apply(before, ops[i]).answer && p == Apply(before, ops[i]).answer;
      fromFile, fromPostgres := fromFile + [f], fromPostgres + [p];
    }
    assert ops[..|ops|] == ops;
  }
}
