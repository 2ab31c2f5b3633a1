/** Outbound attribution: who sent a message, recorded once, and when its echo was first seen. */
module Attribution {
  import opened Wrappers

  datatype Key = Key(tenantId: string, sessionId: string, platformMessageId: string)

  datatype Origin = Agent | OperatorApi

  datatype Record = Record(key: Key, conversationId: string, customerId: string, origin: Origin,
                           sourceMessageId: Option<string>, createdAt: int, expiresAt: int, echoObservedAt: Option<int>)

  datatype Field = TenantId | SessionId | ConversationId | CustomerId | PlatformMessageId | SourceMessageId

  datatype Error = FieldRequired(field: Field)

  type Answer = Result<Option<Record>, Error>

  function CheckKey(key: Key): Option<Error> {
    if key.tenantId == "" then Some(FieldRequired(TenantId))
    else if key.sessionId == "" then Some(FieldRequired(SessionId))
    else if key.platformMessageId == "" then Some(FieldRequired(PlatformMessageId))
    else None
  }

  function CheckRecord(r: Record): Option<Error> {
    if r.key.tenantId == "" then Some(FieldRequired(TenantId))
    else if r.key.sessionId == "" then Some(FieldRequired(SessionId))
    else if r.conversationId == "" then Some(FieldRequired(ConversationId))
    else if r.customerId == "" then Some(FieldRequired(CustomerId))
    else if r.key.platformMessageId == "" then Some(FieldRequired(PlatformMessageId))
    else if r.sourceMessageId == Some("") then Some(FieldRequired(SourceMessageId))
    else None
  }

  predicate Names(key: Key) { key.tenantId != "" && key.sessionId != "" && key.platformMessageId != "" }

  /** Only complete keys and records are accepted; the error names the first missing field. */
  lemma ChecksAre(key: Key, r: Record)
    ensures CheckKey(key) == None <==> Names(key)
    ensures CheckRecord(r) == None <==> Names(r.key) && r.conversationId != "" && r.customerId != "" && r.sourceMessageId != Some("")
    ensures CheckKey(key) == Some(FieldRequired(TenantId)) <==> key.tenantId == ""
    ensures CheckKey(key) == Some(FieldRequired(PlatformMessageId)) <==>
      key.tenantId != "" && key.sessionId != "" && key.platformMessageId == ""
    ensures !Names(key) ==> CheckKey(key) in {Some(FieldRequired(TenantId)), Some(FieldRequired(SessionId)), Some(FieldRequired(PlatformMessageId))}
    ensures CheckRecord(r) == Some(FieldRequired(TenantId)) <==> r.key.tenantId == ""
    ensures CheckRecord(r) == Some(FieldRequired(SessionId)) <==> r.key.tenantId != "" && r.key.sessionId == ""
    ensures CheckRecord(r) == Some(FieldRequired(ConversationId)) <==> r.key.tenantId != "" && r.key.sessionId != "" && r.conversationId == ""
    ensures r.key.tenantId != "" && r.key.sessionId != "" && r.conversationId != "" ==>
      && (CheckRecord(r) == Some(FieldRequired(CustomerId)) <==> r.customerId == "")
      && (r.customerId != "" ==> (CheckRecord(r) == Some(FieldRequired(PlatformMessageId)) <==> r.key.platformMessageId == ""))
      && (r.customerId != "" && r.key.platformMessageId != "" ==>
            (CheckRecord(r) == Some(FieldRequired(SourceMessageId)) <==> r.sourceMessageId == Some("")))
  {
  }

  // ---------------------------------------------------------------- one map, three operations

  type Table = map<Key, Record>

  datatype Op =
    | Put(record: Record)
    | Find(key: Key)
    | Echo(key: Key, now: int)

  datatype Outcome = Outcome(table: Table, answer: Answer)

  function OpKey(op: Op): Key {
    match op
    case Put(r) => r.key
    case Find(key) => key
    case Echo(key, _) => key
  }

  function Check(op: Op): Option<Error> {
    if op.Put? then CheckRecord(op.record) else CheckKey(OpKey(op))
  }

  function Lookup(t: Table, key: Key): Option<Record> {
    if key in t then Some(t[key]) else None
  }

  function Apply(t: Table, op: Op): Outcome {
    if Check(op).Some? then Outcome(t, Failure(Check(op).value)) else
    match op
    case Put(r) => if r.key in t then Outcome(t, Success(Some(t[r.key]))) else Outcome(t[r.key := r], Success(Some(r)))
    case Find(key) => Outcome(t, Success(Lookup(t, key)))
    case Echo(key, now) =>
      if key !in t then Outcome(t, Success(None))
      else if t[key].echoObservedAt.Some? then Outcome(t, Success(Some(t[key])))
      else var r := t[key].(echoObservedAt := Some(now)); Outcome(t[key := r], Success(Some(r)))
  }

  function Run(t: Table, ops: seq<Op>): Table
    decreases ops
  {
    if ops == [] then t else Run(Apply(t, ops[0]).table, ops[1..])
  }

  ghost predicate Inv(t: Table) {
    forall key :: key in t ==> t[key].key == key && CheckRecord(t[key]) == None
  }

  lemma {:induction false} RunKeepsInv(t: Table, ops: seq<Op>)
    requires Inv(t)
    ensures Inv(Run(t, ops))
    decreases ops
  {
    if ops != [] { RunKeepsInv(Apply(t, ops[0]).table, ops[1..]); }
  }

  // ---------------------------------------------------------------- the first of each kind wins

  /** The first accepted record of `key` at or after position `from`, or the end. */
  function FirstPut(ops: seq<Op>, key: Key, from: nat): (i: nat)
    requires from <= |ops|
    ensures from <= i <= |ops|
    ensures i < |ops| ==> ops[i].Put? && ops[i].record.key == key && Check(ops[i]) == None
    ensures forall j :: from <= j < i && ops[j].Put? && ops[j].record.key == key ==> Check(ops[j]) != None
    decreases |ops| - from
  {
    if from == |ops| || (ops[from].Put? && ops[from].record.key == key && Check(ops[from]) == None) then from
    else FirstPut(ops, key, from + 1)
  }

  function FirstEcho(ops: seq<Op>, key: Key, from: nat): (i: nat)
    requires from <= |ops|
    ensures from <= i <= |ops|
    ensures i < |ops| ==> ops[i].Echo? && ops[i].key == key
    ensures forall j :: from <= j < i && ops[j].Echo? ==> ops[j].key != key
    decreases |ops| - from
  {
    if from == |ops| || (ops[from].Echo? && ops[from].key == key) then from else FirstEcho(ops, key, from + 1)
  }

  /** What the history says of a key: its first record, and its own echo time or that of the first later echo. */
  function Attributed(ops: seq<Op>, key: Key): Option<Record> {
    var p := FirstPut(ops, key, 0);
    if p == |ops| then None
    else
      var r := ops[p].record;
      var e := FirstEcho(ops, key, p + 1);
      if r.echoObservedAt.Some? || e == |ops| then Some(r) else Some(r.(echoObservedAt := Some(ops[e].now)))
  }

  lemma {:induction false} FirstPutExtends(ops: seq<Op>, op: Op, key: Key, from: nat)
    requires from <= |ops|
    ensures var i := FirstPut(ops, key, from);
            FirstPut(ops + [op], key, from) ==
            if i < |ops| then i else if op.Put? && op.record.key == key && Check(op) == None then |ops| else |ops| + 1
    decreases |ops| - from
  {
    if from < |ops| { FirstPutExtends(ops, op, key, from + 1); }
  }

  lemma {:induction false} FirstEchoExtends(ops: seq<Op>, op: Op, key: Key, from: nat)
    requires from <= |ops|
    ensures var i := FirstEcho(ops, key, from);
            FirstEcho(ops + [op], key, from) ==
            if i < |ops| then i else if op.Echo? && op.key == key then |ops| else |ops| + 1
    decreases |ops| - from
  {
    if from < |ops| { FirstEchoExtends(ops, op, key, from + 1); }
  }

  lemma {:induction false} RunExtends(t: Table, ops: seq<Op>, op: Op)
    ensures Run(t, ops + [op]) == Apply(Run(t, ops), op).table
    decreases ops
  {
    if ops == [] {
      assert ops + [op] == [op];
    } else {
      assert (ops + [op])[1..] == ops[1..] + [op];
      RunExtends(Apply(t, ops[0]).table, ops[1..], op);
    }
  }

  lemma AttributedExtends(ops: seq<Op>, op: Op, t: Table, key: Key)
    requires Lookup(t, key) == Attributed(ops, key)
    requires key in t ==> CheckRecord(t[key]) == None && t[key].key == key
    ensures Lookup(Apply(t, op).table, key) == Attributed(ops + [op], key)
  {
    FirstPutExtends(ops, op, key, 0);
    var p := FirstPut(ops, key, 0);
    if p < |ops| { FirstEchoExtends(ops, op, key, p + 1); }
    else if FirstPut(ops + [op], key, 0) == |ops| { assert FirstEcho(ops + [op], key, |ops| + 1) == |ops| + 1; }
  }

  /**
   * Over every history the first origin and the first echo time win: what is stored for a key is
   * exactly what its first record and its first echo after that record say.
   */
  lemma {:induction false} FirstRecordAndFirstEchoWin(ops: seq<Op>, key: Key)
    ensures Lookup(Run(map[], ops), key) == Attributed(ops, key)
  {
    if ops != [] {
      var before, op := ops[..|ops| - 1], ops[|ops| - 1];
      assert ops == before + [op];
      FirstRecordAndFirstEchoWin(before, key);
      RunKeepsInv(map[], before);
      RunExtends(map[], before, op);
      AttributedExtends(before, op, Run(map[], before), key);
    }
  }

  // ---------------------------------------------------------------- the order between keys does not matter

  function OnKey(ops: seq<Op>, key: Key): seq<Op> {
    if ops == [] then [] else (if OpKey(ops[0]) == key then [ops[0]] else []) + OnKey(ops[1..], key)
  }

  /** Keys are independent: what is stored and answered for a key depends on the operations on it alone. */
  lemma {:induction false} KeysAreIndependent(t: Table, u: Table, ops: seq<Op>, key: Key)
    requires Lookup(t, key) == Lookup(u, key)
    ensures Lookup(Run(t, ops), key) == Lookup(Run(u, OnKey(ops, key)), key)
    decreases ops
  {
    if ops != [] {
      var op := ops[0];
      if OpKey(op) == key {
        assert OnKey(ops, key) == [op] + OnKey(ops[1..], key);
        KeysAreIndependent(Apply(t, op).table, Apply(u, op).table, ops[1..], key);
      } else {
        assert OnKey(ops, key) == OnKey(ops[1..], key);
        KeysAreIndependent(Apply(t, op).table, u, ops[1..], key);
      }
    }
  }

  /** Executions that agree on the order per key give every operation the same answer. */
  lemma OrderPerKeyIsEnough(ops: seq<Op>, others: seq<Op>, op: Op)
    requires OnKey(ops, OpKey(op)) == OnKey(others, OpKey(op))
    ensures Apply(Run(map[], ops), op).answer == Apply(Run(map[], others), op).answer
  {
    KeysAreIndependent(map[], map[], ops, OpKey(op));
    KeysAreIndependent(map[], map[], others, OpKey(op));
  }
}
