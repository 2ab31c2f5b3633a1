/**
 * One linked-device session record: the send queue chained on `sendTail`, the spacing of sends,
 * the active send, the cache of recently returned message ids, and the observed `fromMe`
 * messages whose origin is being resolved.
 *
 * The code between two awaits is one event. A run is any sequence of events; an event whose
 * guard does not hold leaves the state alone.
 */
module SendQueue {
  import opened Wrappers
  import opened Text

  datatype Config = Config(minSendIntervalMs: nat, maxSendQueue: nat, ttlMs: nat, maxRecent: nat, resolutionMs: nat) {
    /** The lower bounds the manager's constructor imposes. */
    predicate Valid() {
      maxSendQueue >= 1 && ttlMs >= 1_000 && maxRecent >= 10 && resolutionMs >= 50
    }
  }

  /** How the promise of one `sendText` call settled. */
  datatype Receipt = Sent(id: Option<string>, endedAt: int) | NotReady | SendFailed

  datatype Phase = Waiting | Sleeping(wakeAt: int) | Sending | Settled(receipt: Receipt)

  /**
   * An admitted call. `startedAt` is when `sendMessage` was called; `closed` says that the
   * caller's `finally` has given back its place in the queue.
   */
  datatype Op = Op(operation: Option<string>, peer: string, text: string, phase: Phase,
                   startedAt: Option<int>, closed: bool)

  datatype ActiveSend = ActiveSend(operation: string, peer: string, text: string, startedAt: int, op: nat)

  /** An entry of `recentApiMessageIds`; the sequence is the Map's insertion order. */
  datatype Cached = Cached(id: string, operation: string, expiresAt: int)

  datatype Origin = Pending(op: nat, deadline: int) | WorkerApi(operation: string) | NoHint

  datatype Echo = Echo(id: string, peer: string, text: string, origin: Origin)

  datatype State = State(now: int, ready: bool, pendingSends: int, lastSentAt: int,
                         active: Option<ActiveSend>, recent: seq<Cached>, ops: seq<Op>, echoes: seq<Echo>)

  datatype SubmitError = SessionNotReady | InvalidSendPayload | SendQueueFull

  datatype Event =
    | Tick(now: int)
    | SetReady(ready: bool)
    | Submit(to: string, text: string, operationId: Option<string>)
    | Begin(op: nat)
    | Wake(op: nat)
    | Return(op: nat, messageId: Option<string>)
    | Throw(op: nat)
    | Close(op: nat)
    | Observe(id: string, peer: string, text: string)
    | Expire(echo: nat)

  function Initial(now: int): State {
    State(now, false, 0, 0, None, [], [], [])
  }

  // ---------------------------------------------------------------- admission

  function NormalizeOperation(raw: Option<string>): Result<Option<string>, SubmitError> {
    if raw == None || raw == Some("") then Success(None)
    else
      var operation := Trim(raw.value);
      if operation == "" || |operation| > 200 then Failure(InvalidSendPayload) else Success(Some(operation))
  }

  function Target(to: string): string {
    if '@' in to then to else to + "@c.us"
  }

  function Submitted(c: Config, s: State, to: string, text: string, operationId: Option<string>): Result<State, SubmitError> {
    if !s.ready then Failure(SessionNotReady)
    else if to == "" || Trim(text) == "" then Failure(InvalidSendPayload)
    else match NormalizeOperation(operationId)
      case Failure(e) => Failure(e)
      case Success(operation) =>
        if s.pendingSends >= c.maxSendQueue then Failure(SendQueueFull)
        else Success(s.(pendingSends := s.pendingSends + 1,
                        ops := s.ops + [Op(operation, Target(to), Trim(text), Waiting, None, false)]))
  }

  // ---------------------------------------------------------------- sending

  /** The call's `then` callback runs once the tail it was chained on has settled, either way. */
  predicate CanBegin(s: State, i: nat) {
    i < |s.ops| && s.ops[i].phase.Waiting? && (i == 0 || s.ops[i - 1].phase.Settled?)
  }

  predicate CanWake(s: State, i: nat) {
    i < |s.ops| && s.ops[i].phase.Sleeping? && s.ops[i].phase.wakeAt <= s.now
  }

  predicate CanReturn(s: State, i: nat) {
    i < |s.ops| && s.ops[i].phase.Sending?
  }

  predicate CanClose(s: State, i: nat) {
    i < |s.ops| && s.ops[i].phase.Settled? && !s.ops[i].closed
  }

  function Max(a: int, b: int): int { if a < b then b else a }

  function WaitMs(c: Config, s: State): int {
    if s.lastSentAt > 0 then Max(0, c.minSendIntervalMs - (s.now - s.lastSentAt)) else 0
  }

  /** The synchronous part that ends in the call of `sendMessage`. */
  function Started(s: State, i: nat): State
    requires i < |s.ops|
  {
    var op := s.ops[i];
    s.(ops := s.ops[i := op.(phase := Sending, startedAt := Some(s.now))],
       active := if op.operation.Some? then Some(ActiveSend(op.operation.value, op.peer, op.text, s.now, i)) else s.active)
  }

  function Begun(c: Config, s: State, i: nat): State
    requires CanBegin(s, i)
  {
    if !s.ready then s.(ops := s.ops[i := s.ops[i].(phase := Settled(NotReady))])
    else
      var wait := WaitMs(c, s);
      if wait > 0 then s.(ops := s.ops[i := s.ops[i].(phase := Sleeping(s.now + wait))]) else Started(s, i)
  }

  /** The `finally` of the send: only the send's own slot is cleared. */
  function ActiveAfter(s: State, op: Op): Option<ActiveSend> {
    if op.operation.Some? && s.active.Some? && s.active.value.operation == op.operation.value then None else s.active
  }

  /** What resolving the completion of send `i` with `id` does to one observed message. */
  function Resolve(e: Echo, i: nat, operation: string, id: Option<string>): Echo {
    if e.origin.Pending? && e.origin.op == i
    then e.(origin := if id == Some(e.id) then WorkerApi(operation) else NoHint)
    else e
  }

  function ResolveAll(echoes: seq<Echo>, i: nat, operation: Option<string>, id: Option<string>): (r: seq<Echo>)
    ensures |r| == |echoes|
    ensures forall k :: 0 <= k < |r| ==>
      r[k] == if operation.Some? then Resolve(echoes[k], i, operation.value, id) else echoes[k]
  {
    if operation.None? then echoes
    else seq(|echoes|, k requires 0 <= k < |echoes| => Resolve(echoes[k], i, operation.value, id))
  }

  /** `if (messageId && normalizedOperation)`: an empty id is falsy. */
  predicate Caches(op: Op, id: Option<string>) {
    id.Some? && id.value != "" && op.operation.Some?
  }

  function Returned(c: Config, s: State, i: nat, id: Option<string>): State
    requires CanReturn(s, i)
  {
    var op := s.ops[i];
    s.(ops := s.ops[i := op.(phase := Settled(Sent(id, s.now)))],
       lastSentAt := s.now,
       recent := if Caches(op, id)
                 then Prune(c, Put(s.recent, Cached(id.value, op.operation.value, s.now + c.ttlMs)), s.now)
                 else s.recent,
       echoes := ResolveAll(s.echoes, i, op.operation, id),
       active := ActiveAfter(s, op))
  }

  function Thrown(s: State, i: nat): State
    requires CanReturn(s, i)
  {
    var op := s.ops[i];
    s.(ops := s.ops[i := op.(phase := Settled(SendFailed))],
       echoes := ResolveAll(s.echoes, i, op.operation, None),
       active := ActiveAfter(s, op))
  }

  function Closed(s: State, i: nat): State
    requires CanClose(s, i)
  {
    s.(ops := s.ops[i := s.ops[i].(closed := true)], pendingSends := s.pendingSends - 1)
  }

  // ---------------------------------------------------------------- the cache

  /** `Map.set`: a known key keeps its place. */
  function Put(recent: seq<Cached>, entry: Cached): seq<Cached> {
    if recent == [] then [entry]
    else if recent[0].id == entry.id then [entry] + recent[1..]
    else [recent[0]] + Put(recent[1..], entry)
  }

  function Unexpired(recent: seq<Cached>, now: int): seq<Cached> {
    if recent == [] then []
    else (if recent[0].expiresAt <= now then [] else [recent[0]]) + Unexpired(recent[1..], now)
  }

  /** The last `max` entries. */
  function Newest(recent: seq<Cached>, max: nat): (r: seq<Cached>)
    ensures |r| <= max
  {
    if |recent| > max then recent[|recent| - max..] else recent
  }

  function Prune(c: Config, recent: seq<Cached>, now: int): seq<Cached> {
    Newest(Unexpired(recent, now), c.maxRecent)
  }

  function Lookup(recent: seq<Cached>, id: string): Option<string> {
    if recent == [] then None
    else if recent[0].id == id then Some(recent[0].operation)
    else Lookup(recent[1..], id)
  }

  // ---------------------------------------------------------------- observed messages

  predicate Matches(active: Option<ActiveSend>, peer: string, text: string) {
    active.Some? && active.value.peer == peer && active.value.text == text
  }

  function OriginFor(c: Config, s: State, recent: seq<Cached>, id: string, peer: string, text: string): Origin {
    match Lookup(recent, id)
    case Some(operation) => WorkerApi(operation)
    case None => if Matches(s.active, peer, text) then Pending(s.active.value.op, s.now + c.resolutionMs) else NoHint
  }

  function Observed(c: Config, s: State, id: string, peer: string, text: string): State {
    var recent := Prune(c, s.recent, s.now);
    s.(recent := recent, echoes := s.echoes + [Echo(id, peer, text, OriginFor(c, s, recent, id, peer, text))])
  }

  predicate CanExpire(s: State, e: nat) {
    e < |s.echoes| && s.echoes[e].origin.Pending? && s.echoes[e].origin.deadline <= s.now
  }

  function Expired(s: State, e: nat): State
    requires CanExpire(s, e)
  {
    s.(echoes := s.echoes[e := s.echoes[e].(origin := NoHint)])
  }

  // ---------------------------------------------------------------- runs

  function Step(c: Config, s: State, ev: Event): State {
    match ev
    case Tick(t) => if t >= s.now then s.(now := t) else s
    case SetReady(r) => s.(ready := r)
    case Submit(to, text, operationId) =>
      (match Submitted(c, s, to, text, operationId) case Success(s') => s' case Failure(_) => s)
    case Begin(i) => if CanBegin(s, i) then Begun(c, s, i) else s
    case Wake(i) => if CanWake(s, i) then Started(s, i) else s
    case Return(i, id) => if CanReturn(s, i) then Returned(c, s, i, id) else s
    case Throw(i) => if CanReturn(s, i) then Thrown(s, i) else s
    case Close(i) => if CanClose(s, i) then Closed(s, i) else s
    case Observe(id, peer, text) => if id != "" && peer != "" && text != "" then Observed(c, s, id, peer, text) else s
    case Expire(e) => if CanExpire(s, e) then Expired(s, e) else s
  }

  function Run(c: Config, s: State, evs: seq<Event>): State
    decreases evs
  {
    if evs == [] then s else Run(c, Step(c, s, evs[0]), evs[1..])
  }

  // ---------------------------------------------------------------- what every event keeps

  predicate Gave(op: Op, operation: string, id: string) {
    op.operation == Some(operation) && op.phase.Settled? && op.phase.receipt.Sent? && op.phase.receipt.id == Some(id)
  }

  /** Some send of this operation got exactly this message id back from `sendMessage`. */
  ghost predicate ReturnedId(ops: seq<Op>, operation: string, id: string) {
    exists i :: 0 <= i < |ops| && Gave(ops[i], operation, id)
  }

  /** Whatever has left the queue had everything admitted before it settled first. */
  ghost predicate Serial(ops: seq<Op>) {
    forall i, j :: 0 <= i < j < |ops| && !ops[j].phase.Waiting? ==> ops[i].phase.Settled?
  }

  function Unclosed(ops: seq<Op>): nat {
    if ops == [] then 0 else Unclosed(ops[..|ops| - 1]) + if ops[|ops| - 1].closed then 0 else 1
  }

  ghost predicate Queue(c: Config, s: State) {
    && s.pendingSends == Unclosed(s.ops) <= c.maxSendQueue
    && forall i :: 0 <= i < |s.ops| && s.ops[i].closed ==> s.ops[i].phase.Settled?
  }

  predicate IsActive(s: State, i: nat) {
    && i < |s.ops| && s.ops[i].phase.Sending? && s.ops[i].operation.Some? && s.ops[i].startedAt.Some?
    && s.active == Some(ActiveSend(s.ops[i].operation.value, s.ops[i].peer, s.ops[i].text, s.ops[i].startedAt.value, i))
  }

  /** The active slot names the send in flight, and nothing else. */
  ghost predicate ActiveSlot(s: State) {
    && (s.active.Some? ==> IsActive(s, s.active.value.op))
    && (forall i :: 0 <= i < |s.ops| && s.ops[i].phase.Sending? && s.ops[i].operation.Some? ==> IsActive(s, i))
  }

  ghost predicate Times(c: Config, s: State) {
    && 0 < s.now && 0 <= s.lastSentAt <= s.now
    && (forall i :: 0 <= i < |s.ops| && s.ops[i].phase.Settled? && s.ops[i].phase.receipt.Sent? ==>
          s.ops[i].phase.receipt.endedAt <= s.lastSentAt && s.lastSentAt > 0)
    && (forall i :: 0 <= i < |s.ops| && s.ops[i].phase.Sleeping? ==>
          s.lastSentAt > 0 && s.lastSentAt + c.minSendIntervalMs <= s.ops[i].phase.wakeAt)
    && (forall i :: 0 <= i < |s.ops| && (s.ops[i].phase.Waiting? || s.ops[i].phase.Sleeping?) ==> s.ops[i].startedAt.None?)
  }

  /** Every `sendMessage` starts at least the interval after each earlier successful one ended. */
  ghost predicate Spaced(c: Config, ops: seq<Op>) {
    forall i, j :: 0 <= i < j < |ops| && ops[i].phase.Settled? && ops[i].phase.receipt.Sent? && ops[j].startedAt.Some? ==>
      ops[i].phase.receipt.endedAt + c.minSendIntervalMs <= ops[j].startedAt.value
  }

  predicate GoodEcho(s: State, e: Echo) {
    e.origin.Pending? ==>
      && IsActive(s, e.origin.op) && s.ops[e.origin.op].peer == e.peer && s.ops[e.origin.op].text == e.text
  }

  ghost predicate Labels(s: State) {
    && (forall e :: 0 <= e < |s.echoes| ==> GoodEcho(s, s.echoes[e]))
    && (forall e :: 0 <= e < |s.echoes| && s.echoes[e].origin.WorkerApi? ==>
          ReturnedId(s.ops, s.echoes[e].origin.operation, s.echoes[e].id))
  }

  ghost predicate Cache(c: Config, s: State) {
    && |s.recent| <= c.maxRecent
    && (forall k :: 0 <= k < |s.recent| ==>
          s.recent[k].expiresAt <= s.now + c.ttlMs && ReturnedId(s.ops, s.recent[k].operation, s.recent[k].id))
    && (forall j, k :: 0 <= j < k < |s.recent| ==> s.recent[j].id != s.recent[k].id)
  }

  ghost predicate Inv(c: Config, s: State) {
    && c.Valid() && Serial(s.ops) && Queue(c, s) && ActiveSlot(s) && Times(c, s) && Spaced(c, s.ops)
    && Labels(s) && Cache(c, s)
  }
}
