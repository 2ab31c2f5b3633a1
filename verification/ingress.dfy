/**
 * Durable ingress: any number of deliveries of any messages (webhook retries and spool
 * redeliveries alike), each claiming, building its event, appending it and enqueueing the job, and
 * workers appending decisions; every store call may fail, also after it has taken effect. A
 * delivery that is over has been answered: with status 200 or, when it threw, with status 500.
 */
module Ingress {
  import opened Wrappers
  import opened Text
  import opened Sequences

  datatype MessageKey = MessageKey(tenantId: string, messageId: string)

  datatype EventType = Received | DecisionCompleted

  /** Idempotency keys: the root key of a message, and the keys derived from it. */
  datatype IdKey = Root(message: MessageKey) | ProcessInbound(root: IdKey) | Decision(root: IdKey)

  datatype DomainEvent = DomainEvent(eventId: nat, eventType: EventType, tenantId: string, messageId: string,
                                     correlationId: nat, causationId: Option<nat>, key: IdKey)

  datatype Job = Job(tenantId: string, key: IdKey, inboundEvent: DomainEvent)

  /** `Reported` is a failure inside the answer; `Thrown(kept)` says whether the claim was left behind. */
  datatype Phase =
    | Claiming
    | Appending
    | Enqueueing(root: DomainEvent)
    | Queued
    | Duplicate
    | Releasing
    | Reported
    | Thrown(kept: bool)

  datatype Chance = Works | Fails | FailsAfterwards

  /** `appended` and `enqueued`: how its two calls went, if they were made. */
  datatype Delivery = Delivery(message: MessageKey, customerId: string, phase: Phase, appended: Option<Chance>, enqueued: Option<Chance>)

  /** `nextId` stands for the supply of fresh random event ids. */
  datatype World = World(nextId: nat, claims: set<MessageKey>, events: seq<DomainEvent>, jobs: seq<Job>, deliveries: seq<Delivery>)

  datatype Event =
    | Deliver(message: MessageKey, customerId: string)
    | Claim(delivery: nat, chance: Chance)
    | Append(delivery: nat, chance: Chance)
    | Enqueue(delivery: nat, chance: Chance)
    | Release(delivery: nat, chance: Chance)
    | Decide(job: nat, chance: Chance)

  // ---------------------------------------------------------------- the stores

  predicate SameEventKey(e: DomainEvent, f: DomainEvent) {
    e.tenantId == f.tenantId && e.eventType == f.eventType && e.key == f.key
  }

  function FindEvent(events: seq<DomainEvent>, e: DomainEvent): Option<nat> {
    if events == [] then None
    else if SameEventKey(events[|events| - 1], e) then Some(|events| - 1)
    else FindEvent(events[..|events| - 1], e)
  }

  /** The row that has the key after the insert. */
  function Canonical(events: seq<DomainEvent>, e: DomainEvent): DomainEvent {
    if FindEvent(events, e).Some? && FindEvent(events, e).value < |events| then events[FindEvent(events, e).value] else e
  }

  function Appended(events: seq<DomainEvent>, e: DomainEvent): seq<DomainEvent> {
    if FindEvent(events, e).Some? then events else events + [e]
  }

  function FindJob(jobs: seq<Job>, tenantId: string, key: IdKey): Option<nat> {
    if jobs == [] then None
    else if jobs[|jobs| - 1].tenantId == tenantId && jobs[|jobs| - 1].key == key then Some(|jobs| - 1)
    else FindJob(jobs[..|jobs| - 1], tenantId, key)
  }

  function Enqueued(jobs: seq<Job>, job: Job): seq<Job> {
    if FindJob(jobs, job.tenantId, job.key).Some? then jobs else jobs + [job]
  }

  /** `createDomainEvent` without a correlation: the event is its own root. */
  function InboundEvent(id: nat, m: MessageKey): DomainEvent {
    DomainEvent(id, Received, m.tenantId, m.messageId, id, None, Root(m))
  }

  /** `deriveDomainEvent`: the lineage comes from the parent. */
  function DecisionEvent(id: nat, parent: DomainEvent): DomainEvent {
    DomainEvent(id, DecisionCompleted, parent.tenantId, parent.messageId, parent.correlationId, Some(parent.eventId), Decision(parent.key))
  }

  // ---------------------------------------------------------------- steps

  function WithPhase(w: World, d: nat, phase: Phase): World
    requires d < |w.deliveries|
  {
    w.(deliveries := w.deliveries[d := w.deliveries[d].(phase := phase)])
  }

  /** `createInboundDomainEvent` does not throw. It runs after the claim and before the `try`. */
  predicate WellFormed(m: MessageKey, customerId: string) {
    Trim(customerId) != "" && Trim(m.messageId) != ""
  }

  function Claimed(w: World, d: nat, chance: Chance): World
    requires d < |w.deliveries|
  {
    var x := w.deliveries[d];
    var w' := w.(claims := w.claims + {x.message});
    match chance
    case Fails => WithPhase(w, d, Thrown(false))
    case FailsAfterwards => WithPhase(w', d, Thrown(x.message !in w.claims))
    case Works =>
      if x.message in w.claims then WithPhase(w, d, Duplicate)
      else WithPhase(w', d, if WellFormed(x.message, x.customerId) then Appending else Thrown(true))
  }

  function AppendedBy(w: World, d: nat, chance: Chance): World
    requires d < |w.deliveries|
  {
    var x := w.deliveries[d];
    var e := InboundEvent(w.nextId, x.message);
    var phase := if chance == Works then Enqueueing(Canonical(w.events, e)) else Releasing;
    w.(nextId := w.nextId + 1, events := if chance == Fails then w.events else Appended(w.events, e),
       deliveries := w.deliveries[d := x.(phase := phase, appended := Some(chance))])
  }

  function EnqueuedBy(w: World, d: nat, chance: Chance): World
    requires d < |w.deliveries| && w.deliveries[d].phase.Enqueueing?
  {
    var x := w.deliveries[d];
    var job := Job(x.message.tenantId, ProcessInbound(x.phase.root.key), x.phase.root);
    w.(jobs := if chance == Fails then w.jobs else Enqueued(w.jobs, job),
       deliveries := w.deliveries[d := x.(phase := if chance == Works then Queued else Releasing, enqueued := Some(chance))])
  }

  /** A release that throws leaves the request with status 500. */
  function ReleasedBy(w: World, d: nat, chance: Chance): World
    requires d < |w.deliveries|
  {
    var w' := w.(claims := w.claims - {w.deliveries[d].message});
    match chance
    case Fails => WithPhase(w, d, Thrown(true))
    case FailsAfterwards => WithPhase(w', d, Thrown(false))
    case Works => WithPhase(w', d, Reported)
  }

  function Step(w: World, ev: Event): World {
    match ev
    case Deliver(m, customerId) => w.(deliveries := w.deliveries + [Delivery(m, customerId, Claiming, None, None)])
    case Claim(d, chance) => if d < |w.deliveries| && w.deliveries[d].phase == Claiming then Claimed(w, d, chance) else w
    case Append(d, chance) => if d < |w.deliveries| && w.deliveries[d].phase == Appending then AppendedBy(w, d, chance) else w
    case Enqueue(d, chance) => if d < |w.deliveries| && w.deliveries[d].phase.Enqueueing? then EnqueuedBy(w, d, chance) else w
    case Release(d, chance) => if d < |w.deliveries| && w.deliveries[d].phase == Releasing then ReleasedBy(w, d, chance) else w
    case Decide(j, chance) =>
      if j < |w.jobs| && chance != Fails then
        w.(nextId := w.nextId + 1, events := Appended(w.events, DecisionEvent(w.nextId, w.jobs[j].inboundEvent)))
      else w
  }

  function Run(w: World, evs: seq<Event>): World
    decreases evs
  {
    if evs == [] then w else Run(Step(w, evs[0]), evs[1..])
  }

  const START := World(0, {}, [], [], [])

  // ---------------------------------------------------------------- what every event keeps

  predicate Holding(d: Delivery) {
    d.phase.Appending? || d.phase.Enqueueing? || d.phase.Queued? || d.phase.Releasing?
  }

  /** The claim is this delivery's: it is under way, has queued the job, or threw and left the claim behind. */
  predicate Keeps(d: Delivery) {
    Holding(d) || d.phase == Thrown(true)
  }

  predicate IsRootOf(e: DomainEvent, m: MessageKey) {
    && e.eventType == Received && e.key == Root(m) && e.tenantId == m.tenantId && e.messageId == m.messageId
    && e.correlationId == e.eventId && e.causationId == None
  }

  /** The root event of `m` is stored. */
  ghost predicate HasRoot(w: World, m: MessageKey, root: DomainEvent) {
    root in w.events && IsRootOf(root, m)
  }

  ghost predicate HasJob(w: World, m: MessageKey) {
    exists j :: 0 <= j < |w.jobs| && w.jobs[j].tenantId == m.tenantId && w.jobs[j].key == ProcessInbound(Root(m))
  }

  /** A stored decision names a stored root as its cause and its correlation. */
  ghost predicate NamesItsRoot(events: seq<DomainEvent>, e: DomainEvent) {
    exists r :: 0 <= r < |events| && events[r].eventType == Received && e.key == Decision(events[r].key)
      && IsRootOf(events[r], MessageKey(e.tenantId, e.messageId))
      && e.causationId == Some(events[r].eventId) && e.correlationId == events[r].eventId
  }

  ghost predicate Events(w: World) {
    && (forall i :: 0 <= i < |w.events| ==> w.events[i].eventId < w.nextId)
    && (forall i, j :: 0 <= i < j < |w.events| ==> !SameEventKey(w.events[i], w.events[j]) && w.events[i].eventId != w.events[j].eventId)
    && (forall i :: 0 <= i < |w.events| && w.events[i].eventType == Received ==>
          IsRootOf(w.events[i], MessageKey(w.events[i].tenantId, w.events[i].messageId)))
    && (forall i :: 0 <= i < |w.events| && w.events[i].eventType == DecisionCompleted ==> NamesItsRoot(w.events, w.events[i]))
  }

  ghost predicate Jobs(w: World) {
    && (forall i, j :: 0 <= i < j < |w.jobs| ==> w.jobs[i].tenantId != w.jobs[j].tenantId || w.jobs[i].key != w.jobs[j].key)
    && (forall j :: 0 <= j < |w.jobs| ==>
          var e := w.jobs[j].inboundEvent; var m := MessageKey(e.tenantId, e.messageId);
          HasRoot(w, m, e) && w.jobs[j].tenantId == e.tenantId && w.jobs[j].key == ProcessInbound(Root(m)))
  }

  /** The enqueue took effect, acknowledged or not. */
  predicate Stored(d: Delivery) {
    d.enqueued == Some(Works) || d.enqueued == Some(FailsAfterwards)
  }

  /** It never got to work: a duplicate, or thrown out of its claim. */
  predicate TurnedAway(d: Delivery) {
    d.phase.Duplicate? || (d.phase.Thrown? && d.appended.None?)
  }

  predicate AppendFailed(d: Delivery) {
    d.appended == Some(Fails) || d.appended == Some(FailsAfterwards)
  }

  /** The enqueue failed and left no job. */
  predicate EnqueueFailed(d: Delivery) {
    d.enqueued == Some(Fails)
  }

  /** The two calls are made in order, and what they gave decides where the delivery is. */
  predicate CallsInOrder(d: Delivery) {
    match d.phase
    case Claiming => d.appended.None? && d.enqueued.None?
    case Appending => d.appended.None? && d.enqueued.None?
    case Duplicate => d.appended.None? && d.enqueued.None?
    case Enqueueing(_) => d.appended == Some(Works) && d.enqueued.None?
    case Queued => d.appended == Some(Works) && d.enqueued == Some(Works)
    case Releasing => HasFailed(d)
    case Reported => HasFailed(d)
    case Thrown(_) => HasFailed(d) || (d.appended.None? && d.enqueued.None?)
  }

  predicate HasFailed(d: Delivery) {
    (AppendFailed(d) && d.enqueued.None?) || (d.appended == Some(Works) && d.enqueued.Some? && d.enqueued != Some(Works))
  }

  ghost predicate GoodDelivery(w: World, d: Delivery) {
    && (Keeps(d) ==> d.message in w.claims)
    && (d.phase.Enqueueing? ==> HasRoot(w, d.message, d.phase.root))
    && (Stored(d) ==> HasJob(w, d.message)) && CallsInOrder(d)
    && (d.phase.Appending? || d.phase.Enqueueing? ==> WellFormed(d.message, d.customerId))
  }

  ghost predicate Deliveries(w: World) {
    && (forall d :: 0 <= d < |w.deliveries| ==> GoodDelivery(w, w.deliveries[d]))
    && (forall c, d :: 0 <= c < d < |w.deliveries| && Keeps(w.deliveries[c]) && Keeps(w.deliveries[d]) ==>
          w.deliveries[c].message != w.deliveries[d].message)
  }

  /** No delivery of `m` is under way, has queued its job, or left its claim behind. */
  ghost predicate NobodyKeeps(w: World, m: MessageKey) {
    forall x :: 0 <= x < |w.deliveries| && Keeps(w.deliveries[x]) ==> w.deliveries[x].message != m
  }

  ghost predicate ClaimsAreKept(w: World) {
    forall m :: m in w.claims ==> !NobodyKeeps(w, m)
  }

  /** Some delivery of `m` has stored its job. */
  ghost predicate SomebodyStored(w: World, m: MessageKey) {
    exists x :: 0 <= x < |w.deliveries| && w.deliveries[x].message == m && Stored(w.deliveries[x])
  }

  ghost predicate JobsAreStored(w: World) {
    forall m: MessageKey :: HasJob(w, m) ==> SomebodyStored(w, m)
  }

  ghost predicate Inv(w: World) {
    Events(w) && Jobs(w) && Deliveries(w) && ClaimsAreKept(w) && JobsAreStored(w)
  }

  lemma {:induction false} FindEventFinds(events: seq<DomainEvent>, e: DomainEvent)
    ensures match FindEvent(events, e)
            case Some(i) => i < |events| && SameEventKey(events[i], e)
            case None => forall i :: 0 <= i < |events| ==> !SameEventKey(events[i], e)
  {
    if events != [] && !SameEventKey(events[|events| - 1], e) { FindEventFinds(events[..|events| - 1], e); }
  }

  lemma {:induction false} FindJobFinds(jobs: seq<Job>, tenantId: string, key: IdKey)
    ensures match FindJob(jobs, tenantId, key)
            case Some(i) => i < |jobs| && jobs[i].tenantId == tenantId && jobs[i].key == key
            case None => forall i :: 0 <= i < |jobs| ==> jobs[i].tenantId != tenantId || jobs[i].key != key
  {
    if jobs != [] && !(jobs[|jobs| - 1].tenantId == tenantId && jobs[|jobs| - 1].key == key) {
      FindJobFinds(jobs[..|jobs| - 1], tenantId, key);
    }
  }

  lemma NamesStays(events: seq<DomainEvent>, more: seq<DomainEvent>, e: DomainEvent)
    requires NamesItsRoot(events, e)
    ensures NamesItsRoot(events + more, e)
  {
    var r :| 0 <= r < |events| && events[r].eventType == Received && e.key == Decision(events[r].key)
      && IsRootOf(events[r], MessageKey(e.tenantId, e.messageId))
      && e.causationId == Some(events[r].eventId) && e.correlationId == events[r].eventId;
    assert (events + more)[r] == events[r];
  }

  /** Appending a fresh event that is a root, or names a stored one, keeps the event table good. */
  lemma NewRowKeepsEvents(w: World, e: DomainEvent)
    requires Events(w) && e.eventId == w.nextId
    requires forall i :: 0 <= i < |w.events| ==> !SameEventKey(w.events[i], e)
    requires e.eventType == Received ==> IsRootOf(e, MessageKey(e.tenantId, e.messageId))
    requires e.eventType == DecisionCompleted ==> NamesItsRoot(w.events, e)
    ensures Events(w.(nextId := w.nextId + 1, events := w.events + [e]))
  {
    var w' := w.(nextId := w.nextId + 1, events := w.events + [e]);
    forall i | 0 <= i < |w'.events| && w'.events[i].eventType == DecisionCompleted ensures NamesItsRoot(w'.events, w'.events[i]) {
      NamesStays(w.events, [e], w'.events[i]);
    }
  }

  lemma AppendKeepsEvents(w: World, e: DomainEvent)
    requires Events(w) && e.eventId == w.nextId
    requires e.eventType == Received ==> IsRootOf(e, MessageKey(e.tenantId, e.messageId))
    requires e.eventType == DecisionCompleted ==> NamesItsRoot(w.events, e)
    ensures Events(AfterAppend(w, e))
    ensures Canonical(w.events, e) in Appended(w.events, e) && SameEventKey(Canonical(w.events, e), e)
    ensures Canonical(w.events, e).eventType == Received ==>
      IsRootOf(Canonical(w.events, e), MessageKey(Canonical(w.events, e).tenantId, Canonical(w.events, e).messageId))
    ensures forall x :: x in w.events ==> x in Appended(w.events, e)
  {
    FindEventFinds(w.events, e);
    if FindEvent(w.events, e).None? { NewRowKeepsEvents(w, e); }
  }

  function AfterAppend(w: World, e: DomainEvent): World {
    w.(nextId := w.nextId + 1, events := Appended(w.events, e))
  }

  /** Growing tables keep what is known about jobs and deliveries. */
  lemma TablesGrow(w: World, w': World)
    requires Deliveries(w) && w'.deliveries == w.deliveries && w'.claims == w.claims
    requires w.jobs <= w'.jobs && (forall x :: x in w.events ==> x in w'.events)
    ensures Deliveries(w')
  {
    forall d | 0 <= d < |w'.deliveries| ensures GoodDelivery(w', w'.deliveries[d]) {
      var x := w.deliveries[d];
      assert GoodDelivery(w, x);
      if Stored(x) {
        var j :| 0 <= j < |w.jobs| && w.jobs[j].tenantId == x.message.tenantId && w.jobs[j].key == ProcessInbound(Root(x.message));
        assert w'.jobs[j] == w.jobs[j];
      }
    }
  }

  /** Two worlds with the same jobs, one delivery's progress apart. */
  ghost predicate OneMoves(w: World, w': World, d: nat) {
    && d < |w.deliveries| == |w'.deliveries| && w'.events == w.events && w'.nextId == w.nextId && w'.jobs == w.jobs
    && w'.deliveries == w.deliveries[d := w'.deliveries[d]]
    && w'.deliveries[d].message == w.deliveries[d].message && (Stored(w.deliveries[d]) ==> Stored(w'.deliveries[d]))
  }

  lemma StoredStays(w: World, w': World)
    requires JobsAreStored(w) && |w.deliveries| <= |w'.deliveries|
    requires forall x :: 0 <= x < |w.deliveries| ==>
      w'.deliveries[x].message == w.deliveries[x].message && (Stored(w.deliveries[x]) ==> Stored(w'.deliveries[x]))
    ensures forall m: MessageKey :: HasJob(w, m) ==> SomebodyStored(w', m)
  {
    forall m: MessageKey | HasJob(w, m) ensures SomebodyStored(w', m) {
      var x :| 0 <= x < |w.deliveries| && w.deliveries[x].message == m && Stored(w.deliveries[x]);
      assert w'.deliveries[x].message == m && Stored(w'.deliveries[x]);
    }
  }

  lemma SameJobs(w: World, w': World)
    requires w'.jobs == w.jobs
    ensures forall m: MessageKey :: HasJob(w, m) == HasJob(w', m)
  {
  }

  /** A delivery moves on; the claims gain or lose its message only as it comes to keep or to drop it. */
  lemma MoveKeeps(w: World, w': World, d: nat)
    requires Inv(w) && OneMoves(w, w', d)
    requires w'.claims == w.claims || w'.claims == w.claims + {w.deliveries[d].message} || w'.claims == w.claims - {w.deliveries[d].message}
    requires Keeps(w'.deliveries[d]) ==> w.deliveries[d].message in w'.claims
    requires Keeps(w'.deliveries[d]) && !Keeps(w.deliveries[d]) ==> w.deliveries[d].message !in w.claims
    requires w.deliveries[d].message in w'.claims && w.deliveries[d].message !in w.claims ==> Keeps(w'.deliveries[d])
    requires Keeps(w.deliveries[d]) && !Keeps(w'.deliveries[d]) ==> w.deliveries[d].message !in w'.claims
    requires w.deliveries[d].message !in w'.claims && w.deliveries[d].message in w.claims ==> Keeps(w.deliveries[d])
    requires GoodDelivery(w.(claims := w'.claims), w'.deliveries[d])
    ensures Inv(w')
  {
    MovedDeliveries(w, w', d);
    MovedClaims(w, w', d);
    StoredStays(w, w');
    SameJobs(w, w');
    JobsStay(w, w');
  }

  lemma JobsStay(w: World, w': World)
    requires Jobs(w) && w'.jobs == w.jobs && w'.events == w.events
    ensures Jobs(w')
  {
  }

  lemma MovedDeliveries(w: World, w': World, d: nat)
    requires Deliveries(w) && OneMoves(w, w', d)
    requires w'.claims == w.claims || w'.claims == w.claims + {w.deliveries[d].message} || w'.claims == w.claims - {w.deliveries[d].message}
    requires Keeps(w'.deliveries[d]) && !Keeps(w.deliveries[d]) ==> w.deliveries[d].message !in w.claims
    requires w.deliveries[d].message !in w'.claims && w.deliveries[d].message in w.claims ==> Keeps(w.deliveries[d])
    requires GoodDelivery(w.(claims := w'.claims), w'.deliveries[d])
    ensures Deliveries(w')
  {
    forall x | 0 <= x < |w'.deliveries| ensures GoodDelivery(w', w'.deliveries[x]) {
      assert GoodDelivery(w, w.deliveries[x]) && GoodDelivery(w, w.deliveries[d]);
      if x != d && Keeps(w.deliveries[x]) && Keeps(w.deliveries[d]) { assert w.deliveries[x].message != w.deliveries[d].message; }
    }
    forall a, b | 0 <= a < b < |w'.deliveries| && Keeps(w'.deliveries[a]) && Keeps(w'.deliveries[b])
      ensures w'.deliveries[a].message != w'.deliveries[b].message
    {
      assert GoodDelivery(w, w.deliveries[a]) && GoodDelivery(w, w.deliveries[b]);
    }
  }

  lemma MovedClaims(w: World, w': World, d: nat)
    requires ClaimsAreKept(w) && OneMoves(w, w', d)
    requires w'.claims == w.claims || w'.claims == w.claims + {w.deliveries[d].message} || w'.claims == w.claims - {w.deliveries[d].message}
    requires w.deliveries[d].message in w'.claims && w.deliveries[d].message !in w.claims ==> Keeps(w'.deliveries[d])
    requires Keeps(w.deliveries[d]) && !Keeps(w'.deliveries[d]) ==> w.deliveries[d].message !in w'.claims
    ensures ClaimsAreKept(w')
  {
    forall m | m in w'.claims ensures !NobodyKeeps(w', m) {
      if m == w.deliveries[d].message && Keeps(w'.deliveries[d]) {
        assert w'.deliveries[d].message == m;
      } else {
        var x :| 0 <= x < |w.deliveries| && Keeps(w.deliveries[x]) && w.deliveries[x].message == m;
        assert w'.deliveries[x] == w.deliveries[x];
      }
    }
  }

  /** A stored event, or one just inserted, is what the insert returns. */
  lemma CanonicalIsTheRoot(w: World, m: MessageKey)
    requires Events(w)
    ensures var e := InboundEvent(w.nextId, m); var w' := AfterAppend(w, e);
            Events(w') && HasRoot(w', m, Canonical(w.events, e))
  {
    AppendKeepsEvents(w, InboundEvent(w.nextId, m));
  }

  lemma JobsSurviveAppend(w: World, w': World)
    requires Jobs(w) && w'.jobs == w.jobs && (forall x :: x in w.events ==> x in w'.events)
    ensures Jobs(w')
  {
  }

  lemma NewEventKeeps(w: World, e: DomainEvent)
    requires Inv(w) && e.eventId == w.nextId
    requires e.eventType == Received ==> IsRootOf(e, MessageKey(e.tenantId, e.messageId))
    requires e.eventType == DecisionCompleted ==> NamesItsRoot(w.events, e)
    ensures Inv(AfterAppend(w, e))
  {
    var w' := AfterAppend(w, e);
    AppendKeepsEvents(w, e);
    JobsSurviveAppend(w, w');
    TablesGrow(w, w');
    OthersStay(w, w');
  }

  lemma OthersStay(w: World, w': World)
    requires ClaimsAreKept(w) && JobsAreStored(w) && w'.deliveries == w.deliveries && w'.claims == w.claims && w'.jobs == w.jobs
    ensures ClaimsAreKept(w') && JobsAreStored(w')
  {
    forall m | m in w'.claims ensures !NobodyKeeps(w', m) { assert !NobodyKeeps(w, m); }
    StoredStays(w, w');
    SameJobs(w, w');
  }

  lemma AppendKeeps(w: World, d: nat, chance: Chance)
    requires Inv(w) && d < |w.deliveries| && w.deliveries[d].phase == Appending
    ensures Inv(Step(w, Append(d, chance)))
  {
    var m := w.deliveries[d].message;
    var e := InboundEvent(w.nextId, m);
    assert GoodDelivery(w, w.deliveries[d]);
    if chance == Fails {
      var w' := w.(nextId := w.nextId + 1);
      SkippedIdKeeps(w, w');
      MoveKeeps(w', Step(w, Append(d, chance)), d);
    } else {
      var w' := AfterAppend(w, e);
      NewEventKeeps(w, e);
      CanonicalIsTheRoot(w, m);
      MoveKeeps(w', Step(w, Append(d, chance)), d);
    }
  }

  lemma SkippedIdKeeps(w: World, w': World)
    requires Inv(w) && w' == w.(nextId := w.nextId + 1)
    ensures Inv(w')
  {
    TablesGrow(w, w');
    OthersStay(w, w');
    JobsStay(w, w');
  }

  lemma NewJobKeeps(w: World, m: MessageKey, root: DomainEvent)
    requires Events(w) && Jobs(w) && HasRoot(w, m, root)
    ensures var w' := w.(jobs := Enqueued(w.jobs, Job(m.tenantId, ProcessInbound(root.key), root)));
            Jobs(w') && HasJob(w', m) && w.jobs <= w'.jobs
  {
    var job := Job(m.tenantId, ProcessInbound(root.key), root);
    FindJobFinds(w.jobs, job.tenantId, job.key);
    var found := FindJob(w.jobs, job.tenantId, job.key);
    var w' := w.(jobs := Enqueued(w.jobs, job));
    var j := if found.Some? then found.value else |w.jobs|;
    assert w'.jobs[j].tenantId == m.tenantId && w'.jobs[j].key == ProcessInbound(Root(m));
  }

  lemma JobsAfterEnqueue(w: World, m: MessageKey, root: DomainEvent, other: MessageKey)
    requires HasRoot(w, m, root)
    requires HasJob(w.(jobs := Enqueued(w.jobs, Job(m.tenantId, ProcessInbound(root.key), root))), other)
    ensures other == m || HasJob(w, other)
  {
    var w' := w.(jobs := Enqueued(w.jobs, Job(m.tenantId, ProcessInbound(root.key), root)));
    var j :| 0 <= j < |w'.jobs| && w'.jobs[j].tenantId == other.tenantId && w'.jobs[j].key == ProcessInbound(Root(other));
    if j < |w.jobs| { assert w.jobs[j] == w'.jobs[j]; }
  }

  /** The job is in the table and the delivery marked, whether or not the enqueue was acknowledged. */
  lemma StoreKeeps(w: World, d: nat)
    requires Inv(w) && d < |w.deliveries| && w.deliveries[d].phase.Enqueueing?
    ensures var x := w.deliveries[d]; var job := Job(x.message.tenantId, ProcessInbound(x.phase.root.key), x.phase.root);
            Inv(w.(jobs := Enqueued(w.jobs, job), deliveries := w.deliveries[d := x.(phase := Releasing, enqueued := Some(FailsAfterwards))]))
  {
    var x := w.deliveries[d];
    var job := Job(x.message.tenantId, ProcessInbound(x.phase.root.key), x.phase.root);
    var w1 := w.(jobs := Enqueued(w.jobs, job));
    var w2 := w1.(deliveries := w.deliveries[d := x.(phase := Releasing, enqueued := Some(FailsAfterwards))]);
    assert GoodDelivery(w, x);
    NewJobKeeps(w, x.message, x.phase.root);
    TablesGrow(w, w1);
    assert OneMoves(w1, w2, d);
    MovedDeliveries(w1, w2, d);
    MovedClaims(w1, w2, d);
    JobsStay(w1, w2);
    StoredStays(w, w2);
    forall m: MessageKey | HasJob(w2, m) ensures SomebodyStored(w2, m) {
      SameJobs(w1, w2);
      JobsAfterEnqueue(w, x.message, x.phase.root, m);
      if m == x.message { assert w2.deliveries[d].message == m && Stored(w2.deliveries[d]); }
    }
  }

  lemma FailedEnqueueKeeps(w: World, d: nat)
    requires Inv(w) && d < |w.deliveries| && w.deliveries[d].phase.Enqueueing?
    ensures Inv(Step(w, Enqueue(d, Fails)))
  {
    assert GoodDelivery(w, w.deliveries[d]);
    MoveKeeps(w, Step(w, Enqueue(d, Fails)), d);
  }

  lemma AcknowledgedEnqueueKeeps(w: World, d: nat)
    requires Inv(w) && d < |w.deliveries| && w.deliveries[d].phase.Enqueueing?
    ensures Inv(Step(w, Enqueue(d, Works)))
  {
    var w1, w' := Step(w, Enqueue(d, FailsAfterwards)), Step(w, Enqueue(d, Works));
    StoreKeeps(w, d);
    assert GoodDelivery(w1, w1.deliveries[d]);
    assert w'.deliveries == w1.deliveries[d := w'.deliveries[d]];
    MoveKeeps(w1, w', d);
  }

  lemma EnqueueKeeps(w: World, d: nat, chance: Chance)
    requires Inv(w) && d < |w.deliveries| && w.deliveries[d].phase.Enqueueing?
    ensures Inv(Step(w, Enqueue(d, chance)))
  {
    match chance
    case Fails => FailedEnqueueKeeps(w, d);
    case Works => AcknowledgedEnqueueKeeps(w, d);
    case FailsAfterwards => StoreKeeps(w, d);
  }

  lemma DecideKeeps(w: World, j: nat)
    requires Inv(w) && j < |w.jobs|
    ensures Inv(Step(w, Decide(j, Works)))
  {
    var root := w.jobs[j].inboundEvent;
    var e := DecisionEvent(w.nextId, root);
    assert HasRoot(w, MessageKey(root.tenantId, root.messageId), root);
    var r :| 0 <= r < |w.events| && w.events[r] == root;
    assert NamesItsRoot(w.events, e);
    NewEventKeeps(w, e);
  }

  lemma ClaimKeeps(w: World, d: nat, chance: Chance)
    requires Inv(w) && d < |w.deliveries| && w.deliveries[d].phase == Claiming
    ensures Inv(Step(w, Claim(d, chance)))
  {
    assert GoodDelivery(w, w.deliveries[d]);
    MoveKeeps(w, Step(w, Claim(d, chance)), d);
  }

  lemma ReleaseKeeps(w: World, d: nat, chance: Chance)
    requires Inv(w) && d < |w.deliveries| && w.deliveries[d].phase == Releasing
    ensures Inv(Step(w, Release(d, chance)))
  {
    assert GoodDelivery(w, w.deliveries[d]);
    MoveKeeps(w, Step(w, Release(d, chance)), d);
  }

  lemma DeliveredAreGood(w: World, m: MessageKey, customerId: string)
    requires Deliveries(w)
    ensures Deliveries(Step(w, Deliver(m, customerId)))
  {
    var w' := Step(w, Deliver(m, customerId));
    forall x | 0 <= x < |w'.deliveries| ensures GoodDelivery(w', w'.deliveries[x]) {
      if x < |w.deliveries| { assert GoodDelivery(w, w.deliveries[x]); }
    }
  }

  lemma DeliverKeeps(w: World, m: MessageKey, customerId: string)
    requires Inv(w)
    ensures Inv(Step(w, Deliver(m, customerId)))
  {
    var w' := Step(w, Deliver(m, customerId));
    DeliveredAreGood(w, m, customerId);
    forall k | k in w'.claims ensures !NobodyKeeps(w', k) {
      var x :| 0 <= x < |w.deliveries| && Keeps(w.deliveries[x]) && w.deliveries[x].message == k;
      assert w'.deliveries[x] == w.deliveries[x];
    }
    StoredStays(w, w');
    SameJobs(w, w');
    JobsStay(w, w');
  }

  lemma StepKeepsInv(w: World, ev: Event)
    requires Inv(w)
    ensures Inv(Step(w, ev))
  {
    match ev
    case Deliver(m, customerId) => DeliverKeeps(w, m, customerId);
    case Claim(d, chance) => if d < |w.deliveries| && w.deliveries[d].phase == Claiming { ClaimKeeps(w, d, chance); }
    case Append(d, chance) => if d < |w.deliveries| && w.deliveries[d].phase == Appending { AppendKeeps(w, d, chance); }
    case Enqueue(d, chance) => if d < |w.deliveries| && w.deliveries[d].phase.Enqueueing? { EnqueueKeeps(w, d, chance); }
    case Release(d, chance) => if d < |w.deliveries| && w.deliveries[d].phase == Releasing { ReleaseKeeps(w, d, chance); }
    case Decide(j, chance) => if j < |w.jobs| && chance != Fails { DecideKeeps(w, j); }
  }

  lemma {:induction false} RunKeepsInv(w: World, evs: seq<Event>)
    requires Inv(w)
    ensures Inv(Run(w, evs))
    decreases evs
  {
    if evs != [] {
      StepKeepsInv(w, evs[0]);
      RunKeepsInv(Step(w, evs[0]), evs[1..]);
    }
  }

  // ---------------------------------------------------------------- whole runs

  /**
   * In every run: no message has two root events or two jobs; a delivery that reports the job as
   * queued leaves the claim held and exactly one root event and one job behind; at most one
   * delivery of a message reports so; and every decision names its message's only root as cause
   * and correlation.
   */
  lemma EveryRunIngestsOnce(evs: seq<Event>)
    ensures var w := Run(START, evs);
      && (forall i, j, m :: 0 <= i < j < |w.events| ==> !(IsRootOf(w.events[i], m) && IsRootOf(w.events[j], m)))
      && (forall i, j :: 0 <= i < j < |w.jobs| ==> w.jobs[i].tenantId != w.jobs[j].tenantId || w.jobs[i].key != w.jobs[j].key)
      && (forall d :: 0 <= d < |w.deliveries| && w.deliveries[d].phase == Queued ==>
            Ingested(w, w.deliveries[d].message))
      && (forall c, d :: 0 <= c < d < |w.deliveries| && w.deliveries[c].phase == Queued && w.deliveries[d].phase == Queued ==>
            w.deliveries[c].message != w.deliveries[d].message)
      && (forall i :: 0 <= i < |w.events| && w.events[i].eventType == DecisionCompleted ==> NamesItsRoot(w.events, w.events[i]))
  {
    RunKeepsInv(START, evs);
    var w := Run(START, evs);
    forall d | 0 <= d < |w.deliveries| && w.deliveries[d].phase == Queued ensures Ingested(w, w.deliveries[d].message) { QueuedIsIngested(w, d); }
    OneRootEach(w);
    OneQueuesEach(w);
  }

  lemma QueuedIsIngested(w: World, d: nat)
    requires Inv(w) && d < |w.deliveries| && w.deliveries[d].phase == Queued
    ensures Ingested(w, w.deliveries[d].message)
  {
    var m := w.deliveries[d].message;
    assert GoodDelivery(w, w.deliveries[d]);
    var j :| 0 <= j < |w.jobs| && w.jobs[j].tenantId == m.tenantId && w.jobs[j].key == ProcessInbound(Root(m));
    assert HasRoot(w, m, w.jobs[j].inboundEvent);
  }

  lemma OneRootEach(w: World)
    requires Events(w)
    ensures forall i, j, m :: 0 <= i < j < |w.events| ==> !(IsRootOf(w.events[i], m) && IsRootOf(w.events[j], m))
  {
    forall i, j, m | 0 <= i < j < |w.events| ensures !(IsRootOf(w.events[i], m) && IsRootOf(w.events[j], m)) {
      assert !SameEventKey(w.events[i], w.events[j]);
    }
  }

  lemma OneQueuesEach(w: World)
    requires Deliveries(w)
    ensures forall c, d :: 0 <= c < d < |w.deliveries| && w.deliveries[c].phase == Queued && w.deliveries[d].phase == Queued ==>
      w.deliveries[c].message != w.deliveries[d].message
  {
    assert forall d :: 0 <= d < |w.deliveries| && w.deliveries[d].phase == Queued ==> Keeps(w.deliveries[d]);
  }

  /** The claim is held, the root event is stored, and a job carries exactly that event. */
  ghost predicate Ingested(w: World, m: MessageKey) {
    && m in w.claims
    && exists j :: 0 <= j < |w.jobs| && w.jobs[j].tenantId == m.tenantId && w.jobs[j].key == ProcessInbound(Root(m))
         && HasRoot(w, m, w.jobs[j].inboundEvent)
  }

  /** A message once queued stays ingested, whatever is delivered, lost or retried later. */
  lemma IngestedStays(w: World, d: nat, evs: seq<Event>)
    requires Inv(w) && d < |w.deliveries| && w.deliveries[d].phase == Queued
    ensures var after, m := Run(w, evs), w.deliveries[d].message;
            d < |after.deliveries| && after.deliveries[d] == w.deliveries[d] && m in after.claims && HasJob(after, m)
  {
    RunKeepsInv(w, evs);
    QueuedStays(w, d, evs);
    assert GoodDelivery(Run(w, evs), w.deliveries[d]);
  }

  lemma {:induction false} QueuedStays(w: World, d: nat, evs: seq<Event>)
    requires d < |w.deliveries| && w.deliveries[d].phase == Queued
    ensures d < |Run(w, evs).deliveries| && Run(w, evs).deliveries[d] == w.deliveries[d]
    decreases evs
  {
    if evs != [] { QueuedStays(Step(w, evs[0]), d, evs[1..]); }
  }

  /**
   * In every run a message is claimed exactly when a delivery of it is under way, has queued its
   * job, or threw and left the claim behind; and at most one delivery does so.
   */
  lemma ClaimsAreExact(evs: seq<Event>, m: MessageKey)
    ensures var w := Run(START, evs);
      && (m in w.claims <==> !NobodyKeeps(w, m))
      && (forall c, d :: 0 <= c < d < |w.deliveries| && Keeps(w.deliveries[c]) && Keeps(w.deliveries[d]) ==>
            w.deliveries[c].message != w.deliveries[d].message)
  {
    RunKeepsInv(START, evs);
    var w := Run(START, evs);
    if !NobodyKeeps(w, m) {
      var x :| 0 <= x < |w.deliveries| && Keeps(w.deliveries[x]) && w.deliveries[x].message == m;
      assert GoodDelivery(w, w.deliveries[x]);
    }
  }

  /** A delivery that comes while nobody keeps its message gets to work, if it is well formed; and only then. */
  lemma DeliveryIsAdmittedIff(w: World, d: nat)
    requires Inv(w) && d < |w.deliveries| && w.deliveries[d].phase == Claiming
    ensures Step(w, Claim(d, Works)).deliveries[d].phase == Appending <==>
      NobodyKeeps(w, w.deliveries[d].message) && !AllSpace(w.deliveries[d].customerId) && !AllSpace(w.deliveries[d].message.messageId)
  {
    TrimIsEmptyIff(w.deliveries[d].customerId);
    TrimIsEmptyIff(w.deliveries[d].message.messageId);
    var m := w.deliveries[d].message;
    if m in w.claims {
      assert !NobodyKeeps(w, m);
    } else {
      forall x | 0 <= x < |w.deliveries| && Keeps(w.deliveries[x]) ensures w.deliveries[x].message != m { assert GoodDelivery(w, w.deliveries[x]); }
    }
  }

  /** A delivery that throws out of its claim, by the store or by its message, and the claim stays. */
  predicate LeavesItsClaim(w: World, d: nat, chance: Chance)
    requires d < |w.deliveries|
  {
    var x := w.deliveries[d];
    && x.phase == Claiming && x.message !in w.claims
    && (chance == FailsAfterwards || (chance == Works && !WellFormed(x.message, x.customerId)))
  }

  /**
   * A claim that fails after taking effect, or that is made for a message whose event cannot be
   * built, turns every later delivery away for ever: none gets to work, and no job is added.
   */
  lemma LostClaimTurnsDeliveriesAway(w: World, d: nat, chance: Chance, evs: seq<Event>)
    requires Inv(w) && d < |w.deliveries| && LeavesItsClaim(w, d, chance)
    ensures var m, after := w.deliveries[d].message, Run(Step(w, Claim(d, chance)), evs);
      && d < |after.deliveries| && after.deliveries[d].phase == Thrown(true) && m in after.claims
      && (forall x :: 0 <= x < |after.deliveries| && Holding(after.deliveries[x]) ==> after.deliveries[x].message != m)
      && (HasJob(after, m) <==> HasJob(w, m))
  {
    var w1, m := Step(w, Claim(d, chance)), w.deliveries[d].message;
    var after := Run(w1, evs);
    StepKeepsInv(w, Claim(d, chance));
    RunKeepsInv(w1, evs);
    ThrownStays(w1, d, evs);
    assert GoodDelivery(after, after.deliveries[d]);
    SameJobs(w, w1);
    NoJobIsAdded(w1, d, evs);
  }

  lemma {:induction false} ThrownStays(w: World, d: nat, evs: seq<Event>)
    requires d < |w.deliveries| && w.deliveries[d].phase.Thrown?
    ensures d < |Run(w, evs).deliveries| && Run(w, evs).deliveries[d] == w.deliveries[d]
    decreases evs
  {
    if evs != [] { ThrownStays(Step(w, evs[0]), d, evs[1..]); }
  }

  lemma {:induction false} NoJobIsAdded(w: World, d: nat, evs: seq<Event>)
    requires Inv(w) && d < |w.deliveries| && w.deliveries[d].phase == Thrown(true)
    ensures HasJob(Run(w, evs), w.deliveries[d].message) <==> HasJob(w, w.deliveries[d].message)
    decreases evs
  {
    if evs != [] {
      var ev, m := evs[0], w.deliveries[d].message;
      var w' := Step(w, ev);
      StepKeepsInv(w, ev);
      ThrownStays(w, d, [ev]);
      assert Run(w, [ev]) == w' by { assert [ev][1..] == []; }
      JobsOnlyByHolders(w, ev, m);
      NoJobIsAdded(w', d, evs[1..]);
    }
  }

  /** Jobs are never dropped, and only the holder of the claim adds one. */
  lemma JobsOnlyByHolders(w: World, ev: Event, m: MessageKey)
    requires Inv(w)
    ensures HasJob(w, m) ==> HasJob(Step(w, ev), m)
    ensures HasJob(Step(w, ev), m) && !HasJob(w, m) ==>
      ev.Enqueue? && ev.delivery < |w.deliveries| && Holding(w.deliveries[ev.delivery]) && w.deliveries[ev.delivery].message == m
  {
    var w' := Step(w, ev);
    if HasJob(w, m) {
      var j :| 0 <= j < |w.jobs| && w.jobs[j].tenantId == m.tenantId && w.jobs[j].key == ProcessInbound(Root(m));
      assert w'.jobs[j] == w.jobs[j];
    } else if HasJob(w', m) {
      var x := w.deliveries[ev.delivery];
      assert GoodDelivery(w, x);
      SameJobs(w', w.(jobs := w'.jobs));
      JobsAfterEnqueue(w, x.message, x.phase.root, m);
    }
  }

  // ---------------------------------------------------------------- the webhook's counts

  datatype Answer = Processed(wasQueued: bool) | WasDuplicate | ProcessingFailed | UnknownNumber

  datatype Counts = Counts(received: nat, processed: nat, queued: nat, duplicates: nat, failures: seq<string>)

  predicate IsFailure(a: Answer) {
    a == ProcessingFailed || a == UnknownNumber
  }

  function FailedIds(ids: seq<string>, answers: seq<Answer>): seq<string>
    requires |ids| == |answers|
  {
    if ids == [] then []
    else (if IsFailure(answers[0]) then [ids[0]] else []) + FailedIds(ids[1..], answers[1..])
  }

  lemma {:induction false} OneMoreAnswer(ids: seq<string>, answers: seq<Answer>, id: string, a: Answer)
    requires |ids| == |answers|
    ensures FailedIds(ids + [id], answers + [a]) ==
            FailedIds(ids, answers) + if IsFailure(a) then [id] else []
  {
    if ids == [] {
      assert ids + [id] == [id] && answers + [a] == [a];
    } else {
      assert (ids + [id])[0] == ids[0] && (answers + [a])[0] == answers[0];
      assert (ids + [id])[1..] == ids[1..] + [id] && (answers + [a])[1..] == answers[1..] + [a];
      OneMoreAnswer(ids[1..], answers[1..], id, a);
      Associative(if IsFailure(answers[0]) then [ids[0]] else [], FailedIds(ids[1..], answers[1..]),
                  if IsFailure(a) then [id] else []);
    }
  }

  /** The counts of the answers given so far. */
  ghost predicate Counted(answers: seq<Answer>, processed: nat, queued: nat, duplicates: nat, failed: nat) {
    var m := multiset(answers);
    && queued == m[Processed(true)] && processed == m[Processed(true)] + m[Processed(false)] && duplicates == m[WasDuplicate]
    && |answers| == processed + duplicates + failed
  }

  lemma CountOneMore(answers: seq<Answer>, processed: nat, queued: nat, duplicates: nat, failed: nat, a: Answer)
    requires Counted(answers, processed, queued, duplicates, failed)
    ensures Counted(answers + [a], processed + (if a.Processed? then 1 else 0), queued + (if a == Processed(true) then 1 else 0),
                    duplicates + (if a == WasDuplicate then 1 else 0), failed + (if IsFailure(a) then 1 else 0))
  {
  }

  /** Every message of a batch is counted once: processed, duplicate, or failed with its id. */
  method CountBatch(ids: seq<string>, answers: seq<Answer>) returns (c: Counts)
    requires |ids| == |answers|
    ensures c.received == |ids| == c.processed + c.duplicates + |c.failures|
    ensures Counted(answers, c.processed, c.queued, c.duplicates, |c.failures|)
    ensures c.failures == FailedIds(ids, answers)
  {
    var processed, queued, duplicates, failures := 0, 0, 0, [];
    for k := 0 to |ids|
      invariant Counted(answers[..k], processed, queued, duplicates, |failures|)
      invariant failures == FailedIds(ids[..k], answers[..k])
    {
      assert ids[..k + 1] == ids[..k] + [ids[k]] && answers[..k + 1] == answers[..k] + [answers[k]];
      OneMoreAnswer(ids[..k], answers[..k], ids[k], answers[k]);
      CountOneMore(answers[..k], processed, queued, duplicates, |failures|, answers[k]);
      match answers[k]
      case Processed(wasQueued) =>
        processed := processed + 1;
        queued := queued + if wasQueued then 1 else 0;
      case WasDuplicate => duplicates := duplicates + 1;
      case ProcessingFailed => failures := failures + [ids[k]];
      case UnknownNumber => failures := failures + [ids[k]];
    }
    assert ids[..|ids|] == ids && answers[..|ids|] == answers;
    c := Counts(|ids|, processed, queued, duplicates, failures);
  }
}
