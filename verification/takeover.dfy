/**
 * Linked-device observations of `fromMe` messages and the human takeover they force, as an
 * interleaving of any number of handlers with every other user of the ownership store. Each
 * event is the code between two awaits; stores may fail, also after they have done their work.
 */
module Takeover {
  import opened Sequences
  import opened Wrappers
  import opened Ownership
  import opened OwnershipStore

  /** `hinted` stands for a worker hint that names its send operation. */
  datatype Observation = Observation(tenantId: string, sessionId: string, platformMessageId: string,
                                     conversationId: string, hinted: bool)

  datatype MessageKey = MessageKey(tenantId: string, sessionId: string, platformMessageId: string)

  datatype Phase =
    | Lookup
    | Ignored
    | Claiming
    | Appending
    | Reading
    | Writing(read: Record)
    | Rereading
    | Rewriting(read: Record)
    | Recording(current: Record)
    | Observed(current: Record)
    | Releasing
    | Failed

  datatype Handler = Handler(seen: Observation, phase: Phase)

  datatype World = World(now: int, history: History, attributed: set<MessageKey>, claims: set<MessageKey>, handlers: seq<Handler>)

  datatype Chance = Works | Fails | FailsAfterwards

  datatype Event =
    | Tick(now: int)
    | Attribute(message: MessageKey)
    | Command(input: Input)
    | Arrive(seen: Observation)
    | LookUp(handler: nat, fails: bool)
    | Claim(handler: nat, chance: Chance)
    | AppendEvent(handler: nat, fails: bool)
    | Read(handler: nat, fails: bool)
    | Write(handler: nat, fails: bool, lost: bool)
    | Finish(handler: nat, fails: bool)
    | Release(handler: nat, chance: Chance)

  function MessageOf(o: Observation): MessageKey {
    MessageKey(o.tenantId, o.sessionId, o.platformMessageId)
  }

  function TakeoverId(o: Observation): string {
    "linked-device:" + o.sessionId + ":" + o.platformMessageId + ":takeover"
  }

  function ConversationOf(o: Observation): Key {
    Key(o.tenantId, o.conversationId)
  }

  function TakeoverInput(o: Observation, read: Record): Input {
    Input(o.tenantId, o.conversationId, ManualTakeover, TakeoverId(o), "operator:linked-device:" + o.sessionId,
          Some("manual_outbound_observed"), Some(read.version))
  }

  function WithPhase(w: World, h: nat, phase: Phase): World
    requires h < |w.handlers|
  {
    w.(handlers := w.handlers[h := w.handlers[h].(phase := phase)])
  }

  /** The two transitions of `forceHumanOwnership`: only the first one forgives a conflict. */
  function Written(w: World, h: nat, read: Record, conflict: Phase): World
    requires h < |w.handlers|
  {
    var out := Apply(w.history, Request(TakeoverInput(w.handlers[h].seen, read), w.now));
    WithPhase(w.(history := out.history), h,
              match out.result
              case Success(next) => Recording(next)
              case Failure(VersionConflict(_)) => conflict
              case Failure(_) => Releasing)
  }

  function Step(w: World, ev: Event): World {
    match ev
    case Tick(t) => if t >= w.now then w.(now := t) else w
    case Attribute(m) => w.(attributed := w.attributed + {m})
    case Command(input) => w.(history := Apply(w.history, Request(input, w.now)).history)
    case Arrive(o) => w.(handlers := w.handlers + [Handler(o, Lookup)])
    case LookUp(h, fails) =>
      if h < |w.handlers| && w.handlers[h].phase == Lookup then
        var o := w.handlers[h].seen;
        WithPhase(w, h, if (!fails && MessageOf(o) in w.attributed) || o.hinted then Ignored else Claiming)
      else w
    case Claim(h, chance) =>
      if h < |w.handlers| && w.handlers[h].phase == Claiming then
        var key := MessageOf(w.handlers[h].seen);
        if chance == Fails then WithPhase(w, h, Failed)
        else if chance == FailsAfterwards then WithPhase(w.(claims := w.claims + {key}), h, Failed)
        else if key in w.claims then WithPhase(w, h, Ignored)
        else WithPhase(w.(claims := w.claims + {key}), h, Appending)
      else w
    case AppendEvent(h, fails) =>
      if h < |w.handlers| && w.handlers[h].phase == Appending then WithPhase(w, h, if fails then Releasing else Reading) else w
    case Read(h, fails) =>
      if h < |w.handlers| && (w.handlers[h].phase == Reading || w.handlers[h].phase == Rereading) then
        var current := Get(w.history, ConversationOf(w.handlers[h].seen), w.now);
        if fails then WithPhase(w, h, Releasing)
        else if w.handlers[h].phase == Reading then WithPhase(w, h, Writing(current))
        else WithPhase(w, h, if current.state == HumanActive then Recording(current) else Rewriting(current))
      else w
    case Write(h, fails, lost) =>
      if h < |w.handlers| && (w.handlers[h].phase.Writing? || w.handlers[h].phase.Rewriting?) then
        var conflict := if w.handlers[h].phase.Writing? then Rereading else Releasing;
        var w' := if lost then w else Written(w, h, w.handlers[h].phase.read, conflict);
        if fails || lost then WithPhase(w', h, Releasing) else w'
      else w
    case Finish(h, fails) =>
      if h < |w.handlers| && w.handlers[h].phase.Recording?
      then WithPhase(w, h, if fails then Releasing else Observed(w.handlers[h].phase.current))
      else w
    case Release(h, chance) =>
      if h < |w.handlers| && w.handlers[h].phase == Releasing
      then WithPhase(if chance == Fails then w else w.(claims := w.claims - {MessageOf(w.handlers[h].seen)}), h, Failed)
      else w
  }

  function Run(w: World, evs: seq<Event>): World
    decreases evs
  {
    if evs == [] then w else Run(Step(w, evs[0]), evs[1..])
  }

  function Start(now: int): World {
    World(now, map[], {}, {}, [])
  }

  predicate IsTakeoverId(id: string) {
    |id| >= 23 && id[..14] == "linked-device:" && id[|id| - 9..] == ":takeover"
  }

  /** Other users of the store keep takeover ids for takeovers. */
  predicate Fair(ev: Event) {
    ev.Command? && IsTakeoverId(ev.input.transitionId) ==> ev.input.command == ManualTakeover
  }

  // ---------------------------------------------------------------- what every event keeps

  predicate Holding(h: Handler) {
    !(h.phase.Lookup? || h.phase.Ignored? || h.phase.Claiming? || h.phase.Failed?)
  }

  /** The takeover of `o` is in the ledger with this result, a human one. */
  ghost predicate TookOver(history: History, o: Observation, record: Record) {
    record.state == HumanActive && Answered(Entries(history, ConversationOf(o)), TakeoverId(o)) == Some(record)
  }

  ghost predicate TakeoverIdsTakeOver(history: History) {
    forall key, i :: key in history && 0 <= i < |history[key]| && IsTakeoverId(history[key][i].input.transitionId) ==>
      history[key][i].input.command == ManualTakeover
  }

  ghost predicate GoodHandler(w: World, h: nat)
    requires h < |w.handlers|
  {
    var x := w.handlers[h];
    && (x.seen.hinted ==> x.phase == Lookup || x.phase == Ignored)
    && (Holding(x) ==> MessageOf(x.seen) in w.claims)
    && ((x.phase.Recording? || x.phase.Observed?) ==> x.phase.current.state == HumanActive)
  }

  ghost predicate Inv(w: World) {
    && OwnershipStore.Inv(w.history) && TakeoverIdsTakeOver(w.history)
    && (forall h :: 0 <= h < |w.handlers| ==> GoodHandler(w, h))
    && (forall g, h :: 0 <= g < h < |w.handlers| && Holding(w.handlers[g]) && Holding(w.handlers[h]) ==>
          MessageOf(w.handlers[g].seen) != MessageOf(w.handlers[h].seen))
  }

  lemma TakeoverIdHasItsForm(o: Observation)
    ensures IsTakeoverId(TakeoverId(o))
  {
    var id := TakeoverId(o);
    assert id == "linked-device:" + (o.sessionId + ":" + o.platformMessageId + ":takeover");
    assert id == ("linked-device:" + o.sessionId + ":" + o.platformMessageId) + ":takeover";
  }

  /** Every takeover in a good history left the conversation with the human. */
  lemma TakeoverEntryIsHuman(entries: seq<Entry>, key: Key, i: nat)
    requires Good(entries, key) && i < |entries| && entries[i].input.command == ManualTakeover
    ensures entries[i].result.state == HumanActive
  {
    assert GoodEntry(entries, key, i);
    if i > 0 && entries[i - 1].result.transitionId == Some(entries[i].input.transitionId) {
      LastIdIsAnswered(entries, key, i - 1);
      assert false;
    }
  }

  lemma ApplyKeepsTakeoverIds(history: History, r: Request)
    requires OwnershipStore.Inv(history) && TakeoverIdsTakeOver(history)
    requires IsTakeoverId(r.input.transitionId) ==> r.input.command == ManualTakeover
    ensures OwnershipStore.Inv(Apply(history, r).history) && TakeoverIdsTakeOver(Apply(history, r).history)
    ensures IsTakeoverId(r.input.transitionId) && Apply(history, r).result.Success? ==>
      Apply(history, r).result.value.state == HumanActive
    ensures Apply(history, r).result.Success? ==>
      Answered(Entries(Apply(history, r).history, KeyOf(r.input)), r.input.transitionId) == Some(Apply(history, r).result.value)
  {
    var key, out := KeyOf(r.input), Apply(history, r);
    ApplyKeepsInv(history, r);
    if out.result.Success? {
      var entries := Entries(out.history, key);
      if out.history != history {
        AnsweredStays(Entries(history, key), Entry(r.input, r.now, out.result.value), r.input.transitionId);
      }
      AnsweredIs(entries, r.input.transitionId);
      var i :| 0 <= i < |entries| && entries[i].input.transitionId == r.input.transitionId && entries[i].result == out.result.value;
      if IsTakeoverId(r.input.transitionId) { TakeoverEntryIsHuman(entries, key, i); }
    }
  }

  lemma WrittenKeeps(w: World, h: nat, read: Record, conflict: Phase)
    requires Inv(w) && h < |w.handlers| && Holding(w.handlers[h]) && !w.handlers[h].seen.hinted
    requires conflict == Rereading || conflict == Releasing
    ensures Inv(Written(w, h, read, conflict))
    ensures var x := Written(w, h, read, conflict).handlers[h];
            x.phase.Recording? ==> TookOver(Written(w, h, read, conflict).history, x.seen, x.phase.current)
  {
    var o := w.handlers[h].seen;
    TakeoverIdHasItsForm(o);
    ApplyKeepsTakeoverIds(w.history, Request(TakeoverInput(o, read), w.now));
    var w' := Written(w, h, read, conflict);
    forall g | 0 <= g < |w'.handlers| ensures GoodHandler(w', g) { assert GoodHandler(w, g); }
  }

  lemma PhaseKeeps(w: World, h: nat, phase: Phase)
    requires Inv(w) && h < |w.handlers| && (Holding(Handler(w.handlers[h].seen, phase)) ==> Holding(w.handlers[h]))
    requires w.handlers[h].seen.hinted ==> phase == Ignored
    requires phase.Recording? || phase.Observed? ==> phase.current.state == HumanActive
    ensures Inv(WithPhase(w, h, phase))
  {
    var w' := WithPhase(w, h, phase);
    forall g | 0 <= g < |w'.handlers| ensures GoodHandler(w', g) { assert GoodHandler(w, g); }
  }

  lemma ClaimKeeps(w: World, h: nat, phase: Phase)
    requires Inv(w) && h < |w.handlers| && w.handlers[h].phase == Claiming
    requires phase == Failed || (phase == Appending && MessageOf(w.handlers[h].seen) !in w.claims)
    ensures Inv(WithPhase(w.(claims := w.claims + {MessageOf(w.handlers[h].seen)}), h, phase))
  {
    var w' := WithPhase(w.(claims := w.claims + {MessageOf(w.handlers[h].seen)}), h, phase);
    assert GoodHandler(w, h);
    if phase == Appending {
      forall g | 0 <= g < |w.handlers| && Holding(w.handlers[g]) ensures MessageOf(w.handlers[g].seen) != MessageOf(w.handlers[h].seen) {
        assert GoodHandler(w, g);
      }
    }
    forall g | 0 <= g < |w'.handlers| ensures GoodHandler(w', g) { assert GoodHandler(w, g); }
  }

  lemma ReleaseKeeps(w: World, h: nat)
    requires Inv(w) && h < |w.handlers| && w.handlers[h].phase == Releasing
    ensures Inv(WithPhase(w.(claims := w.claims - {MessageOf(w.handlers[h].seen)}), h, Failed))
  {
    var w' := WithPhase(w.(claims := w.claims - {MessageOf(w.handlers[h].seen)}), h, Failed);
    forall g | 0 <= g < |w'.handlers| ensures GoodHandler(w', g) {
      assert GoodHandler(w, g) && GoodHandler(w, h);
      if g != h && Holding(w.handlers[g]) { assert MessageOf(w.handlers[g].seen) != MessageOf(w.handlers[h].seen); }
    }
  }

  lemma WriteKeeps(w: World, h: nat, fails: bool, lost: bool)
    requires Inv(w)
    ensures Inv(Step(w, Write(h, fails, lost)))
  {
    if h < |w.handlers| && (w.handlers[h].phase.Writing? || w.handlers[h].phase.Rewriting?) {
      assert GoodHandler(w, h);
      var conflict := if w.handlers[h].phase.Writing? then Rereading else Releasing;
      var w' := if lost then w else Written(w, h, w.handlers[h].phase.read, conflict);
      if !lost { WrittenKeeps(w, h, w.handlers[h].phase.read, conflict); }
      if fails || lost { PhaseKeeps(w', h, Releasing); }
    }
  }

  lemma ArriveKeeps(w: World, o: Observation)
    requires Inv(w)
    ensures Inv(Step(w, Arrive(o)))
  {
    var w' := Step(w, Arrive(o));
    forall g | 0 <= g < |w'.handlers| ensures GoodHandler(w', g) {
      if g < |w.handlers| { assert GoodHandler(w, g); }
    }
  }

  lemma ClaimStepKeeps(w: World, h: nat, chance: Chance)
    requires Inv(w) && h < |w.handlers| && w.handlers[h].phase == Claiming
    ensures Inv(Step(w, Claim(h, chance)))
  {
    assert GoodHandler(w, h);
    if chance == FailsAfterwards { ClaimKeeps(w, h, Failed); }
    else if chance == Works && MessageOf(w.handlers[h].seen) !in w.claims { ClaimKeeps(w, h, Appending); }
    else { PhaseKeeps(w, h, if chance == Fails then Failed else Ignored); }
  }

  lemma ReleaseStepKeeps(w: World, h: nat, chance: Chance)
    requires Inv(w) && h < |w.handlers| && w.handlers[h].phase == Releasing
    ensures Inv(Step(w, Release(h, chance)))
  {
    assert GoodHandler(w, h);
    if chance == Fails { PhaseKeeps(w, h, Failed); } else { ReleaseKeeps(w, h); }
  }

  lemma StepKeepsInv(w: World, ev: Event)
    requires Inv(w) && Fair(ev)
    ensures Inv(Step(w, ev))
  {
    match ev
    case Command(input) =>
      ApplyKeepsTakeoverIds(w.history, Request(input, w.now));
      AmbientKeeps(w, Step(w, ev));
    case Tick(_) => AmbientKeeps(w, Step(w, ev));
    case Attribute(_) => AmbientKeeps(w, Step(w, ev));
    case Arrive(o) => ArriveKeeps(w, o);
    case Claim(h, chance) => if h < |w.handlers| && w.handlers[h].phase == Claiming { ClaimStepKeeps(w, h, chance); }
    case Write(h, fails, lost) => WriteKeeps(w, h, fails, lost);
    case Release(h, chance) => if h < |w.handlers| && w.handlers[h].phase == Releasing { ReleaseStepKeeps(w, h, chance); }
    case LookUp(h, _) => if Step(w, ev) != w { PhaseKeeps(w, h, Step(w, ev).handlers[h].phase); }
    case AppendEvent(h, _) => if Step(w, ev) != w { assert GoodHandler(w, h); PhaseKeeps(w, h, Step(w, ev).handlers[h].phase); }
    case Read(h, _) => if Step(w, ev) != w { assert GoodHandler(w, h); PhaseKeeps(w, h, Step(w, ev).handlers[h].phase); }
    case Finish(h, _) => if Step(w, ev) != w { assert GoodHandler(w, h); PhaseKeeps(w, h, Step(w, ev).handlers[h].phase); }
  }

  lemma AmbientKeeps(w: World, w': World)
    requires Inv(w) && OwnershipStore.Inv(w'.history) && TakeoverIdsTakeOver(w'.history)
    requires w'.handlers == w.handlers && w'.claims == w.claims
    ensures Inv(w')
  {
    forall g | 0 <= g < |w'.handlers| ensures GoodHandler(w', g) { assert GoodHandler(w, g); }
  }

  lemma {:induction false} RunKeepsInv(w: World, evs: seq<Event>)
    requires Inv(w) && forall k :: 0 <= k < |evs| ==> Fair(evs[k])
    ensures Inv(Run(w, evs))
    decreases evs
  {
    if evs != [] {
      StepKeepsInv(w, evs[0]);
      RunKeepsInv(Step(w, evs[0]), evs[1..]);
    }
  }

  // ---------------------------------------------------------------- whole runs

  /** The only evidence an answer may rest on: the takeover's ledger entry, or a read of HUMAN_ACTIVE. */
  ghost predicate Justified(w: World, h: nat)
    requires h < |w.handlers|
  {
    var x := w.handlers[h];
    x.phase.Recording? || x.phase.Observed? ==>
      && x.phase.current.state == HumanActive
      && (TookOver(w.history, x.seen, x.phase.current) || ReadAsHuman(w.history, ConversationOf(x.seen), x.phase.current))
  }

  /** The record was the conversation's current one at some time, and a human one. */
  ghost predicate ReadAsHuman(history: History, key: Key, record: Record) {
    record.state == HumanActive && exists i :: 0 <= i < |Entries(history, key)| && Entries(history, key)[i].result == record
  }

  lemma HistoryGrows(history: History, r: Request, key: Key)
    ensures Entries(history, key) <= Entries(Apply(history, r).history, key)
  {
  }

  lemma EvidenceStays(history: History, r: Request, o: Observation, record: Record)
    ensures TookOver(history, o, record) ==> TookOver(Apply(history, r).history, o, record)
    ensures ReadAsHuman(history, ConversationOf(o), record) ==> ReadAsHuman(Apply(history, r).history, ConversationOf(o), record)
  {
    var key, history' := ConversationOf(o), Apply(history, r).history;
    if TookOver(history, o, record) {
      AnswersStay(history, [r], key, TakeoverId(o));
      assert Run1(history, r) == history';
    }
    if ReadAsHuman(history, key, record) {
      var i :| 0 <= i < |Entries(history, key)| && Entries(history, key)[i].result == record;
      HistoryGrows(history, r, key);
      assert Entries(history', key)[i].result == record;
    }
  }

  function Run1(history: History, r: Request): (h: History)
    ensures h == OwnershipStore.Run(history, [r])
  {
    assert [r][1..] == [];
    Apply(history, r).history
  }

  lemma StepJustifies(w: World, ev: Event)
    requires Inv(w) && Fair(ev) && forall h :: 0 <= h < |w.handlers| ==> Justified(w, h)
    ensures forall h :: 0 <= h < |w.handlers| ==> Justified(Step(w, ev), h)
    ensures forall h :: 0 <= h < |Step(w, ev).handlers| ==> Justified(Step(w, ev), h)
  {
    var w' := Step(w, ev);
    forall h | 0 <= h < |w'.handlers| ensures Justified(w', h) {
      if h < |w.handlers| { HandlerStaysJustified(w, ev, h); }
    }
  }

  lemma AppliedStaysJustified(w: World, w': World, h: nat, r: Request)
    requires h < |w.handlers| && Justified(w, h)
    requires h < |w'.handlers| && w'.handlers[h] == w.handlers[h] && w'.history == Apply(w.history, r).history
    ensures Justified(w', h)
  {
    var x := w.handlers[h];
    if x.phase.Recording? || x.phase.Observed? { EvidenceStays(w.history, r, x.seen, x.phase.current); }
  }

  lemma WriteJustifies(w: World, h: nat, g: nat, fails: bool, lost: bool)
    requires Inv(w) && h < |w.handlers| && Justified(w, h)
    ensures Justified(Step(w, Write(g, fails, lost)), h)
  {
    if g < |w.handlers| && (w.handlers[g].phase.Writing? || w.handlers[g].phase.Rewriting?) && !lost && !fails {
      var read := w.handlers[g].phase.read;
      assert GoodHandler(w, g);
      if g == h {
        WrittenKeeps(w, h, read, if w.handlers[g].phase.Writing? then Rereading else Releasing);
      } else {
        AppliedStaysJustified(w, Step(w, Write(g, fails, lost)), h, Request(TakeoverInput(w.handlers[g].seen, read), w.now));
      }
    } else if g != h && Step(w, Write(g, fails, lost)).history != w.history {
      var read := w.handlers[g].phase.read;
      AppliedStaysJustified(w, Step(w, Write(g, fails, lost)), h, Request(TakeoverInput(w.handlers[g].seen, read), w.now));
    }
  }

  lemma ReadJustifies(w: World, h: nat, g: nat, fails: bool)
    requires h < |w.handlers| && Justified(w, h)
    ensures Justified(Step(w, Read(g, fails)), h)
  {
    var w' := Step(w, Read(g, fails));
    if g == h && w' != w && w'.handlers[h].phase.Recording? {
      var entries := Entries(w.history, ConversationOf(w.handlers[h].seen));
      assert entries[|entries| - 1].result == w'.handlers[h].phase.current;
    }
  }

  lemma HandlerStaysJustified(w: World, ev: Event, h: nat)
    requires Inv(w) && Fair(ev) && h < |w.handlers| && Justified(w, h)
    ensures Justified(Step(w, ev), h)
  {
    match ev
    case Command(input) => AppliedStaysJustified(w, Step(w, ev), h, Request(input, w.now));
    case Write(g, fails, lost) => WriteJustifies(w, h, g, fails, lost);
    case Read(g, fails) => ReadJustifies(w, h, g, fails);
    case _ => assert Step(w, ev).history == w.history;
  }

  lemma {:induction false} RunJustifies(w: World, evs: seq<Event>)
    requires Inv(w) && forall k :: 0 <= k < |evs| ==> Fair(evs[k])
    requires forall h :: 0 <= h < |w.handlers| ==> Justified(w, h)
    ensures forall h :: 0 <= h < |Run(w, evs).handlers| ==> Justified(Run(w, evs), h)
    decreases evs
  {
    if evs != [] {
      StepKeepsInv(w, evs[0]);
      StepJustifies(w, evs[0]);
      RunJustifies(Step(w, evs[0]), evs[1..]);
    }
  }

  /**
   * In every interleaving: a hinted message is only ever ignored; a message answered as observed
   * has its takeover in the ledger with a HUMAN_ACTIVE result, or was read as HUMAN_ACTIVE; at
   * most one handler is answered that way per message; and no takeover id is entered twice.
   */
  lemma EveryRunTakesOverOnce(now: int, evs: seq<Event>)
    requires forall k :: 0 <= k < |evs| ==> Fair(evs[k])
    ensures var w := Run(Start(now), evs);
      && (forall h :: 0 <= h < |w.handlers| && w.handlers[h].seen.hinted ==> w.handlers[h].phase in {Lookup, Ignored})
      && (forall h :: 0 <= h < |w.handlers| && w.handlers[h].phase.Observed? ==>
            var x := w.handlers[h];
            TookOver(w.history, x.seen, x.phase.current) || ReadAsHuman(w.history, ConversationOf(x.seen), x.phase.current))
      && (forall g, h :: 0 <= g < h < |w.handlers| && w.handlers[g].phase.Observed? && w.handlers[h].phase.Observed? ==>
            MessageOf(w.handlers[g].seen) != MessageOf(w.handlers[h].seen))
      && (forall key, i, j :: key in w.history && 0 <= i < j < |w.history[key]| ==>
            w.history[key][i].input.transitionId != w.history[key][j].input.transitionId)
      && (OneConversationEach(evs) && CommandsAgree(evs) ==> AtMostOnce(w.history))
  {
    RunKeepsInv(Start(now), evs);
    RunJustifies(Start(now), evs);
    if OneConversationEach(evs) && CommandsAgree(evs) { OneTakeoverPerMessage(now, evs); }
    var w := Run(Start(now), evs);
    forall h | 0 <= h < |w.handlers|
      ensures w.handlers[h].seen.hinted ==> w.handlers[h].phase in {Lookup, Ignored}
      ensures w.handlers[h].phase.Observed? ==>
        || TookOver(w.history, w.handlers[h].seen, w.handlers[h].phase.current)
        || ReadAsHuman(w.history, ConversationOf(w.handlers[h].seen), w.handlers[h].phase.current)
    {
      assert GoodHandler(w, h) && Justified(w, h);
    }
    assert forall key :: key in w.history ==> Good(w.history[key], key);
  }

  // ---------------------------------------------------------------- one takeover per message

  /** Two observations that force the same takeover: of the same tenant, with the same takeover id. */
  predicate SameTakeover(o: Observation, p: Observation) {
    o.tenantId == p.tenantId && TakeoverId(o) == TakeoverId(p)
  }

  /** However often a message is observed, it is always with the same customer. */
  ghost predicate OneConversationEach(evs: seq<Event>) {
    forall i, j :: 0 <= i < |evs| && 0 <= j < |evs| && evs[i].Arrive? && evs[j].Arrive? && SameTakeover(evs[i].seen, evs[j].seen) ==>
      evs[i].seen.conversationId == evs[j].seen.conversationId
  }

  /** A takeover id and the conversation it is used for: by an observation, or by another user of the store. */
  datatype Use = Use(key: Key, id: string)

  function UseOf(ev: Event): Option<Use> {
    match ev
    case Arrive(o) => Some(Use(ConversationOf(o), TakeoverId(o)))
    case Command(input) => if IsTakeoverId(input.transitionId) then Some(Use(KeyOf(input), input.transitionId)) else None
    case _ => None
  }

  predicate SameUse(a: Event, b: Event) {
    && UseOf(a).Some? && UseOf(b).Some? && UseOf(a).value.id == UseOf(b).value.id
    && UseOf(a).value.key.tenantId == UseOf(b).value.key.tenantId
  }

  /**
   * Other users of the store may repeat a takeover, as a takeover and on its own conversation:
   * the one that every observation and every other command of this id names.
   */
  ghost predicate CommandsAgree(evs: seq<Event>) {
    && (forall i :: 0 <= i < |evs| ==> Fair(evs[i]))
    && (forall i, j :: 0 <= i < |evs| && 0 <= j < |evs| && evs[i].Command? && SameUse(evs[i], evs[j]) ==>
          UseOf(evs[i]) == UseOf(evs[j]))
  }

  /** Entry `i` of `key` is a takeover under this id. */
  ghost predicate IsEntry(history: History, key: Key, i: nat, id: string) {
    i < |Entries(history, key)| && Entries(history, key)[i].input.transitionId == id
  }

  /** The whole history, over all conversations of a tenant, has each takeover id at most once. */
  ghost predicate AtMostOnce(history: History) {
    forall k: Key, l: Key, i: nat, j: nat, id: string :: AreTakeovers(history, k, i, l, j, id) ==> k == l && i == j
  }

  /** Two entries, in conversations of one tenant, that are the same takeover. */
  ghost predicate AreTakeovers(history: History, k: Key, i: nat, l: Key, j: nat, id: string) {
    IsTakeoverId(id) && k.tenantId == l.tenantId && IsEntry(history, k, i, id) && IsEntry(history, l, j, id)
  }

  ghost predicate Arrived(evs: seq<Event>, o: Observation) {
    exists i :: 0 <= i < |evs| && evs[i] == Arrive(o)
  }

  /** Every handler's observation arrived, and every takeover entry is in a conversation its id was used for. */
  ghost predicate Sourced(w: World, evs: seq<Event>) {
    && (forall h :: 0 <= h < |w.handlers| ==> Arrived(evs, w.handlers[h].seen))
    && (forall key: Key, i: nat, id: string :: IsTakeoverId(id) && IsEntry(w.history, key, i, id) ==> WrittenFor(evs, key, id))
  }

  ghost predicate WrittenFor(evs: seq<Event>, key: Key, id: string) {
    exists i :: 0 <= i < |evs| && UseOf(evs[i]) == Some(Use(key, id))
  }

  lemma AppliedIsSourced(history: History, r: Request, evs: seq<Event>, key: Key, i: nat, id: string)
    requires forall k: Key, j: nat :: IsEntry(history, k, j, id) ==> WrittenFor(evs, k, id)
    requires r.input.transitionId == id ==> WrittenFor(evs, KeyOf(r.input), id)
    requires IsEntry(Apply(history, r).history, key, i, id)
    ensures WrittenFor(evs, key, id)
  {
    if i < |Entries(history, key)| {
      HistoryGrows(history, r, key);
      assert IsEntry(history, key, i, id);
    }
  }

  lemma EntryIsSourced(w: World, ev: Event, evs: seq<Event>, key: Key, i: nat, id: string)
    requires Sourced(w, evs) && ev in evs
    requires IsTakeoverId(id) && IsEntry(Step(w, ev).history, key, i, id)
    ensures WrittenFor(evs, key, id)
  {
    if Step(w, ev).history == w.history {
      assert IsEntry(w.history, key, i, id);
    } else if ev.Command? {
      assert UseOf(ev) == Some(Use(KeyOf(ev.input), ev.input.transitionId)) || !IsTakeoverId(ev.input.transitionId);
      AppliedIsSourced(w.history, Request(ev.input, w.now), evs, key, i, id);
    } else {
      var x := w.handlers[ev.handler];
      assert Arrived(evs, x.seen);
      var a :| 0 <= a < |evs| && evs[a] == Arrive(x.seen);
      assert UseOf(evs[a]) == Some(Use(ConversationOf(x.seen), TakeoverId(x.seen)));
      AppliedIsSourced(w.history, Request(TakeoverInput(x.seen, x.phase.read), w.now), evs, key, i, id);
    }
  }

  lemma HandlersArrived(w: World, ev: Event, evs: seq<Event>)
    requires Sourced(w, evs) && ev in evs
    ensures forall h :: 0 <= h < |Step(w, ev).handlers| ==> Arrived(evs, Step(w, ev).handlers[h].seen)
  {
    forall h | 0 <= h < |Step(w, ev).handlers| ensures Arrived(evs, Step(w, ev).handlers[h].seen) {
      if h < |w.handlers| { assert Step(w, ev).handlers[h].seen == w.handlers[h].seen; }
    }
  }

  lemma StepIsSourced(w: World, ev: Event, evs: seq<Event>)
    requires Sourced(w, evs) && ev in evs
    ensures Sourced(Step(w, ev), evs)
  {
    HandlersArrived(w, ev, evs);
    forall key: Key, i: nat, id: string | IsTakeoverId(id) && IsEntry(Step(w, ev).history, key, i, id) ensures WrittenFor(evs, key, id) {
      EntryIsSourced(w, ev, evs, key, i, id);
    }
  }

  lemma {:induction false} RunIsSourced(w: World, evs: seq<Event>, all: seq<Event>)
    requires Sourced(w, all) && forall i :: 0 <= i < |evs| ==> evs[i] in all
    ensures Sourced(Run(w, evs), all)
    decreases evs
  {
    if evs != [] {
      StepIsSourced(w, evs[0], all);
      RunIsSourced(Step(w, evs[0]), evs[1..], all);
    }
  }

  lemma OneUse(evs: seq<Event>, a: nat, b: nat)
    requires OneConversationEach(evs) && CommandsAgree(evs) && a < |evs| && b < |evs|
    requires SameUse(evs[a], evs[b])
    ensures UseOf(evs[a]) == UseOf(evs[b])
  {
    if evs[a].Arrive? && evs[b].Arrive? { assert SameTakeover(evs[a].seen, evs[b].seen); }
  }

  /**
   * Over all retries, conflicts, failures and claim releases the whole history holds at most one
   * takeover per tenant, session and platform message id, if every observation of the message
   * names the same conversation and whoever else uses its id takes over that conversation.
   */
  lemma OneTakeoverPerMessage(now: int, evs: seq<Event>)
    requires OneConversationEach(evs) && CommandsAgree(evs)
    ensures AtMostOnce(Run(Start(now), evs).history)
  {
    var w := Run(Start(now), evs);
    RunKeepsInv(Start(now), evs);
    RunIsSourced(Start(now), evs, evs);
    forall k: Key, l: Key, i: nat, j: nat, id: string | AreTakeovers(w.history, k, i, l, j, id) ensures k == l && i == j {
      assert WrittenFor(evs, k, id) && WrittenFor(evs, l, id);
      var a :| 0 <= a < |evs| && UseOf(evs[a]) == Some(Use(k, id));
      var b :| 0 <= b < |evs| && UseOf(evs[b]) == Some(Use(l, id));
      OneUse(evs, a, b);
      assert Good(w.history[k], k);
    }
  }

  // Without that it fails, for every message observed with two customers.

  function Handling(o: Observation, h: nat): seq<Event> {
    [Arrive(o), LookUp(h, false), Claim(h, Works), AppendEvent(h, false), Read(h, false), Write(h, false, false)]
  }

  /** The takeover is written, its recording fails, the claim is released, and the message comes again. */
  function WithTwoCustomers(o: Observation, p: Observation): seq<Event> {
    (Handling(o, 0) + [Finish(0, true), Release(0, Works)]) + Handling(p, 1)
  }

  lemma {:induction false} RunAppend(w: World, a: seq<Event>, b: seq<Event>)
    ensures Run(w, a + b) == Run(Run(w, a), b)
    decreases a
  {
    if a == [] {
      Empty(b);
    } else {
      assert (a + b)[0] == a[0] && (a + b)[1..] == a[1..] + b;
      RunAppend(Step(w, a[0]), a[1..], b);
    }
  }

  lemma RunTwo(w: World, a: Event, b: Event)
    ensures Run(w, [a, b]) == Step(Step(w, a), b)
  {
    assert [a, b][1..] == [b] && [b][1..] == [];
    assert Run(w, [a, b]) == Run(Step(w, a), [b]) == Run(Step(Step(w, a), b), []);
  }

  lemma RunSix(w: World, e: seq<Event>)
    requires |e| == 6
    ensures Run(w, e) == Step(Step(Step(Step(Step(Step(w, e[0]), e[1]), e[2]), e[3]), e[4]), e[5])
  {
    assert e == [e[0], e[1]] + ([e[2], e[3]] + [e[4], e[5]]);
    RunAppend(w, [e[0], e[1]], [e[2], e[3]] + [e[4], e[5]]);
    RunTwo(w, e[0], e[1]);
    RunAppend(Run(w, [e[0], e[1]]), [e[2], e[3]], [e[4], e[5]]);
    RunTwo(Run(w, [e[0], e[1]]), e[2], e[3]);
    RunTwo(Run(Run(w, [e[0], e[1]]), [e[2], e[3]]), e[4], e[5]);
  }

  /** What one undisturbed handling of a first observation leaves behind. */
  ghost predicate TakenOver(w: World, w': World, o: Observation) {
    var h, key := |w.handlers|, ConversationOf(o);
    && |w'.handlers| == h + 1 && w'.handlers[h].seen == o && w'.handlers[h].phase.Recording?
    && w'.attributed == w.attributed && w'.claims == w.claims + {MessageOf(o)} && w'.now == w.now
    && key in w'.history && |w'.history[key]| == 1
    && w'.history[key][0].input.transitionId == TakeoverId(o) && w'.history[key][0].result.version == 1
    && w'.history == w.history[key := w'.history[key]]
  }

  /** Just before the write: the claim is held and the conversation was read as the agent's. */
  function AboutToWrite(w: World, o: Observation): World {
    w.(claims := w.claims + {MessageOf(o)},
       handlers := w.handlers + [Handler(o, Writing(Initial(ConversationOf(o), w.now)))])
  }

  lemma HandlingReads(w: World, o: Observation)
    requires !o.hinted && MessageOf(o) !in w.attributed && MessageOf(o) !in w.claims && ConversationOf(o) !in w.history
    ensures var e := Handling(o, |w.handlers|);
            Step(Step(Step(Step(Step(w, e[0]), e[1]), e[2]), e[3]), e[4]) == AboutToWrite(w, o)
  {
    var h := |w.handlers|;
    var w1 := w.(handlers := w.handlers + [Handler(o, Lookup)]);
    var w2 := w.(handlers := w.handlers + [Handler(o, Claiming)]);
    var w3 := w.(claims := w.claims + {MessageOf(o)}, handlers := w.handlers + [Handler(o, Appending)]);
    var w4 := w3.(handlers := w.handlers + [Handler(o, Reading)]);
    assert Step(w, Arrive(o)) == w1;
    assert Step(w1, LookUp(h, false)) == w2;
    assert Step(w2, Claim(h, Works)) == w3;
    assert Step(w3, AppendEvent(h, false)) == w4;
    assert Step(w4, Read(h, false)) == AboutToWrite(w, o);
  }

  lemma WriteTakesOver(w: World, o: Observation)
    requires o.tenantId != "" && o.conversationId != "" && ConversationOf(o) !in w.history
    ensures TakenOver(w, Step(AboutToWrite(w, o), Write(|w.handlers|, false, false)), o)
  {
    TakeoverIdHasItsForm(o);
  }

  lemma HandlingTakesOver(w: World, o: Observation)
    requires !o.hinted && o.tenantId != "" && o.conversationId != ""
    requires MessageOf(o) !in w.attributed && MessageOf(o) !in w.claims && ConversationOf(o) !in w.history
    ensures TakenOver(w, Run(w, Handling(o, |w.handlers|)), o)
  {
    RunSix(w, Handling(o, |w.handlers|));
    HandlingReads(w, o);
    WriteTakesOver(w, o);
  }

  lemma FinishFails(w: World, h: nat)
    requires h < |w.handlers| && w.handlers[h].phase.Recording?
    ensures Step(w, Finish(h, true)) == WithPhase(w, h, Releasing)
  {
  }

  lemma ReleaseWorks(w: World, h: nat)
    requires h < |w.handlers|
    ensures Step(WithPhase(w, h, Releasing), Release(h, Works)) ==
            WithPhase(w.(claims := w.claims - {MessageOf(w.handlers[h].seen)}), h, Failed)
  {
    LastUpdateWins(w.handlers, h, w.handlers[h].(phase := Releasing), w.handlers[h].(phase := Failed));
  }

  /** The recording fails and the claim is given back: the entry stays. */
  lemma FailureGivesTheClaimBack(w: World, h: nat)
    requires h < |w.handlers| && w.handlers[h].phase.Recording?
    ensures Run(w, [Finish(h, true), Release(h, Works)]) ==
            WithPhase(w.(claims := w.claims - {MessageOf(w.handlers[h].seen)}), h, Failed)
  {
    RunTwo(w, Finish(h, true), Release(h, Works));
    FinishFails(w, h);
    ReleaseWorks(w, h);
  }

  /** `history` has the effective takeover of `o` in each of the two conversations. */
  ghost predicate TookOverIn(history: History, key: Key, id: string) {
    IsEntry(history, key, 0, id) && history[key][0].result.version == 1
  }

  /**
   * For any message observed with two different conversations there is a run, with no other user
   * of the store, that ends with two effective takeovers under its one takeover id.
   */
  lemma TwoCustomersTakeOverTwice(now: int, o: Observation, p: Observation)
    requires MessageOf(o) == MessageOf(p) && o.conversationId != p.conversationId && !o.hinted && !p.hinted
    requires o.tenantId != "" && o.conversationId != "" && p.conversationId != ""
    ensures NoCommands(WithTwoCustomers(o, p)) && CommandsAgree(WithTwoCustomers(o, p))
    ensures var history := Run(Start(now), WithTwoCustomers(o, p)).history;
      && TookOverIn(history, ConversationOf(o), TakeoverId(o)) && TookOverIn(history, ConversationOf(p), TakeoverId(o))
      && !AtMostOnce(history)
  {
    NoCommandsAgree(o, p);
    var first, back := Handling(o, 0), [Finish(0, true), Release(0, Works)];
    RunAppend(Start(now), first + back, Handling(p, 1));
    RunAppend(Start(now), first, back);
    HandlingTakesOver(Start(now), o);
    var w1 := Run(Start(now), first);
    FailureGivesTheClaimBack(w1, 0);
    var w2 := Run(w1, back);
    HandlingTakesOver(w2, p);
    TakeoverIdHasItsForm(o);
    assert TakeoverId(o) == TakeoverId(p);
    assert AreTakeovers(Run(Start(now), WithTwoCustomers(o, p)).history, ConversationOf(o), 0, ConversationOf(p), 0, TakeoverId(o));
  }

  predicate NoCommands(evs: seq<Event>) {
    forall i :: 0 <= i < |evs| ==> !evs[i].Command?
  }

  lemma NoCommandsAgree(o: Observation, p: Observation)
    ensures NoCommands(WithTwoCustomers(o, p)) && CommandsAgree(WithTwoCustomers(o, p))
  {
    assert |Handling(o, 0)| == |Handling(p, 1)| == 6;
    assert NoCommands(WithTwoCustomers(o, p));
  }

  ghost predicate OnlyObserves(evs: seq<Event>, o: Observation, p: Observation) {
    forall i :: 0 <= i < |evs| && evs[i].Arrive? ==> evs[i].seen == o || evs[i].seen == p
  }

  /** The condition is exact: two observations of a message are safe in every run if and only if they name one conversation. */
  lemma OneTakeoverIff(o: Observation, p: Observation)
    requires MessageOf(o) == MessageOf(p) && !o.hinted && !p.hinted
    requires o.tenantId != "" && o.conversationId != "" && p.conversationId != ""
    ensures (forall now: int, evs: seq<Event> :: OnlyObserves(evs, o, p) && CommandsAgree(evs) ==> AtMostOnce(Run(Start(now), evs).history))
      <==> o.conversationId == p.conversationId
  {
    if o.conversationId == p.conversationId {
      forall now: int, evs: seq<Event> | OnlyObserves(evs, o, p) && CommandsAgree(evs) ensures AtMostOnce(Run(Start(now), evs).history) {
        OneTakeoverPerMessage(now, evs);
      }
    } else {
      TwoCustomersTakeOverTwice(0, o, p);
      assert OnlyObserves(WithTwoCustomers(o, p), o, p);
      assert !AtMostOnce(Run(Start(0), WithTwoCustomers(o, p)).history);
    }
  }

  /** Ownership changes only by somebody's command or by a handler that was not hinted and holds its claim. */
  lemma OnlyClaimHoldersTakeOver(w: World, ev: Event)
    requires Inv(w) && Step(w, ev).history != w.history
    ensures ev.Command? || (ev.Write? && ev.handler < |w.handlers| && !w.handlers[ev.handler].seen.hinted
                            && MessageOf(w.handlers[ev.handler].seen) in w.claims)
  {
    if ev.Write? { assert GoodHandler(w, ev.handler); }
  }

  /** Whether it says so or not, a write adds the takeover's entry or nothing. */
  lemma WritesAdd(w: World, h: nat, read: Record, conflict: Phase)
    requires h < |w.handlers| && Written(w, h, read, conflict).history != w.history
    ensures var o := w.handlers[h].seen; var key := Key(o.tenantId, o.conversationId); var h' := Written(w, h, read, conflict).history;
      && (forall other :: other != key ==> Entries(h', other) == Entries(w.history, other))
      && |Entries(h', key)| == |Entries(w.history, key)| + 1 && Entries(w.history, key) < Entries(h', key)
      && Entries(h', key)[|Entries(w.history, key)|].input == TakeoverInput(o, read)
  {
  }

  /**
   * What a handler writes: at most one entry, in the conversation of its observation, a takeover
   * in the operator's name under the id of session and message, for the version it has read.
   */
  lemma HandlersWriteTakeovers(w: World, ev: Event)
    requires !ev.Command? && Step(w, ev).history != w.history
    ensures ev.Write? && ev.handler < |w.handlers| && (w.handlers[ev.handler].phase.Writing? || w.handlers[ev.handler].phase.Rewriting?)
    ensures var o, read := w.handlers[ev.handler].seen, w.handlers[ev.handler].phase.read; var key := Key(o.tenantId, o.conversationId);
      && (forall other :: other != key ==> Entries(Step(w, ev).history, other) == Entries(w.history, other))
      && |Entries(Step(w, ev).history, key)| == |Entries(w.history, key)| + 1
      && Entries(w.history, key) < Entries(Step(w, ev).history, key)
      && Entries(Step(w, ev).history, key)[|Entries(w.history, key)|].input ==
           Input(o.tenantId, o.conversationId, ManualTakeover, "linked-device:" + o.sessionId + ":" + o.platformMessageId + ":takeover",
                 "operator:linked-device:" + o.sessionId, Some("manual_outbound_observed"), Some(read.version))
  {
    var x := w.handlers[ev.handler];
    WritesAdd(w, ev.handler, x.phase.read, if x.phase.Writing? then Rereading else Releasing);
  }

  /** The handler of claim and append on: what it does next can fail, and then the claim is given back. */
  predicate IsAtWork(x: Handler) {
    || x.phase == Appending || x.phase == Reading || x.phase.Writing? || x.phase == Rereading || x.phase.Rewriting?
    || x.phase.Recording?
  }

  /** A handler at work never just stops: it goes on, or it fails and is about to release its claim, which it still holds. */
  lemma FailuresRelease(w: World, ev: Event, h: nat)
    requires Inv(w) && h < |w.handlers| && IsAtWork(w.handlers[h])
    ensures var w' := Step(w, ev);
      && h < |w'.handlers| && (IsAtWork(w'.handlers[h]) || w'.handlers[h].phase == Releasing || w'.handlers[h].phase.Observed?)
      && ((forall other :: ev != Release(other, Works) && ev != Release(other, FailsAfterwards)) ==> MessageOf(w.handlers[h].seen) in w'.claims)
  {
    assert GoodHandler(w, h);
  }

  /** What fails: the next call of a handler at work, when it says so. */
  predicate FailsAt(ev: Event, h: nat) {
    match ev
    case AppendEvent(g, fails) => g == h && fails
    case Read(g, fails) => g == h && fails
    case Write(g, fails, lost) => g == h && (fails || lost)
    case Finish(g, fails) => g == h && fails
    case _ => false
  }

  /** The call that the handler makes next. */
  predicate IsNextCall(ev: Event, x: Handler) {
    match x.phase
    case Appending => ev.AppendEvent?
    case Reading => ev.Read?
    case Rereading => ev.Read?
    case Writing(_) => ev.Write?
    case Rewriting(_) => ev.Write?
    case Recording(_) => ev.Finish?
    case _ => false
  }

  lemma FailingCallsRelease(w: World, ev: Event, h: nat)
    requires h < |w.handlers| && IsNextCall(ev, w.handlers[h]) && FailsAt(ev, h)
    ensures Step(w, ev).handlers[h] == w.handlers[h].(phase := Releasing)
  {
  }

  /** Only the first write is forgiven a version that has changed since it was read. */
  lemma ConflictsAre(w: World, h: nat, read: Record)
    requires h < |w.handlers| && w.handlers[h].phase in {Writing(read), Rewriting(read)}
    requires var o := w.handlers[h].seen; var entries := Entries(w.history, Key(o.tenantId, o.conversationId));
      && o.tenantId != "" && o.conversationId != "" && Answered(entries, TakeoverId(o)) == None
      && Current(entries, Key(o.tenantId, o.conversationId), w.now).version != read.version
    ensures Step(w, Write(h, false, false)).history == w.history
    ensures Step(w, Write(h, false, false)).handlers[h].phase == if w.handlers[h].phase.Writing? then Rereading else Releasing
  {
    TakeoverIdHasItsForm(w.handlers[h].seen);
  }

  /** A handler that has claimed its message and is not disturbed ends as observed, with its takeover in the ledger. */
  lemma UndisturbedHandlersFinish(w: World, h: nat)
    requires Inv(w) && h < |w.handlers| && w.handlers[h].phase == Appending
    requires w.handlers[h].seen.tenantId != "" && w.handlers[h].seen.conversationId != ""
    ensures var w' := Step(Step(Step(Step(w, AppendEvent(h, false)), Read(h, false)), Write(h, false, false)), Finish(h, false));
      && w'.handlers[h].phase.Observed? && TookOver(w'.history, w.handlers[h].seen, w'.handlers[h].phase.current)
      && MessageOf(w.handlers[h].seen) in w'.claims
  {
    var o := w.handlers[h].seen;
    assert GoodHandler(w, h);
    var read := Get(w.history, ConversationOf(o), w.now);
    var w2 := WithPhase(w, h, Writing(read));
    LastUpdateWins(w.handlers, h, w.handlers[h].(phase := Reading), w.handlers[h].(phase := Writing(read)));
    assert Step(Step(w, AppendEvent(h, false)), Read(h, false)) == w2;
    UndisturbedWrite(w, h, read);
  }

  lemma UndisturbedWrite(w: World, h: nat, read: Record)
    requires Inv(w) && h < |w.handlers| && Holding(w.handlers[h]) && !w.handlers[h].seen.hinted
    requires w.handlers[h].seen.tenantId != "" && w.handlers[h].seen.conversationId != ""
    requires read == Get(w.history, ConversationOf(w.handlers[h].seen), w.now)
    ensures var w' := Step(WithPhase(w, h, Writing(read)), Write(h, false, false));
      && w'.handlers[h].seen == w.handlers[h].seen && w'.handlers[h].phase.Recording? && w'.claims == w.claims
      && TookOver(w'.history, w.handlers[h].seen, w'.handlers[h].phase.current)
  {
    var o, w1 := w.handlers[h].seen, WithPhase(w, h, Writing(read));
    TakeoverIdHasItsForm(o);
    PhaseKeeps(w, h, Writing(read));
    WrittenKeeps(w1, h, read, Rereading);
    RequestIsRefusedIff(w.history, Request(TakeoverInput(o, read), w.now));
  }

  /** The claim and the attribution of a message are those of its tenant, session and message id. */
  lemma MessagesAreKeyedBy(w: World, o: Observation)
    ensures var w1 := Step(w, Arrive(o)); var h, m := |w.handlers|, MessageKey(o.tenantId, o.sessionId, o.platformMessageId);
      && (Step(w1, LookUp(h, false)).handlers[h].phase == Ignored <==> m in w.attributed || o.hinted)
      && var w2 := Step(w1, LookUp(h, true));
      && (w2.handlers[h].phase == Claiming ==>
            && (Step(w2, Claim(h, Works)).handlers[h].phase == Appending <==> m !in w.claims)
            && Step(w2, Claim(h, Works)).claims == w.claims + {m})
  {
  }

  /** A message whose attribution was found, or that came hinted, is ignored for good. */
  lemma {:induction false} AttributedIsIgnored(w: World, h: nat, evs: seq<Event>)
    requires h < |w.handlers| && w.handlers[h].phase == Lookup
    requires var o := w.handlers[h].seen; MessageKey(o.tenantId, o.sessionId, o.platformMessageId) in w.attributed || o.hinted
    ensures h < |Run(Step(w, LookUp(h, false)), evs).handlers|
    ensures Run(Step(w, LookUp(h, false)), evs).handlers[h] == w.handlers[h].(phase := Ignored)
  {
    IgnoredIsFinal(Step(w, LookUp(h, false)), h, evs);
  }

  lemma {:induction false} IgnoredIsFinal(w: World, h: nat, evs: seq<Event>)
    requires h < |w.handlers| && w.handlers[h].phase == Ignored
    ensures h < |Run(w, evs).handlers| && Run(w, evs).handlers[h] == w.handlers[h]
    decreases evs
  {
    if evs != [] { IgnoredIsFinal(Step(w, evs[0]), h, evs[1..]); }
  }

  // ---------------------------------------------------------------- what an answer does not say

  /**
   * An accepted takeover leaves the conversation with the human exactly when it is not the
   * replay of an id answered before a release: a replay answers HUMAN_ACTIVE and changes nothing.
   */
  lemma AcceptedTakeoverHolds(history: History, o: Observation, read: Record, now: int)
    requires OwnershipStore.Inv(history) && TakeoverIdsTakeOver(history)
    requires Apply(history, Request(TakeoverInput(o, read), now)).result.Success?
    ensures var key, out := ConversationOf(o), Apply(history, Request(TakeoverInput(o, read), now));
      && out.result.value.state == HumanActive
      && (Get(out.history, key, now).state == HumanActive <==>
            Answered(Entries(history, key), TakeoverId(o)).None? || Get(history, key, now).state == HumanActive)
  {
    TakeoverIdHasItsForm(o);
    ApplyKeepsTakeoverIds(history, Request(TakeoverInput(o, read), now));
  }

  /** The replay is reachable: take over, release, deliver the message again. */
  lemma ReplayAfterRelease(o: Observation)
    requires o.tenantId != "" && o.conversationId != ""
    ensures var key := ConversationOf(o);
      var h1 := Apply(map[], Request(TakeoverInput(o, Initial(key, 1)), 1)).history;
      var release := Input(o.tenantId, o.conversationId, ReleaseToAgent, "r", "operator", None, None);
      var h2 := Apply(h1, Request(release, 2)).history;
      var again := Apply(h2, Request(TakeoverInput(o, Get(h2, key, 3)), 3));
      && again.result.Success? && again.result.value.state == HumanActive
      && Get(again.history, key, 3).state == AiActive
  {
    var key := ConversationOf(o);
    var first := Request(TakeoverInput(o, Initial(key, 1)), 1);
    var h1 := Apply(map[], first).history;
    var release := Input(o.tenantId, o.conversationId, ReleaseToAgent, "r", "operator", None, None);
    TakeoverIdHasItsForm(o);
    assert |Entries(h1, key)| == 1 && Entries(h1, key)[0].result.state == HumanActive;
    assert Answered(Entries(h1, key), "r").None? by { assert Answered(Entries(h1, key)[1..], "r").None?; }
    var h2 := Apply(h1, Request(release, 2)).history;
    assert Get(h2, key, 3).state == AiActive;
    RetriesGetTheFirstAnswer(map[], first, [Request(release, 2)], Request(TakeoverInput(o, Get(h2, key, 3)), 3));
    assert Run1(h1, Request(release, 2)) == h2;
  }
}
