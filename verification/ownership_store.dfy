/**
 * The ownership store as its callers see it: for each conversation, the transitions that were
 * accepted, in order. The ledger store and the table store are both proved against `Apply`.
 */
module OwnershipStore {
  import opened Wrappers
  import opened Ownership

  /** An accepted, non-duplicate transition, when it was made and what it gave. */
  datatype Entry = Entry(input: Input, at: int, result: Record)

  type History = map<Key, seq<Entry>>

  datatype Request = Request(input: Input, now: int)

  datatype Outcome = Outcome(history: History, result: Result<Record, Error>)

  function Entries(h: History, key: Key): seq<Entry> {
    if key in h then h[key] else []
  }

  function Current(entries: seq<Entry>, key: Key, now: int): Record {
    if entries == [] then Initial(key, now) else entries[|entries| - 1].result
  }

  function Get(h: History, key: Key, now: int): Record {
    Current(Entries(h, key), key, now)
  }

  /** The answer that was given to an earlier transition of this id. */
  function Answered(entries: seq<Entry>, transitionId: string): Option<Record> {
    if entries == [] then None
    else if entries[0].input.transitionId == transitionId then Some(entries[0].result)
    else Answered(entries[1..], transitionId)
  }

  predicate Stale(input: Input, current: Record) {
    input.expectedVersion.Some? && input.expectedVersion.value != current.version
  }

  function Apply(h: History, r: Request): Outcome {
    var input, key := r.input, KeyOf(r.input);
    var entries := Entries(h, key);
    var current := Current(entries, key, r.now);
    if CheckInput(input).Some? then Outcome(h, Failure(CheckInput(input).value))
    else match Answered(entries, input.transitionId)
      case Some(record) => Outcome(h, Success(record))
      case None =>
        if Stale(input, current) then Outcome(h, Failure(VersionConflict(current.version)))
        else match Transition(current, input, r.now)
          case Failure(e) => Outcome(h, Failure(e))
          case Success(record) => Outcome(h[key := entries + [Entry(input, r.now, record)]], Success(record))
  }

  function Run(h: History, rs: seq<Request>): History
    decreases rs
  {
    if rs == [] then h else Run(Apply(h, rs[0]).history, rs[1..])
  }

  /** The first failure while the defaults of a batch are built. */
  function BatchError(tenantId: string, conversationIds: seq<string>): Option<Error> {
    if conversationIds == [] then None
    else if tenantId == "" then Some(TenantIdRequired)
    else if conversationIds[0] == "" then Some(ConversationIdRequired)
    else BatchError(tenantId, conversationIds[1..])
  }

  /** A batch is answered like its ids one at a time. */
  ghost predicate IsBatchOf(r: Result<seq<Record>, Error>, h: History, tenantId: string, ids: seq<string>, now: int) {
    match BatchError(tenantId, ids)
    case Some(e) => r == Failure(e)
    case None => r.Success? && |r.value| == |ids| && forall i :: 0 <= i < |ids| ==> r.value[i] == Get(h, Key(tenantId, ids[i]), now)
  }

  // ---------------------------------------------------------------- what every history is

  /** The record that transition `i` started from. */
  function Before(entries: seq<Entry>, key: Key, i: nat): Record
    requires i < |entries|
  {
    if i == 0 then Initial(key, entries[0].at) else entries[i - 1].result
  }

  ghost predicate GoodEntry(entries: seq<Entry>, key: Key, i: nat)
    requires i < |entries|
  {
    var e := entries[i];
    && KeyOf(e.input) == key && CheckInput(e.input).None?
    && Transition(Before(entries, key, i), e.input, e.at) == Success(e.result)
    && !Stale(e.input, Before(entries, key, i))
    && e.result.tenantId == key.tenantId && e.result.conversationId == key.conversationId
  }

  ghost predicate Good(entries: seq<Entry>, key: Key) {
    && (forall i :: 0 <= i < |entries| ==> GoodEntry(entries, key, i))
    && (forall i, j :: 0 <= i < j < |entries| ==> entries[i].input.transitionId != entries[j].input.transitionId)
  }

  ghost predicate Inv(h: History) {
    forall key :: key in h ==> Good(h[key], key)
  }

  lemma {:induction false} AnsweredIs(entries: seq<Entry>, transitionId: string)
    ensures match Answered(entries, transitionId)
            case Some(record) =>
              exists i :: 0 <= i < |entries| && entries[i].input.transitionId == transitionId && entries[i].result == record
            case None => forall i :: 0 <= i < |entries| ==> entries[i].input.transitionId != transitionId
  {
    if entries != [] && entries[0].input.transitionId != transitionId {
      var rest := entries[1..];
      AnsweredIs(rest, transitionId);
      match Answered(rest, transitionId)
      case Some(record) =>
        var i :| 0 <= i < |rest| && rest[i].input.transitionId == transitionId && rest[i].result == record;
        assert entries[i + 1] == rest[i];
      case None =>
        forall i | 0 <= i < |entries| ensures entries[i].input.transitionId != transitionId {
          if i > 0 { assert entries[i] == rest[i - 1]; }
        }
    }
  }

  lemma AppendKeepsGood(entries: seq<Entry>, key: Key, e: Entry)
    requires Good(entries, key) && KeyOf(e.input) == key && CheckInput(e.input).None?
    requires Answered(entries, e.input.transitionId).None? && !Stale(e.input, Current(entries, key, e.at))
    requires Transition(Current(entries, key, e.at), e.input, e.at) == Success(e.result)
    ensures Good(entries + [e], key)
  {
    var longer := entries + [e];
    AnsweredIs(entries, e.input.transitionId);
    forall i | 0 <= i < |longer| ensures GoodEntry(longer, key, i) {
      if i < |entries| {
        assert GoodEntry(entries, key, i);
        assert Before(longer, key, i) == Before(entries, key, i);
      } else {
        assert Before(longer, key, i) == Current(entries, key, e.at);
        if i > 0 { assert GoodEntry(entries, key, i - 1); }
      }
    }
  }

  lemma ApplyKeepsInv(h: History, r: Request)
    requires Inv(h)
    ensures Inv(Apply(h, r).history)
  {
    var key := KeyOf(r.input);
    var out := Apply(h, r);
    if out.history != h {
      AppendKeepsGood(Entries(h, key), key, Entry(r.input, r.now, out.result.value));
    }
  }

  lemma {:induction false} RunKeepsInv(h: History, rs: seq<Request>)
    requires Inv(h)
    ensures Inv(Run(h, rs))
    decreases rs
  {
    if rs != [] {
      ApplyKeepsInv(h, rs[0]);
      RunKeepsInv(Apply(h, rs[0]).history, rs[1..]);
    }
  }

  // ---------------------------------------------------------------- get is a fold

  function Fold(record: Record, entries: seq<Entry>): Result<Record, Error>
    decreases entries
  {
    if entries == [] then Success(record)
    else match Transition(record, entries[0].input, entries[0].at)
      case Failure(e) => Failure(e)
      case Success(next) => Fold(next, entries[1..])
  }

  /** How many of the transitions changed the state. */
  function Changes(record: Record, entries: seq<Entry>): nat
    decreases entries
  {
    if entries == [] then 0
    else (if entries[0].result.state != record.state then 1 else 0) + Changes(entries[0].result, entries[1..])
  }

  lemma {:induction false} FoldFrom(entries: seq<Entry>, key: Key, i: nat)
    requires Good(entries, key) && i < |entries|
    ensures Fold(Before(entries, key, i), entries[i..]) == Success(entries[|entries| - 1].result)
    ensures entries[|entries| - 1].result.version ==
            Before(entries, key, i).version + Changes(Before(entries, key, i), entries[i..])
    decreases |entries| - i
  {
    assert GoodEntry(entries, key, i);
    VersionCountsChanges(Before(entries, key, i), entries[i].input, entries[i].at);
    assert entries[i..][1..] == entries[i + 1..];
    if i + 1 < |entries| { FoldFrom(entries, key, i + 1); }
  }

  lemma GoodFolds(entries: seq<Entry>, key: Key, now: int)
    requires Good(entries, key)
    ensures var start := Initial(key, if entries == [] then now else entries[0].at);
      Fold(start, entries) == Success(Current(entries, key, now)) && Current(entries, key, now).version == Changes(start, entries)
  {
    if entries != [] {
      FoldFrom(entries, key, 0);
      assert entries[0..] == entries;
    }
  }

  lemma GoodVersions(entries: seq<Entry>, key: Key, i: nat)
    requires Good(entries, key) && i < |entries| && entries[i].input.expectedVersion.Some?
    ensures entries[i].input.expectedVersion.value == Before(entries, key, i).version
  {
    assert GoodEntry(entries, key, i);
  }

  /**
   * In every reachable store, `get` is the fold of `transitionOwnership` over the accepted
   * transitions, its version is the number of state changes among them, ids occur once, and an
   * accepted expected version was the version it replaced.
   */
  lemma GetIsTheFold(rs: seq<Request>, key: Key, now: int)
    ensures var entries := Entries(Run(map[], rs), key);
      var start := Initial(key, if entries == [] then now else entries[0].at);
      && Fold(start, entries) == Success(Get(Run(map[], rs), key, now))
      && Get(Run(map[], rs), key, now).version == Changes(start, entries)
      && (forall i, j :: 0 <= i < j < |entries| ==> entries[i].input.transitionId != entries[j].input.transitionId)
      && (forall i :: 0 <= i < |entries| && entries[i].input.expectedVersion.Some? ==>
            entries[i].input.expectedVersion.value == Before(entries, key, i).version)
  {
    RunKeepsInv(map[], rs);
    var entries := Entries(Run(map[], rs), key);
    GoodFolds(entries, key, now);
    forall i | 0 <= i < |entries| && entries[i].input.expectedVersion.Some?
      ensures entries[i].input.expectedVersion.value == Before(entries, key, i).version
    {
      GoodVersions(entries, key, i);
    }
  }

  // ---------------------------------------------------------------- answers are durable

  lemma {:induction false} AnsweredStays(entries: seq<Entry>, e: Entry, transitionId: string)
    ensures Answered(entries + [e], transitionId) ==
            if Answered(entries, transitionId).Some? then Answered(entries, transitionId)
            else if e.input.transitionId == transitionId then Some(e.result) else None
  {
    if entries == [] {
      assert entries + [e] == [e];
    } else {
      assert (entries + [e])[1..] == entries[1..] + [e];
      AnsweredStays(entries[1..], e, transitionId);
    }
  }

  lemma {:induction false} AnswersStay(h: History, rs: seq<Request>, key: Key, transitionId: string)
    requires Answered(Entries(h, key), transitionId).Some?
    ensures Answered(Entries(Run(h, rs), key), transitionId) == Answered(Entries(h, key), transitionId)
    decreases rs
  {
    if rs != [] {
      var out := Apply(h, rs[0]);
      if out.history != h && KeyOf(rs[0].input) == key {
        AnsweredStays(Entries(h, key), Entry(rs[0].input, rs[0].now, out.result.value), transitionId);
      }
      AnswersStay(out.history, rs[1..], key, transitionId);
    }
  }

  /** Whatever happens in between, a retry of an accepted transition gets the first answer and changes nothing. */
  lemma RetriesGetTheFirstAnswer(h: History, first: Request, rs: seq<Request>, again: Request)
    requires Apply(h, first).result.Success? && CheckInput(again.input).None?
    requires KeyOf(again.input) == KeyOf(first.input) && again.input.transitionId == first.input.transitionId
    ensures Apply(Run(Apply(h, first).history, rs), again) ==
            Outcome(Run(Apply(h, first).history, rs), Apply(h, first).result)
  {
    var key, out := KeyOf(first.input), Apply(h, first);
    if out.history != h {
      AnsweredStays(Entries(h, key), Entry(first.input, first.now, out.result.value), first.input.transitionId);
    }
    AnswersStay(out.history, rs, key, first.input.transitionId);
  }

  // ---------------------------------------------------------------- what one request does

  predicate Complete(input: Input) {
    && input.tenantId != "" && input.conversationId != "" && input.transitionId != "" && input.actor != ""
    && (input.expectedVersion.Some? ==> input.expectedVersion.value >= 0)
  }

  /** The request expects the version that the conversation has. */
  predicate Expected(input: Input, version: nat) {
    input.expectedVersion == None || input.expectedVersion == Some(version)
  }

  /**
   * A new id makes the listed move and no other: the answer is the conversation's new record, one
   * entry is added to its transitions, and no other conversation is touched.
   */
  lemma AppliedMovesAreThese(h: History, r: Request, other: Key, now: int)
    requires Inv(h) && Apply(h, r).result.Success? && Answered(Entries(h, KeyOf(r.input)), r.input.transitionId).None?
    ensures var key := KeyOf(r.input); var before, out := Get(h, key, r.now), Apply(h, r); var after := Get(out.history, key, now);
      && out.result == Success(after)
      && (forall state :: (before.state, r.input.command, state) in MOVES <==> after.state == state && state != before.state)
      && after == (if !Moves(before.state, r.input.command) then before
                   else Record(before.tenantId, before.conversationId, after.state, before.version + 1, r.now, r.input.actor,
                               r.input.reasonCode, Some(r.input.transitionId)))
      && Entries(out.history, key) == Entries(h, key) + [Entry(r.input, r.now, after)]
      && (other != key ==> Get(out.history, other, now) == Get(h, other, now))
  {
    var entries := Entries(h, KeyOf(r.input));
    if entries != [] { UnansweredIsNotCurrent(entries, KeyOf(r.input), r.input.transitionId); }
    MovesAreThese(Current(entries, KeyOf(r.input), r.now), r.input, r.now);
  }

  /**
   * A request is refused exactly when it is incomplete, or its id is new and it expects another
   * version, has no known command, or would move the conversation for a blank reason; a refused
   * request and a known id change nothing.
   */
  lemma RequestIsRefusedIff(h: History, r: Request)
    requires Inv(h)
    ensures var key := KeyOf(r.input); var known, before := Answered(Entries(h, key), r.input.transitionId), Get(h, key, r.now);
      && (Apply(h, r).result.Failure? <==>
            || !Complete(r.input) || r.input.command == Unsupported("")
            || (known == None && (!Expected(r.input, before.version) || r.input.command.Unsupported?
                                  || (Moves(before.state, r.input.command) && r.input.reasonCode == Some("")))))
      && (Apply(h, r).result.Failure? || known.Some? ==> Apply(h, r).history == h)
      && (Complete(r.input) && known == None && !Expected(r.input, before.version) && r.input.command != Unsupported("") ==>
            Apply(h, r).result == Failure(VersionConflict(before.version)))
      && (Complete(r.input) && known == None && Expected(r.input, before.version) && r.input.command != Unsupported("") ==>
            && (r.input.command.Unsupported? ==> Apply(h, r).result == Failure(UnsupportedCommand(r.input.command.name)))
            && (Moves(before.state, r.input.command) && r.input.reasonCode == Some("") ==> Apply(h, r).result == Failure(ReasonCodeRequired)))
  {
    var entries := Entries(h, KeyOf(r.input));
    if entries != [] && Answered(entries, r.input.transitionId).None? { UnansweredIsNotCurrent(entries, KeyOf(r.input), r.input.transitionId); }
    RefusedIff(Current(entries, KeyOf(r.input), r.now), r.input, r.now);
  }

  // ---------------------------------------------------------------- a human is left only by a release

  /** Request `r` is a release that takes the conversation from the human to the agent. */
  ghost predicate Releases(h: History, r: Request, key: Key) {
    var out := Apply(h, r);
    && KeyOf(r.input) == key && r.input.command == ReleaseToAgent && out.result.Success?
    && Get(h, key, r.now).state == HumanActive && out.result.value.state == AiActive
    && out.result.value.version == Get(h, key, r.now).version + 1
    && Get(out.history, key, r.now) == out.result.value
  }

  lemma ApplyLeavesHuman(h: History, r: Request, key: Key, now: int)
    requires Get(h, key, now).state == HumanActive && Get(Apply(h, r).history, key, now).state != HumanActive
    ensures Releases(h, r, key)
  {
    HumanIsLeftOnlyByRelease(Get(h, key, r.now), r.input, r.now);
  }

  /** In every run that ends outside HUMAN_ACTIVE, some request was an effective release. */
  lemma {:induction false} HumanStaysUntilReleased(h: History, rs: seq<Request>, key: Key, now: int)
    requires Get(h, key, now).state == HumanActive && Get(Run(h, rs), key, now).state != HumanActive
    ensures exists k :: 0 <= k < |rs| && Releases(Run(h, rs[..k]), rs[k], key)
    decreases rs
  {
    var h' := Apply(h, rs[0]).history;
    assert rs[..0] == [];
    if Get(h', key, now).state != HumanActive {
      ApplyLeavesHuman(h, rs[0], key, now);
      assert Releases(Run(h, rs[..0]), rs[0], key);
    } else {
      HumanStaysUntilReleased(h', rs[1..], key, now);
      var k :| 0 <= k < |rs[1..]| && Releases(Run(h', rs[1..][..k]), rs[1..][k], key);
      assert rs[..k + 1][1..] == rs[1..][..k] && rs[k + 1] == rs[1..][k];
      assert Releases(Run(h, rs[..k + 1]), rs[k + 1], key);
    }
  }

  /** What an incomplete input is told: the first thing that is missing, in this order. */
  lemma InputErrorsAre(input: Input)
    ensures CheckInput(input) == None <==> Complete(input) && input.command != Unsupported("")
    ensures CheckInput(input) == Some(TenantIdRequired) <==> input.tenantId == ""
    ensures CheckInput(input) == Some(ConversationIdRequired) <==> input.tenantId != "" && input.conversationId == ""
    ensures input.tenantId != "" && input.conversationId != "" ==>
      && (CheckInput(input) == Some(CommandRequired) <==> input.command == Unsupported(""))
      && (input.command != Unsupported("") ==>
            && (CheckInput(input) == Some(TransitionIdRequired) <==> input.transitionId == "")
            && (CheckInput(input) == Some(ActorRequired) <==> input.transitionId != "" && input.actor == "")
            && (CheckInput(input) == Some(ExpectedVersionInvalid) <==>
                  input.transitionId != "" && input.actor != "" && input.expectedVersion.Some? && input.expectedVersion.value < 0))
  {
  }

  /** A batch fails exactly when it asks for something and an id is missing. */
  lemma {:induction false} BatchFailsIff(tenantId: string, ids: seq<string>)
    ensures BatchError(tenantId, ids) ==
      if ids != [] && tenantId == "" then Some(TenantIdRequired) else if "" in ids then Some(ConversationIdRequired) else None
  {
    if ids != [] {
      BatchFailsIff(tenantId, ids[1..]);
      assert ids == [ids[0]] + ids[1..];
    }
  }

  // ---------------------------------------------------------------- the decision gate

  datatype Gate = StartModel | HandToHuman(state: State)

  /** The ownership check at the start of an inbound decision. */
  function GateFor(record: Record): Gate {
    if record.state == AiActive then StartModel else HandToHuman(record.state)
  }

  /**
   * After an effective takeover, whatever requests follow, an inbound decision that reads the
   * owner later starts no model call unless an effective release came in between.
   */
  lemma NoModelCallAfterTakeover(h: History, takeover: Request, rs: seq<Request>, key: Key, now: int)
    requires KeyOf(takeover.input) == key && takeover.input.command == ManualTakeover
    requires Apply(h, takeover).history != h
    requires Inv(h)
    requires forall k :: 0 <= k < |rs| ==> !Releases(Run(Apply(h, takeover).history, rs[..k]), rs[k], key)
    ensures GateFor(Get(Run(Apply(h, takeover).history, rs), key, now)) == HandToHuman(HumanActive)
  {
    var h1 := Apply(h, takeover).history;
    TakeoverGivesHuman(h, takeover, now);
    if Get(Run(h1, rs), key, now).state != HumanActive { HumanStaysUntilReleased(h1, rs, key, now); }
  }

  /**
   * An inbound decision starts the model exactly when no transition was ever accepted, or the
   * last one left the conversation with the agent; otherwise it is told who has the conversation.
   */
  lemma ModelStartsIff(rs: seq<Request>, key: Key, now: int)
    ensures var h := Run(map[], rs); var entries := Entries(h, key);
      && (entries == [] ==> Get(h, key, now) == Record(key.tenantId, key.conversationId, AiActive, 0, now, "supervisor",
                                                       Some("default_ai_active"), None))
      && GateFor(Get(h, key, now)) == if entries == [] then StartModel
                                      else match entries[|entries| - 1].result.state
                                        case AiActive => StartModel
                                        case WaitingApproval => HandToHuman(WaitingApproval)
                                        case HumanRequested => HandToHuman(HumanRequested)
                                        case HumanActive => HandToHuman(HumanActive)
                                        case AiPaused => HandToHuman(AiPaused)
  {
  }

  /** In a good history the current record's id has been answered, so a fresh takeover id always takes over. */
  lemma TakeoverGivesHuman(h: History, r: Request, now: int)
    requires Inv(h) && r.input.command == ManualTakeover && Apply(h, r).history != h
    ensures Get(Apply(h, r).history, KeyOf(r.input), now).state == HumanActive
  {
    var key := KeyOf(r.input);
    var entries := Entries(h, key);
    if entries != [] { UnansweredIsNotCurrent(entries, key, r.input.transitionId); }
    assert Transition(Current(entries, key, r.now), r.input, r.now).value.state == HumanActive;
  }

  lemma UnansweredIsNotCurrent(entries: seq<Entry>, key: Key, transitionId: string)
    requires Good(entries, key) && entries != [] && Answered(entries, transitionId).None?
    ensures entries[|entries| - 1].result.transitionId != Some(transitionId)
  {
    AnsweredIs(entries, transitionId);
    if entries[|entries| - 1].result.transitionId.Some? { LastIdIsAnswered(entries, key, |entries| - 1); }
  }

  lemma {:induction false} LastIdIsAnswered(entries: seq<Entry>, key: Key, i: nat)
    requires Good(entries, key) && i < |entries| && entries[i].result.transitionId.Some?
    ensures exists k :: 0 <= k <= i && entries[k].input.transitionId == entries[i].result.transitionId.value
  {
    assert GoodEntry(entries, key, i);
    VersionCountsChanges(Before(entries, key, i), entries[i].input, entries[i].at);
    if entries[i].result == Before(entries, key, i) {
      LastIdIsAnswered(entries, key, i - 1);
    }
  }
}
