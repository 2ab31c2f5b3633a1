/**
 * The conversation log of a tenant: one file of events, read per customer (`getControl`), in one
 * pass (`list`), and written idempotently for an operator's messages. Empty strings stand for
 * missing values, as the source tests them for truth.
 */
module ConversationLog {
  import opened Wrappers
  import opened Sorting
  import TenantFiles

  datatype Kind = Message | Decision | Control

  datatype Event = Event(tenantId: string, customerId: string, customerName: string, id: string, kind: Kind, direction: string,
                         text: string, at: string, mode: string, action: string, intent: string, confidence: Option<real>)

  datatype Shown = Shown(id: string, direction: string, text: string, at: string, action: string, intent: string, confidence: Option<real>)

  datatype Thread = Thread(customerId: string, customerName: string, control: string, lastActivityAt: string, lastAction: string,
                           lastIntent: string, lastConfidence: Option<real>, messages: seq<Shown>)

  datatype Row = Row(thread: Thread, preview: string, messageCount: nat)

  function Show(e: Event): Shown {
    Shown(e.id, e.direction, e.text, e.at, e.action, e.intent, e.confidence)
  }

  function Last<T>(s: seq<T>): T
    requires s != []
  {
    s[|s| - 1]
  }

  function Init<T>(s: seq<T>): seq<T>
    requires s != []
  {
    s[..|s| - 1]
  }

  // ---------------------------------------------------------------- one customer at a time

  function ControlOf(events: seq<Event>, c: string): string {
    if events == [] then "ai"
    else if Last(events).customerId == c && Last(events).kind == Control then Last(events).mode
    else ControlOf(Init(events), c)
  }

  function MessagesOf(events: seq<Event>, c: string): seq<Shown> {
    if events == [] then []
    else MessagesOf(Init(events), c) + if Last(events).customerId == c && Last(events).kind == Message then [Show(Last(events))] else []
  }

  function NameOf(events: seq<Event>, c: string): string {
    if events == [] then c
    else if Last(events).customerId == c && Last(events).customerName != "" then Last(events).customerName
    else NameOf(Init(events), c)
  }

  function ActivityOf(events: seq<Event>, c: string): string {
    if events == [] then ""
    else if Last(events).customerId == c && Last(events).at != "" then Last(events).at
    else ActivityOf(Init(events), c)
  }

  function ActionOf(events: seq<Event>, c: string): string {
    if events == [] then ""
    else if Last(events).customerId == c && Last(events).kind != Control && Last(events).action != "" then Last(events).action
    else ActionOf(Init(events), c)
  }

  function IntentOf(events: seq<Event>, c: string): string {
    if events == [] then ""
    else if Last(events).customerId == c && Last(events).kind != Control && Last(events).intent != "" then Last(events).intent
    else IntentOf(Init(events), c)
  }

  function ConfidenceOf(events: seq<Event>, c: string): Option<real> {
    if events == [] then None
    else if Last(events).customerId == c && Last(events).kind != Control && Last(events).confidence.Some? then Last(events).confidence
    else ConfidenceOf(Init(events), c)
  }

  /** What looking up one customer at a time says of it. */
  function ThreadOf(events: seq<Event>, c: string): Thread {
    Thread(c, NameOf(events, c), ControlOf(events, c), ActivityOf(events, c), ActionOf(events, c), IntentOf(events, c),
           ConfidenceOf(events, c), MessagesOf(events, c))
  }

  /** The customers with an event, in the order of their first one. */
  function Customers(events: seq<Event>): seq<string> {
    if events == [] then []
    else if Last(events).customerId in Customers(Init(events)) then Customers(Init(events))
    else Customers(Init(events)) + [Last(events).customerId]
  }

  lemma {:induction false} CustomersAre(events: seq<Event>)
    ensures forall i, j :: 0 <= i < j < |Customers(events)| ==> Customers(events)[i] != Customers(events)[j]
    ensures forall c :: c in Customers(events) <==> HasEvent(events, c)
    ensures forall c :: c !in Customers(events) ==> ThreadOf(events, c) == Thread(c, c, "ai", "", "", "", None, [])
  {
    if events != [] {
      var before, e := Init(events), Last(events);
      CustomersAre(before);
      forall c ensures c in Customers(events) <==> HasEvent(events, c) {
        if HasEvent(before, c) {
          var i :| 0 <= i < |before| && before[i].customerId == c;
          assert events[i].customerId == c;
        }
        if e.customerId == c { assert events[|events| - 1].customerId == c; }
      }
    }
  }

  ghost predicate HasEvent(events: seq<Event>, c: string) {
    exists i :: 0 <= i < |events| && events[i].customerId == c
  }

  // What a thread says, read off the log itself.

  /** Event `i` is the latest of its kind. */
  ghost predicate IsLatest(events: seq<Event>, i: nat, p: Event -> bool) {
    i < |events| && p(events[i]) && forall j :: i < j < |events| ==> !p(events[j])
  }

  /** The value of the latest event of its kind, or the default without any. */
  ghost predicate IsOfLatest<T(!new)>(v: T, events: seq<Event>, p: Event -> bool, f: Event -> T, default: T) {
    && (forall i: nat :: IsLatest(events, i, p) ==> v == f(events[i]))
    && ((forall i :: 0 <= i < |events| ==> !p(events[i])) ==> v == default)
  }

  lemma OneMoreIsLatest<T(!new)>(v: T, events: seq<Event>, p: Event -> bool, f: Event -> T, default: T)
    requires events != [] && IsOfLatest(v, Init(events), p, f, default)
    ensures IsOfLatest(if p(Last(events)) then f(Last(events)) else v, events, p, f, default)
  {
    if !p(Last(events)) {
      forall i: nat | IsLatest(events, i, p) ensures v == f(events[i]) { assert IsLatest(Init(events), i, p); }
      if forall i :: 0 <= i < |events| ==> !p(events[i]) {
        forall i | 0 <= i < |Init(events)| ensures !p(Init(events)[i]) { assert !p(events[i]); }
      }
    }
  }

  function ControlsOf(c: string): Event -> bool { (e: Event) => e.customerId == c && e.kind == Control }

  function NamesOf(c: string): Event -> bool { (e: Event) => e.customerId == c && e.customerName != "" }

  function TimesOf(c: string): Event -> bool { (e: Event) => e.customerId == c && e.at != "" }

  function ActionsOf(c: string): Event -> bool { (e: Event) => e.customerId == c && e.kind != Control && e.action != "" }

  function IntentsOf(c: string): Event -> bool { (e: Event) => e.customerId == c && e.kind != Control && e.intent != "" }

  function ConfidencesOf(c: string): Event -> bool { (e: Event) => e.customerId == c && e.kind != Control && e.confidence != None }

  /** `at` lists the places of the customer's messages in the log, in order. */
  ghost predicate ListsMessages(at: seq<nat>, events: seq<Event>, c: string) {
    && (forall j, k :: 0 <= j < k < |at| ==> at[j] < at[k])
    && (forall k :: 0 <= k < |at| ==> at[k] < |events|)
    && (forall i: nat :: i < |events| ==> (i in at <==> events[i].customerId == c && events[i].kind == Message))
  }

  predicate Shows(x: Shown, e: Event) {
    && x.id == e.id && x.direction == e.direction && x.text == e.text && x.at == e.at && x.action == e.action
    && x.intent == e.intent && x.confidence == e.confidence
  }

  ghost predicate ShowsAll(messages: seq<Shown>, at: seq<nat>, events: seq<Event>) {
    |messages| == |at| && forall k :: 0 <= k < |at| ==> at[k] < |events| && Shows(messages[k], events[at[k]])
  }

  /**
   * The thread of a customer: the mode last set, the last name, time, action, intent and
   * confidence given, and all messages in order.
   */
  ghost predicate Describes(t: Thread, events: seq<Event>, c: string) {
    && t.customerId == c
    && IsOfLatest(t.control, events, ControlsOf(c), (e: Event) => e.mode, "ai")
    && IsOfLatest(t.customerName, events, NamesOf(c), (e: Event) => e.customerName, c)
    && IsOfLatest(t.lastActivityAt, events, TimesOf(c), (e: Event) => e.at, "")
    && IsOfLatest(t.lastAction, events, ActionsOf(c), (e: Event) => e.action, "")
    && IsOfLatest(t.lastIntent, events, IntentsOf(c), (e: Event) => e.intent, "")
    && IsOfLatest(t.lastConfidence, events, ConfidencesOf(c), (e: Event) => e.confidence, None)
    && exists at: seq<nat> :: ListsMessages(at, events, c) && ShowsAll(t.messages, at, events)
  }

  lemma {:induction false} ControlIsLatest(events: seq<Event>, c: string)
    ensures IsOfLatest(ControlOf(events, c), events, ControlsOf(c), (e: Event) => e.mode, "ai")
  {
    if events != [] {
      ControlIsLatest(Init(events), c);
      OneMoreIsLatest(ControlOf(Init(events), c), events, ControlsOf(c), (e: Event) => e.mode, "ai");
    }
  }

  lemma {:induction false} NameIsLatest(events: seq<Event>, c: string)
    ensures IsOfLatest(NameOf(events, c), events, NamesOf(c), (e: Event) => e.customerName, c)
  {
    if events != [] {
      NameIsLatest(Init(events), c);
      OneMoreIsLatest(NameOf(Init(events), c), events, NamesOf(c), (e: Event) => e.customerName, c);
    }
  }

  lemma {:induction false} ActivityIsLatest(events: seq<Event>, c: string)
    ensures IsOfLatest(ActivityOf(events, c), events, TimesOf(c), (e: Event) => e.at, "")
  {
    if events != [] {
      ActivityIsLatest(Init(events), c);
      OneMoreIsLatest(ActivityOf(Init(events), c), events, TimesOf(c), (e: Event) => e.at, "");
    }
  }

  lemma {:induction false} ActionIsLatest(events: seq<Event>, c: string)
    ensures IsOfLatest(ActionOf(events, c), events, ActionsOf(c), (e: Event) => e.action, "")
  {
    if events != [] {
      ActionIsLatest(Init(events), c);
      OneMoreIsLatest(ActionOf(Init(events), c), events, ActionsOf(c), (e: Event) => e.action, "");
    }
  }

  lemma {:induction false} IntentIsLatest(events: seq<Event>, c: string)
    ensures IsOfLatest(IntentOf(events, c), events, IntentsOf(c), (e: Event) => e.intent, "")
  {
    if events != [] {
      IntentIsLatest(Init(events), c);
      OneMoreIsLatest(IntentOf(Init(events), c), events, IntentsOf(c), (e: Event) => e.intent, "");
    }
  }

  lemma {:induction false} ConfidenceIsLatest(events: seq<Event>, c: string)
    ensures IsOfLatest(ConfidenceOf(events, c), events, ConfidencesOf(c), (e: Event) => e.confidence, None)
  {
    if events != [] {
      ConfidenceIsLatest(Init(events), c);
      OneMoreIsLatest(ConfidenceOf(Init(events), c), events, ConfidencesOf(c), (e: Event) => e.confidence, None);
    }
  }

  lemma {:induction false} MessagesAreShown(events: seq<Event>, c: string) returns (at: seq<nat>)
    ensures ListsMessages(at, events, c) && ShowsAll(MessagesOf(events, c), at, events)
  {
    at := [];
    if events != [] {
      var before := MessagesAreShown(Init(events), c);
      var last := |events| - 1;
      at := before + if events[last].customerId == c && events[last].kind == Message then [last] else [];
      forall i: nat | i < |events| ensures i in at <==> events[i].customerId == c && events[i].kind == Message {
        if i < last { assert events[i] == Init(events)[i] && (i in at <==> i in before); }
      }
      forall k | 0 <= k < |before| ensures Shows(MessagesOf(events, c)[k], events[at[k]]) { assert Init(events)[at[k]] == events[at[k]]; }
    }
  }

  lemma ThreadDescribes(events: seq<Event>, c: string)
    ensures Describes(ThreadOf(events, c), events, c)
  {
    ControlIsLatest(events, c);
    NameIsLatest(events, c);
    ActivityIsLatest(events, c);
    ActionIsLatest(events, c);
    IntentIsLatest(events, c);
    ConfidenceIsLatest(events, c);
    var at := MessagesAreShown(events, c);
  }

  // ---------------------------------------------------------------- the listing

  function Threads(events: seq<Event>, customers: seq<string>): seq<Thread> {
    seq(|customers|, i requires 0 <= i < |customers| => ThreadOf(events, customers[i]))
  }

  /** Newest first. */
  function Newer(collate: string -> real): (Thread, Thread) -> bool {
    (a: Thread, b: Thread) => collate(a.lastActivityAt) > collate(b.lastActivityAt)
  }

  function RowOf(t: Thread): Row {
    Row(t, if t.messages == [] then "" else Last(t.messages).text, |t.messages|)
  }

  function Rows(ts: seq<Thread>, limit: nat): seq<Row> {
    seq(if limit < |ts| then limit else |ts|, i requires 0 <= i < |ts| => RowOf(ts[i]))
  }

  function Listing(events: seq<Event>, limit: nat, collate: string -> real): seq<Row> {
    Rows(Sort(Threads(events, Customers(events)), Newer(collate)), limit)
  }

  function Total(ts: seq<Thread>): nat {
    if ts == [] then 0 else |ts[0].messages| + Total(ts[1..])
  }

  function CountMessages(events: seq<Event>): nat {
    if events == [] then 0 else CountMessages(Init(events)) + if Last(events).kind == Message then 1 else 0
  }

  lemma {:induction false} InsertTotal(t: Thread, ts: seq<Thread>, before: (Thread, Thread) -> bool)
    ensures Total(Insert(t, ts, before)) == |t.messages| + Total(ts)
  {
    if ts != [] && before(ts[0], t) {
      InsertTotal(t, ts[1..], before);
      assert Insert(t, ts, before)[1..] == Insert(t, ts[1..], before);
    } else {
      assert ([t] + ts)[1..] == ts;
    }
  }

  lemma {:induction false} SortTotal(ts: seq<Thread>, before: (Thread, Thread) -> bool)
    ensures Total(Sort(ts, before)) == Total(ts)
  {
    if ts != [] {
      SortTotal(ts[1..], before);
      InsertTotal(ts[0], Sort(ts[1..], before), before);
    }
  }

  /** One more event adds its message to the one thread of its customer. */
  lemma {:induction false} OneMoreMessage(events: seq<Event>, e: Event, cs: seq<string>)
    requires forall i, j :: 0 <= i < j < |cs| ==> cs[i] != cs[j]
    ensures Total(Threads(events + [e], cs)) == Total(Threads(events, cs)) + if e.customerId in cs && e.kind == Message then 1 else 0
  {
    if cs != [] {
      OneMoreMessage(events, e, cs[1..]);
      assert Init(events + [e]) == events;
      assert Threads(events + [e], cs)[1..] == Threads(events + [e], cs[1..]) && Threads(events, cs)[1..] == Threads(events, cs[1..]);
      assert cs == [cs[0]] + cs[1..];
    }
  }

  lemma {:induction false} OneMoreThread(events: seq<Event>, cs: seq<string>, c: string)
    requires MessagesOf(events, c) == []
    ensures Total(Threads(events, cs + [c])) == Total(Threads(events, cs))
  {
    if cs == [] {
      assert Threads(events, cs + [c])[1..] == [];
    } else {
      OneMoreThread(events, cs[1..], c);
      assert (cs + [c])[1..] == cs[1..] + [c];
      assert Threads(events, cs + [c])[1..] == Threads(events, cs[1..] + [c]) && Threads(events, cs)[1..] == Threads(events, cs[1..]);
    }
  }

  lemma {:induction false} ThreadsHoldAllMessages(events: seq<Event>)
    ensures Total(Threads(events, Customers(events))) == CountMessages(events)
  {
    if events != [] {
      var before, e := Init(events), Last(events);
      assert events == before + [e];
      ThreadsHoldAllMessages(before);
      CustomersAre(before);
      CustomersAre(events);
      if e.customerId !in Customers(before) { OneMoreThread(before, Customers(before), e.customerId); }
      OneMoreMessage(before, e, Customers(events));
    }
  }

  /** All the threads, newest first. */
  function Inbox(events: seq<Event>, collate: string -> real): seq<Thread> {
    Sort(Threads(events, Customers(events)), Newer(collate))
  }

  /**
   * Every thread of the inbox describes its customer's events and is what the lookups say, each
   * customer with an event has exactly one, none is newer than one before it, and together they
   * hold every message.
   */
  lemma InboxIsPerCustomer(events: seq<Event>, collate: string -> real)
    ensures var ts := Inbox(events, collate);
      && (forall i :: 0 <= i < |ts| ==> ts[i] == ThreadOf(events, ts[i].customerId) && HasEvent(events, ts[i].customerId))
      && (forall i :: 0 <= i < |ts| ==> Describes(ts[i], events, ts[i].customerId))
      && (forall c :: HasEvent(events, c) ==> multiset(ts)[ThreadOf(events, c)] == 1)
      && (forall i, j :: 0 <= i < j < |ts| ==> collate(ts[i].lastActivityAt) >= collate(ts[j].lastActivityAt))
      && Total(ts) == CountMessages(events)
  {
    var cs := Customers(events);
    var ts, sorted := Threads(events, cs), Inbox(events, collate);
    CustomersAre(events);
    assert StrictWeakOrder(Newer(collate));
    SortSorts(ts, Newer(collate));
    SortTotal(ts, Newer(collate));
    ThreadsHoldAllMessages(events);
    forall i | 0 <= i < |sorted| ensures sorted[i] == ThreadOf(events, sorted[i].customerId) && HasEvent(events, sorted[i].customerId) {
      assert sorted[i] in multiset(ts);
      var k :| 0 <= k < |ts| && ts[k] == sorted[i];
      assert cs[k] in cs;
    }
    forall i | 0 <= i < |sorted| ensures Describes(sorted[i], events, sorted[i].customerId) { ThreadDescribes(events, sorted[i].customerId); }
    forall c | HasEvent(events, c) ensures multiset(ts)[ThreadOf(events, c)] == 1 {
      OneThreadEach(events, cs, c);
    }
    forall i, j | 0 <= i < j < |sorted| ensures collate(sorted[i].lastActivityAt) >= collate(sorted[j].lastActivityAt) {
      assert !Newer(collate)(sorted[j], sorted[i]);
    }
  }

  lemma {:induction false} OneThreadEach(events: seq<Event>, cs: seq<string>, c: string)
    requires forall i, j :: 0 <= i < j < |cs| ==> cs[i] != cs[j]
    ensures multiset(Threads(events, cs))[ThreadOf(events, c)] == if c in cs then 1 else 0
  {
    var ts := Threads(events, cs);
    if cs != [] {
      OneThreadEach(events, cs[1..], c);
      assert ts == [ts[0]] + Threads(events, cs[1..]);
      assert cs == [cs[0]] + cs[1..];
    }
  }

  /** A listing is the first rows of the inbox, counted and previewed. */
  lemma ListingIsAPrefix(events: seq<Event>, limit: nat, collate: string -> real)
    ensures var rows, ts := Listing(events, limit, collate), Inbox(events, collate);
      && |rows| == (if limit < |ts| then limit else |ts|)
      && forall i :: 0 <= i < |rows| ==>
           var messages := MessagesOf(events, ts[i].customerId);
           && rows[i].thread == ts[i] && rows[i].messageCount == |messages|
           && rows[i].preview == if messages == [] then "" else Last(messages).text
  {
    InboxIsPerCustomer(events, collate);
  }

  // ---------------------------------------------------------------- the files

  type Files = map<string, seq<Event>>

  function Read(files: Files, tenantId: string): seq<Event> {
    if TenantFiles.LegacyName(tenantId) in files then files[TenantFiles.LegacyName(tenantId)] else []
  }

  function Written(files: Files, e: Event): Files {
    files[TenantFiles.LegacyName(e.tenantId) := Read(files, e.tenantId) + [e]]
  }

  function AllWritten(events: seq<Event>): Files {
    if events == [] then map[] else Written(AllWritten(Init(events)), Last(events))
  }

  function OfTenant(events: seq<Event>, tenantId: string): seq<Event> {
    if events == [] then [] else OfTenant(Init(events), tenantId) + if Last(events).tenantId == tenantId then [Last(events)] else []
  }

  predicate SharesFile(t: string, u: string) {
    t != u && TenantFiles.LegacyName(t) == TenantFiles.LegacyName(u)
  }

  lemma {:induction false} ReadGrows(events: seq<Event>, t: string)
    ensures |Read(AllWritten(events), t)| >= |OfTenant(events, t)|
    ensures (exists i :: 0 <= i < |events| && SharesFile(events[i].tenantId, t)) ==> |Read(AllWritten(events), t)| > |OfTenant(events, t)|
    ensures (forall i :: 0 <= i < |events| ==> !SharesFile(events[i].tenantId, t)) ==> Read(AllWritten(events), t) == OfTenant(events, t)
  {
    if events != [] {
      ReadGrows(Init(events), t);
      var e := Last(events);
      assert Read(AllWritten(events), t) == Read(AllWritten(Init(events)), t) +
        if TenantFiles.LegacyName(e.tenantId) == TenantFiles.LegacyName(t) then [e] else [];
      if (forall i :: 0 <= i < |events| ==> !SharesFile(events[i].tenantId, t)) {
        assert !SharesFile(events[|events| - 1].tenantId, t);
        forall i | 0 <= i < |Init(events)| ensures !SharesFile(Init(events)[i].tenantId, t) { assert Init(events)[i] == events[i]; }
      } else {
        var k :| 0 <= k < |events| && SharesFile(events[k].tenantId, t);
        if k < |events| - 1 { assert Init(events)[k] == events[k]; }
      }
    }
  }

  /**
   * A tenant reads back exactly its own events, in order, if and only if no other tenant whose id
   * is sanitised to the same file name has written.
   */
  lemma ReadsOwnEventsIff(events: seq<Event>, t: string)
    ensures Read(AllWritten(events), t) == OfTenant(events, t) <==>
      forall i :: 0 <= i < |events| ==> !SharesFile(events[i].tenantId, t)
  {
    ReadGrows(events, t);
  }

  /** Two tenants that read each other's conversations. */
  lemma CollidingTenantsShareALog(e: Event)
    requires e.tenantId == "a b"
    ensures Read(AllWritten([e]), "a_b") == [e] && OfTenant([e], "a_b") == []
  {
    assert TenantFiles.LegacyName("b") == "b" && TenantFiles.LegacyName(" b") == "_b" && TenantFiles.LegacyName("_b") == "_b";
    assert TenantFiles.LegacyName("a b") == "a_b" == TenantFiles.LegacyName("a_b") by {
      assert "a b"[1..] == " b" && "a_b"[1..] == "_b" && " b"[1..] == "b" && "_b"[1..] == "b" && "b"[1..] == "";
    }
    assert Init([e]) == [];
  }

  // ---------------------------------------------------------------- an operator's messages

  function FindOperator(events: seq<Event>, id: string): Option<Event> {
    if events == [] then None
    else if events[0].id == id && events[0].direction == "operator" then Some(events[0])
    else FindOperator(events[1..], id)
  }

  datatype Error = TenantRequired | CustomerRequired

  datatype Outcome = Outcome(files: Files, result: Result<Event, Error>)

  function Appended(files: Files, e: Event): Outcome {
    if e.tenantId == "" then Outcome(files, Failure(TenantRequired))
    else if e.customerId == "" then Outcome(files, Failure(CustomerRequired))
    else Outcome(Written(files, e), Success(e))
  }

  /** `freshId` names a message that comes without an id. */
  function OperatorMessage(m: Event, freshId: string): Event {
    m.(kind := Message, direction := "operator", action := "human", intent := "", confidence := None,
       id := if m.id != "" then m.id else freshId)
  }

  function ManualOutbound(files: Files, m: Event, freshId: string): Outcome {
    if m.id != "" && FindOperator(Read(files, m.tenantId), m.id).Some? then
      Outcome(files, Success(FindOperator(Read(files, m.tenantId), m.id).value))
    else Appended(files, OperatorMessage(m, freshId))
  }

  function AppendAll(files: Files, events: seq<Event>): Files
    decreases events
  {
    if events == [] then files else AppendAll(Written(files, events[0]), events[1..])
  }

  lemma {:induction false} FoundStays(events: seq<Event>, more: seq<Event>, id: string)
    requires FindOperator(events, id).Some?
    ensures FindOperator(events + more, id) == FindOperator(events, id)
  {
    if !(events[0].id == id && events[0].direction == "operator") {
      FoundStays(events[1..], more, id);
      assert (events + more)[1..] == events[1..] + more;
    }
  }

  lemma {:induction false} FoundAtTheEnd(events: seq<Event>, e: Event)
    requires e.direction == "operator" && FindOperator(events, e.id).None?
    ensures FindOperator(events + [e], e.id) == Some(e)
  {
    if events == [] {
      assert events + [e] == [e];
    } else {
      FoundAtTheEnd(events[1..], e);
      assert (events + [e])[1..] == events[1..] + [e];
    }
  }

  /** The operator's message is in the log already. */
  predicate IsKnown(e: Event, id: string) {
    e.id == id && e.direction == "operator"
  }

  lemma {:induction false} FindOperatorFinds(events: seq<Event>, id: string)
    ensures match FindOperator(events, id)
            case Some(e) => exists i :: 0 <= i < |events| && events[i] == e && IsKnown(e, id) && forall j :: 0 <= j < i ==> !IsKnown(events[j], id)
            case None => forall i :: 0 <= i < |events| ==> !IsKnown(events[i], id)
  {
    if events != [] && !IsKnown(events[0], id) {
      var rest := events[1..];
      FindOperatorFinds(rest, id);
      if FindOperator(rest, id).Some? {
        var i :| 0 <= i < |rest| && rest[i] == FindOperator(rest, id).value && IsKnown(rest[i], id)
          && forall j :: 0 <= j < i ==> !IsKnown(rest[j], id);
        assert events[i + 1] == rest[i];
        forall j | 0 <= j < i + 1 ensures !IsKnown(events[j], id) { if j > 0 { assert events[j] == rest[j - 1]; } }
      } else {
        forall i | 0 <= i < |events| ensures !IsKnown(events[i], id) { if i > 0 { assert events[i] == rest[i - 1]; } }
      }
    }
  }

  /**
   * An operator's message with a known id is answered with the first one of that id; any other one
   * that names a tenant and a customer is added to the tenant's log as an operator's message of a
   * human, with its own data and no model's intent or confidence.
   */
  lemma ManualOutboundIsRecorded(files: Files, m: Event, freshId: string)
    ensures var out, log := ManualOutbound(files, m, freshId), Read(files, m.tenantId);
      if m.id != "" && exists i :: 0 <= i < |log| && IsKnown(log[i], m.id) then
        && out.files == files && out.result.Success?
        && exists i :: 0 <= i < |log| && log[i] == out.result.value && IsKnown(log[i], m.id) && forall j :: 0 <= j < i ==> !IsKnown(log[j], m.id)
      else if m.tenantId == "" || m.customerId == "" then
        out == Outcome(files, Failure(if m.tenantId == "" then TenantRequired else CustomerRequired))
      else
        var recorded := Event(m.tenantId, m.customerId, m.customerName, if m.id == "" then freshId else m.id, Message, "operator",
                              m.text, m.at, m.mode, "human", "", None);
        && out.result == Success(recorded) && Read(out.files, m.tenantId) == log + [recorded]
        && forall t :: TenantFiles.LegacyName(t) != TenantFiles.LegacyName(m.tenantId) ==> Read(out.files, t) == Read(files, t)
  {
    FindOperatorFinds(Read(files, m.tenantId), m.id);
  }

  /** The events of the list that go to the tenant's file. */
  function ToFileOf(events: seq<Event>, t: string): seq<Event> {
    if events == [] then []
    else (if TenantFiles.LegacyName(events[0].tenantId) == TenantFiles.LegacyName(t) then [events[0]] else []) + ToFileOf(events[1..], t)
  }

  lemma {:induction false} ReadsAppended(files: Files, events: seq<Event>, t: string)
    ensures Read(AppendAll(files, events), t) == Read(files, t) + ToFileOf(events, t)
    decreases events
  {
    if events != [] { ReadsAppended(Written(files, events[0]), events[1..], t); }
  }

  lemma {:induction false} ToFileIsFrom(events: seq<Event>, t: string, e: Event)
    requires e in ToFileOf(events, t)
    ensures e in events && TenantFiles.LegacyName(e.tenantId) == TenantFiles.LegacyName(t)
  {
    if !(TenantFiles.LegacyName(events[0].tenantId) == TenantFiles.LegacyName(t) && e == events[0]) { ToFileIsFrom(events[1..], t, e); }
  }

  /** The mode that was set for a customer stands through any writes until the next one for it in the same file. */
  lemma ModeStands(files: Files, e: Event, others: seq<Event>)
    requires e.kind == Control
    requires forall i :: 0 <= i < |others| && TenantFiles.LegacyName(others[i].tenantId) == TenantFiles.LegacyName(e.tenantId) ==>
      others[i].customerId != e.customerId || others[i].kind != Control
    ensures ControlOf(Read(AppendAll(Written(files, e), others), e.tenantId), e.customerId) == e.mode
  {
    var before, more := Read(files, e.tenantId), ToFileOf(others, e.tenantId);
    ReadsAppended(Written(files, e), others, e.tenantId);
    var log := before + [e] + more;
    ControlIsLatest(log, e.customerId);
    forall j | |before| < j < |log| ensures !ControlsOf(e.customerId)(log[j]) {
      assert log[j] in more;
      ToFileIsFrom(others, e.tenantId, log[j]);
    }
    assert IsLatest(log, |before|, ControlsOf(e.customerId));
  }

  lemma {:induction false} ReadsExtend(files: Files, events: seq<Event>, t: string)
    ensures Read(files, t) <= Read(AppendAll(files, events), t)
    decreases events
  {
    if events != [] { ReadsExtend(Written(files, events[0]), events[1..], t); }
  }

  /**
   * An operator's message observed again, after any other writes by any tenants, adds nothing and
   * gives the event first recorded, whatever the second observation says.
   */
  lemma ManualRetriesAddNothing(files: Files, m: Event, freshId: string, others: seq<Event>, again: Event, freshId': string)
    requires m.id != "" && again.id == m.id && again.tenantId == m.tenantId && ManualOutbound(files, m, freshId).result.Success?
    ensures var first := ManualOutbound(files, m, freshId); var later := AppendAll(first.files, others);
      ManualOutbound(later, again, freshId') == Outcome(later, first.result)
  {
    var first := ManualOutbound(files, m, freshId);
    var later := AppendAll(first.files, others);
    var before, after, seen := Read(files, m.tenantId), Read(first.files, m.tenantId), Read(later, m.tenantId);
    if FindOperator(before, m.id).None? { FoundAtTheEnd(before, first.result.value); }
    ReadsExtend(first.files, others, m.tenantId);
    assert seen == after + seen[|after|..];
    FoundStays(after, seen[|after|..], m.id);
  }

  // ---------------------------------------------------------------- the single pass

  function Open(e: Event): Thread {
    Thread(e.customerId, if e.customerName != "" then e.customerName else e.customerId, "ai", e.at, "", "", None, [])
  }

  /** What the loop's body does to a thread that is open. */
  function Noted(t: Thread, e: Event): Thread {
    var t1 := t.(customerName := if e.customerName != "" then e.customerName else t.customerName,
                 lastActivityAt := if e.at != "" then e.at else t.lastActivityAt);
    if e.kind == Control then t1.(control := e.mode)
    else
      var t2 := t1.(lastAction := if e.action != "" then e.action else t1.lastAction,
                    lastIntent := if e.intent != "" then e.intent else t1.lastIntent,
                    lastConfidence := if e.confidence.Some? then e.confidence else t1.lastConfidence);
      if e.kind == Decision then t2 else t2.(messages := t2.messages + [Show(e)])
  }

  /** The open threads are the lookups of the customers met so far. */
  ghost predicate Follows(threads: map<string, Thread>, order: seq<string>, events: seq<Event>) {
    && order == Customers(events)
    && (forall c :: c in threads <==> c in order)
    && (forall c :: c in threads ==> threads[c] == ThreadOf(events, c))
  }

  lemma NotedIsTheLookup(events: seq<Event>, e: Event)
    ensures ThreadOf(events + [e], e.customerId) ==
            Noted(if e.customerId in Customers(events) then ThreadOf(events, e.customerId) else Open(e), e)
    ensures forall c :: c != e.customerId ==> ThreadOf(events + [e], c) == ThreadOf(events, c)
  {
    CustomersAre(events);
    assert Init(events + [e]) == events;
  }

  lemma PassFollows(threads: map<string, Thread>, order: seq<string>, events: seq<Event>, e: Event)
    requires Follows(threads, order, events)
    ensures var t := if e.customerId in threads then threads[e.customerId] else Open(e);
            Follows(threads[e.customerId := Noted(t, e)], if e.customerId in threads then order else order + [e.customerId], events + [e])
  {
    NotedIsTheLookup(events, e);
    assert Init(events + [e]) == events;
  }

  // ---------------------------------------------------------------- the store

  class FileConversationStore {
    var files: Files

    constructor ()
      ensures files == map[]
    {
      files := map[];
    }

    method AppendEvent(e: Event) returns (r: Result<Event, Error>)
      modifies this
      ensures Outcome(files, r) == Appended(old(files), e)
    {
      if e.tenantId == "" { return Failure(TenantRequired); }
      if e.customerId == "" { return Failure(CustomerRequired); }
      files := Written(files, e);
      r := Success(e);
    }

    method RecordManualOutbound(m: Event, freshId: string) returns (r: Result<Event, Error>)
      modifies this
      ensures Outcome(files, r) == ManualOutbound(old(files), m, freshId)
    {
      if m.id != "" {
        var existing := FindOperator(Read(files, m.tenantId), m.id);
        if existing.Some? { return Success(existing.value); }
      }
      r := AppendEvent(OperatorMessage(m, freshId));
    }

    method GetControl(tenantId: string, customerId: string) returns (mode: string)
      ensures mode == ControlOf(Read(files, tenantId), customerId)
      ensures IsOfLatest(mode, Read(files, tenantId), ControlsOf(customerId), (e: Event) => e.mode, "ai")
    {
      mode := "ai";
      var events := Read(files, tenantId);
      for i := 0 to |events|
        invariant mode == ControlOf(events[..i], customerId)
      {
        assert Init(events[..i + 1]) == events[..i];
        if events[i].customerId == customerId && events[i].kind == Control { mode := events[i].mode; }
      }
      assert events[..|events|] == events;
      ControlIsLatest(events, customerId);
    }

    /** One pass over the log: a map of threads, remembering the order in which they were opened. */
    method List(tenantId: string, limit: nat, collate: string -> real) returns (rows: seq<Row>)
      ensures rows == Listing(Read(files, tenantId), limit, collate)
    {
      var events := Read(files, tenantId);
      var threads: map<string, Thread> := map[];
      var order: seq<string> := [];
      assert Follows(threads, order, events[..0]);
      for i := 0 to |events|
        invariant Follows(threads, order, events[..i])
      {
        var e := events[i];
        assert events[..i + 1] == events[..i] + [e];
        PassFollows(threads, order, events[..i], e);
        if e.customerId !in threads {
          threads := threads[e.customerId := Open(e)];
          order := order + [e.customerId];
        }
        threads := threads[e.customerId := Noted(threads[e.customerId], e)];
      }
      assert events[..|events|] == events;
      var values := seq(|order|, i requires 0 <= i < |order| => threads[order[i]]);
      assert values == Threads(events, order);
      rows := Rows(Sort(values, Newer(collate)), limit);
    }
  }
}
