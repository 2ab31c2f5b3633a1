/** The tenant store: three maps kept by creates, updates and deletes that may be rejected half-way. */
module TenantStore {
  import opened Wrappers
  import opened Sequences
  import opened Text

  /** An empty string stands for a missing value wherever the source tests for truth. */
  datatype Number = Number(id: string, mode: string, phoneNumberId: string, sessionId: string)

  /** `profile` stands for every field that no index looks at. */
  datatype Tenant = Tenant(id: string, phoneNumberId: string, mode: Option<string>, sessionId: string,
                           numbers: Option<seq<Number>>, profile: string)

  datatype Patch = Patch(phoneNumberId: Option<string>, mode: Option<string>, sessionId: Option<string>,
                         numbers: Option<seq<Number>>, profile: Option<string>)

  datatype Error = IdRequired | IdExists | NotFound | InvalidMode | SessionIdRequired | PhoneNumberIdRequired
                 | NumberIdExists | NumberNotFound | DuplicatePhone(id: string) | DuplicateSession(id: string)

  // ---------------------------------------------------------------- the ids of a tenant

  /** As far as it matters when comparing with ASCII words: the Kelvin sign lowers to `k`. */
  function LowerChar(c: char): char {
    if 'A' <= c <= 'Z' then c + (32 as char) else if c == '\U{212A}' then 'k' else c
  }

  function Lower(s: string): string {
    if s == "" then "" else [LowerChar(s[0])] + Lower(s[1..])
  }

  function TransportMode(t: Tenant): string {
    if t.mode.None? then "cloud" else Lower(t.mode.value)
  }

  datatype Kind = Phone | Session

  function IdOf(n: Number, kind: Kind): string {
    match kind
    case Phone => if n.mode == "cloud" then n.phoneNumberId else ""
    case Session => if n.mode == "linked-device" then n.sessionId else ""
  }

  function IdsOfNumbers(ns: seq<Number>, kind: Kind): seq<string> {
    if ns == [] then [] else (if IdOf(ns[0], kind) != "" then [IdOf(ns[0], kind)] else []) + IdsOfNumbers(ns[1..], kind)
  }

  function Ids(t: Tenant, kind: Kind): seq<string> {
    if t.numbers.Some? then IdsOfNumbers(t.numbers.value, kind)
    else match kind
      case Phone => if t.phoneNumberId != "" then [t.phoneNumberId] else []
      case Session => if TransportMode(t) == "linked-device" && t.sessionId != "" then [t.sessionId] else []
  }

  /**
   * A tenant with a list of numbers is reached by the phone number ids of its `cloud` numbers and
   * the session ids of its `linked-device` ones; one without by its flat phone number id, and by
   * its flat session id under the `linked-device` transport.
   */
  lemma IdsAre(t: Tenant, p: string)
    ensures p in Ids(t, Phone) <==>
      p != "" && if t.numbers.None? then p == t.phoneNumberId
                 else exists n :: n in t.numbers.value && n.mode == "cloud" && n.phoneNumberId == p
    ensures p in Ids(t, Session) <==>
      p != "" && if t.numbers.None? then p == t.sessionId && t.mode.Some? && Lower(t.mode.value) == "linked-device"
                 else exists n :: n in t.numbers.value && n.mode == "linked-device" && n.sessionId == p
  {
    if t.numbers.Some? {
      IdsOfNumbersAre(t.numbers.value, Phone, p);
      IdsOfNumbersAre(t.numbers.value, Session, p);
    }
  }

  lemma {:induction false} IdsOfNumbersAre(ns: seq<Number>, kind: Kind, p: string)
    ensures p in IdsOfNumbers(ns, kind) <==> p != "" && exists n :: n in ns && IdOf(n, kind) == p
  {
    if ns != [] {
      IdsOfNumbersAre(ns[1..], kind, p);
      assert ns == [ns[0]] + ns[1..];
    }
  }

  lemma {:induction false} LowerIs(s: string)
    ensures |Lower(s)| == |s|
    ensures forall i :: 0 <= i < |s| ==>
      Lower(s)[i] == if 'A' <= s[i] <= 'Z' then 'a' + (s[i] - 'A') else if s[i] == '\U{212A}' then 'k' else s[i]
  {
    if s != "" { LowerIs(s[1..]); }
  }

  // ---------------------------------------------------------------- the maps

  type Index = map<string, Tenant>

  datatype State = State(byId: Index, byPhone: Index, bySession: Index)

  datatype Outcome = Outcome(state: State, result: Result<Tenant, Error>)

  datatype Claims = Claims(index: Index, conflict: Option<string>)

  function Without(index: Index, ids: seq<string>): Index {
    map id | id in index && id !in ids :: index[id]
  }

  function Deindexed(s: State, id: string): State {
    if id !in s.byId then s
    else State(s.byId - {id}, Without(s.byPhone, Ids(s.byId[id], Phone)), Without(s.bySession, Ids(s.byId[id], Session)))
  }

  /** Enter `t` under each id in turn, up to the first that another tenant holds. */
  function Claim(index: Index, ids: seq<string>, t: Tenant): Claims
    decreases ids
  {
    if ids == [] then Claims(index, None)
    else if ids[0] in index && index[ids[0]].id != t.id then Claims(index, Some(ids[0]))
    else Claim(index[ids[0] := t], ids[1..], t)
  }

  /** Nothing is undone when an id is taken. */
  function Indexed(s: State, t: Tenant): Outcome {
    if t.id == "" then Outcome(s, Failure(IdRequired)) else
    var s0 := Deindexed(s, t.id);
    var phones := Claim(s0.byPhone, Ids(t, Phone), t);
    if phones.conflict.Some? then Outcome(s0.(byPhone := phones.index), Failure(DuplicatePhone(phones.conflict.value))) else
    var sessions := Claim(s0.bySession, Ids(t, Session), t);
    if sessions.conflict.Some? then
      Outcome(State(s0.byId, phones.index, sessions.index), Failure(DuplicateSession(sessions.conflict.value)))
    else Outcome(State(s0.byId[t.id := t], phones.index, sessions.index), Success(t))
  }

  // ---------------------------------------------------------------- the writes

  datatype Write =
    | Upsert(tenant: Tenant)
    | Create(tenant: Tenant, givenId: Option<string>, slug: string)
    | Update(id: string, patch: Patch)
    | Delete(id: string)
    | AddNumber(id: string, number: Number, givenMode: Option<string>, givenNumberId: Option<string>, freshId: string)
    | RemoveNumber(id: string, numberId: string)

  function Or<T>(o: Option<T>, fallback: T): T {
    if o.Some? then o.value else fallback
  }

  function Merged(t: Tenant, p: Patch): Tenant {
    Tenant(t.id, Or(p.phoneNumberId, t.phoneNumberId), if p.mode.Some? then p.mode else t.mode, Or(p.sessionId, t.sessionId),
           if p.numbers.Some? then p.numbers else t.numbers, Or(p.profile, t.profile))
  }

  function NumbersPatch(ns: seq<Number>): Patch { Patch(None, None, None, Some(ns), None) }

  function Updated(s: State, id: string, p: Patch): Outcome {
    if id !in s.byId then Outcome(s, Failure(NotFound)) else Indexed(s, Merged(s.byId[id], p))
  }

  /** The numbers a tenant has, its flat fields turned into one when it has none. */
  function NumbersOf(t: Tenant): seq<Number> {
    if Or(t.numbers, []) != [] then t.numbers.value
    else if TransportMode(t) == "linked-device" && t.sessionId != "" then [Number("primary", "linked-device", "", t.sessionId)]
    else if TransportMode(t) == "cloud" && t.phoneNumberId != "" then [Number("primary", "cloud", t.phoneNumberId, "")]
    else []
  }

  predicate HasNumber(ns: seq<Number>, id: string) {
    exists i :: 0 <= i < |ns| && ns[i].id == id
  }

  function DropNumber(ns: seq<Number>, id: string): seq<Number> {
    if ns == [] then [] else (if ns[0].id != id then [ns[0]] else []) + DropNumber(ns[1..], id)
  }

  function NumberAdded(s: State, w: Write): Outcome
    requires w.AddNumber?
  {
    if w.id !in s.byId then Outcome(s, Failure(NotFound)) else
    var mode := Or(w.givenMode, "linked-device");
    var numbers := NumbersOf(s.byId[w.id]);
    var numberId := Trim(Or(w.givenNumberId, w.freshId));
    if mode != "cloud" && mode != "linked-device" then Outcome(s, Failure(InvalidMode))
    else if mode == "linked-device" && w.number.sessionId == "" then Outcome(s, Failure(SessionIdRequired))
    else if mode == "cloud" && w.number.phoneNumberId == "" then Outcome(s, Failure(PhoneNumberIdRequired))
    else if HasNumber(numbers, numberId) then Outcome(s, Failure(NumberIdExists))
    else Updated(s, w.id, NumbersPatch(numbers + [w.number.(id := numberId, mode := mode)]))
  }

  function Step(s: State, w: Write): Outcome {
    match w
    case Upsert(t) => Indexed(s, t)
    case Create(t, givenId, slug) =>
      var id := Trim(Or(givenId, slug));
      if id == "" then Outcome(s, Failure(IdRequired))
      else if id in s.byId then Outcome(s, Failure(IdExists))
      else Indexed(s, t.(id := id))
    case Update(id, p) => Updated(s, id, p)
    case Delete(id) => if id !in s.byId then Outcome(s, Failure(NotFound)) else Outcome(Deindexed(s, id), Success(s.byId[id]))
    case AddNumber(_, _, _, _, _) => NumberAdded(s, w)
    case RemoveNumber(id, numberId) =>
      if id !in s.byId then Outcome(s, Failure(NotFound))
      else if !HasNumber(Or(s.byId[id].numbers, []), numberId) then Outcome(s, Failure(NumberNotFound))
      else Updated(s, id, NumbersPatch(DropNumber(s.byId[id].numbers.value, numberId)))
  }

  function Run(s: State, ws: seq<Write>): State
    decreases ws
  {
    if ws == [] then s else Run(Step(s, ws[0]).state, ws[1..])
  }

  predicate AllAccepted(s: State, ws: seq<Write>)
    decreases ws
  {
    ws == [] || (Step(s, ws[0]).result.Success? && AllAccepted(Step(s, ws[0]).state, ws[1..]))
  }

  const EMPTY := State(map[], map[], map[])

  // ---------------------------------------------------------------- what every write keeps

  ghost predicate Registered(byId: Index) {
    forall id :: id in byId ==> byId[id].id == id && id != ""
  }

  predicate Lists(t: Tenant, kind: Kind, p: string) {
    p in Ids(t, kind)
  }

  /** Each registered tenant is found by each of its ids. */
  ghost predicate FindsAll(byId: Index, index: Index, kind: Kind) {
    forall id, p :: id in byId && Lists(byId[id], kind, p) ==> p in index && index[p] == byId[id]
  }

  /** Any hit lists the id looked up. */
  ghost predicate HitsList(index: Index, kind: Kind) {
    forall p :: p in index ==> Lists(index[p], kind, p)
  }

  ghost predicate Finds(byId: Index, index: Index, kind: Kind) {
    FindsAll(byId, index, kind) && HitsList(index, kind)
  }

  /** Every hit is a registered tenant. */
  ghost predicate OnlyRegistered(byId: Index, index: Index) {
    forall p :: p in index ==> index[p].id in byId && byId[index[p].id] == index[p]
  }

  ghost predicate Inv(s: State) {
    Registered(s.byId) && Finds(s.byId, s.byPhone, Phone) && Finds(s.byId, s.bySession, Session)
  }

  ghost predicate Exact(s: State) {
    OnlyRegistered(s.byId, s.byPhone) && OnlyRegistered(s.byId, s.bySession)
  }

  /** The ids before the conflict, if any, are entered; nothing else changes. */
  lemma {:induction false} ClaimIs(index: Index, ids: seq<string>, t: Tenant) returns (n: nat)
    ensures n <= |ids| && (Claim(index, ids, t).conflict.Some? <==> n < |ids|)
    ensures forall i :: 0 <= i < n ==> ids[i] !in index || index[ids[i]].id == t.id
    ensures n < |ids| ==> ids[n] in index && index[ids[n]].id != t.id && Claim(index, ids, t).conflict == Some(ids[n])
    ensures forall p :: p in Claim(index, ids, t).index <==> p in index || p in ids[..n]
    ensures forall p :: p in Claim(index, ids, t).index ==> Claim(index, ids, t).index[p] == if p in ids[..n] then t else index[p]
    decreases ids
  {
    if ids == [] || (ids[0] in index && index[ids[0]].id != t.id) {
      n := 0;
    } else {
      var rest := ids[1..];
      var k := ClaimIs(index[ids[0] := t], rest, t);
      n := k + 1;
      assert ids[..n] == [ids[0]] + rest[..k];
      forall i | 0 <= i < n ensures ids[i] !in index || index[ids[i]].id == t.id { if i > 0 { assert ids[i] == rest[i - 1]; } }
    }
  }

  lemma ClaimLeaves(index: Index, ids: seq<string>, t: Tenant, p: string)
    requires p in index && index[p].id != t.id
    ensures p in Claim(index, ids, t).index && Claim(index, ids, t).index[p] == index[p]
  {
    var n := ClaimIs(index, ids, t);
  }

  lemma ClaimTakes(index: Index, ids: seq<string>, t: Tenant, p: string)
    requires p in ids && Claim(index, ids, t).conflict.None?
    ensures p in Claim(index, ids, t).index && Claim(index, ids, t).index[p] == t
  {
    var n := ClaimIs(index, ids, t);
    assert ids[..n] == ids;
  }

  lemma ClaimFinds(byId: Index, index: Index, kind: Kind, t: Tenant)
    requires Registered(byId) && FindsAll(byId, index, kind) && t.id !in byId
    ensures var c := Claim(index, Ids(t, kind), t);
      FindsAll(byId, c.index, kind) && (c.conflict.None? ==> FindsAll(byId[t.id := t], c.index, kind))
  {
    var ids := Ids(t, kind);
    var c := Claim(index, ids, t);
    forall id, p | id in byId && Lists(byId[id], kind, p) ensures p in c.index && c.index[p] == byId[id] {
      ClaimLeaves(index, ids, t, p);
    }
    if c.conflict.None? {
      forall p | p in ids ensures p in c.index && c.index[p] == t { ClaimTakes(index, ids, t, p); }
    }
  }

  lemma ClaimLists(index: Index, kind: Kind, t: Tenant)
    requires HitsList(index, kind)
    ensures HitsList(Claim(index, Ids(t, kind), t).index, kind)
  {
    var ids := Ids(t, kind);
    var n := ClaimIs(index, ids, t);
    var c := Claim(index, ids, t);
    forall p | p in c.index ensures Lists(c.index[p], kind, p) {
      if p in ids[..n] { assert p in ids; }
    }
  }

  lemma ClaimKeeps(byId: Index, index: Index, kind: Kind, t: Tenant)
    requires Registered(byId) && Finds(byId, index, kind) && t.id !in byId
    ensures var c := Claim(index, Ids(t, kind), t);
      Finds(byId, c.index, kind) && (c.conflict.None? ==> Finds(byId[t.id := t], c.index, kind))
  {
    ClaimFinds(byId, index, kind, t);
    ClaimLists(index, kind, t);
  }

  lemma DeindexKeeps(s: State, id: string)
    requires Inv(s)
    ensures Inv(Deindexed(s, id)) && id !in Deindexed(s, id).byId && (Exact(s) ==> Exact(Deindexed(s, id)))
  {
    if id in s.byId {
      WithoutKeeps(s.byId, s.byPhone, Phone, id);
      WithoutKeeps(s.byId, s.bySession, Session, id);
    }
  }

  lemma WithoutOneMore(index: Index, ids: seq<string>, n: nat)
    requires n < |ids|
    ensures Without(index, ids[..n + 1]) == Without(index, ids[..n]) - {ids[n]}
  {
    assert ids[..n + 1] == ids[..n] + [ids[n]];
  }

  lemma NotListedTwice(byId: Index, index: Index, kind: Kind, id: string, other: string, p: string)
    requires Registered(byId) && FindsAll(byId, index, kind) && id in byId && other in byId && other != id
    requires Lists(byId[other], kind, p)
    ensures var left := Without(index, Ids(byId[id], kind)); p in left && left[p] == byId[other]
  {
    assert index[p] == byId[other] && byId[id].id == id && byId[other].id == other;
    assert !Lists(byId[id], kind, p);
  }

  lemma FindsTheRest(byId: Index, left: Index, kind: Kind, id: string)
    requires forall other, p :: other in byId && other != id && Lists(byId[other], kind, p) ==> p in left && left[p] == byId[other]
    ensures FindsAll(byId - {id}, left, kind)
  {
  }

  lemma WithoutFinds(byId: Index, index: Index, kind: Kind, id: string)
    requires Registered(byId) && FindsAll(byId, index, kind) && id in byId
    ensures FindsAll(byId - {id}, Without(index, Ids(byId[id], kind)), kind)
  {
    var left := Without(index, Ids(byId[id], kind));
    forall other, p | other in byId && other != id && Lists(byId[other], kind, p) ensures p in left && left[p] == byId[other] {
      NotListedTwice(byId, index, kind, id, other, p);
    }
    FindsTheRest(byId, left, kind, id);
  }

  lemma WithoutKeeps(byId: Index, index: Index, kind: Kind, id: string)
    requires Registered(byId) && Finds(byId, index, kind) && id in byId
    ensures Finds(byId - {id}, Without(index, Ids(byId[id], kind)), kind)
    ensures OnlyRegistered(byId, index) ==> OnlyRegistered(byId - {id}, Without(index, Ids(byId[id], kind)))
  {
    WithoutFinds(byId, index, kind, id);
    if OnlyRegistered(byId, index) { WithoutStaysExact(byId, index, kind, id); }
  }

  lemma WithoutStaysExact(byId: Index, index: Index, kind: Kind, id: string)
    requires Registered(byId) && HitsList(index, kind) && id in byId && OnlyRegistered(byId, index)
    ensures OnlyRegistered(byId - {id}, Without(index, Ids(byId[id], kind)))
  {
    forall p | p in Without(index, Ids(byId[id], kind)) ensures index[p].id != id { assert Lists(index[p], kind, p); }
  }

  /** Also when the write is rejected. */
  lemma IndexKeeps(s: State, t: Tenant)
    requires Inv(s)
    ensures Inv(Indexed(s, t).state)
    ensures Exact(s) && Indexed(s, t).result.Success? ==> Exact(Indexed(s, t).state)
  {
    if t.id != "" {
      DeindexKeeps(s, t.id);
      var s0 := Deindexed(s, t.id);
      ClaimKeeps(s0.byId, s0.byPhone, Phone, t);
      ClaimKeeps(s0.byId, s0.bySession, Session, t);
      if Exact(s) && Indexed(s, t).result.Success? {
        ClaimStaysExact(s0.byId, s0.byPhone, Phone, t);
        ClaimStaysExact(s0.byId, s0.bySession, Session, t);
      }
    }
  }

  lemma ClaimStaysExact(byId: Index, index: Index, kind: Kind, t: Tenant)
    requires OnlyRegistered(byId, index) && t.id !in byId
    ensures OnlyRegistered(byId[t.id := t], Claim(index, Ids(t, kind), t).index)
  {
    var n := ClaimIs(index, Ids(t, kind), t);
  }

  /** What `o` leaves after a write to `s`: the invariant, and exactness if it was accepted. */
  ghost predicate Kept(s: State, o: Outcome) {
    (Inv(s) ==> Inv(o.state)) && (Inv(s) && Exact(s) && o.result.Success? ==> Exact(o.state))
  }

  lemma IndexedKept(s: State, t: Tenant)
    ensures Kept(s, Indexed(s, t))
  {
    if Inv(s) { IndexKeeps(s, t); }
  }

  lemma UpdatedKept(s: State, id: string, p: Patch)
    ensures Kept(s, Updated(s, id, p))
  {
    if id in s.byId { IndexedKept(s, Merged(s.byId[id], p)); }
  }

  lemma NumberAddedKept(s: State, w: Write)
    requires w.AddNumber?
    ensures Kept(s, NumberAdded(s, w))
  {
    if w.id in s.byId {
      var number := w.number.(id := Trim(Or(w.givenNumberId, w.freshId)), mode := Or(w.givenMode, "linked-device"));
      UpdatedKept(s, w.id, NumbersPatch(NumbersOf(s.byId[w.id]) + [number]));
    }
  }

  lemma DeletedKept(s: State, id: string)
    ensures Kept(s, Step(s, Delete(id)))
  {
    if Inv(s) { DeindexKeeps(s, id); }
  }

  lemma StepKept(s: State, w: Write)
    ensures Kept(s, Step(s, w))
  {
    match w
    case Upsert(t) => IndexedKept(s, t);
    case Create(t, givenId, slug) => IndexedKept(s, t.(id := Trim(Or(givenId, slug))));
    case Update(id, p) => UpdatedKept(s, id, p);
    case Delete(id) => DeletedKept(s, id);
    case AddNumber(_, _, _, _, _) => NumberAddedKept(s, w);
    case RemoveNumber(id, numberId) =>
      if id in s.byId && s.byId[id].numbers.Some? { UpdatedKept(s, id, NumbersPatch(DropNumber(s.byId[id].numbers.value, numberId))); }
  }

  lemma {:induction false} RunKeeps(s: State, ws: seq<Write>)
    requires Inv(s)
    ensures Inv(Run(s, ws)) && (Exact(s) && AllAccepted(s, ws) ==> Exact(Run(s, ws)))
    decreases ws
  {
    if ws != [] {
      StepKept(s, ws[0]);
      RunKeeps(Step(s, ws[0]).state, ws[1..]);
    }
  }

  /**
   * After any writes, rejected ones included, each registered tenant is found by every one of its
   * ids, no two share one, and any hit lists the id looked up; if none was rejected, every hit is
   * a registered tenant.
   */
  lemma LookupsAreSound(ws: seq<Write>)
    ensures Sound(Run(EMPTY, ws)) && (AllAccepted(EMPTY, ws) ==> Exact(Run(EMPTY, ws)))
  {
    RunKeeps(EMPTY, ws);
    InvIsSound(Run(EMPTY, ws));
  }

  ghost predicate Sound(s: State) {
    && (forall id :: id in s.byId ==> s.byId[id].id == id && FoundByAll(s, s.byId[id]))
    && (forall id, other, kind :: id in s.byId && other in s.byId && id != other ==> NoneShared(s.byId[id], s.byId[other], kind))
    && HitsList(s.byPhone, Phone) && HitsList(s.bySession, Session)
  }

  lemma InvIsSound(s: State)
    requires Inv(s)
    ensures Sound(s)
  {
    forall id | id in s.byId ensures FoundByAll(s, s.byId[id]) {
      forall p | Lists(s.byId[id], Phone, p) ensures p in s.byPhone && s.byPhone[p] == s.byId[id] {}
      forall p | Lists(s.byId[id], Session, p) ensures p in s.bySession && s.bySession[p] == s.byId[id] {}
    }
    forall id, other, kind | id in s.byId && other in s.byId && id != other ensures NoneShared(s.byId[id], s.byId[other], kind) {
      FoundAreDistinct(s, id, other, kind);
    }
  }

  /** `t` is the hit of each of its ids. */
  ghost predicate FoundByAll(s: State, t: Tenant) {
    && (forall p :: Lists(t, Phone, p) ==> p in s.byPhone && s.byPhone[p] == t)
    && (forall p :: Lists(t, Session, p) ==> p in s.bySession && s.bySession[p] == t)
  }

  ghost predicate NoneShared(t: Tenant, u: Tenant, kind: Kind) {
    forall p :: Lists(t, kind, p) ==> !Lists(u, kind, p)
  }

  lemma FoundAreDistinct(s: State, id: string, other: string, kind: Kind)
    requires Inv(s) && id in s.byId && other in s.byId && id != other
    ensures NoneShared(s.byId[id], s.byId[other], kind)
  {
    var index := if kind == Phone then s.byPhone else s.bySession;
    assert Finds(s.byId, index, kind);
    forall p | Lists(s.byId[id], kind, p) ensures !Lists(s.byId[other], kind, p) {
      assert index[p] == s.byId[id];
    }
  }

  // ---------------------------------------------------------------- what an accepted write stores

  /** The tenant is registered, is the hit of all its ids, and no other registration changes. */
  ghost predicate Stores(s: State, o: Outcome, t: Tenant) {
    && o.result == Success(t) && o.state.byId == s.byId[t.id := t]
  }

  /** The field is the patch's, where it has one, and the old one otherwise. */
  predicate Patched<T(==)>(after: T, before: T, given: Option<T>) {
    (given.Some? ==> after == given.value) && (given.None? ==> after == before)
  }

  lemma IndexedStores(s: State, t: Tenant)
    ensures Indexed(s, t).result.Success? ==> Stores(s, Indexed(s, t), t)
    ensures t.id == "" ==> Indexed(s, t) == Outcome(s, Failure(IdRequired))
  {
  }

  /** An accepted update replaces the patched fields and no others, and never the id. */
  lemma UpdateIsAPatch(s: State, id: string, p: Patch)
    requires Inv(s) && Step(s, Update(id, p)).result.Success?
    ensures var o := Step(s, Update(id, p)); var after := o.result.value;
      && id in s.byId && Stores(s, o, after) && after.id == id
      && Patched(after.phoneNumberId, s.byId[id].phoneNumberId, p.phoneNumberId)
      && Patched(after.sessionId, s.byId[id].sessionId, p.sessionId) && Patched(after.profile, s.byId[id].profile, p.profile)
      && after.mode == (if p.mode == None then s.byId[id].mode else p.mode)
      && after.numbers == (if p.numbers == None then s.byId[id].numbers else p.numbers)
  {
    IndexedStores(s, Merged(s.byId[id], p));
  }

  /** A creation stores the data under the id that was given, or else under the slug, without outer white space. */
  lemma CreationIs(s: State, t: Tenant, givenId: Option<string>, slug: string)
    ensures var o := Step(s, Create(t, givenId, slug)); var wanted := if givenId == None then slug else givenId.value;
      && (AllSpace(wanted) ==> o == Outcome(s, Failure(IdRequired)))
      && (!AllSpace(wanted) && Trim(wanted) in s.byId ==> o == Outcome(s, Failure(IdExists)))
      && (o.result.Success? ==> IsTrimmed(o.result.value.id, wanted) && o.result.value.id !in s.byId
                                && o.result.value == t.(id := o.result.value.id) && Stores(s, o, o.result.value))
  {
    var wanted := if givenId == None then slug else givenId.value;
    TrimTrims(wanted);
    TrimIsEmptyIff(wanted);
    IndexedStores(s, t.(id := Trim(wanted)));
  }

  /** A deletion answers with the tenant and frees its ids: none of them is found, and no other hit changes. */
  lemma DeletionIs(s: State, id: string, p: string)
    requires Inv(s) && id in s.byId
    ensures var o := Step(s, Delete(id));
      && o.result == Success(s.byId[id]) && o.state.byId == s.byId - {id}
      && (p in o.state.byPhone <==> p in s.byPhone && p !in Ids(s.byId[id], Phone))
      && (p in o.state.bySession <==> p in s.bySession && p !in Ids(s.byId[id], Session))
      && (p in o.state.byPhone ==> o.state.byPhone[p] == s.byPhone[p])
      && (p in o.state.bySession ==> o.state.bySession[p] == s.bySession[p])
  {
  }

  lemma {:induction false} DropNumberIs(ns: seq<Number>, id: string, n: Number)
    ensures multiset(DropNumber(ns, id))[n] == if n.id == id then 0 else multiset(ns)[n]
    ensures |DropNumber(ns, id)| <= |ns| && ((forall k :: 0 <= k < |ns| ==> ns[k].id != id) ==> DropNumber(ns, id) == ns)
  {
    if ns != [] {
      DropNumberIs(ns[1..], id, n);
      assert ns == [ns[0]] + ns[1..];
    }
  }

  /** `at` lists places of `ns`, in order, where the numbers of `left` stand. */
  ghost predicate IsPartOf(left: seq<Number>, ns: seq<Number>, at: seq<nat>) {
    && |at| == |left| && (forall j, k :: 0 <= j < k < |at| ==> at[j] < at[k])
    && forall k :: 0 <= k < |at| ==> at[k] < |ns| && ns[at[k]] == left[k]
  }

  lemma PartOfRest(left: seq<Number>, ns: seq<Number>, rest: seq<nat>) returns (at: seq<nat>)
    requires ns != [] && IsPartOf(left, ns[1..], rest)
    ensures IsPartOf(left, ns, at) && forall k :: 0 <= k < |at| ==> at[k] > 0
  {
    at := seq(|rest|, k requires 0 <= k < |rest| => rest[k] + 1);
    forall k | 0 <= k < |at| ensures ns[at[k]] == left[k] { assert ns[1..][rest[k]] == left[k]; }
  }

  /** The numbers kept are the old ones in their order. */
  lemma {:induction false} DropNumberKeepsOrder(ns: seq<Number>, id: string) returns (at: seq<nat>)
    ensures IsPartOf(DropNumber(ns, id), ns, at)
  {
    at := [];
    if ns != [] {
      var rest := DropNumberKeepsOrder(ns[1..], id);
      at := PartOfRest(DropNumber(ns[1..], id), ns, rest);
      if ns[0].id != id { at := [0] + at; } else { Empty(DropNumber(ns[1..], id)); }
    }
  }

  /** An accepted removal takes out exactly the numbers of that id, and changes nothing else of the tenant. */
  lemma RemovalIs(s: State, id: string, numberId: string)
    requires Inv(s) && Step(s, RemoveNumber(id, numberId)).result.Success?
    ensures var o := Step(s, RemoveNumber(id, numberId)); var after := o.result.value;
      && id in s.byId && s.byId[id].numbers.Some? && HasNumber(s.byId[id].numbers.value, numberId)
      && after.numbers.Some? && !HasNumber(after.numbers.value, numberId)
      && (forall n: Number :: multiset(after.numbers.value)[n] ==
            if n.id == numberId then 0 else multiset(s.byId[id].numbers.value)[n])
      && (exists at: seq<nat> :: IsPartOf(after.numbers.value, s.byId[id].numbers.value, at))
      && after == s.byId[id].(numbers := after.numbers) && Stores(s, o, after)
  {
    var ns := s.byId[id].numbers.value;
    var left := DropNumber(ns, numberId);
    IndexedStores(s, Merged(s.byId[id], NumbersPatch(left)));
    var at := DropNumberKeepsOrder(ns, numberId);
    forall n: Number ensures multiset(left)[n] == if n.id == numberId then 0 else multiset(ns)[n] { DropNumberIs(ns, numberId, n); }
    forall k | 0 <= k < |left| ensures left[k].id != numberId { assert left[k] in multiset(left); }
  }

  /**
   * An accepted addition puts the number last, with its id trimmed and its mode made explicit,
   * behind the numbers there were: the list, or else the one made of the flat fields.
   */
  lemma AdditionIs(s: State, w: Write)
    requires Inv(s) && w.AddNumber? && Step(s, w).result.Success?
    ensures var o := Step(s, w); var after := o.result.value;
      && w.id in s.byId && after.numbers.Some? && |after.numbers.value| > 0
      && var before, ns := s.byId[w.id], after.numbers.value; var n, old_ := ns[|ns| - 1], ns[..|ns| - 1];
      && IsTrimmed(n.id, if w.givenNumberId == None then w.freshId else w.givenNumberId.value)
      && n.mode == (if w.givenMode == None then "linked-device" else w.givenMode.value) && n.mode in ["cloud", "linked-device"]
      && n.phoneNumberId == w.number.phoneNumberId && n.sessionId == w.number.sessionId
      && (if n.mode == "cloud" then n.phoneNumberId != "" else n.sessionId != "") && !HasNumber(old_, n.id)
      && (if before.numbers.Some? && before.numbers.value != [] then old_ == before.numbers.value else IsLegacy(old_, before))
      && after == before.(numbers := after.numbers) && Stores(s, o, after)
  {
    AddedIsMerged(s, w);
    TrimTrims(Or(w.givenNumberId, w.freshId));
    var ns := NumbersOf(s.byId[w.id]) + [Added(w)];
    IndexedStores(s, Merged(s.byId[w.id], NumbersPatch(ns)));
    assert ns[..|ns| - 1] == NumbersOf(s.byId[w.id]);
  }

  /** The flat fields as a list: the session under `linked-device`, the phone number under `cloud`, if there is one. */
  predicate IsLegacy(ns: seq<Number>, t: Tenant) {
    var mode := if t.mode == None then "cloud" else Lower(t.mode.value);
    if mode == "linked-device" && t.sessionId != "" then ns == [Number("primary", "linked-device", "", t.sessionId)]
    else if mode == "cloud" && t.phoneNumberId != "" then ns == [Number("primary", "cloud", t.phoneNumberId, "")]
    else ns == []
  }

  /** Why a write is refused before any id is entered; the maps then stay as they are. */
  lemma RefusedBeforeIndexing(s: State, w: Write)
    ensures match w
      case Delete(id) => id !in s.byId ==> Step(s, w) == Outcome(s, Failure(NotFound))
      case Update(id, _) => id !in s.byId ==> Step(s, w) == Outcome(s, Failure(NotFound))
      case RemoveNumber(id, numberId) =>
        && (id !in s.byId ==> Step(s, w) == Outcome(s, Failure(NotFound)))
        && (id in s.byId && (s.byId[id].numbers == None || forall n :: n in s.byId[id].numbers.value ==> n.id != numberId) ==>
              Step(s, w) == Outcome(s, Failure(NumberNotFound)))
      case AddNumber(id, n, givenMode, givenNumberId, freshId) =>
        var mode := if givenMode == None then "linked-device" else givenMode.value;
        && (id !in s.byId ==> Step(s, w) == Outcome(s, Failure(NotFound)))
        && (id in s.byId && mode !in ["cloud", "linked-device"] ==> Step(s, w) == Outcome(s, Failure(InvalidMode)))
        && (id in s.byId && mode == "linked-device" && n.sessionId == "" ==> Step(s, w) == Outcome(s, Failure(SessionIdRequired)))
        && (id in s.byId && mode == "cloud" && n.phoneNumberId == "" ==> Step(s, w) == Outcome(s, Failure(PhoneNumberIdRequired)))
      case _ => true
  {
  }

  // ---------------------------------------------------------------- rejected writes

  /** Another registered tenant holds the id. */
  predicate Taken(index: Index, id: string, t: Tenant) {
    id in index && index[id].id != t.id
  }

  lemma ClaimIsRefusedIff(index: Index, ids: seq<string>, t: Tenant)
    ensures var conflict := Claim(index, ids, t).conflict;
      && (conflict.Some? <==> exists i :: 0 <= i < |ids| && Taken(index, ids[i], t))
      && (conflict.Some? ==> exists i: nat :: IsFirstTaken(index, ids, i, t) && conflict == Some(ids[i]))
  {
    var n := ClaimIs(index, ids, t);
    if n < |ids| { assert IsFirstTaken(index, ids, n, t); }
  }

  ghost predicate SomeTaken(index: Index, ids: seq<string>, t: Tenant) {
    exists i :: 0 <= i < |ids| && Taken(index, ids[i], t)
  }

  lemma SameTaken(index: Index, other: Index, ids: seq<string>, t: Tenant)
    requires forall p :: Taken(index, p, t) <==> Taken(other, p, t)
    ensures SomeTaken(index, ids, t) == SomeTaken(other, ids, t)
    ensures forall i: nat :: IsFirstTaken(index, ids, i, t) == IsFirstTaken(other, ids, i, t)
  {
  }

  /** A tenant is refused exactly when one of its ids is another tenant's; the error names the first such id. */
  lemma IndexingIsRefusedIff(s: State, t: Tenant)
    requires Inv(s) && Exact(s) && t.id != ""
    ensures var phones, sessions, r := Ids(t, Phone), Ids(t, Session), Indexed(s, t).result;
      && (r.Failure? <==> SomeTaken(s.byPhone, phones, t) || SomeTaken(s.bySession, sessions, t))
      && (SomeTaken(s.byPhone, phones, t) ==> exists i: nat :: IsFirstTaken(s.byPhone, phones, i, t) && r == Failure(DuplicatePhone(phones[i])))
      && (r.Failure? && !SomeTaken(s.byPhone, phones, t) ==>
            exists i: nat :: IsFirstTaken(s.bySession, sessions, i, t) && r == Failure(DuplicateSession(sessions[i])))
  {
    var s0 := Deindexed(s, t.id);
    KindIsRefusedIff(s, t, Phone);
    KindIsRefusedIff(s, t, Session);
    assert Claim(s0.byPhone, Ids(t, Phone), t).conflict.Some? <==> SomeTaken(s.byPhone, Ids(t, Phone), t);
  }

  lemma KindIsRefusedIff(s: State, t: Tenant, kind: Kind)
    requires Inv(s) && Exact(s)
    ensures var before, after := if kind == Phone then s.byPhone else s.bySession,
                                 if kind == Phone then Deindexed(s, t.id).byPhone else Deindexed(s, t.id).bySession;
      var ids := Ids(t, kind); var conflict := Claim(after, ids, t).conflict;
      && (conflict.Some? <==> SomeTaken(before, ids, t))
      && (conflict.Some? ==> exists i: nat :: IsFirstTaken(before, ids, i, t) && conflict == Some(ids[i]))
  {
    var before := if kind == Phone then s.byPhone else s.bySession;
    var after := if kind == Phone then Deindexed(s, t.id).byPhone else Deindexed(s, t.id).bySession;
    StillTaken(s, t, kind);
    SameTaken(before, after, Ids(t, kind), t);
    ClaimIsRefusedIff(after, Ids(t, kind), t);
  }

  ghost predicate IsFirstTaken(index: Index, ids: seq<string>, i: nat, t: Tenant) {
    i < |ids| && Taken(index, ids[i], t) && forall j :: 0 <= j < i ==> !Taken(index, ids[j], t)
  }

  /** The first of a tenant's ids, phone numbers before sessions. */
  function FirstId(t: Tenant): Option<(Kind, string)> {
    if Ids(t, Phone) != [] then Some((Phone, Ids(t, Phone)[0]))
    else if Ids(t, Session) != [] then Some((Session, Ids(t, Session)[0]))
    else None
  }

  /**
   * A rejected write always leaves the tenant unregistered. It leaves the maps without a stray
   * entry exactly when the very first id listed is the one that is taken.
   */
  lemma RejectionIsCleanIff(s: State, t: Tenant)
    requires Inv(s) && Exact(s) && t.id != "" && Indexed(s, t).result.Failure?
    ensures t.id !in Indexed(s, t).state.byId
    ensures Exact(Indexed(s, t).state) <==>
      match FirstId(t)
      case Some((Phone, p)) => Taken(s.byPhone, p, t)
      case Some((Session, p)) => Taken(s.bySession, p, t)
      case None => false
  {
    DeindexKeeps(s, t.id);
    var s0, s' := Deindexed(s, t.id), Indexed(s, t).state;
    StillTaken(s, t, Phone);
    StillTaken(s, t, Session);
    var n := ClaimIs(s0.byPhone, Ids(t, Phone), t);
    var k := ClaimIs(s0.bySession, Ids(t, Session), t);
    if n > 0 {
      assert Ids(t, Phone)[0] in Ids(t, Phone)[..n];
      assert s'.byPhone[Ids(t, Phone)[0]] == t;
    } else if Ids(t, Phone) == [] && k > 0 {
      assert Ids(t, Session)[0] in Ids(t, Session)[..k];
      assert s'.bySession[Ids(t, Session)[0]] == t;
    } else {
      assert s'.byPhone == s0.byPhone && s'.bySession == s0.bySession;
    }
  }

  /** Taking a tenant out does not free an id that another one holds. */
  lemma StillTaken(s: State, t: Tenant, kind: Kind)
    requires Inv(s) && Exact(s)
    ensures var before, after := if kind == Phone then s.byPhone else s.bySession,
                                 if kind == Phone then Deindexed(s, t.id).byPhone else Deindexed(s, t.id).bySession;
            forall p :: Taken(after, p, t) <==> Taken(before, p, t)
  {
    var before := if kind == Phone then s.byPhone else s.bySession;
    var after := if kind == Phone then Deindexed(s, t.id).byPhone else Deindexed(s, t.id).bySession;
    forall p ensures Taken(after, p, t) <==> Taken(before, p, t) {
      if t.id in s.byId && p in Ids(s.byId[t.id], kind) { assert before[p] == s.byId[t.id]; }
    }
  }

  lemma RunTwo(s: State, ws: seq<Write>)
    requires |ws| == 2
    ensures Run(s, ws) == Step(Step(s, ws[0]).state, ws[1]).state
  {
    assert ws[1..][1..] == [];
    assert Run(Step(Step(s, ws[0]).state, ws[1]).state, []) == Step(Step(s, ws[0]).state, ws[1]).state;
    assert Run(Step(s, ws[0]).state, ws[1..]) == Run(Step(Step(s, ws[0]).state, ws[1]).state, ws[1..][1..]);
  }

  /** A rejected update makes a registered tenant disappear and blocks an id nobody has. */
  lemma RejectedUpdateLosesTheTenant()
    ensures var a := Tenant("a", "1", None, "", None, "");
            var b := Tenant("b", "2", None, "", None, "");
            var ns := [Number("x", "cloud", "3", ""), Number("y", "cloud", "1", "")];
            var s := Run(EMPTY, [Upsert(a), Upsert(b)]);
            var rejected := Step(s, Update("b", NumbersPatch(ns)));
            && rejected.result == Failure(DuplicatePhone("1"))
            && "b" !in rejected.state.byId && "3" in rejected.state.byPhone
            && Step(rejected.state, Upsert(Tenant("c", "3", None, "", None, ""))).result == Failure(DuplicatePhone("3"))
  {
    var a := Tenant("a", "1", None, "", None, "");
    var b := Tenant("b", "2", None, "", None, "");
    var ns := [Number("x", "cloud", "3", ""), Number("y", "cloud", "1", "")];
    var ws := [Upsert(a), Upsert(b)];
    assert Ids(a, Phone) == ["1"] && Ids(b, Phone) == ["2"] && TransportMode(a) == "cloud" && TransportMode(b) == "cloud";
    var s1 := State(map["a" := a], map["1" := a], map[]);
    assert Step(EMPTY, ws[0]).state == s1;
    var s2 := State(map["a" := a, "b" := b], map["1" := a, "2" := b], map[]);
    assert Claim(s1.byPhone, ["2"], b) == Claims(s2.byPhone, None);
    assert Step(s1, ws[1]).state == s2;
    RunTwo(EMPTY, ws);
    var b2 := Merged(b, NumbersPatch(ns));
    assert ns[1..][1..] == [];
    assert Ids(b2, Phone) == ["3", "1"] && Ids(b2, Phone)[1..] == ["1"];
    var s3 := Deindexed(s2, "b");
    assert s3 == State(map["a" := a], map["1" := a], map[]);
    assert Claim(s3.byPhone, ["3", "1"], b2) == Claims(map["1" := a, "3" := b2], Some("1"));
  }

  // ---------------------------------------------------------------- adding a number

  lemma {:induction false} IdsConcat(ns: seq<Number>, more: seq<Number>, kind: Kind)
    ensures IdsOfNumbers(ns + more, kind) == IdsOfNumbers(ns, kind) + IdsOfNumbers(more, kind)
  {
    if ns == [] {
      assert ns + more == more;
    } else {
      assert (ns + more)[0] == ns[0] && (ns + more)[1..] == ns[1..] + more;
      IdsConcat(ns[1..], more, kind);
      Associative(if IdOf(ns[0], kind) != "" then [IdOf(ns[0], kind)] else [], IdsOfNumbers(ns[1..], kind), IdsOfNumbers(more, kind));
    }
  }

  /**
   * Adding a number keeps every session id, and every phone number id exactly when the tenant had
   * a list of numbers, or no flat phone number id, or the `cloud` transport, or is now given that
   * very id again; otherwise its flat phone number id is no longer routed.
   */
  lemma AddingKeepsTheIdsIff(s: State, w: Write)
    requires w.AddNumber? && Step(s, w).result.Success?
    ensures w.id in s.byId
    ensures var before, after := s.byId[w.id], Step(s, w).result.value;
      && KeepsIds(before, after, Session)
      && (KeepsIds(before, after, Phone) <==>
            || before.numbers.Some? || before.phoneNumberId == "" || TransportMode(before) == "cloud"
            || (w.givenMode == Some("cloud") && w.number.phoneNumberId == before.phoneNumberId))
  {
    AddedIsMerged(s, w);
    MergedKeepsIff(s.byId[w.id], Added(w));
  }

  /** The number as it is stored. */
  function Added(w: Write): Number
    requires w.AddNumber?
  {
    w.number.(id := Trim(Or(w.givenNumberId, w.freshId)), mode := Or(w.givenMode, "linked-device"))
  }

  lemma AddedIsMerged(s: State, w: Write)
    requires w.AddNumber? && Step(s, w).result.Success?
    ensures w.id in s.byId && Step(s, w).result.value == Merged(s.byId[w.id], NumbersPatch(NumbersOf(s.byId[w.id]) + [Added(w)]))
  {
  }

  lemma MergedKeepsIff(t: Tenant, number: Number)
    ensures var after := Merged(t, NumbersPatch(NumbersOf(t) + [number]));
      && KeepsIds(t, after, Session)
      && (KeepsIds(t, after, Phone) <==>
            || t.numbers.Some? || t.phoneNumberId == "" || TransportMode(t) == "cloud"
            || (number.mode == "cloud" && number.phoneNumberId == t.phoneNumberId))
  {
    IdsAfterAdding(t, number, Phone);
    IdsAfterAdding(t, number, Session);
    FlatNumber(t);
    if t.phoneNumberId != "" && t.numbers.None? { assert t.phoneNumberId in Ids(t, Phone); }
  }

  ghost predicate KeepsIds(before: Tenant, after: Tenant, kind: Kind) {
    forall p :: p in Ids(before, kind) ==> p in Ids(after, kind)
  }

  lemma IdsAfterAdding(t: Tenant, number: Number, kind: Kind)
    ensures Ids(Merged(t, NumbersPatch(NumbersOf(t) + [number])), kind) ==
            IdsOfNumbers(NumbersOf(t), kind) + if IdOf(number, kind) != "" then [IdOf(number, kind)] else []
  {
    IdsConcat(NumbersOf(t), [number], kind);
    assert [number][1..] == [];
  }

  /** The one number made of the flat fields has their session id, and their phone number id under `cloud` only. */
  lemma FlatNumber(t: Tenant)
    ensures Or(t.numbers, []) != [] ==> NumbersOf(t) == t.numbers.value
    ensures t.numbers.None? ==> IdsOfNumbers(NumbersOf(t), Session) == Ids(t, Session)
    ensures t.numbers.None? ==> IdsOfNumbers(NumbersOf(t), Phone) == if TransportMode(t) == "cloud" then Ids(t, Phone) else []
  {
    if t.numbers.None? && |NumbersOf(t)| == 1 { assert NumbersOf(t)[1..] == []; }
  }

  // ---------------------------------------------------------------- the store

  class InMemoryTenantStore {
    var byId: Index
    var byPhone: Index
    var byLinkedSession: Index

    function View(): State
      reads this
    {
      State(byId, byPhone, byLinkedSession)
    }

    constructor ()
      ensures View() == EMPTY && Inv(View())
    {
      byId, byPhone, byLinkedSession := map[], map[], map[];
    }

    method Deindex(id: string)
      requires Registered(byId)
      modifies this
      ensures View() == Deindexed(old(View()), id)
    {
      if id !in byId { return; }
      var t := byId[id];
      var phones, sessions := Ids(t, Phone), Ids(t, Session);
      for i := 0 to |phones|
        invariant View() == old(View()).(byPhone := Without(old(byPhone), phones[..i]))
      {
        WithoutOneMore(old(byPhone), phones, i);
        byPhone := byPhone - {phones[i]};
      }
      assert phones[..|phones|] == phones;
      for i := 0 to |sessions|
        invariant View() == State(old(byId), Without(old(byPhone), phones), Without(old(byLinkedSession), sessions[..i]))
      {
        WithoutOneMore(old(byLinkedSession), sessions, i);
        byLinkedSession := byLinkedSession - {sessions[i]};
      }
      assert sessions[..|sessions|] == sessions;
      byId := byId - {t.id};
    }

    method IndexTenant(t: Tenant) returns (r: Result<Tenant, Error>)
      requires Inv(View())
      modifies this
      ensures Inv(View()) && Outcome(View(), r) == Indexed(old(View()), t)
    {
      IndexKeeps(View(), t);
      if t.id == "" { return Failure(IdRequired); }
      Deindex(t.id);
      ghost var s0 := View();
      var phones, sessions := Ids(t, Phone), Ids(t, Session);
      for i := 0 to |phones|
        invariant byId == s0.byId && byLinkedSession == s0.bySession
        invariant Claim(byPhone, phones[i..], t) == Claim(s0.byPhone, phones, t)
      {
        if phones[i] in byPhone && byPhone[phones[i]].id != t.id { return Failure(DuplicatePhone(phones[i])); }
        byPhone := byPhone[phones[i] := t];
      }
      for i := 0 to |sessions|
        invariant byId == s0.byId && Claims(byPhone, None) == Claim(s0.byPhone, phones, t)
        invariant Claim(byLinkedSession, sessions[i..], t) == Claim(s0.bySession, sessions, t)
      {
        if sessions[i] in byLinkedSession && byLinkedSession[sessions[i]].id != t.id { return Failure(DuplicateSession(sessions[i])); }
        byLinkedSession := byLinkedSession[sessions[i] := t];
      }
      byId := byId[t.id := t];
      r := Success(t);
    }

    method CreateTenant(data: Tenant, givenId: Option<string>, slug: string) returns (r: Result<Tenant, Error>)
      requires Inv(View())
      modifies this
      ensures Inv(View()) && Outcome(View(), r) == Step(old(View()), Create(data, givenId, slug))
    {
      var id := Trim(Or(givenId, slug));
      if id == "" { return Failure(IdRequired); }
      if id in byId { return Failure(IdExists); }
      r := IndexTenant(data.(id := id));
    }

    method UpdateTenant(id: string, patch: Patch) returns (r: Result<Tenant, Error>)
      requires Inv(View())
      modifies this
      ensures Inv(View()) && Outcome(View(), r) == Updated(old(View()), id, patch)
    {
      if id !in byId { return Failure(NotFound); }
      r := IndexTenant(Merged(byId[id], patch));
    }

    method DeleteTenant(id: string) returns (r: Result<Tenant, Error>)
      requires Inv(View())
      modifies this
      ensures Inv(View()) && Outcome(View(), r) == Step(old(View()), Delete(id))
    {
      if id !in byId { return Failure(NotFound); }
      r := Success(byId[id]);
      DeindexKeeps(View(), id);
      Deindex(id);
    }

    method AddWhatsAppNumber(id: string, number: Number, givenMode: Option<string>, givenNumberId: Option<string>, freshId: string)
      returns (r: Result<Tenant, Error>)
      requires Inv(View())
      modifies this
      ensures Inv(View()) && Outcome(View(), r) == Step(old(View()), AddNumber(id, number, givenMode, givenNumberId, freshId))
    {
      if id !in byId { return Failure(NotFound); }
      var tenant, mode := byId[id], Or(givenMode, "linked-device");
      if mode != "cloud" && mode != "linked-device" { return Failure(InvalidMode); }
      if mode == "linked-device" && number.sessionId == "" { return Failure(SessionIdRequired); }
      if mode == "cloud" && number.phoneNumberId == "" { return Failure(PhoneNumberIdRequired); }
      var numbers := Or(tenant.numbers, []);
      if numbers == [] {
        var legacyMode := TransportMode(tenant);
        if legacyMode == "linked-device" && tenant.sessionId != "" {
          numbers := numbers + [Number("primary", "linked-device", "", tenant.sessionId)];
        } else if legacyMode == "cloud" && tenant.phoneNumberId != "" {
          numbers := numbers + [Number("primary", "cloud", tenant.phoneNumberId, "")];
        }
      }
      assert numbers == NumbersOf(tenant);
      var numberId := Trim(Or(givenNumberId, freshId));
      if HasNumber(numbers, numberId) { return Failure(NumberIdExists); }
      numbers := numbers + [number.(id := numberId, mode := mode)];
      r := UpdateTenant(id, NumbersPatch(numbers));
    }

    method RemoveWhatsAppNumber(id: string, numberId: string) returns (r: Result<Tenant, Error>)
      requires Inv(View())
      modifies this
      ensures Inv(View()) && Outcome(View(), r) == Step(old(View()), RemoveNumber(id, numberId))
    {
      if id !in byId { return Failure(NotFound); }
      var numbers := Or(byId[id].numbers, []);
      if !HasNumber(numbers, numberId) { return Failure(NumberNotFound); }
      r := UpdateTenant(id, NumbersPatch(DropNumber(numbers, numberId)));
    }
  }
}
