/** The inbox's ownership column: one batch per tenant, spread back over the rows by position. */
module OwnershipProjection {
  import opened Wrappers
  import opened Text
  import opened Ownership
  import opened OwnershipStore
  import FileOwnershipStore

  datatype Conversation = Conversation(tenantId: string, customerId: string)

  datatype ProjectionError = CustomerIdRequired | StoreError(error: Error)

  /** A row's place in its tenant's batch. */
  datatype Place = Place(index: nat, conversationId: string)

  function ConversationId(customerId: string): string {
    "whatsapp:" + Trim(customerId)
  }

  function RowKey(c: Conversation): Key {
    Key(c.tenantId, ConversationId(c.customerId))
  }

  predicate HasCustomer(c: Conversation) {
    Trim(c.customerId) != ""
  }

  function Group(groups: map<string, seq<Place>>, tenantId: string): seq<Place> {
    if tenantId in groups then groups[tenantId] else []
  }

  /** The rows before `n`, each in its tenant's group exactly where the ids say. */
  ghost predicate Grouped(groups: map<string, seq<Place>>, order: seq<string>, rows: seq<Conversation>, n: nat)
    requires n <= |rows|
  {
    && (forall t :: t in groups <==> t in order)
    && (forall i, j :: 0 <= i < j < |order| ==> order[i] != order[j])
    && (forall t, k :: t in groups && 0 <= k < |groups[t]| ==> IsPlaceOf(groups[t][k], t, rows, n))
    && (forall i :: 0 <= i < n ==> Placed(groups, rows[i].tenantId, i))
  }

  predicate IsPlaceOf(p: Place, t: string, rows: seq<Conversation>, n: nat)
    requires n <= |rows|
  {
    p.index < n && rows[p.index].tenantId == t && p.conversationId == ConversationId(rows[p.index].customerId)
  }

  ghost predicate Placed(groups: map<string, seq<Place>>, t: string, i: nat) {
    t in groups && exists k :: 0 <= k < |groups[t]| && groups[t][k].index == i
  }

  lemma OneMoreRow(groups: map<string, seq<Place>>, order: seq<string>, rows: seq<Conversation>, n: nat)
    requires n < |rows| && Grouped(groups, order, rows, n)
    ensures var t := rows[n].tenantId;
            Grouped(groups[t := Group(groups, t) + [Place(n, ConversationId(rows[n].customerId))]],
                    if t in groups then order else order + [t], rows, n + 1)
  {
    var t := rows[n].tenantId;
    var group := Group(groups, t) + [Place(n, ConversationId(rows[n].customerId))];
    var groups' := groups[t := group];
    forall i | 0 <= i < n + 1 ensures Placed(groups', rows[i].tenantId, i) {
      if i == n {
        assert group[|group| - 1].index == i;
      } else if rows[i].tenantId == t {
        assert Placed(groups, t, i);
        var k :| 0 <= k < |groups[t]| && groups[t][k].index == i;
        assert group[k].index == i;
      } else {
        assert Placed(groups, rows[i].tenantId, i);
      }
    }
    forall u, k | u in groups' && 0 <= k < |groups'[u]| ensures IsPlaceOf(groups'[u][k], u, rows, n + 1) {
      if u != t || k < |group| - 1 { assert IsPlaceOf(groups[u][k], u, rows, n); }
    }
  }

  /** The rows of the tenants already asked about carry what `get` says of them. */
  ghost predicate Attached(byIndex: map<nat, Record>, asked: seq<string>, rows: seq<Conversation>, h: History, now: int) {
    forall i: nat :: i < |rows| && rows[i].tenantId in asked ==> i in byIndex && byIndex[i] == Get(h, RowKey(rows[i]), now)
  }

  lemma BatchErrorIs(tenantId: string, ids: seq<string>)
    requires forall i :: 0 <= i < |ids| ==> ids[i] != ""
    ensures BatchError(tenantId, ids) == if ids != [] && tenantId == "" then Some(TenantIdRequired) else None
  {
  }

  method GroupByTenant(rows: seq<Conversation>) returns (groups: map<string, seq<Place>>, order: seq<string>)
    ensures Grouped(groups, order, rows, |rows|)
  {
    groups, order := map[], [];
    for n := 0 to |rows|
      invariant Grouped(groups, order, rows, n)
    {
      OneMoreRow(groups, order, rows, n);
      var tenantId := rows[n].tenantId;
      var group := Group(groups, tenantId) + [Place(n, ConversationId(rows[n].customerId))];
      if tenantId !in groups { order := order + [tenantId]; }
      groups := groups[tenantId := group];
    }
  }

  /** Spread one answered batch over the rows of its tenant. */
  method Spread(byIndex: map<nat, Record>, group: seq<Place>, records: seq<Record>) returns (r: map<nat, Record>)
    requires |records| == |group|
    requires forall j, k :: 0 <= j < |group| && 0 <= k < |group| && group[j].index == group[k].index ==> records[j] == records[k]
    ensures forall k :: 0 <= k < |group| ==> group[k].index in r && r[group[k].index] == records[k]
    ensures forall i :: i in byIndex && (forall k :: 0 <= k < |group| ==> group[k].index != i) ==> i in r && r[i] == byIndex[i]
  {
    r := byIndex;
    for n := 0 to |group|
      invariant forall k :: 0 <= k < n ==> group[k].index in r && r[group[k].index] == records[k]
      invariant forall i :: i in byIndex && (forall k :: 0 <= k < |group| ==> group[k].index != i) ==> i in r && r[i] == byIndex[i]
    {
      r := r[group[n].index := records[n]];
    }
  }

  /** Ask for one tenant's batch and attach it. */
  method AttachGroup(byIndex: map<nat, Record>, tenantId: string, group: seq<Place>, rows: seq<Conversation>,
                     store: FileOwnershipStore.Store, now: int)
    returns (r: Result<map<nat, Record>, ProjectionError>)
    requires store.Valid() && forall k :: 0 <= k < |group| ==> IsPlaceOf(group[k], tenantId, rows, |rows|)
    ensures r.Failure? <==> group != [] && tenantId == ""
    ensures r.Success? ==> forall k :: 0 <= k < |group| ==>
      group[k].index in r.value && r.value[group[k].index] == Get(store.history, Key(tenantId, group[k].conversationId), now)
    ensures r.Success? ==> forall i :: i in byIndex && (forall k :: 0 <= k < |group| ==> group[k].index != i) ==>
      i in r.value && r.value[i] == byIndex[i]
  {
    var ids := seq(|group|, k requires 0 <= k < |group| => group[k].conversationId);
    forall k | 0 <= k < |group| ensures ids[k] != "" { assert IsPlaceOf(group[k], tenantId, rows, |rows|); }
    BatchErrorIs(tenantId, ids);
    var records := store.GetMany(tenantId, ids, now);
    if records.Failure? { return Failure(StoreError(records.error)); }
    forall j, k | 0 <= j < |group| && 0 <= k < |group| && group[j].index == group[k].index ensures records.value[j] == records.value[k] {
      assert IsPlaceOf(group[j], tenantId, rows, |rows|) && IsPlaceOf(group[k], tenantId, rows, |rows|);
      assert ids[j] == ids[k];
    }
    var spread := Spread(byIndex, group, records.value);
    r := Success(spread);
  }

  /** An attached group makes its tenant one of those asked. */
  lemma OneMoreTenant(byIndex: map<nat, Record>, next: map<nat, Record>, groups: map<string, seq<Place>>, order: seq<string>, n: nat,
                      rows: seq<Conversation>, h: History, now: int)
    requires Grouped(groups, order, rows, |rows|) && n < |order| && Attached(byIndex, order[..n], rows, h, now)
    requires forall k :: 0 <= k < |groups[order[n]]| ==> var p := groups[order[n]][k];
      p.index in next && next[p.index] == Get(h, Key(order[n], p.conversationId), now)
    requires forall i :: i in byIndex && (forall k :: 0 <= k < |groups[order[n]]| ==> groups[order[n]][k].index != i) ==>
      i in next && next[i] == byIndex[i]
    ensures Attached(next, order[..n + 1], rows, h, now)
  {
    var t, group := order[n], groups[order[n]];
    forall i: nat | i < |rows| && rows[i].tenantId in order[..n + 1] ensures i in next && next[i] == Get(h, RowKey(rows[i]), now) {
      if rows[i].tenantId == t {
        assert Placed(groups, t, i);
        var k :| 0 <= k < |group| && group[k].index == i;
        assert IsPlaceOf(group[k], t, rows, |rows|);
      } else {
        assert rows[i].tenantId in order[..n];
        forall k | 0 <= k < |group| ensures group[k].index != i { assert IsPlaceOf(group[k], t, rows, |rows|); }
      }
    }
  }

  /** A tenant that is in the order has a row. */
  lemma TenantHasARow(groups: map<string, seq<Place>>, t: string, rows: seq<Conversation>)
    requires t in groups && groups[t] != [] && forall k :: 0 <= k < |groups[t]| ==> IsPlaceOf(groups[t][k], t, rows, |rows|)
    ensures exists i :: 0 <= i < |rows| && rows[i].tenantId == t
  {
    assert IsPlaceOf(groups[t][0], t, rows, |rows|);
  }

  /** When every tenant of the order is attached, every row is. */
  lemma AllAttached(groups: map<string, seq<Place>>, order: seq<string>, rows: seq<Conversation>, byIndex: map<nat, Record>,
                    h: History, now: int, i: nat)
    requires Grouped(groups, order, rows, |rows|) && Attached(byIndex, order, rows, h, now) && i < |rows|
    requires forall k :: 0 <= k < |order| ==> order[k] != "" || groups[order[k]] == []
    ensures rows[i].tenantId != "" && i in byIndex && byIndex[i] == Get(h, RowKey(rows[i]), now)
  {
    assert Placed(groups, rows[i].tenantId, i);
  }

  /**
   * Row `i` gets the record that `get` gives for row `i`, however the tenants interleave; it fails
   * exactly when some row lacks a customer or a tenant.
   */
  method ProjectOwnership(rows: seq<Conversation>, store: FileOwnershipStore.Store, now: int)
    returns (r: Result<seq<Record>, ProjectionError>)
    requires store.Valid()
    ensures r.Success? <==> forall i :: 0 <= i < |rows| ==> !AllSpace(rows[i].customerId) && rows[i].tenantId != ""
    ensures r.Success? ==> |r.value| == |rows| && forall i :: 0 <= i < |rows| ==>
      r.value[i] == Get(store.history, Key(rows[i].tenantId, "whatsapp:" + Trim(rows[i].customerId)), now)
  {
    forall i | 0 <= i < |rows| ensures HasCustomer(rows[i]) <==> !AllSpace(rows[i].customerId) { TrimIsEmptyIff(rows[i].customerId); }
    for n := 0 to |rows|
      invariant forall i :: 0 <= i < n ==> HasCustomer(rows[i])
    {
      if !HasCustomer(rows[n]) { return Failure(CustomerIdRequired); }
    }
    var groups, order := GroupByTenant(rows);
    var byIndex: map<nat, Record> := map[];
    for n := 0 to |order|
      invariant Attached(byIndex, order[..n], rows, store.history, now)
      invariant forall k :: 0 <= k < n ==> order[k] != "" || groups[order[k]] == []
    {
      var attached := AttachGroup(byIndex, order[n], groups[order[n]], rows, store, now);
      if attached.Failure? {
        TenantHasARow(groups, order[n], rows);
        return Failure(attached.error);
      }
      OneMoreTenant(byIndex, attached.value, groups, order, n, rows, store.history, now);
      byIndex := attached.value;
    }
    assert order[..|order|] == order;
    forall i: nat | i < |rows|
      ensures rows[i].tenantId != "" && i in byIndex && byIndex[i] == Get(store.history, RowKey(rows[i]), now)
    {
      AllAttached(groups, order, rows, byIndex, store.history, now, i);
    }
    r := Success(seq(|rows|, i requires 0 <= i < |rows| => byIndex[i]));
  }
}
