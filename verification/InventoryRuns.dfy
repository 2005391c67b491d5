/** Whole runs of the inventory service: arbitrary sequences of its operations from empty tables. */
module InventoryRuns {
  import opened Common
  import opened Inventory
  import opened StockInvariant
  import opened Allocation
  import opened InventorySafety

  /** A call with everything it depends on: arguments, caller, clock, and the answers of other services. */
  datatype Call =
    | CallCreateItem(p: Principal, key: Option<string>, create: CreateItemData, newId: Id,
                     warehouseActive: bool, catalog: Option<CatalogSku>)
    | CallUpdateItem(p: Principal, item: Id, threshold: Option<int>, isActive: Option<bool>, expectedVersion: int)
    | CallAdjust(p: Principal, key: Option<string>, item: Id, adjust: AdjustData, expectedVersion: int)
    | CallReserve(s: Settings, p: Principal, key: Option<string>, reserve: ReserveData, now: int)
    | CallBatch(s: Settings, key: Option<string>, batch: BatchData, now: int)
    | CallCommitGroup(group: Id, p: Principal, now: int)
    | CallReleaseGroup(group: Id, p: Principal, reason: Reason, now: int)
    | CallCommit(row: nat, orderRef: string, p: Principal, now: int)
    | CallRelease(row: nat, p: Principal, reason: Reason, now: int)
    | CallSweep(fetched: seq<nat>, limit: nat, now: int)

  /** What the caller gets: the id of the item, row or group, how many rows expired, or an error. */
  datatype Reply = Resource(id: Id) | Rows(rows: seq<nat>) | Count(expired: nat) | Failed(error: Error)

  function Answer(r: Result<Id, Error>): Reply {
    if r.Ok? then Resource(r.value) else Failed(r.error)
  }

  function AnswerRows(r: Result<seq<nat>, Error>): Reply {
    if r.Ok? then Rows(r.value) else Failed(r.error)
  }

  /** A sweep works on what the query answered, which skips rows that others hold. */
  ghost predicate Possible(t: Tables, c: Call) {
    c.CallSweep? ==> CanFetch(t.reservations, c.now, c.limit, c.fetched)
  }

  function After(t: Tables, c: Call): Tables
    requires c.CallSweep? ==> InRange(c.fetched, |t.reservations|)
  {
    Perform(t, c).0
  }

  function Perform(t: Tables, c: Call): (Tables, Reply)
    requires c.CallSweep? ==> InRange(c.fetched, |t.reservations|)
  {
    match c
    case CallCreateItem(p, key, data, newId, warehouseActive, catalog) =>
      var (t', r) := CreateItem(t, p, key, data, newId, warehouseActive, catalog); (t', Answer(r))
    case CallUpdateItem(p, i, threshold, isActive, version) =>
      var (t', r) := UpdateItem(t, p, i, threshold, isActive, version); (t', Answer(r))
    case CallAdjust(p, key, i, data, version) =>
      var (t', r) := AdjustStock(t, p, key, i, data, version); (t', Answer(r))
    case CallReserve(s, p, key, data, now) =>
      var (t', r) := CreateReservation(t, s, p, key, data, now); (t', Answer(r))
    case CallBatch(s, key, data, now) =>
      var (t', r) := CreateBatch(t, s, key, data, now); (t', Answer(r))
    case CallCommitGroup(g, p, now) =>
      var (t', r) := CommitGroup(t, g, p, now); (t', AnswerRows(r))
    case CallReleaseGroup(g, p, reason, now) =>
      var (t', r) := ReleaseGroup(t, g, p, reason, now); (t', AnswerRows(r))
    case CallCommit(k, orderRef, p, now) =>
      var (t', r) := CommitReservation(t, k, orderRef, p, now); (t', Answer(r))
    case CallRelease(k, p, reason, now) =>
      var (t', r) := ReleaseReservation(t, k, p, reason, now); (t', Answer(r))
    case CallSweep(fetched, _, now) =>
      (Sweep(t, fetched, now), Count(SweepCount(t, fetched, now)))
  }

  /** ts[0], ts[1], ... are the tables before, between and after the calls. */
  ghost predicate IsRun(ts: seq<Tables>, calls: seq<Call>) {
    && |ts| == |calls| + 1
    && forall n :: 0 <= n < |calls| ==> Possible(ts[n], calls[n]) && ts[n + 1] == After(ts[n], calls[n])
  }

  // ---------------------------------------------------------------- each operation keeps the invariant

  lemma CreateItemKeeps(t: Tables, p: Principal, key: Option<string>, data: CreateItemData, newId: Id,
                        warehouseActive: bool, catalog: Option<CatalogSku>)
    requires Inv(t)
    ensures var (t', r) := CreateItem(t, p, key, data, newId, warehouseActive, catalog);
            Inv(t') && Evolves(t, t') && (r.Err? ==> t' == t)
  {
    var (t', r) := CreateItem(t, p, key, data, newId, warehouseActive, catalog);
    if r.Ok? {
      hide Inv, Evolves;
      LookupFinds(t, p.subject, key, CreateItemRequest(data));
      if t' != t {
        var t1 := Tables(t'.items, t.reservations, t'.ledger, t.records);
        NewItemKeeps(t, t1, newId, t'.items[newId]);
        RememberKeeps(t, t1, p.subject, key, CreateItemRequest(data), newId);
      } else {
        Unchanged(t);
      }
    } else {
      Unchanged(t);
    }
  }

  lemma Unchanged(t: Tables)
    ensures Evolves(t, t)
  {
  }

  lemma NewItemKeeps(t: Tables, t': Tables, i: Id, item: Item)
    requires Inv(t) && i !in t.items && item.Checks() && item.reserved == 0
    requires t' == Tables(t.items[i := item], t.reservations, t'.ledger, t.records)
    requires t'.ledger == t.ledger + if item.onHand == 0 then [] else
               [Movement(i, Receipt, PurchaseReceipt, item.onHand, 0, item.onHand, 0, ItemRef(i))]
    ensures Inv(t') && Evolves(t, t')
  {
    hide *;
    NewItemKeepsStock(t, t', i, item);
    NewItemKeepsRows(t, t', i);
    NewItemKeepsRecords(t, t', i);
    AllParts(t');
    NewItemEvolves(t, t', i);
  }

  lemma NewItemKeepsRows(t: Tables, t': Tables, i: Id)
    requires Inv(t) && t'.reservations == t.reservations && t.items.Keys <= t'.items.Keys
    ensures RowsOk(t')
  {
    hide StockOk, RecordsOk, LifeOk, SharedExpiry;
  }

  lemma NewItemKeepsRecords(t: Tables, t': Tables, i: Id)
    requires Inv(t) && t'.reservations == t.reservations && t.items.Keys <= t'.items.Keys && t'.records == t.records
    ensures RecordsOk(t')
  {
    hide StockOk, RowsOk;
    forall k | k in t'.records ensures RecordOk(t', t'.records[k]) {
      assert RecordOk(t, t.records[k]);
    }
  }

  lemma NewItemEvolves(t: Tables, t': Tables, i: Id)
    requires i !in t.items && t'.reservations == t.reservations && t'.records == t.records && t.ledger <= t'.ledger
    requires i in t'.items && t'.items == t.items[i := t'.items[i]]
    ensures Evolves(t, t')
  {
  }

  lemma NewItemKeepsStock(t: Tables, t': Tables, i: Id, item: Item)
    requires Inv(t) && i !in t.items && item.Checks() && item.reserved == 0
    requires t' == Tables(t.items[i := item], t.reservations, t'.ledger, t.records)
    requires t'.ledger == t.ledger + if item.onHand == 0 then [] else
               [Movement(i, Receipt, PurchaseReceipt, item.onHand, 0, item.onHand, 0, ItemRef(i))]
    ensures StockOk(t')
  {
    hide LedgerOk, KindOk, ItemOk, RowsOk, RecordsOk;
    NewLedgerOk(t, t'.ledger, i, item);
    NewItemOk(t, t', i, item);
    forall j | j in t.items ensures ItemOk(t', j) {
      OldItemOk(t, t', i, item, j);
    }
  }

  /** The receipt of a new item, if there is one, extends the ledger. */
  lemma NewLedgerOk(t: Tables, ledger: seq<Movement>, i: Id, item: Item)
    requires Inv(t) && i !in t.items && item.Checks() && item.reserved == 0
    requires ledger == t.ledger + if item.onHand == 0 then [] else
               [Movement(i, Receipt, PurchaseReceipt, item.onHand, 0, item.onHand, 0, ItemRef(i))]
    ensures LedgerOk(ledger) && forall n :: 0 <= n < |ledger| ==> ledger[n].item in t.items || ledger[n].item == i
  {
    ReplayNowhere(t.ledger, i);
    hide Replay, LedgerOk, RowsOk, RecordsOk, ItemOk;
    if item.onHand != 0 {
      LedgerAppend(t.ledger, Movement(i, Receipt, PurchaseReceipt, item.onHand, 0, item.onHand, 0, ItemRef(i)));
    } else {
      assert ledger == t.ledger;
    }
  }

  lemma NewItemOk(t: Tables, t': Tables, i: Id, item: Item)
    requires Inv(t) && i !in t.items && item.Checks() && item.reserved == 0
    requires i in t'.items && t'.items[i] == item && t'.reservations == t.reservations
    requires t'.ledger == t.ledger + if item.onHand == 0 then [] else
               [Movement(i, Receipt, PurchaseReceipt, item.onHand, 0, item.onHand, 0, ItemRef(i))]
    ensures ItemOk(t', i)
  {
    ReplayNowhere(t.ledger, i);
    SumByNowhere(t.reservations, i, Active);
    SumByNowhere(t.reservations, i, Committed);
    AppendFolds(t.ledger, Movement(i, Receipt, PurchaseReceipt, item.onHand, 0, item.onHand, 0, ItemRef(i)), i);
    hide Inv, Replay, Outflow, SumBy;
    assert item.onHand == 0 ==> t'.ledger == t.ledger;
  }

  lemma OldItemOk(t: Tables, t': Tables, i: Id, item: Item, j: Id)
    requires Inv(t) && i !in t.items && j in t.items && j in t'.items && t'.items[j] == t.items[j]
    requires t'.reservations == t.reservations
    requires t'.ledger == t.ledger + if item.onHand == 0 then [] else
               [Movement(i, Receipt, PurchaseReceipt, item.onHand, 0, item.onHand, 0, ItemRef(i))]
    ensures ItemOk(t', j)
  {
    assert ItemOk(t, j);
    AppendFolds(t.ledger, Movement(i, Receipt, PurchaseReceipt, item.onHand, 0, item.onHand, 0, ItemRef(i)), j);
    hide Inv, Replay, Outflow, SumBy;
    assert item.onHand == 0 ==> t'.ledger == t.ledger;
  }

  lemma UpdateItemKeeps(t: Tables, p: Principal, i: Id, threshold: Option<int>, isActive: Option<bool>, version: int)
    requires Inv(t)
    ensures var (t', r) := UpdateItem(t, p, i, threshold, isActive, version);
            Inv(t') && Evolves(t, t') && (r.Err? ==> t' == t)
  {
    var (t', r) := UpdateItem(t, p, i, threshold, isActive, version);
    if r.Ok? {
      forall j | j in t'.items ensures ItemOk(t', j) { assert ItemOk(t, j); }
      forall k | k in t'.records ensures RecordOk(t', t'.records[k]) { assert RecordOk(t, t.records[k]); }
    }
  }

  lemma AdjustStockKeeps(t: Tables, p: Principal, key: Option<string>, i: Id, data: AdjustData, version: int)
    requires Inv(t)
    ensures var (t', r) := AdjustStock(t, p, key, i, data, version);
            Inv(t') && Evolves(t, t') && (r.Err? ==> t' == t)
  {
    var (t', r) := AdjustStock(t, p, key, i, data, version);
    hide Inv, Evolves;
    Unchanged(t);
    if r.Ok? {
      LookupFinds(t, p.subject, key, AdjustRequest(i, data, version));
      if t' != t {
        AdjustKeeps(t, i, data);
        var t1 := Move(t, i, data.delta, 0, Adjustment, data.reason, data.reference);
        RememberKeeps(t, t1, p.subject, key, AdjustRequest(i, data, version), i);
      }
    }
  }

  lemma AdjustKeeps(t: Tables, i: Id, data: AdjustData)
    requires Inv(t) && i in t.items && data.delta != 0 && t.items[i].reserved <= t.items[i].onHand + data.delta
    ensures var t' := Move(t, i, data.delta, 0, Adjustment, data.reason, data.reference); Inv(t') && Evolves(t, t')
  {
    assert ItemOk(t, i);
    MoveKeepsStock(t, t.reservations, i, data.delta, 0, Adjustment, data.reason, data.reference);
    assert t.(reservations := t.reservations) == t;
    var t' := Move(t, i, data.delta, 0, Adjustment, data.reason, data.reference);
    forall k | k in t'.records ensures RecordOk(t', t'.records[k]) { assert RecordOk(t, t.records[k]); }
  }

  lemma CreateReservationKeeps(t: Tables, s: Settings, p: Principal, key: Option<string>, data: ReserveData, now: int)
    requires Inv(t)
    ensures var (t', r) := CreateReservation(t, s, p, key, data, now);
            Inv(t') && Evolves(t, t') && (r.Err? ==> t' == t)
  {
    var (t', r) := CreateReservation(t, s, p, key, data, now);
    hide Inv, Evolves;
    Unchanged(t);
    if r.Ok? {
      LookupFinds(t, p.subject, key, ReserveRequest(data));
      if t' != t {
        var k := |t.reservations|;
        var row := t'.reservations[k];
        ReserveRowKeeps(t, row, RowRef(k));
        NewRowEvolves(t, row, RowRef(k));
        RememberKeeps(t, ReserveRow(t, row, RowRef(k)), p.subject, key, ReserveRequest(data), k);
      }
    }
  }

  lemma NewRowEvolves(t: Tables, row: Reservation, reference: Reference)
    requires row.item in t.items && row.group == None
    ensures Evolves(t, ReserveRow(t, row, reference))
  {
  }

  /** A new batch opens a group named after its first row. */
  lemma CreateBatchKeeps(t: Tables, s: Settings, key: Option<string>, data: BatchData, now: int)
    requires Inv(t)
    ensures var (t', r) := CreateBatch(t, s, key, data, now);
            && Inv(t') && Evolves(t, t') && (r.Err? ==> t' == t)
            && (r.Ok? && t' != t ==>
                  && IsNewGroup(t, t', r.value) && ValidBatch(data) && BatchError(t.items, data.lines).None?
                  && exists at :: t'.reservations == t.reservations + BatchRows(t, data, at))
            && (forall k :: k in t'.records ==>
                  (k in t.records && t'.records[k] == t.records[k]) || t'.records[k].request == BatchRequest(data))
            && (r.Ok? && t' == t ==>
                  key.Some? && Key(data.customer, key.value) in t.records
                  && t.records[Key(data.customer, key.value)].request == BatchRequest(data))
  {
    var (t', r) := CreateBatch(t, s, key, data, now);
    hide Inv, Evolves;
    Unchanged(t);
    if r.Ok? {
      LookupFinds(t, data.customer, key, BatchRequest(data));
      if Lookup(t, data.customer, key, BatchRequest(data)).value.None? {
        var at := Expiry(s, data.expiresAt, now).value;
        var g := FreshGroup(t);
        var t1 := NewBatchKeeps(t, data, at);
        hide ReserveAll;
        RememberKeeps(t, t1, data.customer, key, BatchRequest(data), g);
        assert t' == Remember(t1, data.customer, key, BatchRequest(data), g);
      } else {
        RecordedBatch(t, Lookup(t, data.customer, key, BatchRequest(data)).value.value);
      }
    }
  }

  lemma RecordedBatch(t: Tables, record: Record)
    requires RecordOk(t, record) && record.request.BatchRequest?
    ensures GroupRows(t.reservations, record.resource) != []
  {
    assert record.resource in GroupRows(t.reservations, record.resource);
  }

  ghost predicate IsNewGroup(t: Tables, t': Tables, g: Id) {
    && g == |t.reservations| < |t'.reservations|
    && (forall k :: g <= k < |t'.reservations| ==> t'.reservations[k].group == Some(g) && t'.reservations[k].status == Active)
  }

  lemma NewBatchKeeps(t: Tables, data: BatchData, at: int) returns (t1: Tables)
    requires Inv(t) && ValidBatch(data) && BatchError(t.items, data.lines).None?
    ensures OnItems(BatchRows(t, data, at), t.items)
    ensures t1 == ReserveAll(t, BatchRows(t, data, at), GroupRef(FreshGroup(t)))
    ensures Inv(t1) && Evolves(t, t1) && t1.records == t.records && IsNewGroup(t, t1, FreshGroup(t))
    ensures t1.reservations == t.reservations + BatchRows(t, data, at)
  {
    hide Inv, Evolves;
    var rows := BatchRows(t, data, at);
    BatchTakesInItems(t.items, data.lines);
    BatchRowsInsertable(t, data, at);
    BatchRowsNonEmpty(t, data, at);
    ReserveAllKeeps(t, rows, GroupRef(FreshGroup(t)));
    t1 := ReserveAll(t, rows, GroupRef(FreshGroup(t)));
    ReserveAllEvolves(t, t1, rows);
  }

  lemma FetchResolvable(t: Tables, now: int, limit: nat, rows: seq<nat>)
    requires CanFetch(t.reservations, now, limit, rows)
    ensures Resolvable(t, rows) && forall j :: 0 <= j < |rows| ==> t.reservations[rows[j]].expiresAt <= now
  {
    var locked :| IsFetch(t.reservations, now, limit, locked, rows);
    forall j | 0 <= j < |rows| ensures IsDue(t.reservations[rows[j]], now) {
      assert rows[j] in Due(t.reservations, now);
    }
  }

  lemma CallKeeps(t: Tables, c: Call)
    requires Inv(t) && Possible(t, c)
    ensures Inv(After(t, c)) && Evolves(t, After(t, c))
  {
    hide Inv, Evolves;
    match c
    case CallCreateItem(p, key, data, newId, warehouseActive, catalog) =>
      CreateItemKeeps(t, p, key, data, newId, warehouseActive, catalog);
    case CallUpdateItem(p, i, threshold, isActive, version) => UpdateItemKeeps(t, p, i, threshold, isActive, version);
    case CallAdjust(p, key, i, data, version) => AdjustStockKeeps(t, p, key, i, data, version);
    case CallReserve(s, p, key, data, now) => CreateReservationKeeps(t, s, p, key, data, now);
    case CallBatch(s, key, data, now) => CreateBatchKeeps(t, s, key, data, now);
    case CallCommitGroup(g, p, now) => CommitGroupAllOrNone(t, g, p, now);
    case CallReleaseGroup(g, p, reason, now) => ReleaseGroupAllOrNone(t, g, p, reason, now);
    case CallCommit(k, orderRef, p, now) => CommitReservationKeeps(t, k, orderRef, p, now);
    case CallRelease(k, p, reason, now) => ReleaseReservationKeeps(t, k, p, reason, now);
    case CallSweep(fetched, limit, now) =>
      FetchResolvable(t, now, limit, fetched);
      SweepKeeps(t, fetched, now);
  }

  // ---------------------------------------------------------------- whole runs

  /** Every state of a run satisfies the invariant, and every later state evolves from every earlier one. */
  lemma {:induction false} RunKeeps(ts: seq<Tables>, calls: seq<Call>, m: nat, n: nat)
    requires IsRun(ts, calls) && m <= n < |ts| && Inv(ts[m])
    ensures Inv(ts[n]) && Evolves(ts[m], ts[n])
    decreases n
  {
    hide Inv, Evolves, After, Perform, Possible;
    if m == n {
      Unchanged(ts[m]);
    } else {
      RunKeeps(ts, calls, m, n - 1);
      CallKeeps(ts[n - 1], calls[n - 1]);
      EvolvesTransitive(ts[m], ts[n - 1], ts[n]);
    }
  }

  lemma EmptyOk()
    ensures Inv(EMPTY)
  {
  }

  /** No oversell: over every run, what is reserved plus what was shipped never exceeds what came in. */
  lemma NoOversell(ts: seq<Tables>, calls: seq<Call>, n: nat, i: Id)
    requires IsRun(ts, calls) && ts[0] == EMPTY && n < |ts| && i in ts[n].items
    ensures var t := ts[n];
            && t.items[i].reserved == SumBy(t.reservations, i, Active)
            && t.items[i].onHand == Inflow(t.ledger, i) - SumBy(t.reservations, i, Committed)
            && SumBy(t.reservations, i, Active) + SumBy(t.reservations, i, Committed) <= Inflow(t.ledger, i)
  {
    EmptyOk();
    RunKeeps(ts, calls, 0, n);
    var t := ts[n];
    assert ItemOk(t, i);
    forall k | 0 <= k < |t.ledger| ensures KindOk(t.ledger[k]) { assert EntryOk(t.ledger, k); }
    OnHandIsInflowLessOutflow(t.ledger, i);
  }

  /** Folding the ledger up to any entry gives the counters that entry reports; in full, the current ones. */
  lemma LedgerReplays(ts: seq<Tables>, calls: seq<Call>, n: nat)
    requires IsRun(ts, calls) && ts[0] == EMPTY && n < |ts|
    ensures forall i :: i in ts[n].items ==>
              Replay(ts[n].ledger, i) == Level(ts[n].items[i].onHand, ts[n].items[i].reserved)
    ensures forall k :: 0 <= k < |ts[n].ledger| ==>
              var m := ts[n].ledger[k];
              && (m.onHandDelta != 0 || m.reservedDelta != 0)
              && Replay(ts[n].ledger[..k + 1], m.item) == Level(m.resultingOnHand, m.resultingReserved)
  {
    EmptyOk();
    RunKeeps(ts, calls, 0, n);
    forall i | i in ts[n].items ensures Replay(ts[n].ledger, i) == Level(ts[n].items[i].onHand, ts[n].items[i].reserved) {
      assert ItemOk(ts[n], i);
    }
    forall k | 0 <= k < |ts[n].ledger|
      ensures var m := ts[n].ledger[k];
              && (m.onHandDelta != 0 || m.reservedDelta != 0)
              && Replay(ts[n].ledger[..k + 1], m.item) == Level(m.resultingOnHand, m.resultingReserved)
    {
      assert EntryOk(ts[n].ledger, k);
    }
  }

  /** Reservation life cycle over runs: resolved exactly once, committed in time, expired only when due. */
  lemma LifeCycle(ts: seq<Tables>, calls: seq<Call>, m: nat, n: nat, k: nat)
    requires IsRun(ts, calls) && ts[0] == EMPTY && m <= n < |ts| && k < |ts[m].reservations|
    ensures k < |ts[n].reservations| && LifeOk(ts[n].reservations[k])
    ensures ts[m].reservations[k].status != Active ==> ts[n].reservations[k] == ts[m].reservations[k]
    ensures ts[n].reservations[k].quantity == ts[m].reservations[k].quantity
            && ts[n].reservations[k].item == ts[m].reservations[k].item
            && ts[n].reservations[k].group == ts[m].reservations[k].group
            && ts[n].reservations[k].expiresAt == ts[m].reservations[k].expiresAt
  {
    EmptyOk();
    RunKeeps(ts, calls, 0, m);
    RunKeeps(ts, calls, m, n);
    assert SameIdentity(ts[m].reservations[k], ts[n].reservations[k]);
  }
}
