/**
 When a request to the inventory service under a key not used before succeeds, and what it writes: the new item, the new
 counters, the new rows. Replays of a key are the subject of `InventoryGuarantees.AtMostOnce`.
 */
module InventoryRequests {
  import opened Common
  import opened Inventory
  import opened StockInvariant
  import opened Allocation
  import opened InventoryGuarantees
  import opened InventoryAnswers

  /** A request's key is remembered with the request and what it made; nothing else is. */
  ghost predicate Remembered(t: Tables, t': Tables, actor: Id, key: Option<string>, request: Request, resource: Id) {
    t'.records == if key.None? then t.records else t.records[Key(actor, key.value) := Record(request, resource)]
  }

  /** The seller's own items, or any for an admin, in the version the caller saw. */
  predicate Manages(t: Tables, p: Principal, i: Id, expectedVersion: int) {
    i in t.items && (t.items[i].seller == p.subject || p.admin) && t.items[i].version == expectedVersion
  }

  /** An item is created exactly for a warehouse in use and an active SKU of the catalog that is the caller's own
      (or the caller an admin), and not twice in one warehouse; it starts with the initial quantity and a receipt for it. */
  lemma ItemIsCreated(t: Tables, p: Principal, key: Option<string>, data: CreateItemData, newId: Id,
                      warehouseActive: bool, catalog: Option<CatalogSku>)
    requires NewKey(t, p.subject, key)
    ensures var (t', r) := CreateItem(t, p, key, data, newId, warehouseActive, catalog);
            && (r.Ok? <==>
                  && 0 <= data.initial <= 1_000_000_000 && warehouseActive
                  && (exists c :: catalog == Some(c) && c.isActive && c.product == data.product && c.sku == data.sku
                                  && (c.seller == p.subject || p.admin))
                  && newId !in t.items
                  && (forall i :: i in t.items ==> t.items[i].warehouse != data.warehouse || t.items[i].sku != data.sku))
            && (r.Err? ==> t' == t)
            && (r.Ok? ==>
                  && r.value == newId && t'.reservations == t.reservations
                  && t'.items == t.items[newId := t'.items[newId]]
                  && t'.items[newId] == Item(p.subject, data.sku, data.warehouse, data.initial, 0, data.threshold, data.isActive, 1)
                  && Remembered(t, t', p.subject, key, CreateItemRequest(data), newId)
                  && (data.initial == 0 ==> t'.ledger == t.ledger)
                  && (data.initial > 0 ==> OneMovement(t, t', newId, data.initial, 0, Receipt, PurchaseReceipt, ItemRef(newId))))
  {
  }

  /** Threshold and activity of an item are changed exactly by who manages it in that version; what is not named stays. */
  lemma ItemIsUpdated(t: Tables, p: Principal, i: Id, threshold: Option<int>, isActive: Option<bool>, expectedVersion: int)
    ensures var (t', r) := UpdateItem(t, p, i, threshold, isActive, expectedVersion);
            && (r.Ok? <==> Manages(t, p, i, expectedVersion))
            && (r.Err? ==> t' == t)
            && (r.Ok? ==>
                  && r.value == i && t' == t.(items := t.items[i := t'.items[i]])
                  && var item, item' := t.items[i], t'.items[i];
                     && item' == item.(threshold := item'.threshold, isActive := item'.isActive, version := item.version + 1)
                     && (threshold == None ==> item'.threshold == item.threshold)
                     && (isActive == None ==> item'.isActive == item.isActive)
                     && (threshold.Some? ==> item'.threshold == threshold.value)
                     && (isActive.Some? ==> item'.isActive == isActive.value))
  {
  }

  /** Stock is adjusted exactly by who manages the item in that version, by something, and not below what is reserved. */
  lemma StockIsAdjusted(t: Tables, p: Principal, key: Option<string>, i: Id, data: AdjustData, expectedVersion: int)
    requires NewKey(t, p.subject, key)
    ensures var (t', r) := AdjustStock(t, p, key, i, data, expectedVersion);
            && (r.Ok? <==> data.delta != 0 && Manages(t, p, i, expectedVersion)
                           && t.items[i].reserved <= t.items[i].onHand + data.delta)
            && (r.Err? ==> t' == t)
            && (r.Ok? ==>
                  && r.value == i && t'.reservations == t.reservations
                  && Told(t, t', i, data.delta, 0, Adjustment, data.reason, data.reference)
                  && Remembered(t, t', p.subject, key, AdjustRequest(i, data, expectedVersion), i))
  {
    if i in t.items {
      MoveIsTold(t, t.reservations, i, data.delta, 0, Adjustment, data.reason, data.reference);
      assert t.(reservations := t.reservations) == t;
    }
    hide Move;
  }

  /** When a reservation made now runs out: when asked for, or after the default time. */
  function ExpiresAt(s: Settings, asked: Option<int>, now: int): int {
    if asked.Some? then asked.value else now + s.defaultSeconds
  }

  /** Only in the future, and not beyond the longest time allowed. */
  lemma ExpiryWindow(s: Settings, asked: Option<int>, now: int)
    ensures Expiry(s, asked, now).Ok? <==> now < ExpiresAt(s, asked, now) <= now + s.maxSeconds
    ensures Expiry(s, asked, now).Ok? ==> Expiry(s, asked, now).value == ExpiresAt(s, asked, now)
  {
  }

  /** A reservation is made exactly of an active item with enough available, until a time that is allowed; its caller
      owns it, and it costs the item that much availability. */
  lemma ReservationIsMade(t: Tables, s: Settings, p: Principal, key: Option<string>, data: ReserveData, now: int)
    requires NewKey(t, p.subject, key)
    ensures var (t', r) := CreateReservation(t, s, p, key, data, now);
            var at := ExpiresAt(s, data.expiresAt, now);
            && (r.Ok? <==>
                  && 1 <= data.quantity <= 1_000_000 && data.item in t.items && t.items[data.item].isActive
                  && data.quantity <= t.items[data.item].onHand - t.items[data.item].reserved
                  && now < at <= now + s.maxSeconds)
            && (r.Err? ==> t' == t)
            && (r.Ok? ==>
                  && r.value == |t.reservations| && |t'.reservations| == |t.reservations| + 1 && t.reservations <= t'.reservations
                  && t'.reservations[r.value]
                     == Reservation(data.item, p.subject, data.cartRef, None, None, data.quantity, Active, at, None, 1)
                  && Told(t, t', data.item, 0, data.quantity, Reserve, CustomerOrder, RowRef(r.value))
                  && Remembered(t, t', p.subject, key, ReserveRequest(data), r.value))
  {
    ExpiryWindow(s, data.expiresAt, now);
    if data.item in t.items {
      var row := Reservation(data.item, p.subject, data.cartRef, None, None, data.quantity, Active,
                             ExpiresAt(s, data.expiresAt, now), None, 1);
      MoveIsTold(t, t.reservations + [row], data.item, 0, data.quantity, Reserve, CustomerOrder, RowRef(|t.reservations|));
    }
    hide Move, Expiry;
  }

  /** A line of the batch schema. */
  predicate LineAccepted(line: Line) {
    1 <= line.quantity <= 1_000_000
  }

  /** A row a batch inserts. */
  ghost predicate RowOfBatch(r: Reservation, data: BatchData, group: Id, at: int) {
    && r.customer == data.customer && r.cartRef == data.cartRef && r.orderRef == data.orderRef
    && r.group == Some(group) && r.status == Active && r.resolvedAt == None && r.expiresAt == at
  }

  /** A batch is reserved exactly if its request is sound, its expiry allowed and each of its lines can be served;
      its rows are new, of one new group, and all for its customer and until its expiry. */
  lemma BatchIsMade(t: Tables, s: Settings, key: Option<string>, data: BatchData, now: int)
    requires NewKey(t, data.customer, key)
    ensures var (t', r) := CreateBatch(t, s, key, data, now);
            var at := ExpiresAt(s, data.expiresAt, now);
            && (r.Ok? <==>
                  && 1 <= |data.lines| <= 100 && (forall n :: 0 <= n < |data.lines| ==> LineAccepted(data.lines[n]))
                  && UniquePairs(data.lines)
                  && now < at <= now + s.maxSeconds
                  && (forall n :: 0 <= n < |data.lines| ==> Servable(t.items, data.lines[n])))
            && (r.Err? ==> t' == t)
            && (r.Ok? ==>
                  && r.value == |t.reservations| && t.reservations <= t'.reservations
                  && (forall k :: |t.reservations| <= k < |t'.reservations| ==> RowOfBatch(t'.reservations[k], data, r.value, at))
                  && Remembered(t, t', data.customer, key, BatchRequest(data), r.value))
  {
    ExpiryWindow(s, data.expiresAt, now);
    if ValidBatch(data) {
      BatchOutcome(t, s, key, data, now);
      BatchSucceedsIff(t.items, data.lines);
      assert forall n :: 0 <= n < |data.lines| ==> LineAccepted(data.lines[n]);
    }
    if CreateBatch(t, s, key, data, now).1.Ok? {
      BatchTakesInItems(t.items, data.lines);
      var rows := BatchRows(t, data, ExpiresAt(s, data.expiresAt, now));
      BatchRowsAre(t, data, ExpiresAt(s, data.expiresAt, now));
      hide BatchRows, RowOfBatch;
      ReserveAllAppends(t, rows, GroupRef(FreshGroup(t)));
    }
    hide ReserveAll, Expiry, BatchError, Servable, UniquePairs, BatchTakes;
  }

  lemma BatchRowsAre(t: Tables, data: BatchData, at: int)
    ensures var rows := BatchRows(t, data, at);
            forall k :: 0 <= k < |rows| ==> RowOfBatch(rows[k], data, |t.reservations|, at)
  {
  }

  lemma {:induction false} ReserveAllAppends(t: Tables, rows: seq<Reservation>, reference: Reference)
    requires OnItems(rows, t.items)
    ensures var t' := ReserveAll(t, rows, reference); t'.reservations == t.reservations + rows && t'.records == t.records
  {
    if rows == [] {
    } else {
      ReserveAllAppends(t, rows[..|rows| - 1], reference);
      assert rows == rows[..|rows| - 1] + [rows[|rows| - 1]];
    }
  }
}
