/**
 The service itself: one object holding the four tables, whose methods change rows one statement at a
 time. Each method is proved to leave exactly the tables, and to give exactly the answer, that its
 specification in `Inventory` gives.
 */
module InventoryServices {
  import opened Common
  import opened Inventory
  import opened Allocation
  import opened BatchReservation

  class InventoryService {
    var items: map<Id, Item>
    var reservations: seq<Reservation>
    var ledger: seq<Movement>
    var records: map<Key, Record>
    const settings: Settings

    constructor (settings: Settings)
      ensures Tab() == EMPTY && this.settings == settings
    {
      this.settings := settings;
      items, reservations, ledger, records := map[], [], [], map[];
    }

    ghost function Tab(): Tables
      reads this
    {
      Tables(items, reservations, ledger, records)
    }

    /** The session forgets its changes; the tables are those of the last commit. */
    method Rollback(committed: Tables)
      modifies this
      ensures Tab() == committed
    {
      items, reservations, ledger, records :=
        committed.items, committed.reservations, committed.ledger, committed.records;
    }

    /** `_movement`: log deltas with the counters the item row has now. */
    method LogMovement(i: Id, kind: MovementType, reason: Reason, onHandDelta: int, reservedDelta: int, reference: Reference)
      requires i in items
      modifies this`ledger
      ensures ledger == old(ledger) + [Movement(i, kind, reason, onHandDelta, reservedDelta,
                                                items[i].onHand, items[i].reserved, reference)]
    {
      ledger := ledger + [Movement(i, kind, reason, onHandDelta, reservedDelta,
                                   items[i].onHand, items[i].reserved, reference)];
    }

    /** `_idempotency_lookup`. */
    method FindRecord(actor: Id, key: Option<string>, request: Request) returns (r: Result<Option<Record>, Error>)
      ensures r == Lookup(Tab(), actor, key, request)
    {
      if key.None? || Key(actor, key.value) !in records {
        return Ok(None);
      }
      var existing := records[Key(actor, key.value)];
      if existing.request != request {
        return Err(IdempotencyConflict);
      }
      return Ok(Some(existing));
    }

    method AddRecord(actor: Id, key: Option<string>, request: Request, resource: Id)
      modifies this`records
      ensures Tab() == Remember(old(Tab()), actor, key, request, resource)
    {
      if key.Some? {
        records := records[Key(actor, key.value) := Record(request, resource)];
      }
    }

    method CreateItem(p: Principal, key: Option<string>, data: CreateItemData, newId: Id,
                      warehouseActive: bool, catalog: Option<CatalogSku>) returns (r: Result<Id, Error>)
      modifies this
      ensures (Tab(), r) == Inventory.CreateItem(old(Tab()), p, key, data, newId, warehouseActive, catalog)
    {
      if !(0 <= data.initial <= 1_000_000_000) {
        return Err(InvalidRequest);
      }
      var request := CreateItemRequest(data);
      var existing := FindRecord(p.subject, key, request);
      if existing.Err? {
        return Err(existing.error);
      }
      if existing.value.Some? && existing.value.value.resource in items {
        return Ok(existing.value.value.resource);
      }
      if !warehouseActive {
        return Err(InvalidWarehouse);
      }
      if catalog.None? || !catalog.value.isActive || catalog.value.product != data.product || catalog.value.sku != data.sku {
        return Err(InvalidCatalogSku);
      }
      if !p.admin && catalog.value.seller != p.subject {
        return Err(CatalogSkuForbidden);
      }
      if newId in items || exists i :: i in items && items[i].warehouse == data.warehouse && items[i].sku == data.sku {
        return Err(IntegrityError);
      }
      items := items[newId := Item(p.subject, data.sku, data.warehouse, data.initial, 0, data.threshold, data.isActive, 1)];
      if data.initial != 0 {
        LogMovement(newId, Receipt, PurchaseReceipt, data.initial, 0, ItemRef(newId));
      } else {
        assert ledger + [] == ledger;
      }
      AddRecord(p.subject, key, request, newId);
      return Ok(newId);
    }

    method UpdateItem(p: Principal, i: Id, threshold: Option<int>, isActive: Option<bool>, expectedVersion: int)
      returns (r: Result<Id, Error>)
      modifies this`items
      ensures (Tab(), r) == Inventory.UpdateItem(old(Tab()), p, i, threshold, isActive, expectedVersion)
    {
      var item := ManagedItem(p, i, expectedVersion);
      if item.Err? {
        return Err(item.error);
      }
      if threshold.Some? {
        items := items[i := items[i].(threshold := threshold.value)];
      }
      if isActive.Some? {
        items := items[i := items[i].(isActive := isActive.value)];
      }
      items := items[i := items[i].(version := items[i].version + 1)];
      assert items == old(items)[i := items[i]];
      return Ok(i);
    }

    method ManagedItem(p: Principal, i: Id, expectedVersion: int) returns (r: Result<Item, Error>)
      ensures r == Managed(Tab(), p, i, expectedVersion)
    {
      if i !in items {
        return Err(ItemNotFound);
      }
      if !(p.admin || items[i].seller == p.subject) {
        return Err(InventoryForbidden);
      }
      if items[i].version != expectedVersion {
        return Err(VersionConflict);
      }
      return Ok(items[i]);
    }

    method AdjustStock(p: Principal, key: Option<string>, i: Id, data: AdjustData, expectedVersion: int)
      returns (r: Result<Id, Error>)
      modifies this
      ensures (Tab(), r) == Inventory.AdjustStock(old(Tab()), p, key, i, data, expectedVersion)
    {
      if data.delta == 0 {
        return Err(InvalidRequest);
      }
      var request := AdjustRequest(i, data, expectedVersion);
      var existing := FindRecord(p.subject, key, request);
      if existing.Err? {
        return Err(existing.error);
      }
      if existing.value.Some? && i in items {
        return Ok(i);
      }
      var item := ManagedItem(p, i, expectedVersion);
      if item.Err? {
        return Err(item.error);
      }
      var resulting := items[i].onHand + data.delta;
      if resulting < items[i].reserved {
        return Err(InsufficientUnreservedStock);
      }
      ChangeCounters(i, data.delta, 0);
      LogMovement(i, Adjustment, data.reason, data.delta, 0, data.reference);
      AddRecord(p.subject, key, request, i);
      return Ok(i);
    }

    method ExpiresAt(asked: Option<int>, now: int) returns (r: Result<int, Error>)
      ensures r == Expiry(settings, asked, now)
    {
      var at := now + settings.defaultSeconds;
      if asked.Some? {
        at := asked.value;
      }
      if at <= now {
        return Err(InvalidExpiration);
      }
      if at > now + settings.maxSeconds {
        return Err(InvalidExpiration);
      }
      return Ok(at);
    }

    method CreateReservation(p: Principal, key: Option<string>, data: ReserveData, now: int) returns (r: Result<nat, Error>)
      modifies this
      ensures (Tab(), r) == Inventory.CreateReservation(old(Tab()), settings, p, key, data, now)
    {
      if !(0 < data.quantity <= 1_000_000) {
        return Err(InvalidRequest);
      }
      var request := ReserveRequest(data);
      var existing := FindRecord(p.subject, key, request);
      if existing.Err? {
        return Err(existing.error);
      }
      if existing.value.Some? && existing.value.value.resource < |reservations| {
        return Ok(existing.value.value.resource);
      }
      var i := data.item;
      if i !in items || !items[i].isActive {
        return Err(ItemNotFound);
      }
      if items[i].Available() < data.quantity {
        return Err(InsufficientStock);
      }
      var at := ExpiresAt(data.expiresAt, now);
      if at.Err? {
        return Err(at.error);
      }
      var k := |reservations|;
      InsertReservation(Reservation(i, p.subject, data.cartRef, None, None, data.quantity, Active, at.value, None, 1));
      LogMovement(i, Reserve, CustomerOrder, 0, data.quantity, RowRef(k));
      AddRecord(p.subject, key, request, k);
      return Ok(k);
    }

    method ChangeCounters(i: Id, onHandDelta: int, reservedDelta: int)
      requires i in items
      modifies this`items
      ensures items == old(items)[i := old(items)[i].(onHand := old(items)[i].onHand + onHandDelta,
                                                      reserved := old(items)[i].reserved + reservedDelta,
                                                      version := old(items)[i].version + 1)]
    {
      items := items[i := items[i].(reserved := items[i].reserved + reservedDelta)];
      items := items[i := items[i].(onHand := items[i].onHand + onHandDelta)];
      items := items[i := items[i].(version := items[i].version + 1)];
      assert items == old(items)[i := items[i]];
    }

    method MarkResolved(k: nat, status: Status, orderRef: Option<string>, now: int)
      requires k < |reservations|
      modifies this`reservations
      ensures reservations == old(reservations)[k := old(reservations)[k].(
                status := status, orderRef := orderRef, resolvedAt := Some(now), version := old(reservations)[k].version + 1)]
    {
      reservations := reservations[k := reservations[k].(status := status)];
      reservations := reservations[k := reservations[k].(orderRef := orderRef)];
      reservations := reservations[k := reservations[k].(resolvedAt := Some(now))];
      reservations := reservations[k := reservations[k].(version := reservations[k].version + 1)];
      assert reservations == old(reservations)[k := reservations[k]];
    }

    /** Reserve the quantity of a new row on its item and insert the row. */
    method InsertReservation(row: Reservation)
      requires row.item in items
      modifies this`items, this`reservations
      ensures items == old(items)[row.item := Reserved(old(items)[row.item], row.quantity)]
      ensures reservations == old(reservations) + [row]
    {
      ChangeCounters(row.item, 0, row.quantity);
      reservations := reservations + [row];
    }

    // -------------------------------------------------------------- batches

    /** Take from one row: remember the row as it was if it is new to the batch, reserve, insert. */
    method TakeFrom(data: BatchData, group: Id, at: int, i: Id, take: int, ghost start: map<Id, Item>,
                    ghost earlier: seq<Take>, ghost lineTakes: seq<Take>, touched0: seq<Id>, before0: map<Id, Item>)
      returns (touched: seq<Id>, before: map<Id, Item>)
      requires Progress(start, items, earlier + lineTakes, touched0, before0)
      requires Untouched(start, earlier + lineTakes, i)
      modifies this`items, this`reservations
      ensures Progress(start, items, earlier + (lineTakes + [Take(i, take)]), touched, before)
      ensures Quantity(lineTakes + [Take(i, take)]) == Quantity(lineTakes) + take
      ensures reservations == old(reservations) + [RowOf(data, Take(i, take), group, at)]
    {
      ProgressItem(start, items, earlier + lineTakes, touched0, before0, i);
      ProgressStep(start, items, earlier, lineTakes, touched0, before0, Take(i, take));
      touched, before := touched0, before0;
      if i !in before {
        touched := touched + [i];
        before := before[i := items[i]];
      }
      InsertReservation(
        Reservation(i, data.customer, data.cartRef, data.orderRef, Some(group), take, Active, at, None, 1));
    }

    /** Row j of a line's pair: take what it has of what is still missing. */
    method VisitRow(data: BatchData, ids: seq<Id>, ghost quantity: int, group: Id, at: int, j: nat,
                    ghost start: map<Id, Item>, ghost a: seq<int>, ghost earlier: seq<Take>, ghost rows: seq<Reservation>,
                    touched0: seq<Id>, before0: map<Id, Item>, remaining0: int)
      returns (touched: seq<Id>, before: map<Id, Item>, remaining: int)
      requires |a| == |ids| && 0 < quantity && Walkable(start, earlier, ids, a, quantity)
      requires j < |ids| && 0 < remaining0
      requires WalkedTo(start, items, earlier, Takes(ids, a, quantity, j), quantity, touched0, before0, remaining0,
                        data, rows, reservations, group, at)
      modifies this`items, this`reservations
      ensures WalkedTo(start, items, earlier, Takes(ids, a, quantity, j + 1), quantity, touched, before, remaining,
                       data, rows, reservations, group, at)
    {
      hide Takes, Walkable, Untouched, Progress, Rows, Quantity, RowOf, Item.Available;
      touched, before, remaining := touched0, before0, remaining0;
      ghost var lineTakes, rows1 := Takes(ids, a, quantity, j), reservations;
      WalkableAt(start, earlier, ids, a, quantity, j);
      ProgressItem(start, items, earlier + lineTakes, touched, before, ids[j]);
      var take := Min(items[ids[j]].Available(), remaining);
      GreedyShare(ids, a, quantity, j, take);
      if take > 0 {
        touched, before := TakeFrom(data, group, at, ids[j], take, start, earlier, lineTakes, touched, before);
        RowsStep(rows, rows1, data, lineTakes, Take(ids[j], take), group, at);
        remaining := remaining - take;
      }
    }

    /** Walk over the rows of a line's pair, taking from each what is still missing. `touched` and
        `before` are the touched items in order and their rows from before the batch. */
    method TakeRows(data: BatchData, ids: seq<Id>, quantity: int, group: Id, at: int,
                    ghost start: map<Id, Item>, ghost a: seq<int>, ghost earlier: seq<Take>,
                    touched0: seq<Id>, before0: map<Id, Item>)
      returns (touched: seq<Id>, before: map<Id, Item>, ghost lineTakes: seq<Take>)
      requires |a| == |ids| && 0 < quantity && Walkable(start, earlier, ids, a, quantity)
      requires Progress(start, items, earlier, touched0, before0)
      modifies this`items, this`reservations
      ensures lineTakes == Takes(ids, a, quantity, |ids|)
      ensures Progress(start, items, earlier + lineTakes, touched, before)
      ensures reservations == old(reservations) + Rows(data, lineTakes, group, at)
    {
      hide *;
      touched, before := touched0, before0;
      var remaining := quantity;
      var j := 0;
      ghost var rows := reservations;
      WalkStarts(start, items, earlier, ids, a, quantity, touched, before, data, rows, group, at);
      while j < |ids| && remaining > 0
        invariant j <= |ids|
        invariant WalkedTo(start, items, earlier, Takes(ids, a, quantity, j), quantity, touched, before, remaining,
                           data, rows, reservations, group, at)
      {
        touched, before, remaining := VisitRow(data, ids, quantity, group, at, j, start, a, earlier, rows,
                                               touched, before, remaining);
        j := j + 1;
      }
      lineTakes := Takes(ids, a, quantity, j);
      WalkEnds(start, items, earlier, lineTakes, quantity, touched, before, remaining, data, rows, reservations, group, at);
      LineDone(ids, a, quantity, j);
    }

    /** One line of a batch. */
    method TakeLine(data: BatchData, n: nat, start: map<Id, Item>, group: Id, at: int,
                    ghost earlier: seq<Take>, touched0: seq<Id>, before0: map<Id, Item>)
      returns (touched: seq<Id>, before: map<Id, Item>, ghost lineTakes: seq<Take>)
      requires ValidBatch(data) && n < |data.lines|
      requires earlier == BatchTakes(start, data.lines[..n])
      requires Progress(start, items, earlier, touched0, before0)
      modifies this`items, this`reservations
      ensures lineTakes == LineTakes(start, data.lines[n])
      ensures Progress(start, items, earlier + lineTakes, touched, before)
      ensures reservations == old(reservations) + Rows(data, lineTakes, group, at)
    {
      var line := data.lines[n];
      var ids := Candidates(start, line.seller, line.sku);
      ghost var a := Availabilities(start, ids);
      LineWalkable(start, data.lines, n);
      touched, before, lineTakes :=
        TakeRows(data, ids, line.quantity, group, at, start, a, earlier, touched0, before0);
    }

    /** The lines of a batch in turn; the first that cannot be served ends the walk with its error. */
    method TakeLines(data: BatchData, group: Id, at: int)
      returns (error: Option<Error>, touched: seq<Id>, before: map<Id, Item>)
      requires ValidBatch(data)
      modifies this`items, this`reservations
      ensures error == BatchError(old(items), data.lines)
      ensures var takes := BatchTakes(old(items), data.lines);
              error.None? ==> Progress(old(items), items, takes, touched, before)
                              && reservations == old(reservations) + Rows(data, takes, group, at)
    {
      var start := items;
      ghost var takes: seq<Take> := [];
      touched, before := [], map[];
      var n := 0;
      NothingTaken(data, [], reservations, group, at);
      hide Progress, Rows, LineTakes, Candidates;
      assert Progress(start, items, takes, touched, before) by { NothingTouched(start); }
      while n < |data.lines|
        invariant n <= |data.lines|
        invariant BatchError(start, data.lines[..n]).None? && takes == BatchTakes(start, data.lines[..n])
        invariant Progress(start, items, takes, touched, before)
        invariant reservations == old(reservations) + Rows(data, takes, group, at)
      {
        BatchPrefix(start, data.lines, n);
        var line := data.lines[n];
        var ids := Candidates(start, line.seller, line.sku);
        AvailabilityUnchanged(start, items, data.lines, n, touched, before);
        if ids == [] {
          ErrorOfPrefix(start, data.lines, n + 1);
          return Some(InvalidSku), touched, before;
        }
        var available := Sum(Availabilities(items, ids));
        if available < line.quantity {
          ErrorOfPrefix(start, data.lines, n + 1);
          return Some(InsufficientStock), touched, before;
        }
        ghost var lineTakes;
        touched, before, lineTakes := TakeLine(data, n, start, group, at, takes, touched, before);
        RowsJoin(data, old(reservations), takes, lineTakes, group, at);
        takes := takes + lineTakes;
        n := n + 1;
      }
      assert data.lines[..n] == data.lines;
      return None, touched, before;
    }

    /** One RESERVATION movement per touched item, with the change since before the batch. */
    method LogTouched(touched: seq<Id>, before: map<Id, Item>, group: Id, ghost start: map<Id, Item>, ghost takes: seq<Take>)
      requires Progress(start, items, takes, touched, before)
      modifies this`ledger
      ensures ledger == old(ledger) + Entries(start, takes, GroupRef(group))
    {
      var k := 0;
      assert old(ledger) + Entries(start, takes[..0], GroupRef(group)) == ledger;
      while k < |touched|
        invariant k <= |touched|
        invariant ledger == old(ledger) + Entries(start, takes[..k], GroupRef(group))
      {
        var i := touched[k];
        ApplyOnce(start, takes, k);
        LogMovement(i, Reserve, CustomerOrder, 0, items[i].reserved - before[i].reserved, GroupRef(group));
        assert old(ledger) + Entries(start, takes[..k + 1], GroupRef(group))
            == old(ledger) + Entries(start, takes[..k], GroupRef(group)) + [Entry(start, takes[k], GroupRef(group))];
        k := k + 1;
      }
      assert takes[..k] == takes;
    }

    /** The allocation of a batch as one transaction: the counters and rows first, the ledger afterwards. */
    method ReserveBatch(data: BatchData, group: Id, at: int) returns (error: Option<Error>)
      requires ValidBatch(data) && group == |reservations|
      modifies this
      ensures error == BatchError(old(items), data.lines)
      ensures error.Some? ==> Tab() == old(Tab())
      ensures OnItems(BatchRows(old(Tab()), data, at), old(items))
      ensures error.None? ==> Tab() == ReserveAll(old(Tab()), BatchRows(old(Tab()), data, at), GroupRef(group))
    {
      hide BatchTakes, BatchError, BatchRows, ReserveAll, Rows, Entries, ApplyTakes, Progress, ValidBatch, DistinctItems, OnItems;
      var committed := Tables(items, reservations, ledger, records);
      ghost var takes := BatchRowsAre(committed, data, at);
      var touched, before;
      error, touched, before := TakeLines(data, group, at);
      if error.Some? {
        Rollback(committed);
        return;
      }
      LogTouched(touched, before, group, committed.items, takes);
      BatchDone(committed, Tab(), data, takes, group, at, touched, before);
    }

    method CreateBatchReservation(key: Option<string>, data: BatchData, now: int) returns (r: Result<Id, Error>)
      modifies this
      ensures (Tab(), r) == Inventory.CreateBatch(old(Tab()), settings, key, data, now)
    {
      if !ValidBatch(data) {
        return Err(InvalidRequest);
      }
      var request := BatchRequest(data);
      var existing := FindRecord(data.customer, key, request);
      if existing.Err? {
        return Err(existing.error);
      }
      if existing.value.Some? && GroupRows(reservations, existing.value.value.resource) != [] {
        return Ok(existing.value.value.resource);
      }
      var at := ExpiresAt(data.expiresAt, now);
      if at.Err? {
        return Err(at.error);
      }
      var group := |reservations|;
      var error := ReserveBatch(data, group, at.value);
      if error.Some? {
        return Err(error.value);
      }
      AddRecord(data.customer, key, request, group);
      return Ok(group);
    }

    // -------------------------------------------------------------- resolving reservations

    /** `_resolve_reservation` and its flush; a rejected flush leaves nothing behind. */
    method Resolve(k: nat, target: Status, reason: Reason, now: int) returns (r: Result<(), Error>)
      requires k < |reservations|
      modifies this
      ensures var spec := TryResolve(old(Tab()), k, target, reason, now);
              if spec.Ok? then r.Ok? && Tab() == spec.value else r == Err(spec.error) && Tab() == old(Tab())
      ensures |reservations| == old(|reservations|)
    {
      var committed := Tables(items, reservations, ledger, records);
      var i := reservations[k].item;
      if i !in items {
        return Err(ItemMissing);
      }
      ResolveSpec(Tab(), k, target, reason, now);
      hide TryResolve, ResolveRow, Move, Item.Checks;
      var quantity := reservations[k].quantity;
      ChangeCounters(i, 0, -quantity);
      MarkResolved(k, target, reservations[k].orderRef, now);
      LogMovement(i, Release, reason, 0, -quantity, RowRef(k));
      if !items[i].Checks() || quantity == 0 {
        Rollback(committed);
        return Err(IntegrityError);
      }
      return Ok(());
    }

    /** Commit one row, with the flush of its changes. */
    method Commit(k: nat, orderRef: Option<string>, now: int, reference: Reference) returns (r: Result<(), Error>)
      requires k < |reservations|
      modifies this
      ensures var spec := TryCommit(old(Tab()), k, orderRef, now, reference);
              if spec.Ok? then r.Ok? && Tab() == spec.value else r == Err(spec.error) && Tab() == old(Tab())
      ensures |reservations| == old(|reservations|)
    {
      var committed := Tables(items, reservations, ledger, records);
      var i := reservations[k].item;
      if i !in items {
        return Err(ItemMissing);
      }
      CommitSpec(Tab(), k, orderRef, now, reference);
      hide TryCommit, CommitRow, Move, Item.Checks;
      var quantity := reservations[k].quantity;
      ChangeCounters(i, -quantity, -quantity);
      MarkResolved(k, Committed, orderRef, now);
      LogMovement(i, Commitment, CustomerOrder, -quantity, -quantity, reference);
      if !items[i].Checks() || quantity == 0 {
        Rollback(committed);
        return Err(IntegrityError);
      }
      return Ok(());
    }

    /** Resolve the given rows in one transaction. */
    method ResolveRows(rows: seq<nat>, target: Status, reason: Reason, now: int) returns (r: Result<(), Error>)
      requires InRange(rows, |reservations|)
      modifies this
      ensures var spec := ResolveAll(old(Tab()), rows, target, reason, now);
              if spec.Ok? then r.Ok? && Tab() == spec.value else r == Err(spec.error) && Tab() == old(Tab())
    {
      var committed := Tables(items, reservations, ledger, records);
      var n := 0;
      hide TryResolve;
      while n < |rows|
        invariant n <= |rows| && |reservations| == old(|reservations|)
        invariant ResolveAll(old(Tab()), rows[..n], target, reason, now) == Ok(Tab())
      {
        assert rows[..n + 1][..n] == rows[..n];
        var one := Resolve(rows[n], target, reason, now);
        if one.Err? {
          ResolveErrorSticks(committed, rows, n + 1, target, reason, now);
          Rollback(committed);
          return Err(one.error);
        }
        n := n + 1;
      }
      assert rows[..n] == rows;
      return Ok(());
    }

    method CommitRows(rows: seq<nat>, now: int, reference: Reference) returns (r: Result<(), Error>)
      requires InRange(rows, |reservations|)
      modifies this
      ensures var spec := CommitAll(old(Tab()), rows, now, reference);
              if spec.Ok? then r.Ok? && Tab() == spec.value else r == Err(spec.error) && Tab() == old(Tab())
    {
      var committed := Tables(items, reservations, ledger, records);
      var n := 0;
      hide TryCommit;
      while n < |rows|
        invariant n <= |rows| && |reservations| == old(|reservations|)
        invariant CommitAll(old(Tab()), rows[..n], now, reference) == Ok(Tab())
      {
        assert rows[..n + 1][..n] == rows[..n];
        var one := Commit(rows[n], reservations[rows[n]].orderRef, now, reference);
        if one.Err? {
          CommitErrorSticks(committed, rows, n + 1, now, reference);
          Rollback(committed);
          return Err(one.error);
        }
        n := n + 1;
      }
      assert rows[..n] == rows;
      return Ok(());
    }

    method CommitReservationGroup(g: Id, p: Principal, now: int) returns (r: Result<seq<nat>, Error>)
      modifies this
      ensures (Tab(), r) == CommitGroup(old(Tab()), g, p, now)
    {
      var locked := LockGroup(g, p);
      if locked.Err? {
        return Err(locked.error);
      }
      var rows := locked.value;
      if AllHave(reservations, rows, Committed) {
        return Ok(rows);
      }
      if !AllHave(reservations, rows, Active) {
        return Err(GroupNotActive);
      }
      if AnyExpired(reservations, rows, now) {
        var expired := ResolveRows(rows, Expired, Reason.ReservationExpired, now);
        if expired.Err? {
          return Err(expired.error);
        }
        return Err(Error.ReservationExpired);
      }
      var done := CommitRows(rows, now, GroupRef(g));
      if done.Err? {
        return Err(done.error);
      }
      return Ok(rows);
    }

    method ReleaseReservationGroup(g: Id, p: Principal, reason: Reason, now: int) returns (r: Result<seq<nat>, Error>)
      modifies this
      ensures (Tab(), r) == ReleaseGroup(old(Tab()), g, p, reason, now)
    {
      var locked := LockGroup(g, p);
      if locked.Err? {
        return Err(locked.error);
      }
      var rows := locked.value;
      if AllHave(reservations, rows, Released) {
        return Ok(rows);
      }
      if !AllHave(reservations, rows, Active) {
        return Err(GroupNotActive);
      }
      var done := ResolveRows(rows, Released, reason, now);
      if done.Err? {
        return Err(done.error);
      }
      return Ok(rows);
    }

    method LockGroup(g: Id, p: Principal) returns (r: Result<seq<nat>, Error>)
      ensures r == LockedGroup(Tab(), g, p)
    {
      var rows := GroupRows(reservations, g);
      if rows == [] {
        return Err(GroupNotFound);
      }
      assert rows[0] in rows;
      if !MayResolve(p, reservations[rows[0]].customer) {
        return Err(ReservationForbidden);
      }
      return Ok(rows);
    }

    method LockActive(k: nat, p: Principal) returns (r: Result<Reservation, Error>)
      ensures r == ActiveRow(Tab(), k, p)
    {
      if k >= |reservations| {
        return Err(ReservationNotFound);
      }
      if !MayResolve(p, reservations[k].customer) {
        return Err(ReservationForbidden);
      }
      if reservations[k].status != Active {
        return Err(ReservationNotActive);
      }
      if reservations[k].item !in items {
        return Err(ItemMissing);
      }
      return Ok(reservations[k]);
    }

    method CommitReservation(k: nat, orderRef: string, p: Principal, now: int) returns (r: Result<nat, Error>)
      modifies this
      ensures (Tab(), r) == Inventory.CommitReservation(old(Tab()), k, orderRef, p, now)
    {
      var locked := LockActive(k, p);
      if locked.Err? {
        return Err(locked.error);
      }
      if reservations[k].expiresAt <= now {
        var expired := Resolve(k, Expired, Reason.ReservationExpired, now);
        if expired.Err? {
          return Err(expired.error);
        }
        return Err(Error.ReservationExpired);
      }
      var done := Commit(k, Some(orderRef), now, OrderRef(orderRef));
      if done.Err? {
        return Err(done.error);
      }
      return Ok(k);
    }

    method ReleaseReservation(k: nat, p: Principal, reason: Reason, now: int) returns (r: Result<nat, Error>)
      modifies this
      ensures (Tab(), r) == Inventory.ReleaseReservation(old(Tab()), k, p, reason, now)
    {
      var locked := LockActive(k, p);
      if locked.Err? {
        return Err(locked.error);
      }
      var done := Resolve(k, Released, reason, now);
      if done.Err? {
        return Err(done.error);
      }
      return Ok(k);
    }

    /** The sweep over the rows the query returned; a rejected row is skipped by its savepoint. */
    method ExpireReservations(fetched: seq<nat>, now: int) returns (count: nat)
      requires InRange(fetched, |reservations|)
      modifies this
      ensures Tab() == Sweep(old(Tab()), fetched, now)
      ensures count == SweepCount(old(Tab()), fetched, now)
    {
      count := 0;
      var n := 0;
      hide TryResolve;
      while n < |fetched|
        invariant n <= |fetched| && |reservations| == old(|reservations|)
        invariant Tab() == Sweep(old(Tab()), fetched[..n], now)
        invariant count == SweepCount(old(Tab()), fetched[..n], now)
      {
        assert fetched[..n + 1][..n] == fetched[..n];
        var one := Resolve(fetched[n], Expired, Reason.ReservationExpired, now);
        if one.Ok? {
          count := count + 1;
        }
        n := n + 1;
      }
      assert fetched[..n] == fetched;
    }
  }

  lemma {:induction false} ResolveErrorSticks(t: Tables, rows: seq<nat>, n: nat, target: Status, reason: Reason, now: int)
    requires InRange(rows, |t.reservations|) && n <= |rows| && ResolveAll(t, rows[..n], target, reason, now).Err?
    ensures ResolveAll(t, rows, target, reason, now) == ResolveAll(t, rows[..n], target, reason, now)
    decreases |rows|
  {
    hide TryResolve;
    if n < |rows| {
      assert rows[..|rows| - 1][..n] == rows[..n];
      ResolveErrorSticks(t, rows[..|rows| - 1], n, target, reason, now);
    } else {
      assert rows[..n] == rows;
    }
  }

  lemma {:induction false} CommitErrorSticks(t: Tables, rows: seq<nat>, n: nat, now: int, reference: Reference)
    requires InRange(rows, |t.reservations|) && n <= |rows| && CommitAll(t, rows[..n], now, reference).Err?
    ensures CommitAll(t, rows, now, reference) == CommitAll(t, rows[..n], now, reference)
    decreases |rows|
  {
    hide TryCommit;
    if n < |rows| {
      assert rows[..|rows| - 1][..n] == rows[..n];
      CommitErrorSticks(t, rows[..|rows| - 1], n, now, reference);
    } else {
      assert rows[..n] == rows;
    }
  }

  lemma BatchRowsAre(t: Tables, data: BatchData, at: int) returns (takes: seq<Take>)
    requires ValidBatch(data)
    ensures takes == BatchTakes(t.items, data.lines) && DistinctItems(takes)
    ensures forall k :: 0 <= k < |takes| ==> takes[k].item in t.items
    ensures BatchRows(t, data, at) == Rows(data, takes, |t.reservations|, at)
    ensures OnItems(BatchRows(t, data, at), t.items)
  {
    takes := BatchTakes(t.items, data.lines);
    BatchTakesInItems(t.items, data.lines);
    BatchTakesDistinct(t.items, data.lines);
  }

  lemma BatchDone(t: Tables, t': Tables, data: BatchData, takes: seq<Take>, group: Id, at: int,
                  touched: seq<Id>, before: map<Id, Item>)
    requires Progress(t.items, t'.items, takes, touched, before)
    requires t'.reservations == t.reservations + Rows(data, takes, group, at)
    requires t'.ledger == t.ledger + Entries(t.items, takes, GroupRef(group)) && t'.records == t.records
    requires OnItems(Rows(data, takes, group, at), t.items)
    ensures t' == ReserveAll(t, Rows(data, takes, group, at), GroupRef(group))
  {
    hide ReserveAll, Entries;
    LedgerMayWait(t, data, takes, group, at, GroupRef(group));
  }

  lemma NothingTouched(start: map<Id, Item>)
    ensures Progress(start, start, [], [], map[])
  {
  }

  /** When its turn comes, the rows of line n are as available as before the batch. */
  lemma AvailabilityUnchanged(start: map<Id, Item>, items: map<Id, Item>, lines: seq<Line>, n: nat,
                              touched: seq<Id>, before: map<Id, Item>)
    requires n < |lines| && UniquePairs(lines)
    requires Progress(start, items, BatchTakes(start, lines[..n]), touched, before)
    ensures var ids := Candidates(start, lines[n].seller, lines[n].sku);
            && (forall i :: i in ids ==> i in items)
            && Availabilities(items, ids) == Availabilities(start, ids)
  {
    var ids := Candidates(start, lines[n].seller, lines[n].sku);
    var takes := BatchTakes(start, lines[..n]);
    forall j | 0 <= j < |ids| ensures ids[j] in items && items[ids[j]] == start[ids[j]] {
      assert ids[j] in ids;
      PairUntouched(start, lines, n, takes, ids[j]);
      ProgressItem(start, items, takes, touched, before, ids[j]);
    }
  }

  lemma RowsJoin(data: BatchData, rs: seq<Reservation>, a: seq<Take>, b: seq<Take>, group: Id, at: int)
    ensures rs + Rows(data, a, group, at) + Rows(data, b, group, at) == rs + Rows(data, a + b, group, at)
  {
  }

  ghost predicate Untouched(start: map<Id, Item>, takes: seq<Take>, i: Id) {
    i in start && forall k :: 0 <= k < |takes| ==> takes[k].item in start && takes[k].item != i
  }

  /** Where a batch stands: the takes so far are in the item rows, and the touched items are remembered
      in order, each with its row from before the batch. */
  ghost predicate Progress(start: map<Id, Item>, items: map<Id, Item>, takes: seq<Take>,
                           touched: seq<Id>, before: map<Id, Item>)
  {
    && (forall k :: 0 <= k < |takes| ==> takes[k].item in start)
    && DistinctItems(takes)
    && items == ApplyTakes(start, takes)
    && Remembered(start, takes, touched, before)
  }

  ghost predicate Remembered(start: map<Id, Item>, takes: seq<Take>, touched: seq<Id>, before: map<Id, Item>)
    requires forall k :: 0 <= k < |takes| ==> takes[k].item in start
  {
    && |touched| == |takes|
    && (forall k :: 0 <= k < |takes| ==>
          touched[k] == takes[k].item && touched[k] in before && before[touched[k]] == start[touched[k]])
    && (forall i :: i in before ==> i in touched)
  }

  lemma ProgressItem(start: map<Id, Item>, items: map<Id, Item>, takes: seq<Take>,
                     touched: seq<Id>, before: map<Id, Item>, i: Id)
    requires Progress(start, items, takes, touched, before) && Untouched(start, takes, i)
    ensures i in items && items[i] == start[i] && i !in before
  {
    ApplyElsewhere(start, takes, i);
  }

  /** Each of the rows still is as it was when its turn comes, with the availability recorded in a. */
  ghost predicate Walkable(start: map<Id, Item>, earlier: seq<Take>, ids: seq<Id>, a: seq<int>, quantity: int)
    requires |a| == |ids|
  {
    forall j :: 0 <= j < |ids| ==>
      && Untouched(start, earlier + Takes(ids, a, quantity, j), ids[j])
      && a[j] == start[ids[j]].Available()
  }

  lemma WalkableAt(start: map<Id, Item>, earlier: seq<Take>, ids: seq<Id>, a: seq<int>, quantity: int, j: nat)
    requires |a| == |ids| && Walkable(start, earlier, ids, a, quantity) && j < |ids|
    ensures Untouched(start, earlier + Takes(ids, a, quantity, j), ids[j])
    ensures ids[j] in start && a[j] == start[ids[j]].Available()
  {
  }

  /** A row of line n is touched neither by an earlier line nor earlier in its own. */
  lemma LineWalkable(start: map<Id, Item>, lines: seq<Line>, n: nat)
    requires n < |lines| && UniquePairs(lines)
    ensures var ids := Candidates(start, lines[n].seller, lines[n].sku);
            Walkable(start, BatchTakes(start, lines[..n]), ids, Availabilities(start, ids), lines[n].quantity)
  {
    var ids := Candidates(start, lines[n].seller, lines[n].sku);
    var a := Availabilities(start, ids);
    var earlier := BatchTakes(start, lines[..n]);
    forall j | 0 <= j < |ids| ensures Untouched(start, earlier + Takes(ids, a, lines[n].quantity, j), ids[j]) {
      CandidateUntouched(start, lines, n, j);
    }
  }

  lemma CandidateUntouched(start: map<Id, Item>, lines: seq<Line>, n: nat, j: nat)
    requires n < |lines| && UniquePairs(lines)
    requires j < |Candidates(start, lines[n].seller, lines[n].sku)|
    ensures var ids := Candidates(start, lines[n].seller, lines[n].sku);
            Untouched(start, BatchTakes(start, lines[..n]) + Takes(ids, Availabilities(start, ids), lines[n].quantity, j), ids[j])
  {
    var ids := Candidates(start, lines[n].seller, lines[n].sku);
    var a := Availabilities(start, ids);
    assert ids[j] in ids;
    PairUntouched(start, lines, n, BatchTakes(start, lines[..n]), ids[j]);
    var own := Takes(ids, a, lines[n].quantity, j);
    TakesInItems(ids, a, lines[n].quantity, j);
    forall k | 0 <= k < |own| ensures own[k].item in start && own[k].item != ids[j] {
      assert own[k].item in ids[..j];
    }
  }

  lemma NothingTaken(data: BatchData, earlier: seq<Take>, rs: seq<Reservation>, group: Id, at: int)
    ensures earlier + [] == earlier && rs + Rows(data, [], group, at) == rs && Quantity([]) == 0
  {
  }

  /** The closed form gives row j what the walk takes of it. */
  lemma GreedyShare(ids: seq<Id>, a: seq<int>, quantity: int, j: nat, take: int)
    requires |a| == |ids| && j < |ids| && 0 <= quantity
    requires take == Min(a[j], quantity - Quantity(Takes(ids, a, quantity, j)))
    ensures Takes(ids, a, quantity, j + 1)
            == if take > 0 then Takes(ids, a, quantity, j) + [Take(ids[j], take)] else Takes(ids, a, quantity, j)
  {
    hide Share, GivenBefore, Quantity;
    ShareIsGreedy(ids, a, quantity, j);
    assert Share(a, quantity, j) == Max(0, take);
  }

  /** When the walk ends, the line has all it asked for, or has been to all its rows. */
  lemma LineDone(ids: seq<Id>, a: seq<int>, quantity: int, j: nat)
    requires |a| == |ids| && 0 <= quantity && j <= |ids|
    ensures var takes := Takes(ids, a, quantity, j);
            j == |ids| || quantity <= Quantity(takes) ==> takes == Takes(ids, a, quantity, |ids|)
  {
    TakesQuantity(ids, a, quantity, j);
    if quantity <= Quantity(Takes(ids, a, quantity, j)) {
      RestGivesNothing(ids, a, quantity, j, |ids|);
    }
  }

  ghost predicate RowsAdded(rs: seq<Reservation>, rs': seq<Reservation>, data: BatchData, takes: seq<Take>, group: Id, at: int) {
    rs' == rs + Rows(data, takes, group, at)
  }

  /** Where the walk over one line's rows stands. */
  ghost predicate WalkedTo(start: map<Id, Item>, items: map<Id, Item>, earlier: seq<Take>, takes: seq<Take>, quantity: int,
                           touched: seq<Id>, before: map<Id, Item>, remaining: int,
                           data: BatchData, rs: seq<Reservation>, rs': seq<Reservation>, group: Id, at: int)
  {
    && Progress(start, items, earlier + takes, touched, before)
    && remaining == quantity - Quantity(takes)
    && RowsAdded(rs, rs', data, takes, group, at)
  }

  lemma WalkStarts(start: map<Id, Item>, items: map<Id, Item>, earlier: seq<Take>, ids: seq<Id>, a: seq<int>, quantity: int,
                   touched: seq<Id>, before: map<Id, Item>, data: BatchData, rs: seq<Reservation>, group: Id, at: int)
    requires |a| == |ids| && 0 <= quantity && Progress(start, items, earlier, touched, before)
    ensures WalkedTo(start, items, earlier, Takes(ids, a, quantity, 0), quantity, touched, before, quantity,
                     data, rs, rs, group, at)
  {
    NothingTaken(data, earlier, rs, group, at);
    hide Progress, Rows;
  }

  lemma WalkEnds(start: map<Id, Item>, items: map<Id, Item>, earlier: seq<Take>, takes: seq<Take>, quantity: int,
                 touched: seq<Id>, before: map<Id, Item>, remaining: int,
                 data: BatchData, rs: seq<Reservation>, rs': seq<Reservation>, group: Id, at: int)
    requires WalkedTo(start, items, earlier, takes, quantity, touched, before, remaining, data, rs, rs', group, at)
    ensures Progress(start, items, earlier + takes, touched, before)
    ensures remaining == quantity - Quantity(takes)
    ensures rs' == rs + Rows(data, takes, group, at)
  {
  }

  lemma RowsStep(rs: seq<Reservation>, rs': seq<Reservation>, data: BatchData, takes: seq<Take>, take: Take, group: Id, at: int)
    requires RowsAdded(rs, rs', data, takes, group, at)
    ensures RowsAdded(rs, rs' + [RowOf(data, take, group, at)], data, takes + [take], group, at)
  {
    assert rs + Rows(data, takes + [take], group, at) == rs + Rows(data, takes, group, at) + [RowOf(data, take, group, at)];
  }

  lemma ProgressStep(start: map<Id, Item>, items: map<Id, Item>, earlier: seq<Take>, lineTakes: seq<Take>,
                     touched: seq<Id>, before: map<Id, Item>, take: Take)
    requires Progress(start, items, earlier + lineTakes, touched, before)
    requires Untouched(start, earlier + lineTakes, take.item)
    ensures Quantity(lineTakes + [take]) == Quantity(lineTakes) + take.quantity
    ensures Progress(start, items[take.item := Reserved(start[take.item], take.quantity)],
                     earlier + (lineTakes + [take]), touched + [take.item], before[take.item := start[take.item]])
  {
    hide Progress, ApplyTakes, Quantity, Reserved, DistinctItems, Untouched;
    var takes := earlier + lineTakes;
    assert earlier + (lineTakes + [take]) == takes + [take];
    OneMoreTake(lineTakes, take);
    ProgressMore(start, items, takes, touched, before, take);
  }

  lemma ProgressMore(start: map<Id, Item>, items: map<Id, Item>, takes: seq<Take>,
                     touched: seq<Id>, before: map<Id, Item>, take: Take)
    requires Progress(start, items, takes, touched, before) && Untouched(start, takes, take.item)
    ensures Progress(start, items[take.item := Reserved(start[take.item], take.quantity)],
                     takes + [take], touched + [take.item], before[take.item := start[take.item]])
  {
    ApplyOne(start, takes, take);
    ApplyElsewhere(start, takes, take.item);
    DistinctMore(start, takes, take);
    RememberedMore(start, takes, touched, before, take);
    hide ApplyTakes, Reserved, DistinctItems, Remembered;
  }

  lemma DistinctMore(start: map<Id, Item>, takes: seq<Take>, take: Take)
    requires DistinctItems(takes) && Untouched(start, takes, take.item)
    ensures DistinctItems(takes + [take]) && forall k :: 0 <= k < |takes + [take]| ==> (takes + [take])[k].item in start
  {
  }

  lemma RememberedMore(start: map<Id, Item>, takes: seq<Take>, touched: seq<Id>, before: map<Id, Item>, take: Take)
    requires Untouched(start, takes, take.item) && Remembered(start, takes, touched, before)
    ensures forall k :: 0 <= k < |takes + [take]| ==> (takes + [take])[k].item in start
    ensures Remembered(start, takes + [take], touched + [take.item], before[take.item := start[take.item]])
  {
    var touched', before' := touched + [take.item], before[take.item := start[take.item]];
    forall i | i in before' ensures i in touched' {
      assert i in touched || i == take.item;
      assert touched'[|touched|] == take.item;
    }
  }

  function Counted(item: Item, onHandDelta: int, reservedDelta: int): Item {
    item.(onHand := item.onHand + onHandDelta, reserved := item.reserved + reservedDelta, version := item.version + 1)
  }

  /** What resolving a row amounts to, table by table. */
  lemma ResolveSpec(t: Tables, k: nat, target: Status, reason: Reason, now: int)
    requires k < |t.reservations| && t.reservations[k].item in t.items
    ensures var r := t.reservations[k];
            var item := Counted(t.items[r.item], 0, -r.quantity);
            TryResolve(t, k, target, reason, now)
            == if item.Checks() && r.quantity != 0 then
                 Ok(Tables(t.items[r.item := item],
                           t.reservations[k := r.(status := target, orderRef := r.orderRef, resolvedAt := Some(now), version := r.version + 1)],
                           t.ledger + [Movement(r.item, Release, reason, 0, -r.quantity, item.onHand, item.reserved, RowRef(k))],
                           t.records))
               else Err(IntegrityError)
  {
  }

  lemma CommitSpec(t: Tables, k: nat, orderRef: Option<string>, now: int, reference: Reference)
    requires k < |t.reservations| && t.reservations[k].item in t.items
    ensures var r := t.reservations[k];
            var item := Counted(t.items[r.item], -r.quantity, -r.quantity);
            TryCommit(t, k, orderRef, now, reference)
            == if item.Checks() && r.quantity != 0 then
                 Ok(Tables(t.items[r.item := item],
                           t.reservations[k := r.(status := Committed, orderRef := orderRef, resolvedAt := Some(now), version := r.version + 1)],
                           t.ledger + [Movement(r.item, Commitment, CustomerOrder, -r.quantity, -r.quantity,
                                                item.onHand, item.reserved, reference)],
                           t.records))
               else Err(IntegrityError)
  {
  }

  lemma OneMoreTake(takes: seq<Take>, take: Take)
    ensures Quantity(takes + [take]) == Quantity(takes) + take.quantity
  {
    assert (takes + [take])[..|takes|] == takes;
  }
}
