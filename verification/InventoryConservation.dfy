/** Conservation of stock, counted from what callers asked for rather than from the ledger. */
module InventoryConservation {
  import opened Common
  import opened Inventory
  import opened StockInvariant
  import opened InventoryRuns

  /** What a call brings in of item i: the initial quantity or the adjustment it asked for, if it took effect. */
  function Received(t: Tables, c: Call, i: Id): int
    requires c.CallSweep? ==> InRange(c.fetched, |t.reservations|)
  {
    match c
    case CallCreateItem(_, _, data, newId, _, _) => if newId == i && After(t, c) != t then data.initial else 0
    case CallAdjust(_, _, item, data, _) => if item == i && After(t, c) != t then data.delta else 0
    case _ => 0
  }

  lemma MoveInflow(t: Tables, i: Id, a: int, b: int, kind: MovementType, reason: Reason, reference: Reference, j: Id)
    requires i in t.items
    ensures Inflow(Move(t, i, a, b, kind, reason, reference).ledger, j)
            == Inflow(t.ledger, j) + if i == j && (kind.Receipt? || kind.Adjustment?) then a else 0
  {
    var ledger := Move(t, i, a, b, kind, reason, reference).ledger;
    AppendFolds(t.ledger, ledger[|t.ledger|], j);
  }

  lemma ResolveInflow(t: Tables, k: nat, target: Status, reason: Reason, now: int, j: Id)
    requires k < |t.reservations|
    ensures var r := TryResolve(t, k, target, reason, now);
            r.Ok? ==> Inflow(r.value.ledger, j) == Inflow(t.ledger, j)
  {
    hide Move, Inflow;
    if t.reservations[k].item in t.items {
      var r := t.reservations[k];
      var r' := r.(status := target, resolvedAt := Some(now), version := r.version + 1);
      MoveInflow(t.(reservations := t.reservations[k := r']), r.item, 0, -r.quantity, Release, reason, RowRef(k), j);
    }
  }

  lemma CommitInflow(t: Tables, k: nat, orderRef: Option<string>, now: int, reference: Reference, j: Id)
    requires k < |t.reservations|
    ensures var r := TryCommit(t, k, orderRef, now, reference);
            r.Ok? ==> Inflow(r.value.ledger, j) == Inflow(t.ledger, j)
  {
    hide Move, Inflow;
    if t.reservations[k].item in t.items {
      var r := t.reservations[k];
      var r' := r.(status := Committed, orderRef := orderRef, resolvedAt := Some(now), version := r.version + 1);
      MoveInflow(t.(reservations := t.reservations[k := r']), r.item, -r.quantity, -r.quantity, Commitment, CustomerOrder,
                 reference, j);
    }
  }

  lemma {:induction false} ResolveAllInflow(t: Tables, rows: seq<nat>, target: Status, reason: Reason, now: int, j: Id)
    requires InRange(rows, |t.reservations|)
    ensures var r := ResolveAll(t, rows, target, reason, now);
            r.Ok? ==> Inflow(r.value.ledger, j) == Inflow(t.ledger, j)
  {
    if rows == [] {
    } else {
      hide TryResolve, Inflow;
      var earlier := ResolveAll(t, rows[..|rows| - 1], target, reason, now);
      ResolveAllInflow(t, rows[..|rows| - 1], target, reason, now, j);
      if earlier.Ok? {
        ResolveInflow(earlier.value, rows[|rows| - 1], target, reason, now, j);
      }
    }
  }

  lemma {:induction false} CommitAllInflow(t: Tables, rows: seq<nat>, now: int, reference: Reference, j: Id)
    requires InRange(rows, |t.reservations|)
    ensures var r := CommitAll(t, rows, now, reference);
            r.Ok? ==> Inflow(r.value.ledger, j) == Inflow(t.ledger, j)
  {
    if rows == [] {
    } else {
      hide TryCommit, Inflow;
      var earlier := CommitAll(t, rows[..|rows| - 1], now, reference);
      CommitAllInflow(t, rows[..|rows| - 1], now, reference, j);
      if earlier.Ok? {
        var k := rows[|rows| - 1];
        CommitInflow(earlier.value, k, earlier.value.reservations[k].orderRef, now, reference, j);
      }
    }
  }

  lemma {:induction false} SweepInflow(t: Tables, rows: seq<nat>, now: int, j: Id)
    requires InRange(rows, |t.reservations|)
    ensures Inflow(Sweep(t, rows, now).ledger, j) == Inflow(t.ledger, j)
  {
    if rows == [] {
    } else {
      hide TryResolve, Inflow;
      SweepInflow(t, rows[..|rows| - 1], now, j);
      ResolveInflow(Sweep(t, rows[..|rows| - 1], now), rows[|rows| - 1], Expired, Reason.ReservationExpired, now, j);
    }
  }

  lemma ReserveInflow(t: Tables, r: Reservation, reference: Reference, j: Id)
    requires r.item in t.items
    ensures Inflow(ReserveRow(t, r, reference).ledger, j) == Inflow(t.ledger, j)
  {
    hide Move, Inflow;
    MoveInflow(t.(reservations := t.reservations + [r]), r.item, 0, r.quantity, Reserve, CustomerOrder, reference, j);
  }

  lemma {:induction false} ReserveAllInflow(t: Tables, rows: seq<Reservation>, reference: Reference, j: Id)
    requires OnItems(rows, t.items)
    ensures Inflow(ReserveAll(t, rows, reference).ledger, j) == Inflow(t.ledger, j)
  {
    if rows == [] {
    } else {
      hide ReserveRow, Inflow;
      ReserveAllInflow(t, rows[..|rows| - 1], reference, j);
      ReserveInflow(ReserveAll(t, rows[..|rows| - 1], reference), rows[|rows| - 1], reference, j);
    }
  }

  lemma CreateItemInflow(t: Tables, c: Call, j: Id)
    requires c.CallCreateItem?
    ensures Inflow(After(t, c).ledger, j) == Inflow(t.ledger, j) + Received(t, c, j)
  {
    var t' := After(t, c);
    if t' != t {
      assert c.newId in t'.items && c.newId !in t.items;
      if c.create.initial != 0 {
        AppendFolds(t.ledger, t'.ledger[|t.ledger|], j);
      } else {
        assert t'.ledger == t.ledger;
      }
    }
  }

  lemma AdjustInflow(t: Tables, c: Call, j: Id)
    requires c.CallAdjust?
    ensures Inflow(After(t, c).ledger, j) == Inflow(t.ledger, j) + Received(t, c, j)
  {
    if After(t, c) != t {
      MoveInflow(t, c.item, c.adjust.delta, 0, Adjustment, c.adjust.reason, c.adjust.reference, j);
    }
  }

  lemma ReserveCallInflow(t: Tables, c: Call, j: Id)
    requires c.CallReserve?
    ensures Inflow(After(t, c).ledger, j) == Inflow(t.ledger, j)
  {
    hide Inflow, ReserveRow;
    if c.reserve.item in t.items && Expiry(c.s, c.reserve.expiresAt, c.now).Ok? {
      var r := Reservation(c.reserve.item, c.p.subject, c.reserve.cartRef, None, None, c.reserve.quantity, Active,
                           Expiry(c.s, c.reserve.expiresAt, c.now).value, None, 1);
      ReserveInflow(t, r, RowRef(|t.reservations|), j);
    }
  }

  lemma BatchCallInflow(t: Tables, c: Call, j: Id)
    requires c.CallBatch?
    ensures Inflow(After(t, c).ledger, j) == Inflow(t.ledger, j)
  {
    hide Inflow, ReserveAll, BatchRows, BatchError, GroupRows, ValidBatch;
    if Expiry(c.s, c.batch.expiresAt, c.now).Ok? {
      var at := Expiry(c.s, c.batch.expiresAt, c.now).value;
      RowsOnItems(t, c.batch, at);
      ReserveAllInflow(t, BatchRows(t, c.batch, at), GroupRef(FreshGroup(t)), j);
    }
  }

  lemma RowsOnItems(t: Tables, data: BatchData, at: int)
    ensures OnItems(BatchRows(t, data, at), t.items)
  {
    BatchTakesInItems(t.items, data.lines);
  }

  lemma GroupCallInflow(t: Tables, c: Call, j: Id)
    requires c.CallCommitGroup? || c.CallReleaseGroup?
    ensures Inflow(After(t, c).ledger, j) == Inflow(t.ledger, j)
  {
    var rows := GroupRows(t.reservations, c.group);
    hide Inflow, ResolveAll, CommitAll, AllHave, AnyExpired;
    match c
    case CallCommitGroup(g, p, now) =>
      ResolveAllInflow(t, rows, Expired, Reason.ReservationExpired, now, j);
      CommitAllInflow(t, rows, now, GroupRef(g), j);
    case CallReleaseGroup(g, p, reason, now) =>
      ResolveAllInflow(t, rows, Released, reason, now, j);
  }

  lemma SingleCallInflow(t: Tables, c: Call, j: Id)
    requires c.CallCommit? || c.CallRelease?
    ensures Inflow(After(t, c).ledger, j) == Inflow(t.ledger, j)
  {
    hide Inflow, TryResolve, TryCommit;
    if c.row < |t.reservations| {
      match c
      case CallCommit(k, orderRef, p, now) =>
        ResolveInflow(t, k, Expired, Reason.ReservationExpired, now, j);
        CommitInflow(t, k, Some(orderRef), now, OrderRef(orderRef), j);
      case CallRelease(k, p, reason, now) =>
        ResolveInflow(t, k, Released, reason, now, j);
    }
  }

  /** Only creating an item and adjusting one bring stock in, and they bring in what they were asked to. */
  lemma CallInflow(t: Tables, c: Call, j: Id)
    requires c.CallSweep? ==> InRange(c.fetched, |t.reservations|)
    ensures Inflow(After(t, c).ledger, j) == Inflow(t.ledger, j) + Received(t, c, j)
  {
    match c
    case CallCreateItem(_, _, _, _, _, _) => CreateItemInflow(t, c, j);
    case CallUpdateItem(_, _, _, _, _) =>
    case CallAdjust(_, _, _, _, _) => AdjustInflow(t, c, j);
    case CallReserve(_, _, _, _, _) => ReserveCallInflow(t, c, j);
    case CallBatch(_, _, _, _) => BatchCallInflow(t, c, j);
    case CallCommitGroup(_, _, _) => GroupCallInflow(t, c, j);
    case CallReleaseGroup(_, _, _, _) => GroupCallInflow(t, c, j);
    case CallCommit(_, _, _, _) => SingleCallInflow(t, c, j);
    case CallRelease(_, _, _, _) => SingleCallInflow(t, c, j);
    case CallSweep(fetched, _, now) => SweepInflow(t, fetched, now, j);
  }

  /** What the first n calls of a run brought in of item i. */
  ghost function TotalReceived(ts: seq<Tables>, calls: seq<Call>, n: nat, i: Id): int
    requires IsRun(ts, calls) && n < |ts|
  {
    if n == 0 then 0 else TotalReceived(ts, calls, n - 1, i) + Received(ts[n - 1], calls[n - 1], i)
  }

  lemma {:induction false} InflowIsReceived(ts: seq<Tables>, calls: seq<Call>, n: nat, i: Id)
    requires IsRun(ts, calls) && ts[0] == EMPTY && n < |ts|
    ensures Inflow(ts[n].ledger, i) == TotalReceived(ts, calls, n, i)
  {
    hide Received, After;
    if n == 0 {
    } else {
      InflowIsReceived(ts, calls, n - 1, i);
      CallInflow(ts[n - 1], calls[n - 1], i);
    }
  }

  /**
   Conservation over every run: an item's on-hand stock is all that successful creations and adjustments
   brought in of it, less what its COMMITTED reservations took; and together with its ACTIVE
   reservations these never take more than was brought in.
   */
  lemma StockConserved(ts: seq<Tables>, calls: seq<Call>, n: nat, i: Id)
    requires IsRun(ts, calls) && ts[0] == EMPTY && n < |ts| && i in ts[n].items
    ensures var t, total := ts[n], TotalReceived(ts, calls, n, i);
            && t.items[i].onHand == total - SumBy(t.reservations, i, Committed)
            && SumBy(t.reservations, i, Active) + SumBy(t.reservations, i, Committed) <= total
  {
    hide TotalReceived, Inflow;
    InflowIsReceived(ts, calls, n, i);
    NoOversell(ts, calls, n, i);
  }
}
