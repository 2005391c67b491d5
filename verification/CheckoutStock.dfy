/** Conservation of stock over checkout runs, counted from what callers asked for. */
module CheckoutStock {
  import opened Common
  import opened Checkout
  import opened CheckoutTheorems
  import Conservation = InventoryConservation
  import Inventory
  import InventoryRuns
  import Orders
  import Payments
  import Stock = StockInvariant

  /** What an action brings in of item i: only other calls of Inventory can. */
  function Brought(w: World, a: Action, i: Id): int
    requires a.OtherCall? && a.call.CallSweep? ==> Inventory.InRange(a.call.fetched, |w.inventory.reservations|)
  {
    if a.OtherCall? then Conservation.Received(w.inventory, a.call, i) else 0
  }

  lemma CommitBringsNothing(t: Inventory.Tables, g: Id, p: Inventory.Principal, now: int, i: Id)
    ensures Stock.Inflow(Inventory.CommitGroup(t, g, p, now).0.ledger, i) == Stock.Inflow(t.ledger, i)
  {
    hide Inventory.CommitGroup, Stock.Inflow;
    Conservation.GroupCallInflow(t, InventoryRuns.CallCommitGroup(g, p, now), i);
  }

  lemma ReleaseBringsNothing(t: Inventory.Tables, g: Id, p: Inventory.Principal, reason: Inventory.Reason, now: int, i: Id)
    ensures Stock.Inflow(Inventory.ReleaseGroup(t, g, p, reason, now).0.ledger, i) == Stock.Inflow(t.ledger, i)
  {
    hide Inventory.ReleaseGroup, Stock.Inflow;
    Conservation.GroupCallInflow(t, InventoryRuns.CallReleaseGroup(g, p, reason, now), i);
  }

  lemma BatchBringsNothing(t: Inventory.Tables, s: Inventory.Settings, key: Option<string>, data: Inventory.BatchData, now: int, i: Id)
    ensures Stock.Inflow(Inventory.CreateBatch(t, s, key, data, now).0.ledger, i) == Stock.Inflow(t.ledger, i)
  {
    hide Inventory.CreateBatch, Stock.Inflow;
    Conservation.BatchCallInflow(t, InventoryRuns.CallBatch(s, key, data, now), i);
  }

  lemma StepInflow(w: World, a: Action, i: Id)
    requires a.OtherCall? && a.call.CallSweep? ==> Inventory.InRange(a.call.fetched, |w.inventory.reservations|)
    ensures Stock.Inflow(Step(w, a).inventory.ledger, i) == Stock.Inflow(w.inventory.ledger, i) + Brought(w, a, i)
  {
    hide Stock.Inflow, Conservation.Received, InventoryRuns.After;
    if a.OtherCall? {
      Conservation.CallInflow(w.inventory, a.call, i);
    } else if OfPayment(a) {
      PaymentKeepsInventory(w, a);
    } else if OfOrder(a) {
      OrderInflow(w, a, i);
    } else {
      CreationInflow(w, a, i);
    }
  }

  lemma PaymentKeepsInventory(w: World, a: Action)
    requires OfPayment(a)
    ensures Step(w, a).inventory == w.inventory
  {
    hide Payments.Refund, Payments.AlreadyThere, Payments.Settle, CallbackFor;
  }

  lemma OrderInflow(w: World, a: Action, i: Id)
    requires OfOrder(a)
    ensures Stock.Inflow(Step(w, a).inventory.ledger, i) == Stock.Inflow(w.inventory.ledger, i)
  {
    hide Stock.Inflow, DoDeliverAuthorized, DoDeliverFailed;
    match a
    case DeliverAuthorized(n, p, now, delivery) => AuthorizedInflow(w, n, p, now, delivery, i);
    case DeliverFailed(n, p, reason, now, delivery) => FailedInflow(w, n, p, reason, now, delivery, i);
    case _ => OtherOrderActions(w, a);
  }

  lemma AuthorizedInflow(w: World, n: nat, p: Inventory.Principal, now: int, delivery: Delivery, i: Id)
    ensures Stock.Inflow(DoDeliverAuthorized(w, n, p, now, delivery).inventory.ledger, i) == Stock.Inflow(w.inventory.ledger, i)
  {
    hide Stock.Inflow, Inventory.CommitGroup, Orders.AuthorizeShortcut;
    if n < |w.sent| && w.sent[n].order in w.orders {
      CommitBringsNothing(w.inventory, w.orders[w.sent[n].order].group, p, now, i);
    }
  }

  lemma FailedInflow(w: World, n: nat, p: Inventory.Principal, reason: Inventory.Reason, now: int, delivery: Delivery, i: Id)
    ensures Stock.Inflow(DoDeliverFailed(w, n, p, reason, now, delivery).inventory.ledger, i)
            == Stock.Inflow(w.inventory.ledger, i)
  {
    hide Stock.Inflow, Inventory.ReleaseGroup, ReleaseTolerated, Orders.FailShortcut;
    if n < |w.sent| && w.sent[n].order in w.orders {
      ReleaseBringsNothing(w.inventory, w.orders[w.sent[n].order].group, p, reason, now, i);
    }
  }

  lemma OtherOrderActions(w: World, a: Action)
    requires OfOrder(a) && !a.DeliverAuthorized? && !a.DeliverFailed?
    ensures Step(w, a).inventory == w.inventory
  {
    hide Orders.OnRefunded, Orders.OnFulfillment, Orders.Confirm, Orders.Decline;
  }

  lemma CreationInflow(w: World, a: Action, i: Id)
    requires !a.OtherCall? && !OfPayment(a) && !OfOrder(a)
    ensures Stock.Inflow(Step(w, a).inventory.ledger, i) == Stock.Inflow(w.inventory.ledger, i)
  {
    hide Stock.Inflow, Inventory.CreateBatch, Inventory.ReleaseGroup, ReleaseTolerated;
    match a
    case ReserveOrder(_, settings, key, data, now, _) => BatchBringsNothing(w.inventory, settings, key, data, now, i);
    case AbandonOrder(id, p, reason, now, _) =>
      if id in w.claims {
        ReleaseBringsNothing(w.inventory, w.claims[id].group, p, reason, now, i);
      }
    case CancelRelease(k, p, reason, now, _) =>
      if k < |w.cancellations| && w.cancellations[k].order in w.orders {
        ReleaseBringsNothing(w.inventory, w.orders[w.cancellations[k].order].group, p, reason, now, i);
      }
    case _ =>
  }

  /** What the first n actions of a run brought in of item i. */
  ghost function TotalBrought(ws: seq<World>, actions: seq<Action>, n: nat, i: Id): int
    requires IsRun(ws, actions) && n < |ws|
  {
    if n == 0 then 0 else TotalBrought(ws, actions, n - 1, i) + Brought(ws[n - 1], actions[n - 1], i)
  }

  lemma {:induction false} InflowIsBrought(ws: seq<World>, actions: seq<Action>, n: nat, i: Id)
    requires IsRun(ws, actions) && n < |ws|
    ensures Stock.Inflow(ws[n].inventory.ledger, i) == TotalBrought(ws, actions, n, i)
  {
    hide Brought, Step;
    if n == 0 {
    } else {
      InflowIsBrought(ws, actions, n - 1, i);
      StepInflow(ws[n - 1], actions[n - 1], i);
    }
  }

  /**
   Conservation over every checkout run: an item's on-hand stock is all that successful creations and
   adjustments brought in of it, less what COMMITTED reservations took, and nothing is oversold. With
   `ConfirmedOrderIsShipped` every confirmed order's quantities are among the committed ones.
   */
  lemma CheckoutConservesStock(ws: seq<World>, actions: seq<Action>, n: nat, i: Id)
    requires IsRun(ws, actions) && n < |ws| && i in ws[n].inventory.items
    ensures var t, total := ws[n].inventory, TotalBrought(ws, actions, n, i);
            && t.items[i].onHand == total - Stock.SumBy(t.reservations, i, Inventory.Committed)
            && Stock.SumBy(t.reservations, i, Inventory.Active) + Stock.SumBy(t.reservations, i, Inventory.Committed) <= total
  {
    hide TotalBrought, Step;
    InflowIsBrought(ws, actions, n, i);
    RunOk(ws, actions, n);
    StockOfWorld(ws[n].inventory);
    hide Stock.Inflow, IsRun;
    assert Stock.ItemOk(ws[n].inventory, i);
  }
}
