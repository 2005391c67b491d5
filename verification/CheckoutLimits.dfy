/**
 Where the protocol promises less than one might read into it: exactly when a refunded payment reopens,
 and exactly when a declined payment or a cancellation gives the stock back.
 */
module CheckoutLimits {
  import opened Common
  import opened Checkout
  import opened CheckoutSafety
  import opened CheckoutSteps
  import opened CheckoutTheorems
  import opened Fulfilment
  import Inventory
  import InventoryRuns
  import InventorySafety
  import Stock = StockInvariant
  import Orders
  import Payments

  /**
   REFUNDED is not a final payment status: another success event makes the payment SUCCEEDED again,
   with its refunds in place, exactly when the order is still CONFIRMED at that moment.
   */
  lemma RefundedReopensIff(ws: seq<World>, actions: seq<Action>, n: nat, id: Id, event: Id,
                           p: Inventory.Principal, now: int, delivery: Delivery)
    requires IsRun(ws, actions) && n < |ws|
    requires id in ws[n].payments && ws[n].payments[id].status == Payments.Refunded
    requires event !in ws[n].webhooks && id !in ws[n].settling && id !in ws[n].handling
    ensures var w := ws[n];
            var w1 := DoBeginWebhook(w, id, event, true);
            var w2 := DoDeliverAuthorized(w1, |w.sent|, p, now, delivery);
            var w3 := DoFinishWebhook(w2, id);
            && id in w.orders && id in w3.payments && w3.payments[id].refunds == w.payments[id].refunds
            && (w3.payments[id].status == Payments.Succeeded <==> w.orders[id].status == Orders.Confirmed)
  {
    RunOk(ws, actions, n);
    PaymentOf(ws[n], id);
    OrderOf(ws[n], id);
    ReopenSteps(ws[n], id, event, p, now, delivery);
  }

  lemma ReopenSteps(w: World, id: Id, event: Id, p: Inventory.Principal, now: int, delivery: Delivery)
    requires id in w.payments && PaymentInv(w, id) && OrderInv(w, id) && AcceptedInRange(w)
    requires w.payments[id].status == Payments.Refunded
    requires event !in w.webhooks && id !in w.settling && id !in w.handling
    ensures var w1 := DoBeginWebhook(w, id, event, true);
            var w2 := DoDeliverAuthorized(w1, |w.sent|, p, now, delivery);
            var w3 := DoFinishWebhook(w2, id);
            && id in w3.payments && w3.payments[id].refunds == w.payments[id].refunds
            && (w3.payments[id].status == Payments.Succeeded <==> w.orders[id].status == Orders.Confirmed)
  {
    var n, o := |w.sent|, w.orders[id];
    var w1 := DoBeginWebhook(w, id, event, true);
    assert n !in w.accepted;
    assert o.status != Orders.PendingPayment;
    assert w1.sent[n] == AuthorizedMessage(id, o.total, o.currency);
    hide PaymentInv, OrderInv, AcceptedInRange, Inventory.CommitGroup;
    var w2 := DoDeliverAuthorized(w1, n, p, now, delivery);
    assert w2 == if o.status == Orders.Confirmed then w1.(accepted := w1.accepted + {n}) else w1;
  }

  /**
   A declined payment gives the stock back exactly when the whole group was ACTIVE, or had been
   released, when Order called Inventory: a 409 for any other group is tolerated.
   */
  lemma DeclineReleasesIff(ws: seq<World>, actions: seq<Action>, n: nat, id: Id,
                           p: Inventory.Principal, reason: Inventory.Reason, now: int)
    requires IsRun(ws, actions) && n < |ws| && id in ws[n].orders && p.commitScope
    ensures var t, g := ws[n].inventory, ws[n].orders[id].group;
            var (t', r) := ReleaseCall(ws[n], g, p, reason, now);
            && ReleaseTolerated(r)
            && (GroupAll(t', g, Inventory.Released)
                <==> GroupAll(t, g, Inventory.Active) || GroupAll(t, g, Inventory.Released))
  {
    hide IsRun, Step, AcceptedInRange;
    RunOk(ws, actions, n);
    OrderOf(ws[n], id);
    assert ClaimOk(ws[n], id);
    ReleaseReleasesIff(ws[n].inventory, ws[n].orders[id].group, p, reason, now);
  }

  /**
   A cancellation's call gives the stock back exactly when it reaches Inventory from someone who may
   resolve the customer's reservations and all of the group is ACTIVE, or if all of it had been
   released before. It goes on to write CANCELLED whenever such a caller gets an answer, whatever
   became of the stock.
   */
  lemma CancelReleasesIff(ws: seq<World>, actions: seq<Action>, n: nat, k: nat,
                          p: Inventory.Principal, reason: Inventory.Reason, now: int, delivery: Delivery)
    requires IsRun(ws, actions) && n < |ws|
    requires k < |ws[n].cancellations| && ws[n].cancellations[k].phase == HasRead
    ensures ws[n].cancellations[k].order in ws[n].orders
    ensures var w, w' := ws[n], DoCancelRelease(ws[n], k, p, reason, now, delivery);
            var o := w.orders[w.cancellations[k].order];
            var may := Inventory.MayResolve(p, o.customer);
            && (GroupAll(w'.inventory, o.group, Inventory.Released)
                <==> || GroupAll(w.inventory, o.group, Inventory.Released)
                     || (may && !delivery.NotDelivered? && GroupAll(w.inventory, o.group, Inventory.Active)))
            && (w'.cancellations[k].phase == HasReleased <==> may && delivery.Answered?)
  {
    hide IsRun, Step, AcceptedInRange;
    RunOk(ws, actions, n);
    CancellationsKnown(ws, actions, n, k);
    var w := ws[n];
    var id := w.cancellations[k].order;
    OrderOf(w, id);
    assert ClaimOk(w, id);
    ReleaseReleasesIff(w.inventory, w.orders[id].group, p, reason, now);
    hide WorldOk, OrderInv, ClaimOk, GroupAll, GroupExists, Inventory.ReleaseGroup, Inventory.MayResolve, ReleaseTolerated;
  }

  /** Once an order was confirmed, no call to release its group changes any table: a cancellation after
      that leaves the stock COMMITTED. */
  lemma ConfirmedReleaseChangesNothing(ws: seq<World>, actions: seq<Action>, n: nat, id: Id,
                                       p: Inventory.Principal, reason: Inventory.Reason, now: int)
    requires IsRun(ws, actions) && n < |ws| && id in ws[n].orders && Orders.Confirmed in ws[n].orders[id].history
    ensures var (t', r) := ReleaseCall(ws[n], ws[n].orders[id].group, p, reason, now);
            t' == ws[n].inventory && r.Err?
  {
    hide IsRun, Step, AcceptedInRange;
    RunOk(ws, actions, n);
    OrderOf(ws[n], id);
    assert ClaimOk(ws[n], id);
    ReleaseReleasesIff(ws[n].inventory, ws[n].orders[id].group, p, reason, now);
  }

  /** Every cancellation in progress is one of an order that exists. */
  lemma {:induction false} CancellationsKnown(ws: seq<World>, actions: seq<Action>, n: nat, k: nat)
    requires IsRun(ws, actions) && n < |ws| && k < |ws[n].cancellations|
    ensures ws[n].cancellations[k].order in ws[n].orders
    decreases n
  {
    hide WorldOk, AcceptedInRange, Step, Later;
    if n == 0 {
    } else {
      RunOk(ws, actions, n - 1);
      var w, w' := ws[n - 1], ws[n];
      CancellationsStep(w, actions[n - 1]);
      RunLater(ws, actions, n - 1, n);
      LaterOrders(w, w');
      if k < |w.cancellations| {
        CancellationsKnown(ws, actions, n - 1, k);
      }
    }
  }

  lemma LaterOrders(w: World, w': World)
    requires Later(w, w')
    ensures w.orders.Keys <= w'.orders.Keys
  {
  }

  /** A step adds at most one cancellation, of an order that exists, and never changes whose the others are. */
  lemma CancellationsStep(w: World, a: Action)
    requires a.OtherCall? && a.call.CallSweep? ==> Inventory.InRange(a.call.fetched, |w.inventory.reservations|)
    ensures var w' := Step(w, a);
            forall k :: 0 <= k < |w'.cancellations| ==>
              if k < |w.cancellations| then w'.cancellations[k].order == w.cancellations[k].order
              else w'.cancellations[k].order in w.orders
  {
    hide Step;
    if OfPayment(a) {
      PaymentCancelsNothing(w, a);
    } else if OfOrder(a) {
      OrderCancelsNothing(w, a);
    } else {
      OtherwiseCancellations(w, a);
    }
  }

  lemma PaymentCancelsNothing(w: World, a: Action)
    requires OfPayment(a)
    ensures Step(w, a).cancellations == w.cancellations
  {
    hide Payments.Refund, Payments.AlreadyThere, Payments.Settle, CallbackFor;
  }

  lemma OrderCancelsNothing(w: World, a: Action)
    requires OfOrder(a)
    ensures Step(w, a).cancellations == w.cancellations
  {
    hide DoDeliverAuthorized, DoDeliverFailed, DoReserve, DoPersist, DoAbandon, DoRefund, DoCancelRelease, DoCancelWrite,
         DoBeginWebhook, DoFinishWebhook, Orders.OnRefunded, Orders.OnFulfillment, Orders.Confirm, Orders.Decline;
    match a
    case DeliverAuthorized(n, p, now, delivery) => AuthorizedCancelsNothing(w, n, p, now, delivery);
    case DeliverFailed(n, p, reason, now, delivery) => FailedCancelsNothing(w, n, p, reason, now, delivery);
    case _ =>
  }

  lemma AuthorizedCancelsNothing(w: World, n: nat, p: Inventory.Principal, now: int, delivery: Delivery)
    ensures DoDeliverAuthorized(w, n, p, now, delivery).cancellations == w.cancellations
  {
    hide Orders.AuthorizeShortcut, CommitCall;
  }

  lemma FailedCancelsNothing(w: World, n: nat, p: Inventory.Principal, reason: Inventory.Reason, now: int, delivery: Delivery)
    ensures DoDeliverFailed(w, n, p, reason, now, delivery).cancellations == w.cancellations
  {
    hide Orders.FailShortcut, ReleaseCall, ReleaseTolerated;
  }

  lemma OtherwiseCancellations(w: World, a: Action)
    requires !OfPayment(a) && !OfOrder(a)
    requires a.OtherCall? && a.call.CallSweep? ==> Inventory.InRange(a.call.fetched, |w.inventory.reservations|)
    ensures var w' := Step(w, a);
            forall k :: 0 <= k < |w'.cancellations| ==>
              if k < |w.cancellations| then w'.cancellations[k].order == w.cancellations[k].order
              else w'.cancellations[k].order in w.orders
  {
    hide Inventory.CreateBatch, ReleaseCall, ReleaseTolerated, InventoryRuns.After, Orders.NewOrder, Orders.CancelCheck,
         Orders.CancelWrite;
  }

  /** Releasing a group gives its stock back exactly when all of it was ACTIVE, or it had been released,
      and the caller may; anyone else's call, and any call on a COMMITTED group, changes nothing. */
  lemma ReleaseReleasesIff(t: Inventory.Tables, g: Id, p: Inventory.Principal, reason: Inventory.Reason, now: int)
    requires Stock.Inv(t) && GroupExists(t, g)
    ensures var (t', r) := Inventory.ReleaseGroup(t, g, p, reason, now);
            var may := Inventory.MayResolve(p, t.reservations[g].customer);
            && (ReleaseTolerated(r) <==> may)
            && (!may ==> t' == t)
            && (GroupAll(t, g, Inventory.Committed) ==> r.Err? && t' == t)
            && (GroupAll(t', g, Inventory.Released)
                <==> (may && GroupAll(t, g, Inventory.Active)) || GroupAll(t, g, Inventory.Released))
  {
    FirstOfGroup(t, g);
    OneStatus(t, g);
    ReleaseAnswers(t, g, p, reason, now);
    ReleaseInGroup(t, g, p, reason, now);
    hide Stock.Inv, Inventory.ReleaseGroup, Inventory.GroupRows, GroupAll, GroupExists, Inventory.MayResolve, Inventory.LockedGroup;
  }

  /** The answer of a release whose caller may make it, in terms of the group as a whole. */
  lemma ReleaseInGroup(t: Inventory.Tables, g: Id, p: Inventory.Principal, reason: Inventory.Reason, now: int)
    requires Stock.Inv(t)
    ensures var (t', r) := Inventory.ReleaseGroup(t, g, p, reason, now);
            && (r.Ok? ==> GroupAll(t', g, Inventory.Released))
            && (r.Err? ==> t' == t)
            && (Inventory.LockedGroup(t, g, p).Ok? ==>
                  if GroupAll(t, g, Inventory.Active) || GroupAll(t, g, Inventory.Released)
                  then r.Ok? else r == Err(Inventory.GroupNotActive))
  {
    hide Stock.Inv, Stock.Evolves, Inventory.ReleaseGroup, Inventory.AllHave, Inventory.LockedGroup, GroupAll, Inventory.GroupRows;
    var (t', r) := Inventory.ReleaseGroup(t, g, p, reason, now);
    InventorySafety.ReleaseGroupAllOrNone(t, g, p, reason, now);
    AllHaveIsGroupAll(t, t, g, Inventory.Active);
    AllHaveIsGroupAll(t, t, g, Inventory.Released);
    if r.Ok? {
      ReleaseAddsNoRow(t, g, p, reason, now);
      ReleasedRows(t, t', g, r.value);
    }
  }

  lemma ReleaseAddsNoRow(t: Inventory.Tables, g: Id, p: Inventory.Principal, reason: Inventory.Reason, now: int)
    ensures |Inventory.ReleaseGroup(t, g, p, reason, now).0.reservations| == |t.reservations|
  {
    hide Inventory.ResolveAll, Inventory.AllHave, Inventory.GroupRows;
  }

  lemma ReleasedRows(t: Inventory.Tables, t': Inventory.Tables, g: Id, rows: seq<nat>)
    requires rows == Inventory.GroupRows(t.reservations, g) && Inventory.AllHave(t'.reservations, rows, Inventory.Released)
    requires Stock.Evolves(t, t') && |t'.reservations| == |t.reservations|
    ensures GroupAll(t', g, Inventory.Released)
  {
    SameGroups(t, t');
    AllHaveIsGroupAll(t, t', g, Inventory.Released);
  }

  /** A group's first row is the one it is named after. */
  lemma FirstOfGroup(t: Inventory.Tables, g: Id)
    requires Stock.Inv(t) && GroupExists(t, g)
    ensures var rows := Inventory.GroupRows(t.reservations, g); rows != [] && rows[0] == g
  {
    var rows := Inventory.GroupRows(t.reservations, g);
    assert g in rows;
    assert rows[0] in rows;
    var k :| 0 <= k < |rows| && rows[k] == g;
  }

  lemma ReleaseAnswers(t: Inventory.Tables, g: Id, p: Inventory.Principal, reason: Inventory.Reason, now: int)
    requires Inventory.GroupRows(t.reservations, g) != [] && Inventory.GroupRows(t.reservations, g)[0] == g
    requires g < |t.reservations|
    ensures var may := Inventory.MayResolve(p, t.reservations[g].customer);
            && (may <==> Inventory.LockedGroup(t, g, p).Ok?)
            && (!may ==> Inventory.ReleaseGroup(t, g, p, reason, now) == (t, Err(Inventory.ReservationForbidden)))
  {
    var rows := Inventory.GroupRows(t.reservations, g);
    assert rows[0] in rows;
    hide Inventory.GroupRows, Inventory.ResolveAll, Inventory.AllHave;
  }

  lemma OneStatus(t: Inventory.Tables, g: Id)
    requires GroupExists(t, g)
    ensures GroupAll(t, g, Inventory.Committed) ==> !GroupAll(t, g, Inventory.Active) && !GroupAll(t, g, Inventory.Released)
  {
  }

  lemma SameGroups(t: Inventory.Tables, t': Inventory.Tables)
    requires Stock.Evolves(t, t')
    ensures forall k :: 0 <= k < |t.reservations| ==> t'.reservations[k].group == t.reservations[k].group
  {
    forall k | 0 <= k < |t.reservations| ensures t'.reservations[k].group == t.reservations[k].group {
      assert Stock.SameIdentity(t.reservations[k], t'.reservations[k]);
    }
  }

  lemma AllHaveIsGroupAll(t: Inventory.Tables, t': Inventory.Tables, g: Id, status: Inventory.Status)
    requires |t'.reservations| == |t.reservations|
    requires forall k :: 0 <= k < |t.reservations| ==> t'.reservations[k].group == t.reservations[k].group
    ensures Inventory.AllHave(t'.reservations, Inventory.GroupRows(t.reservations, g), status) <==> GroupAll(t', g, status)
  {
    var rows := Inventory.GroupRows(t.reservations, g);
    if Inventory.AllHave(t'.reservations, rows, status) {
      forall k | 0 <= k < |t'.reservations| && t'.reservations[k].group == Some(g)
        ensures t'.reservations[k].status == status
      {
        assert k in rows;
      }
    }
    if GroupAll(t', g, status) {
      forall j | 0 <= j < |rows| ensures rows[j] < |t'.reservations| && t'.reservations[rows[j]].status == status {
        assert rows[j] in rows;
      }
    }
  }
}
