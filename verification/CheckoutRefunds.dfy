/**
 What an order shows of its refunds. A callback carries the amount refunded up to its refund, and is sent after the
 refund was committed and its row unlocked, so callbacks may overtake each other: an order shows what the last one
 to reach it said.
 */
module CheckoutRefunds {
  import opened Common
  import opened Checkout
  import opened CheckoutSafety
  import opened CheckoutTheorems
  import opened CheckoutSteps
  import Inventory
  import InventoryRuns
  import Orders
  import Payments

  /** The step delivers a refund callback to an order whose row is free. */
  predicate Tells(w: World, a: Action, id: Id) {
    && a.DeliverRefunded? && a.request < |w.sent|
    && w.sent[a.request].RefundedMessage? && w.sent[a.request].order == id
    && id in w.orders && id !in w.handling
  }

  function Told(w: World, a: Action, id: Id): int
    requires Tells(w, a, id)
  {
    w.sent[a.request].refunded
  }

  predicate Marked(o: Orders.Order) {
    o.payment == Orders.Refunded || o.payment == Orders.PartiallyRefunded
  }

  /** The amount in the last callback an order was told before world n. */
  ghost function LastTold(ws: seq<World>, actions: seq<Action>, n: nat, id: Id): Option<int>
    requires IsRun(ws, actions) && n < |ws|
  {
    if n == 0 then None
    else if Tells(ws[n - 1], actions[n - 1], id) then Some(Told(ws[n - 1], actions[n - 1], id))
    else LastTold(ws, actions, n - 1, id)
  }

  // ---------------------------------------------------------------- one step

  /** A mark that only a refund callback may set or replace. */
  predicate SameMark(o: Orders.Order, o': Orders.Order) {
    o'.payment == o.payment || (!Marked(o) && !Marked(o'))
  }

  /** A callback is accepted and sets the mark by the amount it carries, whatever the mark was. */
  lemma CallbackMarks(o: Orders.Order, p: Payments.Payment, refunded: int)
    requires Orders.OrderOk(o) && Orders.Confirmed in o.history && p.amount == o.total && Payments.PaymentOk(p)
    requires refunded <= Payments.RefundedAmount(p)
    ensures var r := Orders.OnRefunded(o, refunded, o.currency);
            && refunded <= o.total && r.Ok? && Marked(r.value) && r.value.total == o.total
            && (r.value.payment == Orders.Refunded <==> refunded == o.total)
  {
    hide Orders.TotalOk;
  }

  lemma TellingSets(w: World, n: nat, id: Id)
    requires WorldOk(w) && Tells(w, DeliverRefunded(n), id)
    ensures w.sent[n].refunded <= w.orders[id].total
    ensures var w' := DoDeliverRefunded(w, n);
            && id in w'.orders && Marked(w'.orders[id]) && w'.orders[id].total == w.orders[id].total
            && (w'.orders[id].payment == Orders.Refunded <==> w.sent[n].refunded == w.orders[id].total)
  {
    MessageOf(w, n);
    PaymentOf(w, id);
    OrderOf(w, id);
    hide WorldOk;
    CallbackMarks(w.orders[id], w.payments[id], w.sent[n].refunded);
    hide OrderInv, PaymentInv, Orders.OnRefunded, Marked;
  }

  lemma TellingStep(w: World, a: Action, id: Id)
    requires WorldOk(w) && Tells(w, a, id)
    ensures id in w.orders && Told(w, a, id) <= w.orders[id].total
    ensures id in Step(w, a).orders && Marked(Step(w, a).orders[id])
    ensures Step(w, a).orders[id].payment == Orders.Refunded <==> Told(w, a, id) == w.orders[id].total
  {
    hide WorldOk, DoDeliverRefunded, Marked;
    TellingSets(w, a.request, id);
  }

  /** The actions that write order rows. */
  predicate WritesOrders(a: Action) {
    a.PersistOrder? || a.FinishHandling? || a.DeliverRefunded? || a.Fulfill? || a.CancelWrite?
  }

  /** Nothing else sets a mark or takes one away. */
  lemma OthersKeepMarks(w: World, a: Action, id: Id)
    requires WorldOk(w) && !Tells(w, a, id) && id in w.orders
    requires a.OtherCall? && a.call.CallSweep? ==> Inventory.InRange(a.call.fetched, |w.inventory.reservations|)
    ensures id in Step(w, a).orders && SameMark(w.orders[id], Step(w, a).orders[id])
  {
    if WritesOrders(a) {
      hide WorldOk, Tells, SameMark, DoFinishHandling, DoDeliverRefunded, DoFulfill, DoPersist, DoCancelWrite;
      match a
      case FinishHandling(b) => FinishingKeepsMarks(w, b, id);
      case DeliverRefunded(n) => OtherCallbackKeepsMarks(w, n, id);
      case Fulfill(b, status) => FulfillKeepsMarks(w, b, status, id);
      case PersistOrder(b, prices, currency) => PersistKeepsMarks(w, b, prices, currency, id);
      case CancelWrite(k) => CancelKeepsMarks(w, k, id);
    } else {
      hide Step, WorldOk, Tells;
      OrdersUnwritten(w, a);
    }
  }

  lemma OrdersUnwritten(w: World, a: Action)
    requires !WritesOrders(a)
    requires a.OtherCall? && a.call.CallSweep? ==> Inventory.InRange(a.call.fetched, |w.inventory.reservations|)
    ensures Step(w, a).orders == w.orders
  {
    hide Step;
    if OfPayment(a) {
      PaymentWritesNoOrder(w, a);
    } else if OfOrder(a) {
      HandlerWritesNoOrder(w, a);
    } else {
      OtherwiseNoOrder(w, a);
    }
  }

  lemma PaymentWritesNoOrder(w: World, a: Action)
    requires OfPayment(a)
    ensures Step(w, a).orders == w.orders
  {
    hide Payments.Refund, Payments.AlreadyThere, Payments.Settle, CallbackFor, DoReserve, DoPersist, DoAbandon, DoDeliverAuthorized,
         DoDeliverFailed, DoDeliverRefunded, DoFinishHandling, DoFulfill, DoCancelRelease, DoCancelWrite;
  }

  lemma HandlerWritesNoOrder(w: World, a: Action)
    requires OfOrder(a) && !WritesOrders(a)
    ensures Step(w, a).orders == w.orders
  {
    hide DoDeliverAuthorized, DoDeliverFailed, DoDeliverRefunded, DoFinishHandling, DoFulfill, DoReserve, DoPersist, DoAbandon,
         DoRefund, DoCancelRelease, DoCancelWrite, DoBeginWebhook, DoFinishWebhook;
    match a
    case DeliverAuthorized(n, p, now, delivery) => AuthorizedWritesNoOrder(w, n, p, now, delivery);
    case DeliverFailed(n, p, reason, now, delivery) => FailedWritesNoOrder(w, n, p, reason, now, delivery);
    case AbortHandling(_) =>
  }

  lemma AuthorizedWritesNoOrder(w: World, n: nat, p: Inventory.Principal, now: int, delivery: Delivery)
    ensures DoDeliverAuthorized(w, n, p, now, delivery).orders == w.orders
  {
    hide Orders.AuthorizeShortcut, CommitCall;
  }

  lemma FailedWritesNoOrder(w: World, n: nat, p: Inventory.Principal, reason: Inventory.Reason, now: int, delivery: Delivery)
    ensures DoDeliverFailed(w, n, p, reason, now, delivery).orders == w.orders
  {
    hide Orders.FailShortcut, ReleaseCall, ReleaseTolerated;
  }

  lemma OtherwiseNoOrder(w: World, a: Action)
    requires !OfPayment(a) && !OfOrder(a) && !WritesOrders(a)
    requires a.OtherCall? && a.call.CallSweep? ==> Inventory.InRange(a.call.fetched, |w.inventory.reservations|)
    ensures Step(w, a).orders == w.orders
  {
    hide DoReserve, DoCancelRelease, InventoryRuns.After, Orders.CancelCheck, DoPersist, DoDeliverAuthorized, DoDeliverFailed,
         DoDeliverRefunded, DoFinishHandling, DoFulfill, DoRefund, DoCancelWrite, DoBeginWebhook, DoFinishWebhook, ReleaseCall;
    match a
    case ReserveOrder(id, settings, key, data, now, delivery) => ReservingNoOrder(w, id, settings, key, data, now, delivery);
    case CancelRelease(k, p, reason, now, delivery) => ReleasingNoOrder(w, k, p, reason, now, delivery);
    case _ =>
  }

  lemma ReservingNoOrder(w: World, id: Id, settings: Inventory.Settings, key: Option<string>, data: Inventory.BatchData,
                         now: int, delivery: Delivery)
    ensures DoReserve(w, id, settings, key, data, now, delivery).orders == w.orders
  {
    hide Inventory.CreateBatch;
  }

  lemma ReleasingNoOrder(w: World, k: nat, p: Inventory.Principal, reason: Inventory.Reason, now: int, delivery: Delivery)
    ensures DoCancelRelease(w, k, p, reason, now, delivery).orders == w.orders
  {
    hide ReleaseCall, ReleaseTolerated;
  }

  /** A handler holds unpaid orders only. */
  lemma FinishingKeepsMarks(w: World, b: Id, id: Id)
    requires WorldOk(w) && id in w.orders
    ensures var w' := DoFinishHandling(w, b); id in w'.orders && SameMark(w.orders[id], w'.orders[id])
  {
    hide OrderInv, HandlingOk, Marked, Orders.Confirm, Orders.Decline;
    if b in w.handling {
      HeldUnmarked(w, b);
    }
    hide WorldOk;
  }

  lemma HeldUnmarked(w: World, b: Id)
    requires WorldOk(w) && b in w.handling
    ensures b in w.orders
            && !Marked(w.orders[b]) && !Marked(Orders.Confirm(w.orders[b])) && !Marked(Orders.Decline(w.orders[b]))
  {
    HandlingOf(w, b);
    OrderOf(w, b);
    hide WorldOk;
    PendingUnmarked(w.orders[b]);
    hide Orders.OrderOk, Marked;
  }

  lemma PendingUnmarked(o: Orders.Order)
    requires Orders.OrderOk(o) && o.status == Orders.PendingPayment
    ensures !Marked(o) && !Marked(Orders.Confirm(o)) && !Marked(Orders.Decline(o))
  {
    hide Orders.TotalOk;
  }

  lemma OtherCallbackKeepsMarks(w: World, n: nat, id: Id)
    requires !Tells(w, DeliverRefunded(n), id) && id in w.orders
    ensures var w' := DoDeliverRefunded(w, n); id in w'.orders && SameMark(w.orders[id], w'.orders[id])
  {
    hide Orders.OnRefunded;
  }

  lemma FulfillKeepsMarks(w: World, b: Id, status: Orders.OrderStatus, id: Id)
    requires id in w.orders
    ensures var w' := DoFulfill(w, b, status); id in w'.orders && SameMark(w.orders[id], w'.orders[id])
  {
  }

  lemma PersistKeepsMarks(w: World, b: Id, prices: seq<real>, currency: string, id: Id)
    requires id in w.orders
    ensures var w' := DoPersist(w, b, prices, currency); id in w'.orders && SameMark(w.orders[id], w'.orders[id])
  {
    hide Orders.NewOrder;
  }

  lemma CancelKeepsMarks(w: World, k: nat, id: Id)
    requires id in w.orders
    ensures var w' := DoCancelWrite(w, k); id in w'.orders && SameMark(w.orders[id], w'.orders[id])
  {
  }

  /** An order is written for the first time without a mark. */
  lemma NewOrderUnmarked(w: World, a: Action, id: Id)
    requires id !in w.orders
    requires a.OtherCall? && a.call.CallSweep? ==> Inventory.InRange(a.call.fetched, |w.inventory.reservations|)
    requires id in Step(w, a).orders
    ensures !Marked(Step(w, a).orders[id]) && !Tells(w, a, id)
  {
    if WritesOrders(a) {
      hide Orders.OnRefunded, Orders.OnFulfillment, Orders.Confirm, Orders.Decline, Orders.CancelWrite;
    } else {
      hide Step;
      OrdersUnwritten(w, a);
    }
  }

  // ---------------------------------------------------------------- runs

  /**
   Over every run: an order that was told of no refund shows none; any other shows REFUNDED exactly when the last
   callback it was told carried its whole total, and PARTIALLY_REFUNDED otherwise.
   */
  lemma {:induction false} ShowsLastTold(ws: seq<World>, actions: seq<Action>, n: nat, id: Id)
    requires IsRun(ws, actions) && n < |ws|
    ensures id !in ws[n].orders ==> LastTold(ws, actions, n, id) == None
    ensures id in ws[n].orders ==>
              var o, told := ws[n].orders[id], LastTold(ws, actions, n, id);
              && (Marked(o) <==> told.Some?)
              && (o.payment == Orders.Refunded <==> told == Some(o.total))
  {
    hide WorldOk, AcceptedInRange, Step, Later, Tells, Told;
    if n > 0 {
      var w, a, w' := ws[n - 1], actions[n - 1], ws[n];
      RunOk(ws, actions, n - 1);
      RunLater(ws, actions, n - 1, n);
      TotalStays(w, w');
      ShowsLastTold(ws, actions, n - 1, id);
      if Tells(w, a, id) {
        TellingStep(w, a, id);
      } else if id in w.orders {
        OthersKeepMarks(w, a, id);
      } else if id in w'.orders {
        NewOrderUnmarked(w, a, id);
      }
    }
  }

  lemma TotalStays(w: World, w': World)
    requires Later(w, w')
    ensures forall id :: id in w.orders ==> id in w'.orders && w'.orders[id].total == w.orders[id].total
  {
  }

  /**
   REFUNDED is taken back in one way only: a step makes a REFUNDED order PARTIALLY_REFUNDED exactly when it delivers
   a refund callback of that order that carries less than its total. Any other step leaves it REFUNDED.
   */
  lemma RefundMarkFallsIff(ws: seq<World>, actions: seq<Action>, n: nat, id: Id)
    requires IsRun(ws, actions) && n < |actions|
    requires id in ws[n].orders && ws[n].orders[id].payment == Orders.Refunded
    ensures id in ws[n + 1].orders && Marked(ws[n + 1].orders[id])
    ensures ws[n + 1].orders[id].payment == Orders.PartiallyRefunded
            <==> Tells(ws[n], actions[n], id) && Told(ws[n], actions[n], id) < ws[n].orders[id].total
  {
    hide WorldOk, AcceptedInRange, Step, Tells, Told;
    RunOk(ws, actions, n);
    if Tells(ws[n], actions[n], id) {
      TellingStep(ws[n], actions[n], id);
    } else {
      OthersKeepMarks(ws[n], actions[n], id);
    }
  }

  /** The order of a fully refunded payment shows REFUNDED exactly when the last callback it was told is the one
      that carried the whole amount. */
  lemma FullyRefundedShowsIff(ws: seq<World>, actions: seq<Action>, n: nat, id: Id)
    requires IsRun(ws, actions) && n < |ws| && id in ws[n].payments
    requires Payments.RefundedAmount(ws[n].payments[id]) == ws[n].payments[id].amount
    ensures id in ws[n].orders
    ensures ws[n].orders[id].payment == Orders.Refunded
            <==> LastTold(ws, actions, n, id) == Some(Payments.RefundedAmount(ws[n].payments[id]))
  {
    RunOk(ws, actions, n);
    PaymentOf(ws[n], id);
    hide WorldOk, AcceptedInRange, Step, Tells, Told, LastTold;
    ShowsLastTold(ws, actions, n, id);
  }
}
