/**
 The way of an order, over whole runs of the checkout protocol: which statuses it goes through, and exactly which
 calls move it on. An order's history tells where it has been, so what is accepted is said in terms of it.
 */
module OrderPaths {
  import opened Common
  import opened Checkout
  import opened CheckoutSafety
  import opened CheckoutSteps
  import opened CheckoutTheorems
  import opened CheckoutRefunds
  import opened CheckoutLimits
  import CheckoutHandlers
  import Inventory
  import InventoryRuns
  import Orders
  import Payments

  const FULFILMENT: seq<Orders.OrderStatus> :=
    [Orders.PendingPayment, Orders.Confirmed, Orders.Processing, Orders.Shipped, Orders.Delivered]
  const FAILURE: seq<Orders.OrderStatus> := [Orders.PendingPayment, Orders.PaymentFailed]

  /** From one status to the next. A late cancellation may come after anything. */
  predicate Follows(a: Orders.OrderStatus, b: Orders.OrderStatus) {
    || b == Orders.Cancelled
    || (a == Orders.PendingPayment && b in {Orders.Confirmed, Orders.PaymentFailed})
    || (a == Orders.Confirmed && b == Orders.Processing)
    || (a == Orders.Processing && b == Orders.Shipped)
    || (a == Orders.Shipped && b == Orders.Delivered)
  }

  ghost predicate IsPath(history: seq<Orders.OrderStatus>) {
    && history != [] && history[0] == Orders.PendingPayment
    && forall k :: 0 < k < |history| ==> Follows(history[k - 1], history[k])
  }

  /** A history is the same, or longer by one status that may follow. */
  ghost predicate OneOn(h: seq<Orders.OrderStatus>, h': seq<Orders.OrderStatus>) {
    h' == h || (|h'| == |h| + 1 && h <= h' && h != [] && Follows(h[|h| - 1], h'[|h|]))
  }

  // ---------------------------------------------------------------- the shape of a path

  /** Up to its first cancellation, a path is the way of fulfilment or the way of failure; after it, nothing but
      further cancellations. */
  lemma {:induction false} PathShape(h: seq<Orders.OrderStatus>) returns (n: nat)
    requires IsPath(h)
    ensures 1 <= n <= |h| && (h[..n] <= FULFILMENT || h[..n] <= FAILURE)
    ensures forall k :: n <= k < |h| ==> h[k] == Orders.Cancelled
  {
    if |h| == 1 {
      n := 1;
    } else {
      var m := |h| - 1;
      n := PathShape(h[..m]);
      assert h[..m][..n] == h[..n];
      if n == m && h[m] != Orders.Cancelled {
        assert Follows(h[m - 1], h[m]);
        n := |h|;
        NextOnRoute(h[..m], h[m]);
        assert h == h[..m] + [h[m]] == h[..n];
      } else {
        assert forall k :: n <= k < m ==> h[..m][k] == Orders.Cancelled;
        assert Follows(h[m - 1], h[m]);
      }
    }
  }

  lemma NextOnRoute(h: seq<Orders.OrderStatus>, s: Orders.OrderStatus)
    requires h != [] && (h <= FULFILMENT || h <= FAILURE) && Follows(h[|h| - 1], s) && s != Orders.Cancelled
    ensures h + [s] <= FULFILMENT || h + [s] <= FAILURE
  {
    if h <= FULFILMENT {
      assert h[|h| - 1] == FULFILMENT[|h| - 1];
      if s == Orders.PaymentFailed {
        assert |h| == 1 && h + [s] == FAILURE;
      } else {
        assert |h| < |FULFILMENT| && FULFILMENT[|h|] == s;
      }
    }
  }

  /** What the last status says of the whole path. */
  lemma PathEnds(h: seq<Orders.OrderStatus>)
    requires IsPath(h)
    ensures var last := h[|h| - 1];
            && (last == Orders.PendingPayment <==> h == [Orders.PendingPayment])
            && (last == Orders.Confirmed <==> h == FULFILMENT[..2])
            && (last == Orders.Processing <==> h == FULFILMENT[..3])
            && (last == Orders.Shipped <==> h == FULFILMENT[..4])
            && (last == Orders.Delivered <==> h == FULFILMENT)
            && (last == Orders.PaymentFailed <==> h == FAILURE)
            && last != Orders.PaymentAuthorized
  {
    var n := PathShape(h);
    if n < |h| {
      assert h[|h| - 1] == Orders.Cancelled;
    } else {
      assert h[..n] == h;
      assert FULFILMENT[..5] == FULFILMENT;
      if h <= FULFILMENT {
        assert h == FULFILMENT[..n];
        assert h[n - 1] == FULFILMENT[n - 1];
      } else {
        assert h == FAILURE[..n];
        assert n == 1 ==> h == [Orders.PendingPayment];
      }
    }
  }

  // ---------------------------------------------------------------- every run follows the paths

  lemma PathGoesOn(h: seq<Orders.OrderStatus>, h': seq<Orders.OrderStatus>)
    requires IsPath(h) && OneOn(h, h')
    ensures IsPath(h')
  {
    if h' != h {
      forall k | 0 < k < |h'| ensures Follows(h'[k - 1], h'[k]) {
        assert h'[k - 1] == h[k - 1];
        assert k < |h| ==> h'[k] == h[k];
      }
    }
  }

  /** One step takes an order at most one status on, and a new one begins with PENDING_PAYMENT. */
  lemma StepFollows(w: World, a: Action, id: Id)
    requires WorldOk(w)
    requires a.OtherCall? && a.call.CallSweep? ==> Inventory.InRange(a.call.fetched, |w.inventory.reservations|)
    ensures var w' := Step(w, a);
            && (id in w.orders ==> id in w'.orders && OneOn(w.orders[id].history, w'.orders[id].history))
            && (id !in w.orders && id in w'.orders ==> w'.orders[id].history == [Orders.PendingPayment])
  {
    if WritesOrders(a) {
      hide WorldOk, OneOn, DoFinishHandling, DoDeliverRefunded, DoFulfill, DoPersist, DoCancelWrite;
      match a
      case FinishHandling(b) => FinishingFollows(w, b, id);
      case DeliverRefunded(n) => RefundFollows(w, n, id);
      case Fulfill(b, status) => FulfillFollows(w, b, status, id);
      case PersistOrder(b, prices, currency) => PersistFollows(w, b, prices, currency, id);
      case CancelWrite(k) => CancelFollows(w, k, id);
    } else {
      hide Step, WorldOk;
      OrdersUnwritten(w, a);
    }
  }

  /** From orders to orders', order id moved on at most one status, or is new. */
  ghost predicate MovesOn(orders: map<Id, Orders.Order>, orders': map<Id, Orders.Order>, id: Id) {
    && (id in orders ==> id in orders' && OneOn(orders[id].history, orders'[id].history))
    && (id !in orders && id in orders' ==> orders'[id].history == [Orders.PendingPayment])
  }

  /** One row is written. */
  lemma RowWritten(orders: map<Id, Orders.Order>, b: Id, o': Orders.Order, id: Id)
    requires if b in orders then OneOn(orders[b].history, o'.history) else o'.history == [Orders.PendingPayment]
    ensures MovesOn(orders, orders[b := o'], id)
  {
  }

  lemma FinishingFollows(w: World, b: Id, id: Id)
    requires WorldOk(w)
    ensures MovesOn(w.orders, DoFinishHandling(w, b).orders, id)
  {
    if b in w.handling {
      HandlingOf(w, b);
      OrderOf(w, b);
      hide WorldOk;
      RowWritten(w.orders, b, Orders.Confirm(w.orders[b]), id);
      RowWritten(w.orders, b, Orders.Decline(w.orders[b]), id);
    }
    hide WorldOk, MovesOn, Orders.Confirm, Orders.Decline, HandlingOk, OrderInv;
    Unwritten(w.orders, id);
  }

  lemma Unwritten(orders: map<Id, Orders.Order>, id: Id)
    ensures MovesOn(orders, orders, id)
  {
  }

  lemma RefundFollows(w: World, n: nat, id: Id)
    ensures MovesOn(w.orders, DoDeliverRefunded(w, n).orders, id)
  {
  }

  lemma FulfillFollows(w: World, b: Id, status: Orders.OrderStatus, id: Id)
    requires WorldOk(w)
    ensures MovesOn(w.orders, DoFulfill(w, b, status).orders, id)
  {
    Unwritten(w.orders, id);
    if b in w.orders {
      OrderOf(w, b);
      hide WorldOk;
      FulfillmentFollows(w.orders[b], status);
      hide Orders.OnFulfillment, OrderInv, OneOn;
      if Orders.OnFulfillment(w.orders[b], status).Ok? {
        RowWritten(w.orders, b, Orders.OnFulfillment(w.orders[b], status).value, id);
      }
    }
    hide WorldOk, MovesOn;
  }

  lemma FulfillmentFollows(o: Orders.Order, status: Orders.OrderStatus)
    requires Orders.OrderOk(o)
    ensures var r := Orders.OnFulfillment(o, status); r.Ok? ==> OneOn(o.history, r.value.history)
  {
    hide Orders.TotalOk;
  }

  lemma PersistFollows(w: World, b: Id, prices: seq<real>, currency: string, id: Id)
    ensures MovesOn(w.orders, DoPersist(w, b, prices, currency).orders, id)
  {
  }

  lemma CancelFollows(w: World, k: nat, id: Id)
    requires WorldOk(w)
    ensures MovesOn(w.orders, DoCancelWrite(w, k).orders, id)
  {
    Unwritten(w.orders, id);
    if k < |w.cancellations| && w.cancellations[k].order in w.orders {
      var c := w.cancellations[k];
      OrderOf(w, c.order);
      hide WorldOk;
      RowWritten(w.orders, c.order, Orders.CancelWrite(w.orders[c.order], c.version), id);
    }
    hide WorldOk, MovesOn, OrderInv, Orders.CancelWrite;
  }

  /** Over every run, whatever races: the history of every order is a path. */
  lemma {:induction false} HistoryIsPath(ws: seq<World>, actions: seq<Action>, n: nat, id: Id)
    requires IsRun(ws, actions) && n < |ws| && id in ws[n].orders
    ensures var o := ws[n].orders[id];
            IsPath(o.history) && o.status == o.history[|o.history| - 1]
    decreases n
  {
    hide WorldOk, AcceptedInRange, Step, IsPath;
    LastIsStatus(ws, actions, n, id);
    if n > 0 {
      RunOk(ws, actions, n - 1);
      StepFollows(ws[n - 1], actions[n - 1], id);
      if id in ws[n - 1].orders {
        HistoryIsPath(ws, actions, n - 1, id);
        hide OneOn;
        PathGoesOn(ws[n - 1].orders[id].history, ws[n].orders[id].history);
      } else {
        PathBegins();
      }
    }
  }

  lemma LastIsStatus(ws: seq<World>, actions: seq<Action>, n: nat, id: Id)
    requires IsRun(ws, actions) && n < |ws| && id in ws[n].orders
    ensures Orders.OrderOk(ws[n].orders[id])
    ensures var o := ws[n].orders[id]; o.history != [] && o.status == o.history[|o.history| - 1]
  {
    RunOk(ws, actions, n);
    OrderOf(ws[n], id);
    hide WorldOk, IsRun;
  }

  lemma PathBegins()
    ensures IsPath([Orders.PendingPayment])
  {
  }

  // ---------------------------------------------------------------- who moves an order on

  /** No order that left these behind it can be cancelled. */
  predicate TooLate(s: Orders.OrderStatus) {
    s == Orders.Processing || s == Orders.Shipped || s == Orders.Delivered || s == Orders.PaymentFailed || s == Orders.Cancelled
  }

  lemma InTime(h: seq<Orders.OrderStatus>)
    requires IsPath(h)
    ensures (forall k :: 0 <= k < |h| ==> !TooLate(h[k])) <==> h[|h| - 1] == Orders.PendingPayment || h[|h| - 1] == Orders.Confirmed
    ensures h[|h| - 1] != Orders.PaymentAuthorized
  {
    PathEnds(h);
    assert FULFILMENT[..2] == [Orders.PendingPayment, Orders.Confirmed];
    if forall k :: 0 <= k < |h| ==> !TooLate(h[k]) {
      assert !TooLate(h[|h| - 1]);
    }
  }

  /**
   Over every run: a request to cancel an order is taken up exactly if it names the order's version and the order
   has never been processed, shipped, delivered, declined or cancelled; nothing else changes, and a refused
   request changes nothing at all.
   */
  lemma CancelOpensIff(ws: seq<World>, actions: seq<Action>, n: nat, id: Id, version: int)
    requires IsRun(ws, actions) && n < |actions| && actions[n] == CancelRead(id, version)
    ensures var w, w' := ws[n], ws[n + 1];
            if && id in w.orders && w.orders[id].version == version
               && (forall k :: 0 <= k < |w.orders[id].history| ==> !TooLate(w.orders[id].history[k]))
            then w' == w.(cancellations := w.cancellations + [Cancellation(id, version, HasRead)])
            else w' == w
  {
    var w := ws[n];
    assert ws[n + 1] == DoCancelRead(w, id, version);
    if id in w.orders {
      HistoryIsPath(ws, actions, n, id);
      InTime(w.orders[id].history);
    }
    hide IsRun, IsPath, Step, TooLate;
  }

  /** Over every run: a cancellation is written exactly once its release was answered and no handler holds the order: it
      adds CANCELLED to whatever the order has become, and sets the version read at the start plus one. */
  lemma CancelWritesIff(ws: seq<World>, actions: seq<Action>, n: nat, k: nat)
    requires IsRun(ws, actions) && n < |actions| && actions[n] == CancelWrite(k)
    ensures var w, w' := ws[n], ws[n + 1];
            if k < |w.cancellations| && w.cancellations[k].phase == HasReleased && w.cancellations[k].order !in w.handling
            then
              var c := w.cancellations[k];
              && c.order in w.orders && c.order in w'.orders
              && w' == w.(orders := w.orders[c.order := w'.orders[c.order]],
                          cancellations := w.cancellations[k := c.(phase := Over)])
              && var o, o' := w.orders[c.order], w'.orders[c.order];
                 o' == o.(status := Orders.Cancelled, history := o.history + [Orders.Cancelled], version := c.version + 1)
            else w' == w
  {
    hide WorldOk, AcceptedInRange;
    var w := ws[n];
    assert ws[n + 1] == DoCancelWrite(w, k);
    hide Step;
    if k < |w.cancellations| {
      CancellationsKnown(ws, actions, n, k);
    }
    hide IsRun;
  }

  /** Over every run: fulfilment moves an order on exactly by the next status of its way, once it is confirmed and no
      handler holds it. */
  lemma FulfilledIff(ws: seq<World>, actions: seq<Action>, n: nat, id: Id, status: Orders.OrderStatus)
    requires IsRun(ws, actions) && n < |actions| && actions[n] == Fulfill(id, status)
    ensures var w, w' := ws[n], ws[n + 1];
            if && id in w.orders && id !in w.handling
               && 2 <= |w.orders[id].history| && w.orders[id].history + [status] <= FULFILMENT
            then
              && id in w'.orders && w' == w.(orders := w.orders[id := w'.orders[id]])
              && var o, o' := w.orders[id], w'.orders[id];
                 o' == o.(status := status, history := o.history + [status], version := o.version + 1)
            else w' == w
  {
    var w := ws[n];
    assert ws[n + 1] == DoFulfill(w, id, status);
    if id in w.orders {
      HistoryIsPath(ws, actions, n, id);
      PathEnds(w.orders[id].history);
      NextStop(w.orders[id].history, status);
    }
    hide IsRun, IsPath, Step;
  }

  /** Which status comes next on the way of fulfilment. */
  lemma NextStop(h: seq<Orders.OrderStatus>, s: Orders.OrderStatus)
    requires IsPath(h)
    ensures var last := h[|h| - 1];
            2 <= |h| && h + [s] <= FULFILMENT
            <==> || (last == Orders.Confirmed && s == Orders.Processing)
                 || (last == Orders.Processing && s == Orders.Shipped)
                 || (last == Orders.Shipped && s == Orders.Delivered)
  {
    PathEnds(h);
    if 2 <= |h| && h + [s] <= FULFILMENT {
      assert (h + [s])[|h|] == FULFILMENT[|h|];
      assert (h + [s])[|h| - 1] == FULFILMENT[|h| - 1];
    }
  }

  // ---------------------------------------------------------------- the answers to Payment

  /** Every payment callback tells the amount and currency of the order it is for. */
  ghost predicate AmountsRight(w: World) {
    forall n :: 0 <= n < |w.sent| && w.sent[n].AuthorizedMessage? ==>
      w.sent[n].order in w.orders && w.sent[n].amount == w.orders[w.sent[n].order].total
      && w.sent[n].currency == w.orders[w.sent[n].order].currency
  }

  /** A message is sent by a webhook or a refund only. */
  lemma SendsAtMostOne(w: World, a: Action)
    requires a.OtherCall? && a.call.CallSweep? ==> Inventory.InRange(a.call.fetched, |w.inventory.reservations|)
    ensures var w' := Step(w, a);
            && w.sent <= w'.sent && |w'.sent| <= |w.sent| + 1
            && (|w'.sent| == |w.sent| + 1 && w'.sent[|w.sent|].AuthorizedMessage? ==>
                  a.BeginWebhook? && a.id in w.payments && w'.sent[|w.sent|] == CallbackFor(w, a.id, true))
  {
    if OfPayment(a) {
      hide Payments.Refund, Payments.AlreadyThere, Payments.Settle, DoReserve, DoPersist, DoAbandon, DoDeliverAuthorized,
           DoDeliverFailed, DoDeliverRefunded, DoFinishHandling, DoFulfill, DoCancelRelease, DoCancelWrite;
    } else {
      hide Step;
      SendsNothing(w, a);
    }
  }

  lemma SendsNothing(w: World, a: Action)
    requires !OfPayment(a)
    requires a.OtherCall? && a.call.CallSweep? ==> Inventory.InRange(a.call.fetched, |w.inventory.reservations|)
    ensures Step(w, a).sent == w.sent
  {
    hide DoReserve, DoCancelRelease, DoDeliverAuthorized, DoDeliverFailed, DoBeginWebhook, DoFinishWebhook, DoRefund,
         InventoryRuns.After, ReleaseCall, Orders.OnRefunded, Orders.OnFulfillment, Orders.Confirm, Orders.Decline, Orders.NewOrder,
         Orders.CancelCheck, Orders.CancelWrite;
    match a
    case ReserveOrder(id, settings, key, data, now, delivery) => ReserveSendsNothing(w, id, settings, key, data, now, delivery);
    case DeliverAuthorized(n, p, now, delivery) => AuthorizedSendsNothing(w, n, p, now, delivery);
    case DeliverFailed(n, p, reason, now, delivery) => FailedSendsNothing(w, n, p, reason, now, delivery);
    case CancelRelease(k, p, reason, now, delivery) => ReleaseSendsNothing(w, k, p, reason, now, delivery);
    case _ =>
  }

  lemma ReserveSendsNothing(w: World, id: Id, settings: Inventory.Settings, key: Option<string>, data: Inventory.BatchData,
                            now: int, delivery: Delivery)
    ensures DoReserve(w, id, settings, key, data, now, delivery).sent == w.sent
  {
    hide Inventory.CreateBatch;
  }

  lemma AuthorizedSendsNothing(w: World, n: nat, p: Inventory.Principal, now: int, delivery: Delivery)
    ensures DoDeliverAuthorized(w, n, p, now, delivery).sent == w.sent
  {
    hide Orders.AuthorizeShortcut, CommitCall;
  }

  lemma FailedSendsNothing(w: World, n: nat, p: Inventory.Principal, reason: Inventory.Reason, now: int, delivery: Delivery)
    ensures DoDeliverFailed(w, n, p, reason, now, delivery).sent == w.sent
  {
    hide Orders.FailShortcut, ReleaseCall, ReleaseTolerated;
  }

  lemma ReleaseSendsNothing(w: World, k: nat, p: Inventory.Principal, reason: Inventory.Reason, now: int, delivery: Delivery)
    ensures DoCancelRelease(w, k, p, reason, now, delivery).sent == w.sent
  {
    hide ReleaseCall, ReleaseTolerated;
  }

  lemma {:induction false} RunAmounts(ws: seq<World>, actions: seq<Action>, n: nat)
    requires IsRun(ws, actions) && n < |ws|
    ensures AmountsRight(ws[n])
  {
    hide WorldOk, AcceptedInRange, Step;
    if n > 0 {
      RunAmounts(ws, actions, n - 1);
      RunOk(ws, actions, n - 1);
      SendsAtMostOne(ws[n - 1], actions[n - 1]);
      RunLater(ws, actions, n - 1, n);
      AmountsStay(ws[n - 1], actions[n - 1], ws[n]);
    }
  }

  lemma AmountsStay(w: World, a: Action, w': World)
    requires AmountsRight(w) && WorldOk(w) && Later(w, w')
    requires w.sent <= w'.sent && |w'.sent| <= |w.sent| + 1
    requires |w'.sent| == |w.sent| + 1 && w'.sent[|w.sent|].AuthorizedMessage? ==>
               a.BeginWebhook? && a.id in w.payments && w'.sent[|w.sent|] == CallbackFor(w, a.id, true)
    ensures AmountsRight(w')
  {
    hide WorldOk;
    TotalsStay(w, w');
    hide Later;
    forall n | 0 <= n < |w'.sent| && w'.sent[n].AuthorizedMessage?
      ensures w'.sent[n].order in w'.orders && w'.sent[n].amount == w'.orders[w'.sent[n].order].total
              && w'.sent[n].currency == w'.orders[w'.sent[n].order].currency
    {
      if n < |w.sent| {
        assert w'.sent[n] == w.sent[n];
      } else {
        ChargedIsOrdered(w, a.id);
      }
    }
  }

  lemma ChargedIsOrdered(w: World, id: Id)
    requires WorldOk(w) && id in w.payments
    ensures id in w.orders && w.payments[id].amount == w.orders[id].total && w.payments[id].currency == w.orders[id].currency
  {
    PaymentOf(w, id);
    hide WorldOk;
  }

  lemma TotalsStay(w: World, w': World)
    requires Later(w, w')
    ensures forall id :: id in w.orders ==>
              id in w'.orders && w'.orders[id].total == w.orders[id].total && w'.orders[id].currency == w.orders[id].currency
  {
  }

  /** The answer to a payment callback: an order is confirmed once, from PENDING_PAYMENT, by the callback that carries
      its own amount and currency and whose stock was committed; a repeated callback is told so, any other is refused. */
  lemma AuthorizedIsAnswered(o: Orders.Order, amount: int, currency: string, committed: bool)
    requires Orders.OrderOk(o) && IsPath(o.history)
    ensures var r := Orders.OnAuthorized(o, amount, currency, committed);
            var first := o.history == [Orders.PendingPayment] && amount == o.total && currency == o.currency && committed;
            && (r.Ok? <==> first || o.history == [Orders.PendingPayment, Orders.Confirmed])
            && (r.Ok? ==> r.value == if first
                                     then o.(status := Orders.Confirmed, payment := Orders.Authorized, version := o.version + 1,
                                             history := [Orders.PendingPayment, Orders.Confirmed])
                                     else o)
  {
    PathEnds(o.history);
    hide Orders.TotalOk, IsPath;
    assert FULFILMENT[..2] == [Orders.PendingPayment, Orders.Confirmed];
  }

  lemma FailedIsAnswered(o: Orders.Order, released: bool)
    requires Orders.OrderOk(o) && IsPath(o.history)
    ensures var r := Orders.OnFailed(o, released);
            var first := o.history == [Orders.PendingPayment] && released;
            && (r.Ok? <==> first || o.history == [Orders.PendingPayment, Orders.PaymentFailed])
            && (r.Ok? ==> r.value == if first
                                     then o.(status := Orders.PaymentFailed, payment := Orders.Declined, version := o.version + 1,
                                             history := [Orders.PendingPayment, Orders.PaymentFailed])
                                     else o)
  {
    PathEnds(o.history);
    hide Orders.TotalOk, IsPath;
  }

  /** A refund callback is accepted exactly for an order that was confirmed, in its currency and within its total; it
      changes the mark alone. */
  lemma RefundIsAnswered(o: Orders.Order, refunded: int, currency: string)
    requires Orders.OrderOk(o)
    ensures var r := Orders.OnRefunded(o, refunded, currency);
            && (r.Ok? <==> Orders.Confirmed in o.history && currency == o.currency && refunded <= o.total)
            && (r.Ok? ==> r.value == o.(payment := r.value.payment, version := o.version + 1)
                          && r.value.payment == if refunded == o.total then Orders.Refunded else Orders.PartiallyRefunded)
  {
    hide Orders.TotalOk;
  }

  /**
   Over every run: a payment callback confirms its order exactly if the order is new and Inventory's answer says that its
   group is committed; it is accepted exactly then or if the order is CONFIRMED already. Its amount is never the reason
   to refuse it.
   */
  lemma ConfirmedIff(ws: seq<World>, actions: seq<Action>, n: nat, k: nat, p: Inventory.Principal, now: int, delivery: Delivery)
    requires IsRun(ws, actions) && n < |ws|
    requires k < |ws[n].sent| && ws[n].sent[k].AuthorizedMessage? && ws[n].sent[k].order !in ws[n].handling
    ensures ws[n].sent[k].order in ws[n].orders
    ensures var w, id := ws[n], ws[n].sent[k].order;
            var o, w' := w.orders[id], DoFinishHandling(DoDeliverAuthorized(w, k, p, now, delivery), id);
            var first := o.history == [Orders.PendingPayment] && delivery.Answered? && CommitCall(w, o.group, p, now).1.Ok?;
            && w'.orders == (if first
                             then w.orders[id := o.(status := Orders.Confirmed, payment := Orders.Authorized,
                                                    version := o.version + 1,
                                                    history := [Orders.PendingPayment, Orders.Confirmed])]
                             else w.orders)
            && (k in w'.accepted <==> k in w.accepted || first || o.status == Orders.Confirmed)
  {
    hide IsRun, Orders.OrderOk, IsPath, DoDeliverAuthorized, DoFinishHandling, CommitCall, Orders.OnAuthorized,
         Orders.AuthorizeShortcut;
    var w := ws[n];
    var id := w.sent[k].order;
    RunAmounts(ws, actions, n);
    HistoryIsPath(ws, actions, n, id);
    LastIsStatus(ws, actions, n, id);
    var committed := delivery.Answered? && CommitCall(w, w.orders[id].group, p, now).1.Ok?;
    PathEnds(w.orders[id].history);
    AuthorizedIsAnswered(w.orders[id], w.sent[k].amount, w.sent[k].currency, committed);
    CheckoutHandlers.AuthorizedIsHandled(w, k, p, now, delivery);
    assert w.orders[id := w.orders[id]] == w.orders;
  }

  /** The same for a declined payment: the order fails exactly if it is new and the release was made or met a 409. */
  lemma DeclinedIff(ws: seq<World>, actions: seq<Action>, n: nat, k: nat, p: Inventory.Principal, reason: Inventory.Reason,
                    now: int, delivery: Delivery)
    requires IsRun(ws, actions) && n < |ws|
    requires k < |ws[n].sent| && ws[n].sent[k].FailedMessage? && ws[n].sent[k].order !in ws[n].handling
    ensures ws[n].sent[k].order in ws[n].orders
    ensures var w, id := ws[n], ws[n].sent[k].order;
            var o, w' := w.orders[id], DoFinishHandling(DoDeliverFailed(w, k, p, reason, now, delivery), id);
            var first := o.history == [Orders.PendingPayment] && delivery.Answered?
                         && ReleaseTolerated(ReleaseCall(w, o.group, p, reason, now).1);
            && w'.orders == (if first
                             then w.orders[id := o.(status := Orders.PaymentFailed, payment := Orders.Declined,
                                                    version := o.version + 1,
                                                    history := [Orders.PendingPayment, Orders.PaymentFailed])]
                             else w.orders)
            && (k in w'.accepted <==> k in w.accepted || first || o.status == Orders.PaymentFailed)
  {
    hide IsRun, Orders.OrderOk, IsPath, DoDeliverFailed, DoFinishHandling, ReleaseCall, ReleaseTolerated, Orders.OnFailed,
         Orders.FailShortcut;
    var w := ws[n];
    var id := w.sent[k].order;
    FailedMessageKnown(ws, actions, n, k);
    HistoryIsPath(ws, actions, n, id);
    LastIsStatus(ws, actions, n, id);
    var released := delivery.Answered? && ReleaseTolerated(ReleaseCall(w, w.orders[id].group, p, reason, now).1);
    PathEnds(w.orders[id].history);
    FailedIsAnswered(w.orders[id], released);
    CheckoutHandlers.FailedIsHandled(w, k, p, reason, now, delivery);
    assert w.orders[id := w.orders[id]] == w.orders;
  }

  lemma FailedMessageKnown(ws: seq<World>, actions: seq<Action>, n: nat, k: nat)
    requires IsRun(ws, actions) && n < |ws| && k < |ws[n].sent| && ws[n].sent[k].FailedMessage?
    ensures ws[n].sent[k].order in ws[n].orders
  {
    RunOk(ws, actions, n);
    MessageOf(ws[n], k);
    hide WorldOk, IsRun;
  }
}
