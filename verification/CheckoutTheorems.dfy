/** What holds over every run of the checkout protocol, whatever is lost, duplicated, late or racing. */
module CheckoutTheorems {
  import opened Common
  import opened Checkout
  import opened CheckoutSafety
  import opened CheckoutSteps
  import opened Fulfilment
  import Inventory
  import InventoryRuns
  import InventorySafety
  import Money
  import Stock = StockInvariant
  import Orders
  import Payments

  // ---------------------------------------------------------------- steps and runs keep the invariant

  lemma BookkeepingKeeps(w: World, w': World)
    requires WorldOk(w)
    requires w' == w.(settling := w'.settling, handling := w'.handling, cancellations := w'.cancellations)
    requires w'.settling.Keys <= w.settling.Keys && forall a :: a in w'.settling ==> w'.settling[a] == w.settling[a]
    requires w'.handling.Keys <= w.handling.Keys && forall a :: a in w'.handling ==> w'.handling[a] == w.handling[a]
    ensures WorldOk(w') && Later(w, w')
  {
    hide Stock.Inv, Stock.Evolves, RecordsDrawn, ClaimsOk, OrdersOk, PaymentsOk, MessagesOk, SettlementsOk, HandlingOk,
         OrdersEvolve, PaymentsEvolve;
    InventoryRuns.Unchanged(w.inventory);
    NothingPaid(w, w');
    RecordsStay(w, w');
    ClaimsStay(w, w');
    OrdersStay(w, w');
    PaymentsStay(w, w');
    MessagesStay(w, w');
    SettlementsStay(w, w');
    HandlingStays(w, w');
  }

  predicate OfPayment(a: Action) {
    a.CreatePayment? || a.BeginWebhook? || a.FinishWebhook? || a.AbortWebhook? || a.CreateRefund?
  }

  predicate OfOrder(a: Action) {
    a.DeliverAuthorized? || a.DeliverFailed? || a.DeliverRefunded? || a.FinishHandling? || a.AbortHandling? || a.Fulfill?
  }

  lemma AcceptedKeeps(w: World, a: Action)
    requires AcceptedInRange(w)
    requires a.OtherCall? && a.call.CallSweep? ==> Inventory.InRange(a.call.fetched, |w.inventory.reservations|)
    ensures AcceptedInRange(Step(w, a))
  {
    hide Step, AcceptedInRange;
    if OfPayment(a) {
      AcceptedByPayment(w, a);
    } else if OfOrder(a) {
      AcceptedByOrder(w, a);
    } else {
      AcceptedOtherwise(w, a);
    }
  }

  lemma AcceptedByPayment(w: World, a: Action)
    requires AcceptedInRange(w) && OfPayment(a)
    ensures AcceptedInRange(Step(w, a))
  {
    hide Payments.Refund, Payments.AlreadyThere, Payments.Settle, CallbackFor;
    var w' := Step(w, a);
    assert w'.accepted == w.accepted && |w.sent| <= |w'.sent|;
  }

  lemma AcceptedByOrder(w: World, a: Action)
    requires AcceptedInRange(w) && OfOrder(a)
    ensures AcceptedInRange(Step(w, a))
  {
    hide CommitCall, ReleaseCall, ReleaseTolerated, Orders.AuthorizeShortcut, Orders.FailShortcut, Orders.OnRefunded,
         Orders.OnFulfillment, Orders.Confirm, Orders.Decline;
  }

  lemma AcceptedOtherwise(w: World, a: Action)
    requires AcceptedInRange(w) && !OfPayment(a) && !OfOrder(a)
    requires a.OtherCall? && a.call.CallSweep? ==> Inventory.InRange(a.call.fetched, |w.inventory.reservations|)
    ensures AcceptedInRange(Step(w, a))
  {
    hide Inventory.CreateBatch, ReleaseCall, ReleaseTolerated, InventoryRuns.After, Orders.NewOrder, Orders.CancelCheck,
         Orders.CancelWrite, AcceptedInRange;
    var w' := Step(w, a);
    assert w'.accepted == w.accepted && w'.sent == w.sent;
    SameAccepted(w, w');
  }

  lemma SameAccepted(w: World, w': World)
    requires AcceptedInRange(w) && w'.accepted == w.accepted && w'.sent == w.sent
    ensures AcceptedInRange(w')
  {
  }

  lemma BookkeepingStepKeeps(w: World, a: Action)
    requires WorldOk(w) && (a.AbortWebhook? || a.AbortHandling? || a.CancelRead?)
    ensures WorldOk(Step(w, a)) && Later(w, Step(w, a))
  {
    hide WorldOk, Later, Orders.CancelCheck;
    BookkeepingKeeps(w, Step(w, a));
  }

  lemma PaymentActionKeeps(w: World, a: Action)
    requires WorldOk(w) && AcceptedInRange(w) && OfPayment(a)
    ensures WorldOk(Step(w, a)) && Later(w, Step(w, a))
  {
    hide WorldOk, Later, AcceptedInRange, DoCreatePayment, DoBeginWebhook, DoFinishWebhook, DoRefund, DoAbortWebhook;
    match a
    case CreatePayment(id) => CreatePaymentKeeps(w, id);
    case BeginWebhook(id, event, succeeded) => BeginWebhookKeeps(w, id, event, succeeded);
    case FinishWebhook(id) => FinishWebhookKeeps(w, id);
    case CreateRefund(id, asked) => RefundKeeps(w, id, asked);
    case AbortWebhook(_) => BookkeepingStepKeeps(w, a);
  }

  lemma OrderActionKeeps(w: World, a: Action)
    requires WorldOk(w) && OfOrder(a)
    ensures WorldOk(Step(w, a)) && Later(w, Step(w, a))
  {
    hide WorldOk, Later, DoDeliverAuthorized, DoDeliverFailed, DoDeliverRefunded, DoFinishHandling, DoFulfill;
    match a
    case DeliverAuthorized(n, p, now, delivery) => DeliverAuthorizedKeeps(w, n, p, now, delivery);
    case DeliverFailed(n, p, reason, now, delivery) => DeliverFailedKeeps(w, n, p, reason, now, delivery);
    case DeliverRefunded(n) => DeliverRefundedKeeps(w, n);
    case FinishHandling(id) => FinishHandlingKeeps(w, id);
    case AbortHandling(_) => BookkeepingStepKeeps(w, a);
    case Fulfill(id, status) => FulfillKeeps(w, id, status);
  }

  lemma CreationOrCancellationKeeps(w: World, a: Action)
    requires WorldOk(w) && Possible(w, a) && !OfPayment(a) && !OfOrder(a)
    requires a.OtherCall? && a.call.CallSweep? ==> Inventory.InRange(a.call.fetched, |w.inventory.reservations|)
    ensures WorldOk(Step(w, a)) && Later(w, Step(w, a))
  {
    hide WorldOk, Later, Possible, DoReserve, DoPersist, DoAbandon, DoCancelRead, DoCancelRelease, DoCancelWrite,
         InventoryRuns.After, Inventory.InRange;
    match a
    case OtherCall(c) => OtherCallKeeps(w, c);
    case ReserveOrder(id, settings, key, data, now, delivery) => ReserveOrderKeeps(w, id, settings, key, data, now, delivery);
    case PersistOrder(id, prices, currency) => PersistKeeps(w, id, prices, currency);
    case AbandonOrder(id, p, reason, now, delivery) => AbandonKeeps(w, id, p, reason, now, delivery);
    case CancelRead(_, _) => BookkeepingStepKeeps(w, a);
    case CancelRelease(k, p, reason, now, delivery) => CancelReleaseKeeps(w, k, p, reason, now, delivery);
    case CancelWrite(k) => CancelWriteKeeps(w, k);
  }

  /** Every step keeps the agreement of the three services. */
  lemma StepKeeps(w: World, a: Action)
    requires WorldOk(w) && AcceptedInRange(w) && Possible(w, a)
    requires a.OtherCall? && a.call.CallSweep? ==> Inventory.InRange(a.call.fetched, |w.inventory.reservations|)
    ensures WorldOk(Step(w, a)) && AcceptedInRange(Step(w, a)) && Later(w, Step(w, a))
  {
    hide WorldOk, Later, AcceptedInRange, Possible, Step;
    AcceptedKeeps(w, a);
    if OfPayment(a) {
      PaymentActionKeeps(w, a);
    } else if OfOrder(a) {
      OrderActionKeeps(w, a);
    } else {
      CreationOrCancellationKeeps(w, a);
    }
  }

  lemma LaterTransitive(a: World, b: World, c: World)
    requires Later(a, b) && Later(b, c)
    ensures Later(a, c)
  {
    Stock.EvolvesTransitive(a.inventory, b.inventory, c.inventory);
    hide Stock.Evolves;
    forall id | id in a.orders ensures id in c.orders && Orders.OrderEvolves(a.orders[id], c.orders[id]) {
      assert Orders.OrderEvolves(a.orders[id], b.orders[id]) && Orders.OrderEvolves(b.orders[id], c.orders[id]);
    }
  }

  lemma StartOk()
    ensures WorldOk(START) && AcceptedInRange(START)
  {
    InventoryRuns.EmptyOk();
  }

  lemma {:induction false} RunOk(ws: seq<World>, actions: seq<Action>, n: nat)
    requires IsRun(ws, actions) && n < |ws|
    ensures WorldOk(ws[n]) && AcceptedInRange(ws[n])
  {
    hide WorldOk, AcceptedInRange, Step;
    if n == 0 {
      StartOk();
    } else {
      RunOk(ws, actions, n - 1);
      StepKeeps(ws[n - 1], actions[n - 1]);
    }
  }

  lemma {:induction false} RunLater(ws: seq<World>, actions: seq<Action>, m: nat, n: nat)
    requires IsRun(ws, actions) && m <= n < |ws|
    ensures Later(ws[m], ws[n])
    decreases n
  {
    hide WorldOk, AcceptedInRange, Step, Later;
    RunOk(ws, actions, m);
    if m == n {
      Same(ws[m]);
    } else {
      RunLater(ws, actions, m, n - 1);
      RunOk(ws, actions, n - 1);
      StepKeeps(ws[n - 1], actions[n - 1]);
      LaterTransitive(ws[m], ws[n - 1], ws[n]);
    }
  }

  // ---------------------------------------------------------------- agreement of Payment and Order

  /** A payment that reports success has a confirmed order behind it, one that reports failure a failed one. */
  lemma PaymentAgreesWithOrder(ws: seq<World>, actions: seq<Action>, n: nat, id: Id)
    requires IsRun(ws, actions) && n < |ws| && id in ws[n].payments
    ensures id in ws[n].orders
    ensures var p, o := ws[n].payments[id], ws[n].orders[id];
            && p.amount == o.total && p.currency == o.currency
            && (Payments.Success(p.status) ==>
                  Orders.Confirmed in o.history && Orders.PaymentFailed !in o.history
                  && o.status in {Orders.Confirmed, Orders.Processing, Orders.Shipped, Orders.Delivered, Orders.Cancelled})
            && (p.status == Payments.Failed ==>
                  Orders.PaymentFailed in o.history && Orders.Confirmed !in o.history
                  && o.status in {Orders.PaymentFailed, Orders.Cancelled})
  {
    RunOk(ws, actions, n);
    PaymentOf(ws[n], id);
    OrderOf(ws[n], id);
  }

  /** No payment ever crosses between success and failure. */
  lemma PaymentNeverCrosses(ws: seq<World>, actions: seq<Action>, m: nat, n: nat, id: Id)
    requires IsRun(ws, actions) && m <= n < |ws| && id in ws[m].payments
    ensures id in ws[n].payments
    ensures Payments.Success(ws[m].payments[id].status) ==> ws[n].payments[id].status != Payments.Failed
    ensures ws[m].payments[id].status == Payments.Failed ==> !Payments.Success(ws[n].payments[id].status)
  {
    hide WorldOk;
    RunLater(ws, actions, m, n);
    PaymentAgreesWithOrder(ws, actions, m, id);
    PaymentAgreesWithOrder(ws, actions, n, id);
    var o, o' := ws[m].orders[id], ws[n].orders[id];
    if Payments.Success(ws[m].payments[id].status) {
      HistoryStays(o, o', Orders.Confirmed);
    }
    if ws[m].payments[id].status == Payments.Failed {
      HistoryStays(o, o', Orders.PaymentFailed);
    }
  }

  // ---------------------------------------------------------------- Order and Inventory

  /**
   Saga: while an order is confirmed, processing, shipped or delivered (and even if it is cancelled
   later), its group exists, every reservation of it is COMMITTED, and what was committed of each
   (seller, sku) pair is exactly what the order's lines ask for. On-hand stock is what came in less
   the committed quantities, each counted once.
   */
  lemma ConfirmedOrderIsShipped(ws: seq<World>, actions: seq<Action>, n: nat, id: Id)
    requires IsRun(ws, actions) && n < |ws| && id in ws[n].orders
    requires Orders.Confirmed in ws[n].orders[id].history
             || ws[n].orders[id].status in {Orders.Confirmed, Orders.Processing, Orders.Shipped, Orders.Delivered}
    ensures var t, o := ws[n].inventory, ws[n].orders[id];
            && GroupExists(t, o.group) && GroupAll(t, o.group, Inventory.Committed)
            && (forall seller, sku ::
                  GroupQuantity(t.reservations, t.items, o.group, seller, sku, {Inventory.Committed})
                  == Asked(o.lines, seller, sku))
    ensures var t := ws[n].inventory;
            forall i :: i in t.items ==>
              t.items[i].onHand == Stock.Inflow(t.ledger, i) - Stock.SumBy(t.reservations, i, Inventory.Committed)
  {
    var t, o := ws[n].inventory, ws[n].orders[id];
    RunOk(ws, actions, n);
    OrderOf(ws[n], id);
    assert ClaimOk(ws[n], id);
    forall seller, sku
      ensures GroupQuantity(t.reservations, t.items, o.group, seller, sku, {Inventory.Committed})
              == Asked(o.lines, seller, sku)
    {
      CommittedGroupShips(t.reservations, t.items, o.group, seller, sku);
    }
    StockOfWorld(t);
  }

  lemma StockOfWorld(t: Inventory.Tables)
    requires Stock.Inv(t)
    ensures forall i :: i in t.items ==>
              t.items[i].onHand == Stock.Inflow(t.ledger, i) - Stock.SumBy(t.reservations, i, Inventory.Committed)
  {
    forall i | i in t.items
      ensures t.items[i].onHand == Stock.Inflow(t.ledger, i) - Stock.SumBy(t.reservations, i, Inventory.Committed)
    {
      assert Stock.ItemOk(t, i);
      forall k | 0 <= k < |t.ledger| ensures Stock.KindOk(t.ledger[k]) { assert Stock.EntryOk(t.ledger, k); }
      Stock.OnHandIsInflowLessOutflow(t.ledger, i);
    }
  }

  /** No group ever serves two orders. */
  lemma GroupServesOneOrder(ws: seq<World>, actions: seq<Action>, n: nat, a: Id, b: Id)
    requires IsRun(ws, actions) && n < |ws| && a in ws[n].orders && b in ws[n].orders && a != b
    ensures ws[n].orders[a].group != ws[n].orders[b].group
  {
    RunOk(ws, actions, n);
    OrderOf(ws[n], a);
    OrderOf(ws[n], b);
  }

  /** Once a member of its group was released or expired, an unconfirmed order can never be confirmed. */
  lemma DeadGroupNeverConfirms(ws: seq<World>, actions: seq<Action>, m: nat, n: nat, id: Id)
    requires IsRun(ws, actions) && m <= n < |ws| && id in ws[m].orders
    requires GroupDead(ws[m].inventory, ws[m].orders[id].group)
    ensures id in ws[n].orders && Orders.Confirmed !in ws[n].orders[id].history
    ensures ws[n].orders[id].status !in {Orders.Confirmed, Orders.Processing, Orders.Shipped, Orders.Delivered}
  {
    hide IsRun, Step, AcceptedInRange;
    RunOk(ws, actions, m);
    OrderOf(ws[m], id);
    assert ClaimOk(ws[m], id);
    RunLater(ws, actions, m, n);
    GroupStays(ws[m].inventory, ws[n].inventory, ws[m].orders[id].group);
    assert Orders.OrderEvolves(ws[m].orders[id], ws[n].orders[id]);
    RunOk(ws, actions, n);
    OrderOf(ws[n], id);
  }

  // ---------------------------------------------------------------- refunds

  /** Refunds never exceed the payment, and the statuses of both services say no more than is true. */
  lemma RefundsAreHonest(ws: seq<World>, actions: seq<Action>, n: nat, id: Id)
    requires IsRun(ws, actions) && n < |ws| && id in ws[n].payments
    ensures id in ws[n].orders
    ensures var p, o := ws[n].payments[id], ws[n].orders[id];
            && 0 <= Payments.RefundedAmount(p) <= p.amount == o.total
            && (p.status == Payments.Refunded ==> Payments.RefundedAmount(p) == p.amount)
            && (p.status == Payments.PartiallyRefunded ==> 0 < Payments.RefundedAmount(p) < p.amount)
            && (o.payment == Orders.Refunded ==> Payments.RefundedAmount(p) == p.amount)
            && (o.payment == Orders.PartiallyRefunded ==> 0 < Payments.RefundedAmount(p))
  {
    RunOk(ws, actions, n);
    PaymentOf(ws[n], id);
    OrderOf(ws[n], id);
    Payments.SumNonNegative(ws[n].payments[id].refunds);
  }

  /** Order accepts every refund callback that reaches it, however late. */
  lemma RefundCallbackNeverRejected(ws: seq<World>, actions: seq<Action>, n: nat, k: nat)
    requires IsRun(ws, actions) && n < |ws| && k < |ws[n].sent| && ws[n].sent[k].RefundedMessage?
    ensures var message := ws[n].sent[k];
            message.order in ws[n].orders
            && Orders.OnRefunded(ws[n].orders[message.order], message.refunded, message.currency).Ok?
  {
    hide IsRun, Step, AcceptedInRange;
    RunOk(ws, actions, n);
    MessageOf(ws[n], k);
    PaymentOf(ws[n], ws[n].sent[k].order);
    OrderOf(ws[n], ws[n].sent[k].order);
  }

  /** With prices in whole cents, what a payment charges is the sum over its order's lines of quantity
      times unit price in cents; with other prices it is the rounded subtotal. */
  lemma ChargedAsPriced(ws: seq<World>, actions: seq<Action>, n: nat, id: Id)
    requires IsRun(ws, actions) && n < |ws| && id in ws[n].payments
    ensures id in ws[n].orders && |ws[n].orders[id].prices| == |ws[n].orders[id].lines|
    ensures var o := ws[n].orders[id];
            var priced := Orders.Priced(o.lines, o.prices);
            && ws[n].payments[id].amount == Money.ToMinorUnits(Money.Subtotal(priced))
            && ((forall k :: 0 <= k < |o.prices| ==> Money.WholeCents(o.prices[k])) ==>
                  ws[n].payments[id].amount == Money.MinorTotal(priced))
  {
    hide IsRun, Step, AcceptedInRange, Money.WholeCents, Money.Subtotal, Money.MinorTotal, Money.ToMinorUnits;
    RunOk(ws, actions, n);
    PaymentOf(ws[n], id);
    OrderOf(ws[n], id);
    var o := ws[n].orders[id];
    hide WorldOk, OrderInv, PaymentInv;
    if forall k :: 0 <= k < |o.prices| ==> Money.WholeCents(o.prices[k]) {
      Money.ChargeIsExact(Orders.Priced(o.lines, o.prices));
    }
  }
}
