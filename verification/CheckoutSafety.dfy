/** The invariant that keeps the three services in agreement, shown for every step of the protocol. */
module CheckoutSafety {
  import opened Common
  import opened Checkout
  import opened Fulfilment
  import Inventory
  import InventoryRuns
  import InventorySafety
  import Stock = StockInvariant
  import Orders
  import Payments

  // ---------------------------------------------------------------- the invariant, part by part

  /** A claim names an existing group of its customer that holds what was asked for, and no other claim's group. */
  ghost predicate ClaimOk(w: World, id: Id)
    requires id in w.claims
  {
    && id in w.drawn
    && GroupExists(w.inventory, w.claims[id].group)
    && w.inventory.reservations[w.claims[id].group].customer == w.claims[id].customer
    && ServesLines(w.inventory, w.claims[id])
  }

  ghost predicate ServesLines(t: Inventory.Tables, c: Claim) {
    forall seller, sku ::
      GroupQuantity(t.reservations, t.items, c.group, seller, sku, ANY_STATUS) == Asked(c.lines, seller, sku)
  }

  ghost predicate ClaimsOk(w: World) {
    && (forall id :: id in w.claims ==> ClaimOk(w, id))
    && (forall a, b :: a in w.claims && b in w.claims && a != b ==> w.claims[a].group != w.claims[b].group)
  }

  /** No batch that Inventory remembers carries the number of an order not drawn yet. */
  ghost predicate RecordsDrawn(w: World) {
    forall key :: key in w.inventory.records && w.inventory.records[key].request.BatchRequest? ==>
      NotAhead(w, w.inventory.records[key].request.batch.orderRef)
  }

  /** Saga: an order that was ever confirmed has its whole group committed. */
  ghost predicate OrderInv(w: World, id: Id)
    requires id in w.orders
  {
    var o := w.orders[id];
    && id in w.claims
    && o.customer == w.claims[id].customer && o.lines == w.claims[id].lines && o.group == w.claims[id].group
    && Orders.OrderOk(o)
    && (Orders.Confirmed in o.history ==> GroupAll(w.inventory, o.group, Inventory.Committed))
    && (o.payment == Orders.Refunded ==>
          id in w.payments && Payments.RefundedAmount(w.payments[id]) == w.payments[id].amount)
    && (o.payment == Orders.PartiallyRefunded ==>
          id in w.payments && 0 < Payments.RefundedAmount(w.payments[id]))
  }

  ghost predicate OrdersOk(w: World) {
    forall id :: id in w.orders ==> OrderInv(w, id)
  }

  /** Agreement: what a payment says, its order has been through. */
  ghost predicate PaymentInv(w: World, id: Id)
    requires id in w.payments
  {
    var p := w.payments[id];
    && id in w.orders
    && p.amount == w.orders[id].total && p.currency == w.orders[id].currency
    && Payments.PaymentOk(p)
    && (Payments.Success(p.status) ==> Orders.Confirmed in w.orders[id].history)
    && (p.status == Payments.Failed ==> Orders.PaymentFailed in w.orders[id].history)
  }

  ghost predicate PaymentsOk(w: World) {
    forall id :: id in w.payments ==> PaymentInv(w, id)
  }

  ghost predicate MessageOk(w: World, n: nat)
    requires n < |w.sent|
  {
    match w.sent[n]
    case AuthorizedMessage(id, _, _) =>
      id in w.orders && (n in w.accepted ==> Orders.Confirmed in w.orders[id].history)
    case FailedMessage(id) =>
      id in w.orders && (n in w.accepted ==> Orders.PaymentFailed in w.orders[id].history)
    case RefundedMessage(id, refunded, currency) =>
      && id in w.orders && id in w.payments && currency == w.payments[id].currency
      && Orders.Confirmed in w.orders[id].history
      && 0 < refunded <= Payments.RefundedAmount(w.payments[id])
  }

  ghost predicate MessagesOk(w: World) {
    forall n :: 0 <= n < |w.sent| ==> MessageOk(w, n)
  }

  ghost predicate SettlementsOk(w: World) {
    forall id :: id in w.settling ==>
      var s := w.settling[id];
      && s.request < |w.sent|
      && w.sent[s.request].order == id
      && (if s.succeeded then w.sent[s.request].AuthorizedMessage? else w.sent[s.request].FailedMessage?)
  }

  /** A handler that holds an order row found it unpaid, and for a success has the group committed. */
  ghost predicate HandlingOk(w: World) {
    forall id :: id in w.handling ==>
      && w.handling[id] < |w.sent| && id in w.orders
      && w.sent[w.handling[id]].order == id && !w.sent[w.handling[id]].RefundedMessage?
      && w.orders[id].status == Orders.PendingPayment
      && (w.sent[w.handling[id]].AuthorizedMessage? ==> GroupAll(w.inventory, w.orders[id].group, Inventory.Committed))
  }

  ghost predicate WorldOk(w: World) {
    && Stock.Inv(w.inventory) && RecordsDrawn(w) && ClaimsOk(w)
    && OrdersOk(w) && PaymentsOk(w) && MessagesOk(w) && SettlementsOk(w) && HandlingOk(w)
  }

  // ---------------------------------------------------------------- what later worlds keep

  ghost predicate OrdersEvolve(w: World, w': World) {
    forall id :: id in w.orders ==> id in w'.orders && Orders.OrderEvolves(w.orders[id], w'.orders[id])
  }

  ghost predicate PaymentsEvolve(w: World, w': World) {
    forall id :: id in w.payments ==>
      && id in w'.payments && w'.payments[id].amount == w.payments[id].amount
      && w'.payments[id].currency == w.payments[id].currency
      && Payments.RefundedAmount(w.payments[id]) <= Payments.RefundedAmount(w'.payments[id]) <= w.payments[id].amount
  }

  ghost predicate Later(w: World, w': World) {
    && Stock.Evolves(w.inventory, w'.inventory)
    && OrdersEvolve(w, w') && PaymentsEvolve(w, w')
    && w.sent <= w'.sent && w.accepted <= w'.accepted && w.webhooks <= w'.webhooks
  }

  lemma HistoryStays(o: Orders.Order, o': Orders.Order, s: Orders.OrderStatus)
    requires Orders.OrderEvolves(o, o') && s in o.history
    ensures s in o'.history
  {
    var k :| 0 <= k < |o.history| && o.history[k] == s;
    assert o'.history[k] == s;
  }

  // ---------------------------------------------------------------- parts that a step does not touch

  lemma ClaimsStay(w: World, w': World)
    requires ClaimsOk(w) && Stock.Inv(w.inventory) && Stock.Evolves(w.inventory, w'.inventory)
    requires w'.claims.Keys <= w.claims.Keys && w.drawn <= w'.drawn
    requires forall id :: id in w'.claims ==> w'.claims[id] == w.claims[id]
    ensures ClaimsOk(w')
  {
    forall id | id in w'.claims ensures ClaimOk(w', id) {
      ClaimStays(w, w', id);
    }
  }

  lemma ClaimStays(w: World, w': World, id: Id)
    requires id in w.claims && id in w'.claims && w'.claims[id] == w.claims[id] && ClaimOk(w, id)
    requires Stock.Inv(w.inventory) && Stock.Evolves(w.inventory, w'.inventory) && w.drawn <= w'.drawn
    ensures ClaimOk(w', id)
  {
    var c := w.claims[id];
    GroupStays(w.inventory, w'.inventory, c.group);
    assert Stock.SameIdentity(w.inventory.reservations[c.group], w'.inventory.reservations[c.group]);
    forall seller, sku
      ensures GroupQuantity(w'.inventory.reservations, w'.inventory.items, c.group, seller, sku, ANY_STATUS)
              == Asked(c.lines, seller, sku)
    {
      GroupQuantityStays(w.inventory, w'.inventory, c.group, seller, sku);
    }
  }

  lemma OrderStays(w: World, w': World, id: Id)
    requires id in w.orders && OrderInv(w, id) && id in w'.orders && w'.orders[id] == w.orders[id]
    requires id in w.claims ==> id in w'.claims && w'.claims[id] == w.claims[id]
    requires id in w.claims ==> GroupExists(w.inventory, w.claims[id].group)
    requires Stock.Evolves(w.inventory, w'.inventory) && PaymentsEvolve(w, w')
    ensures OrderInv(w', id)
  {
    GroupStays(w.inventory, w'.inventory, w.orders[id].group);
  }

  lemma OrdersStay(w: World, w': World)
    requires OrdersOk(w) && ClaimsOk(w) && w'.orders == w.orders
    requires forall id :: id in w.orders && id in w.claims ==> id in w'.claims && w'.claims[id] == w.claims[id]
    requires Stock.Evolves(w.inventory, w'.inventory) && PaymentsEvolve(w, w')
    ensures OrdersOk(w')
  {
    forall id | id in w'.orders ensures OrderInv(w', id) {
      assert ClaimOk(w, id);
      OrderStays(w, w', id);
    }
  }

  lemma PaymentStays(w: World, w': World, id: Id)
    requires id in w.payments && PaymentInv(w, id) && id in w'.payments && w'.payments[id] == w.payments[id]
    requires OrdersEvolve(w, w')
    ensures PaymentInv(w', id)
  {
    if Payments.Success(w.payments[id].status) {
      HistoryStays(w.orders[id], w'.orders[id], Orders.Confirmed);
    }
    if w.payments[id].status == Payments.Failed {
      HistoryStays(w.orders[id], w'.orders[id], Orders.PaymentFailed);
    }
  }

  lemma PaymentsStay(w: World, w': World)
    requires PaymentsOk(w) && w'.payments == w.payments && OrdersEvolve(w, w')
    ensures PaymentsOk(w')
  {
    forall id | id in w'.payments ensures PaymentInv(w', id) {
      PaymentStays(w, w', id);
    }
  }

  lemma MessageStays(w: World, w': World, n: nat)
    requires n < |w.sent| && MessageOk(w, n) && n < |w'.sent| && w'.sent[n] == w.sent[n]
    requires OrdersEvolve(w, w') && PaymentsEvolve(w, w')
    requires n in w'.accepted ==> n in w.accepted
    ensures MessageOk(w', n)
  {
    match w.sent[n]
    case AuthorizedMessage(id, _, _) =>
      if n in w.accepted { HistoryStays(w.orders[id], w'.orders[id], Orders.Confirmed); }
    case FailedMessage(id) =>
      if n in w.accepted { HistoryStays(w.orders[id], w'.orders[id], Orders.PaymentFailed); }
    case RefundedMessage(id, _, _) => HistoryStays(w.orders[id], w'.orders[id], Orders.Confirmed);
  }

  lemma MessagesStay(w: World, w': World)
    requires MessagesOk(w) && w'.sent == w.sent && w'.accepted <= w.accepted
    requires OrdersEvolve(w, w') && PaymentsEvolve(w, w')
    ensures MessagesOk(w')
  {
    forall n | 0 <= n < |w'.sent| ensures MessageOk(w', n) {
      MessageStays(w, w', n);
    }
  }

  /** Rows being handled are written by nobody else. */
  lemma HandlingStays(w: World, w': World)
    requires HandlingOk(w) && OrdersOk(w) && ClaimsOk(w) && w.sent <= w'.sent
    requires w'.handling.Keys <= w.handling.Keys
    requires forall id :: id in w'.handling ==>
               w'.handling[id] == w.handling[id]
               && (id in w.orders ==> id in w'.orders && w'.orders[id] == w.orders[id])
    requires Stock.Evolves(w.inventory, w'.inventory)
    ensures HandlingOk(w')
  {
    forall id | id in w'.handling
      ensures w'.handling[id] < |w'.sent| && id in w'.orders
              && w'.sent[w'.handling[id]].order == id && !w'.sent[w'.handling[id]].RefundedMessage?
              && w'.orders[id].status == Orders.PendingPayment
              && (w'.sent[w'.handling[id]].AuthorizedMessage? ==>
                    GroupAll(w'.inventory, w'.orders[id].group, Inventory.Committed))
    {
      assert OrderInv(w, id) && ClaimOk(w, id);
      GroupStays(w.inventory, w'.inventory, w.orders[id].group);
    }
  }

  lemma SettlementsStay(w: World, w': World)
    requires SettlementsOk(w) && w.sent <= w'.sent && w'.settling.Keys <= w.settling.Keys
    requires forall id :: id in w'.settling ==> w'.settling[id] == w.settling[id]
    ensures SettlementsOk(w')
  {
  }

  lemma RecordsStay(w: World, w': World)
    requires RecordsDrawn(w) && w'.inventory.records == w.inventory.records && w.drawn <= w'.drawn
    ensures RecordsDrawn(w')
  {
    forall key | key in w'.inventory.records && w'.inventory.records[key].request.BatchRequest?
      ensures NotAhead(w', w'.inventory.records[key].request.batch.orderRef)
    {
      assert NotAhead(w, w.inventory.records[key].request.batch.orderRef);
    }
  }

  /** Worlds with the same orders and payments. */
  lemma NothingPaid(w: World, w': World)
    requires PaymentsOk(w) && w'.payments == w.payments && w'.orders == w.orders
    ensures PaymentsEvolve(w, w') && OrdersEvolve(w, w')
  {
    forall id | id in w.payments
      ensures Payments.RefundedAmount(w.payments[id]) <= w.payments[id].amount
    {
      assert PaymentInv(w, id);
    }
  }

  // ---------------------------------------------------------------- one row changes

  lemma OrdersAfter(w: World, w': World, id: Id)
    requires OrdersOk(w) && ClaimsOk(w) && id in w'.orders && OrderInv(w', id)
    requires w'.orders == w.orders[id := w'.orders[id]] && w'.payments == w.payments && w'.claims == w.claims
    requires w'.inventory == w.inventory && PaymentsEvolve(w, w') && Stock.Evolves(w.inventory, w'.inventory)
    requires id in w.orders ==> Orders.OrderEvolves(w.orders[id], w'.orders[id])
    ensures OrdersOk(w') && OrdersEvolve(w, w')
  {
    forall a | a in w'.orders ensures OrderInv(w', a) {
      if a != id {
        assert ClaimOk(w, a);
        OrderStays(w, w', a);
      }
    }
  }

  lemma PaymentsAfter(w: World, w': World, id: Id)
    requires PaymentsOk(w) && id in w'.payments && PaymentInv(w', id)
    requires w'.payments == w.payments[id := w'.payments[id]] && w'.orders == w.orders
    requires id in w.payments ==>
               && w'.payments[id].amount == w.payments[id].amount && w'.payments[id].currency == w.payments[id].currency
               && Payments.RefundedAmount(w.payments[id]) <= Payments.RefundedAmount(w'.payments[id])
    ensures PaymentsOk(w') && PaymentsEvolve(w, w') && OrdersEvolve(w, w')
  {
    forall a | a in w'.payments ensures PaymentInv(w', a) {
      if a != id {
        assert PaymentInv(w, a);
        PaymentStays(w, w', a);
      }
    }
  }

  lemma MessagesAfterSend(w: World, w': World)
    requires MessagesOk(w) && |w'.sent| == |w.sent| + 1 && w.sent <= w'.sent && w'.accepted == w.accepted
    requires MessageOk(w', |w.sent|) && OrdersEvolve(w, w') && PaymentsEvolve(w, w')
    ensures MessagesOk(w')
  {
    forall n | 0 <= n < |w'.sent| ensures MessageOk(w', n) {
      if n < |w.sent| {
        MessageStays(w, w', n);
      }
    }
  }

  lemma MessagesAfterAccept(w: World, w': World, n: nat)
    requires MessagesOk(w) && w'.sent == w.sent && w'.accepted == w.accepted + {n} && n < |w.sent|
    requires MessageOk(w', n) && OrdersEvolve(w, w') && PaymentsEvolve(w, w')
    ensures MessagesOk(w')
  {
    forall m | 0 <= m < |w'.sent| ensures MessageOk(w', m) {
      if m != n {
        MessageStays(w, w', m);
      }
    }
  }

  // ---------------------------------------------------------------- reading the invariant off one row

  lemma OrderOf(w: World, id: Id)
    requires OrdersOk(w) && id in w.orders
    ensures OrderInv(w, id)
  {
  }

  lemma PaymentOf(w: World, id: Id)
    requires PaymentsOk(w) && id in w.payments
    ensures PaymentInv(w, id)
  {
  }

  lemma MessageOf(w: World, n: nat)
    requires MessagesOk(w) && n < |w.sent|
    ensures MessageOk(w, n)
  {
  }

  lemma SettlementOf(w: World, id: Id)
    requires SettlementsOk(w) && id in w.settling
    ensures var s := w.settling[id];
            && s.request < |w.sent| && w.sent[s.request].order == id
            && (if s.succeeded then w.sent[s.request].AuthorizedMessage? else w.sent[s.request].FailedMessage?)
  {
  }

  lemma HandlingOf(w: World, id: Id)
    requires HandlingOk(w) && id in w.handling
    ensures && w.handling[id] < |w.sent| && id in w.orders
            && w.sent[w.handling[id]].order == id && !w.sent[w.handling[id]].RefundedMessage?
            && w.orders[id].status == Orders.PendingPayment
            && (w.sent[w.handling[id]].AuthorizedMessage? ==> GroupAll(w.inventory, w.orders[id].group, Inventory.Committed))
  {
  }
}
