/** Each step of the checkout protocol keeps the invariant of `CheckoutSafety`. */
module CheckoutSteps {
  import opened Common
  import opened Checkout
  import opened CheckoutSafety
  import opened Fulfilment
  import Inventory
  import InventoryRuns
  import InventorySafety
  import Stock = StockInvariant
  import Orders
  import Payments

  lemma Same(w: World)
    requires WorldOk(w)
    ensures Later(w, w)
  {
    NothingPaid(w, w);
    InventoryRuns.Unchanged(w.inventory);
  }

  /** A step in which only Inventory changes any row. */
  lemma InventoryStep(w: World, w': World)
    requires WorldOk(w) && Stock.Inv(w'.inventory) && Stock.Evolves(w.inventory, w'.inventory)
    requires w' == w.(inventory := w'.inventory, drawn := w'.drawn, claims := w'.claims, handling := w'.handling,
                      cancellations := w'.cancellations)
    requires RecordsDrawn(w') && ClaimsOk(w') && HandlingOk(w')
    requires forall id :: id in w.orders && id in w.claims ==> id in w'.claims && w'.claims[id] == w.claims[id]
    ensures WorldOk(w') && Later(w, w')
  {
    hide Stock.Inv, Stock.Evolves, RecordsDrawn, ClaimsOk, OrdersOk, PaymentsOk, MessagesOk, SettlementsOk, HandlingOk,
         OrdersEvolve, PaymentsEvolve;
    NothingPaid(w, w');
    OrdersStay(w, w');
    PaymentsStay(w, w');
    MessagesStay(w, w');
    SettlementsStay(w, w');
  }

  // ---------------------------------------------------------------- steps in Inventory

  /** A record of a batch is written only by that batch. */
  lemma CallRecords(t: Inventory.Tables, c: InventoryRuns.Call)
    requires c.CallSweep? ==> Inventory.InRange(c.fetched, |t.reservations|)
    requires Stock.Inv(t) && InventoryRuns.Possible(t, c)
    ensures forall key :: key in InventoryRuns.After(t, c).records
                          && InventoryRuns.After(t, c).records[key].request.BatchRequest? ==>
              || (key in t.records && t.records[key] == InventoryRuns.After(t, c).records[key])
              || (c.CallBatch? && InventoryRuns.After(t, c).records[key].request == Inventory.BatchRequest(c.batch))
  {
    if c.CallCommitGroup? || c.CallReleaseGroup? || c.CallSweep? {
      GroupCallsKeepRecords(t, c);
    } else if c.CallBatch? {
      hide Stock.Inv, Stock.Evolves, Inventory.CreateBatch, Inventory.ValidBatch, Inventory.BatchError, Inventory.BatchRows;
      InventoryRuns.CreateBatchKeeps(t, c.s, c.key, c.batch, c.now);
    } else {
      SingleCallRecords(t, c);
    }
  }

  lemma SingleCallRecords(t: Inventory.Tables, c: InventoryRuns.Call)
    requires !(c.CallCommitGroup? || c.CallReleaseGroup? || c.CallSweep? || c.CallBatch?)
    ensures forall key :: key in InventoryRuns.After(t, c).records
                          && InventoryRuns.After(t, c).records[key].request.BatchRequest? ==>
              key in t.records && t.records[key] == InventoryRuns.After(t, c).records[key]
  {
    hide Inventory.Expiry, Inventory.MayResolve;
    match c
    case CallCreateItem(_, _, _, _, _, _) =>
    case CallUpdateItem(_, _, _, _, _) =>
    case CallAdjust(_, _, _, _, _) =>
    case CallReserve(_, _, _, _, _) =>
    case CallCommit(_, _, _, _) =>
    case CallRelease(_, _, _, _) =>
  }

  lemma GroupCallsKeepRecords(t: Inventory.Tables, c: InventoryRuns.Call)
    requires c.CallCommitGroup? || c.CallReleaseGroup? || c.CallSweep?
    requires c.CallSweep? ==> Inventory.InRange(c.fetched, |t.reservations|)
    requires Stock.Inv(t) && InventoryRuns.Possible(t, c)
    ensures InventoryRuns.After(t, c).records == t.records
  {
    hide Stock.Inv, Stock.Evolves, Inventory.CommitGroup, Inventory.ReleaseGroup, Inventory.Sweep;
    match c
    case CallCommitGroup(g, p, now) => InventorySafety.CommitGroupAllOrNone(t, g, p, now);
    case CallReleaseGroup(g, p, reason, now) => InventorySafety.ReleaseGroupAllOrNone(t, g, p, reason, now);
    case CallSweep(fetched, limit, now) =>
      InventoryRuns.FetchResolvable(t, now, limit, fetched);
      InventorySafety.SweepKeeps(t, fetched, now);
  }

  lemma OtherRecords(w: World, w': World, c: InventoryRuns.Call)
    requires Stock.Inv(w.inventory) && RecordsDrawn(w) && Possible(w, OtherCall(c))
    requires c.CallSweep? ==> Inventory.InRange(c.fetched, |w.inventory.reservations|)
    requires w' == w.(inventory := InventoryRuns.After(w.inventory, c))
    ensures RecordsDrawn(w')
  {
    CallRecords(w.inventory, c);
    hide Stock.Inv, InventoryRuns.After, InventoryRuns.Possible;
    forall key | key in w'.inventory.records && w'.inventory.records[key].request.BatchRequest?
      ensures NotAhead(w', w'.inventory.records[key].request.batch.orderRef)
    {
      assert if key in w.inventory.records && w.inventory.records[key] == w'.inventory.records[key]
             then NotAhead(w, w.inventory.records[key].request.batch.orderRef)
             else NotAhead(w, c.batch.orderRef);
    }
  }

  lemma OtherCallKeeps(w: World, c: InventoryRuns.Call)
    requires WorldOk(w) && Possible(w, OtherCall(c))
    requires c.CallSweep? ==> Inventory.InRange(c.fetched, |w.inventory.reservations|)
    ensures var w' := Step(w, OtherCall(c)); WorldOk(w') && Later(w, w')
  {
    var w' := w.(inventory := InventoryRuns.After(w.inventory, c));
    InventoryRuns.CallKeeps(w.inventory, c);
    OtherRecords(w, w', c);
    hide Stock.Inv, Stock.Evolves, InventoryRuns.After, ClaimsOk, OrdersOk, HandlingOk, MessagesOk, PaymentsOk, RecordsDrawn;
    ClaimsStay(w, w');
    HandlingStays(w, w');
    InventoryStep(w, w');
  }

  lemma ReserveOrderKeeps(w: World, id: Id, settings: Inventory.Settings, key: Option<string>, data: Inventory.BatchData,
                          now: int, delivery: Delivery)
    requires WorldOk(w)
    ensures var w' := DoReserve(w, id, settings, key, data, now, delivery); WorldOk(w') && Later(w, w')
  {
    var w' := DoReserve(w, id, settings, key, data, now, delivery);
    hide Stock.Inv, Stock.Evolves, RecordsDrawn, ClaimsOk, OrdersOk, PaymentsOk, MessagesOk, SettlementsOk, HandlingOk,
         OrdersEvolve, PaymentsEvolve;
    if id in w.drawn || data.orderRef != Some(OrderNumber(id)) {
      Same(w);
    } else if delivery.NotDelivered? {
      InventoryRuns.Unchanged(w.inventory);
      RecordsStay(w, w');
      ClaimsStay(w, w');
      HandlingStays(w, w');
      InventoryStep(w, w');
    } else {
      ReserveDelivered(w, id, settings, key, data, now, delivery);
    }
  }

  lemma ReserveDelivered(w: World, id: Id, settings: Inventory.Settings, key: Option<string>, data: Inventory.BatchData,
                         now: int, delivery: Delivery)
    requires WorldOk(w) && id !in w.drawn && data.orderRef == Some(OrderNumber(id)) && !delivery.NotDelivered?
    ensures var w' := DoReserve(w, id, settings, key, data, now, delivery); WorldOk(w') && Later(w, w')
  {
    var w' := DoReserve(w, id, settings, key, data, now, delivery);
    hide Stock.Inv, Stock.Evolves, RecordsDrawn, ClaimsOk, OrdersOk, PaymentsOk, MessagesOk, SettlementsOk, HandlingOk,
         OrdersEvolve, PaymentsEvolve, Inventory.CreateBatch, Inventory.ValidBatch, Inventory.BatchError,
         Inventory.BatchRows, InventoryRuns.IsNewGroup, OrderNumber, Later;
    InventoryRuns.CreateBatchKeeps(w.inventory, settings, key, data, now);
    FreshBatch(w, w', data, id);
    if w'.claims == w.claims {
      ClaimsStay(w, w');
    } else {
      NewClaim(w, w', id, data);
    }
    NewClaimKeepsOthers(w, id);
    HandlingStays(w, w');
    InventoryStep(w, w');
  }

  lemma NewClaimKeepsOthers(w: World, id: Id)
    requires ClaimsOk(w) && id !in w.drawn
    ensures id !in w.claims
  {
  }

  /** The batch of an order not drawn before is no replay: what succeeds is a new group. */
  lemma FreshBatch(w: World, w': World, data: Inventory.BatchData, id: Id)
    requires RecordsDrawn(w) && id !in w.drawn && data.orderRef == Some(OrderNumber(id)) && w'.drawn == w.drawn + {id}
    requires forall k :: k in w'.inventory.records ==>
               || (k in w.inventory.records && w'.inventory.records[k] == w.inventory.records[k])
               || w'.inventory.records[k].request == Inventory.BatchRequest(data)
    ensures RecordsDrawn(w')
    ensures forall k :: k in w.inventory.records ==> w.inventory.records[k].request != Inventory.BatchRequest(data)
  {
    forall k | k in w.inventory.records ensures w.inventory.records[k].request != Inventory.BatchRequest(data) {
      var request := w.inventory.records[k].request;
      assert request.BatchRequest? ==> NotAhead(w, request.batch.orderRef);
    }
    forall key | key in w'.inventory.records && w'.inventory.records[key].request.BatchRequest?
      ensures NotAhead(w', w'.inventory.records[key].request.batch.orderRef)
    {
      if w'.inventory.records[key].request == Inventory.BatchRequest(data) {
        forall other | data.orderRef == Some(OrderNumber(other)) ensures other in w'.drawn {
          assert |OrderNumber(other)| == |OrderNumber(id)|;
        }
      } else {
        assert NotAhead(w, w.inventory.records[key].request.batch.orderRef);
      }
    }
  }

  lemma NewClaim(w: World, w': World, id: Id, data: Inventory.BatchData)
    requires Stock.Inv(w.inventory) && ClaimsOk(w) && id !in w.drawn && id in w'.claims
    requires Stock.Evolves(w.inventory, w'.inventory) && Inventory.ValidBatch(data)
    requires InventoryRuns.IsNewGroup(w.inventory, w'.inventory, w'.claims[id].group)
    requires Inventory.BatchError(w.inventory.items, data.lines).None?
    requires exists at :: w'.inventory.reservations == w.inventory.reservations + Inventory.BatchRows(w.inventory, data, at)
    requires w'.drawn == w.drawn + {id}
    requires w'.claims == w.claims[id := Claim(data.customer, data.lines, w'.claims[id].group)]
    ensures ClaimsOk(w')
  {
    hide Stock.Inv, Stock.Evolves, Inventory.BatchRows, Inventory.ValidBatch, Inventory.BatchError,
         InventoryRuns.IsNewGroup, ClaimOk, GroupQuantity;
    var g := w'.claims[id].group;
    NewClaimKeepsOthers(w, id);
    NewGroupExists(w.inventory, w'.inventory, g);
    NewGroupCustomer(w.inventory, w'.inventory, data);
    NewGroupServes(w.inventory, w'.inventory, data, w'.claims[id]);
    NewClaimOk(w', id);
    hide ServesLines, GroupExists;
    forall b | b in w.claims ensures ClaimOk(w', b) && w'.claims[b].group != g {
      OldClaimStays(w, w', b);
    }
  }

  lemma OldClaimStays(w: World, w': World, b: Id)
    requires Stock.Inv(w.inventory) && Stock.Evolves(w.inventory, w'.inventory) && w.drawn <= w'.drawn
    requires b in w.claims && b in w'.claims && w'.claims[b] == w.claims[b] && ClaimOk(w, b)
    ensures ClaimOk(w', b) && w.claims[b].group < |w.inventory.reservations|
  {
    ClaimStays(w, w', b);
    OlderGroup(w.inventory, w.claims[b].group);
  }

  lemma NewGroupExists(t: Inventory.Tables, t': Inventory.Tables, g: Id)
    requires InventoryRuns.IsNewGroup(t, t', g)
    ensures GroupExists(t', g) && g == |t.reservations|
  {
    assert t'.reservations[g].group == Some(g);
  }

  lemma NewGroupCustomer(t: Inventory.Tables, t': Inventory.Tables, data: Inventory.BatchData)
    requires exists at :: t'.reservations == t.reservations + Inventory.BatchRows(t, data, at)
    requires |t.reservations| < |t'.reservations|
    ensures t'.reservations[|t.reservations|].customer == data.customer
  {
    hide Inventory.BatchTakes;
    var at :| t'.reservations == t.reservations + Inventory.BatchRows(t, data, at);
    assert t'.reservations[|t.reservations|] == Inventory.BatchRows(t, data, at)[0];
  }

  lemma OlderGroup(t: Inventory.Tables, g: Id)
    requires Stock.Inv(t) && GroupExists(t, g)
    ensures g < |t.reservations|
  {
  }

  lemma NewClaimOk(w: World, id: Id)
    requires id in w.claims && id in w.drawn && GroupExists(w.inventory, w.claims[id].group)
    requires w.inventory.reservations[w.claims[id].group].customer == w.claims[id].customer
    requires ServesLines(w.inventory, w.claims[id])
    ensures ClaimOk(w, id)
  {
  }

  lemma NewGroupServes(t: Inventory.Tables, t': Inventory.Tables, data: Inventory.BatchData, c: Claim)
    requires Stock.Inv(t) && Stock.Evolves(t, t') && Inventory.ValidBatch(data) && Inventory.BatchError(t.items, data.lines).None?
    requires c.group == |t.reservations| && c.lines == data.lines
    requires exists at :: t'.reservations == t.reservations + Inventory.BatchRows(t, data, at)
    ensures ServesLines(t', c)
  {
    hide Stock.Evolves, Inventory.BatchRows, Inventory.ValidBatch, Inventory.BatchError, GroupQuantity, Asked;
    var at :| t'.reservations == t.reservations + Inventory.BatchRows(t, data, at);
    forall seller, sku
      ensures GroupQuantity(t'.reservations, t'.items, c.group, seller, sku, ANY_STATUS) == Asked(c.lines, seller, sku)
    {
      NewGroupServesLines(t, t', data, at, seller, sku);
    }
  }

  lemma AbandonKeeps(w: World, id: Id, p: Inventory.Principal, reason: Inventory.Reason, now: int, delivery: Delivery)
    requires WorldOk(w)
    ensures var w' := DoAbandon(w, id, p, reason, now, delivery); WorldOk(w') && Later(w, w')
  {
    var w' := DoAbandon(w, id, p, reason, now, delivery);
    hide Stock.Inv, Stock.Evolves, RecordsDrawn, ClaimsOk, OrdersOk, PaymentsOk, MessagesOk, SettlementsOk, HandlingOk,
         OrdersEvolve, PaymentsEvolve;
    Same(w);
    if id in w.claims && id !in w.orders {
      InventorySafety.ReleaseGroupAllOrNone(w.inventory, w.claims[id].group, p, reason, now);
      InventoryRuns.Unchanged(w.inventory);
      hide Inventory.ReleaseGroup;
      RecordsStay(w, w');
      ClaimsStay(w, w');
      HandlingStays(w, w');
      InventoryStep(w, w');
    }
  }

  lemma CancelReleaseKeeps(w: World, k: nat, p: Inventory.Principal, reason: Inventory.Reason, now: int, delivery: Delivery)
    requires WorldOk(w)
    ensures var w' := DoCancelRelease(w, k, p, reason, now, delivery); WorldOk(w') && Later(w, w')
  {
    var w' := DoCancelRelease(w, k, p, reason, now, delivery);
    hide Stock.Inv, Stock.Evolves, RecordsDrawn, ClaimsOk, OrdersOk, PaymentsOk, MessagesOk, SettlementsOk, HandlingOk,
         OrdersEvolve, PaymentsEvolve;
    Same(w);
    if w' != w {
      InventorySafety.ReleaseGroupAllOrNone(w.inventory, w.orders[w.cancellations[k].order].group, p, reason, now);
      InventoryRuns.Unchanged(w.inventory);
      hide Inventory.ReleaseGroup, ReleaseTolerated;
      RecordsStay(w, w');
      ClaimsStay(w, w');
      HandlingStays(w, w');
      InventoryStep(w, w');
    }
  }

  // ---------------------------------------------------------------- order rows

  lemma PersistKeeps(w: World, id: Id, prices: seq<real>, currency: string)
    requires WorldOk(w)
    ensures var w' := DoPersist(w, id, prices, currency); WorldOk(w') && Later(w, w')
  {
    var w' := DoPersist(w, id, prices, currency);
    hide Stock.Inv, Stock.Evolves, RecordsDrawn, ClaimsOk, OrdersOk, PaymentsOk, MessagesOk, SettlementsOk, HandlingOk,
         OrdersEvolve, PaymentsEvolve;
    Same(w);
    if id in w.claims && id !in w.orders && |prices| == |w.claims[id].lines| {
      var c := w.claims[id];
      Orders.NewOrderOk(c.customer, c.lines, prices, currency, c.group);
      InventoryRuns.Unchanged(w.inventory);
      PaymentsStill(w, w');
      HandlingInOrders(w, id);
      OrdersAfter(w, w', id);
      RecordsStay(w, w');
      ClaimsStay(w, w');
      PaymentsStay(w, w');
      MessagesStay(w, w');
      SettlementsStay(w, w');
      HandlingStill(w, w', id);
    }
  }

  lemma HandlingInOrders(w: World, id: Id)
    requires HandlingOk(w) && id !in w.orders
    ensures id !in w.handling
  {
  }

  lemma PaymentsStill(w: World, w': World)
    requires PaymentsOk(w) && w'.payments == w.payments
    ensures PaymentsEvolve(w, w')
  {
    forall id | id in w.payments ensures Payments.RefundedAmount(w.payments[id]) <= w.payments[id].amount {
      assert PaymentInv(w, id);
    }
  }

  lemma HandlingStill(w: World, w': World, id: Id)
    requires HandlingOk(w) && w'.inventory == w.inventory && w'.sent == w.sent && id !in w'.handling
    requires w'.handling.Keys <= w.handling.Keys && forall a :: a in w'.handling ==> w'.handling[a] == w.handling[a]
    requires forall a :: a in w.orders && a != id ==> a in w'.orders && w'.orders[a] == w.orders[a]
    ensures HandlingOk(w')
  {
  }

  /** A step that replaces one order row that no handler holds afterwards. */
  lemma OrderStep(w: World, w': World, id: Id)
    requires WorldOk(w) && id in w.orders && id in w'.orders && id !in w'.handling
    requires w' == w.(orders := w.orders[id := w'.orders[id]], accepted := w'.accepted, handling := w'.handling,
                      cancellations := w'.cancellations)
    requires w'.handling.Keys <= w.handling.Keys && forall a :: a in w'.handling ==> w'.handling[a] == w.handling[a]
    requires Orders.OrderEvolves(w.orders[id], w'.orders[id]) && OrderInv(w', id)
    requires w'.accepted == w.accepted
             || exists n: nat :: n < |w.sent| && w'.accepted == w.accepted + {n} && MessageOk(w', n)
    ensures WorldOk(w') && Later(w, w')
  {
    hide Stock.Inv, Stock.Evolves, RecordsDrawn, ClaimsOk, OrdersOk, PaymentsOk, MessagesOk, SettlementsOk, HandlingOk,
         OrdersEvolve, PaymentsEvolve;
    InventoryRuns.Unchanged(w.inventory);
    PaymentsStill(w, w');
    OrdersAfter(w, w', id);
    RecordsStay(w, w');
    ClaimsStay(w, w');
    PaymentsStay(w, w');
    SettlementsStay(w, w');
    HandlingStill(w, w', id);
    if w'.accepted == w.accepted {
      MessagesStay(w, w');
    } else {
      var n: nat :| n < |w.sent| && w'.accepted == w.accepted + {n} && MessageOk(w', n);
      MessagesAfterAccept(w, w', n);
    }
  }

  lemma FinishHandlingKeeps(w: World, id: Id)
    requires WorldOk(w)
    ensures var w' := DoFinishHandling(w, id); WorldOk(w') && Later(w, w')
  {
    var w' := DoFinishHandling(w, id);
    hide Stock.Inv, Stock.Evolves, RecordsDrawn, ClaimsOk, OrdersOk, PaymentsOk, MessagesOk, SettlementsOk, HandlingOk,
         OrdersEvolve, PaymentsEvolve;
    Same(w);
    if w' != w {
      HandlingOf(w, id);
      OrderOf(w, id);
      Orders.ConfirmKeeps(w.orders[id]);
      Orders.DeclineKeeps(w.orders[id]);
      var n := w.handling[id];
      hide Orders.Confirm, Orders.Decline, Orders.OrderOk;
      FinishedOk(w, w', id, n);
      OrderStep(w, w', id);
    }
  }

  lemma FinishedOk(w: World, w': World, id: Id, n: nat)
    requires id in w.orders && id in w'.orders && OrderInv(w, id) && n < |w.sent| && w.sent[n].order == id
    requires w.orders[id].status == Orders.PendingPayment
    requires w' == w.(orders := w'.orders, accepted := w.accepted + {n}, handling := w'.handling)
    requires match w.sent[n]
             case AuthorizedMessage(_, _, _) => w'.orders[id] == Orders.Confirm(w.orders[id])
                                                && GroupAll(w.inventory, w.orders[id].group, Inventory.Committed)
             case FailedMessage(_) => w'.orders[id] == Orders.Decline(w.orders[id])
             case RefundedMessage(_, _, _) => false
    ensures OrderInv(w', id) && MessageOk(w', n)
  {
    Orders.ConfirmKeeps(w.orders[id]);
    Orders.DeclineKeeps(w.orders[id]);
  }

  lemma DeliverRefundedKeeps(w: World, n: nat)
    requires WorldOk(w)
    ensures var w' := DoDeliverRefunded(w, n); WorldOk(w') && Later(w, w')
  {
    var w' := DoDeliverRefunded(w, n);
    hide Stock.Inv, Stock.Evolves, RecordsDrawn, ClaimsOk, OrdersOk, PaymentsOk, MessagesOk, SettlementsOk, HandlingOk,
         OrdersEvolve, PaymentsEvolve;
    Same(w);
    if w' != w {
      var id := w.sent[n].order;
      MessageOf(w, n);
      OrderOf(w, id);
      PaymentOf(w, id);
      Orders.RefundKeeps(w.orders[id], w.sent[n].refunded, w.sent[n].currency);
      RefundedOk(w, w', id, n);
      OrderStep(w, w', id);
    }
  }

  /** An order shows REFUNDED only when the whole amount has been refunded. */
  lemma RefundedOk(w: World, w': World, id: Id, n: nat)
    requires id in w.orders && id in w'.orders && OrderInv(w, id) && n < |w.sent| && w.sent[n].RefundedMessage?
    requires w.sent[n].order == id && MessageOk(w, n) && PaymentInv(w, id)
    requires w' == w.(orders := w'.orders, accepted := w.accepted + {n})
    requires Orders.OnRefunded(w.orders[id], w.sent[n].refunded, w.sent[n].currency) == Ok(w'.orders[id])
    ensures OrderInv(w', id) && MessageOk(w', n)
  {
    Orders.RefundKeeps(w.orders[id], w.sent[n].refunded, w.sent[n].currency);
  }

  lemma FulfillKeeps(w: World, id: Id, status: Orders.OrderStatus)
    requires WorldOk(w)
    ensures var w' := DoFulfill(w, id, status); WorldOk(w') && Later(w, w')
  {
    var w' := DoFulfill(w, id, status);
    hide Stock.Inv, Stock.Evolves, RecordsDrawn, ClaimsOk, OrdersOk, PaymentsOk, MessagesOk, SettlementsOk, HandlingOk,
         OrdersEvolve, PaymentsEvolve;
    Same(w);
    if w' != w {
      OrderOf(w, id);
      Orders.FulfillmentKeeps(w.orders[id], status);
      hide Orders.OrderEvolves;
      OrderStep(w, w', id);
    }
  }

  lemma CancelWriteKeeps(w: World, k: nat)
    requires WorldOk(w)
    ensures var w' := DoCancelWrite(w, k); WorldOk(w') && Later(w, w')
  {
    var w' := DoCancelWrite(w, k);
    hide Stock.Inv, Stock.Evolves, RecordsDrawn, ClaimsOk, OrdersOk, PaymentsOk, MessagesOk, SettlementsOk, HandlingOk,
         OrdersEvolve, PaymentsEvolve;
    Same(w);
    if w' != w {
      var c := w.cancellations[k];
      OrderOf(w, c.order);
      Orders.CancelKeeps(w.orders[c.order], c.version);
      CancelledOk(w, w', c.order, c.version);
      hide Orders.OrderEvolves, OrderInv, Orders.OrderOk;
      OrderStep(w, w', c.order);
    }
  }

  lemma CancelledOk(w: World, w': World, id: Id, version: int)
    requires id in w.orders && OrderInv(w, id) && w'.claims == w.claims && w'.payments == w.payments
    requires w'.inventory == w.inventory && id in w'.orders
    requires w'.orders[id] == Orders.CancelWrite(w.orders[id], version)
    ensures OrderInv(w', id)
  {
    Orders.CancelKeeps(w.orders[id], version);
    assert w'.orders[id].payment == w.orders[id].payment;
  }

  // ---------------------------------------------------------------- requests to Order

  /** A request that Order answers from the state it is already in. */
  lemma AcceptKeeps(w: World, w': World, n: nat)
    requires WorldOk(w) && n < |w.sent| && w' == w.(accepted := w.accepted + {n})
    requires match w.sent[n]
             case AuthorizedMessage(id, _, _) => id in w.orders && w.orders[id].status == Orders.Confirmed
             case FailedMessage(id) => id in w.orders && w.orders[id].status == Orders.PaymentFailed
             case RefundedMessage(_, _, _) => false
    ensures WorldOk(w') && Later(w, w')
  {
    hide Stock.Inv, Stock.Evolves, RecordsDrawn, ClaimsOk, OrdersOk, PaymentsOk, MessagesOk, SettlementsOk, HandlingOk,
         OrdersEvolve, PaymentsEvolve;
    OrderOf(w, w.sent[n].order);
    InventoryRuns.Unchanged(w.inventory);
    NothingPaid(w, w');
    RecordsStay(w, w');
    ClaimsStay(w, w');
    OrdersStay(w, w');
    PaymentsStay(w, w');
    SettlementsStay(w, w');
    HandlingStays(w, w');
    MessageOf(w, n);
    MessagesAfterAccept(w, w', n);
  }

  lemma DeliverAuthorizedKeeps(w: World, n: nat, p: Inventory.Principal, now: int, delivery: Delivery)
    requires WorldOk(w)
    ensures var w' := DoDeliverAuthorized(w, n, p, now, delivery); WorldOk(w') && Later(w, w')
  {
    var w' := DoDeliverAuthorized(w, n, p, now, delivery);
    hide Stock.Inv, Stock.Evolves, RecordsDrawn, ClaimsOk, OrdersOk, PaymentsOk, MessagesOk, SettlementsOk, HandlingOk,
         OrdersEvolve, PaymentsEvolve;
    hide Inventory.CommitGroup, Inventory.AllHave, GroupAll;
    Same(w);
    if w' != w {
      var id := w.sent[n].order;
      var o := w.orders[id];
      AuthorizeMeans(o, w.sent[n].amount, w.sent[n].currency);
      hide Orders.AuthorizeShortcut;
      if Orders.AuthorizeShortcut(o, w.sent[n].amount, w.sent[n].currency).Some? {
        AcceptKeeps(w, w', n);
      } else {
        CommitCommits(w.inventory, o.group, p, now);
        CallHandled(w, w', id, n);
      }
    }
  }

  lemma AuthorizeMeans(o: Orders.Order, amount: int, currency: string)
    ensures match Orders.AuthorizeShortcut(o, amount, currency)
            case Some(Ok(_)) => o.status == Orders.Confirmed
            case Some(Err(_)) => true
            case None => o.status == Orders.PendingPayment
  {
  }

  lemma FailMeans(o: Orders.Order)
    ensures match Orders.FailShortcut(o)
            case Some(Ok(_)) => o.status == Orders.PaymentFailed
            case Some(Err(_)) => true
            case None => o.status == Orders.PendingPayment
  {
  }

  /** A successful group commit, seen from the group. */
  lemma CommitCommits(t: Inventory.Tables, g: Id, p: Inventory.Principal, now: int)
    requires Stock.Inv(t)
    ensures var (t', r) := Inventory.CommitGroup(t, g, p, now);
            && Stock.Inv(t') && Stock.Evolves(t, t') && t'.records == t.records
            && (r.Ok? ==> GroupAll(t', g, Inventory.Committed))
  {
    hide Stock.Inv, Stock.Evolves, Inventory.CommitGroup, Inventory.AllHave, Inventory.GroupRows, GroupAll;
    InventorySafety.CommitGroupAllOrNone(t, g, p, now);
    CommitAddsNoRow(t, g, p, now);
    var (t', r) := Inventory.CommitGroup(t, g, p, now);
    if r.Ok? {
      GroupRowsAll(t, t', g);
    }
  }

  lemma CommitAddsNoRow(t: Inventory.Tables, g: Id, p: Inventory.Principal, now: int)
    ensures |Inventory.CommitGroup(t, g, p, now).0.reservations| == |t.reservations|
  {
    hide Inventory.ResolveAll, Inventory.CommitAll, Inventory.AllHave, Inventory.GroupRows, Inventory.AnyExpired;
  }

  /** After Inventory was asked on behalf of a request, the handler may hold the order row. */
  lemma CallHandled(w: World, w': World, id: Id, n: nat)
    requires WorldOk(w) && n < |w.sent| && id in w.orders && id !in w.handling
    requires w' == w.(inventory := w'.inventory, handling := w'.handling)
    requires Stock.Inv(w'.inventory) && Stock.Evolves(w.inventory, w'.inventory)
    requires w'.inventory.records == w.inventory.records
    requires w'.handling != w.handling ==>
               && w'.handling == w.handling[id := n]
               && w.sent[n].order == id && !w.sent[n].RefundedMessage? && w.orders[id].status == Orders.PendingPayment
               && (w.sent[n].AuthorizedMessage? ==> GroupAll(w'.inventory, w.orders[id].group, Inventory.Committed))
    ensures WorldOk(w') && Later(w, w')
  {
    hide Stock.Inv, Stock.Evolves, RecordsDrawn, ClaimsOk, OrdersOk, PaymentsOk, MessagesOk, SettlementsOk, HandlingOk,
         OrdersEvolve, PaymentsEvolve;
    RecordsStay(w, w');
    ClaimsStay(w, w');
    var w1 := w'.(handling := w.handling);
    HandlingStays(w, w1);
    if w'.handling != w.handling {
      HandlingMore(w1, w', id, n);
    }
    InventoryStep(w, w');
  }

  lemma HandlingMore(w: World, w': World, id: Id, n: nat)
    requires HandlingOk(w) && w' == w.(handling := w.handling[id := n])
    requires n < |w.sent| && id in w.orders && w.sent[n].order == id && !w.sent[n].RefundedMessage?
    requires w.orders[id].status == Orders.PendingPayment
    requires w.sent[n].AuthorizedMessage? ==> GroupAll(w.inventory, w.orders[id].group, Inventory.Committed)
    ensures HandlingOk(w')
  {
  }

  lemma GroupRowsAll(t: Inventory.Tables, t': Inventory.Tables, g: Id)
    requires Stock.Evolves(t, t') && |t.reservations| == |t'.reservations|
    requires Inventory.AllHave(t'.reservations, Inventory.GroupRows(t.reservations, g), Inventory.Committed)
    ensures GroupAll(t', g, Inventory.Committed)
  {
    forall k | 0 <= k < |t'.reservations| && t'.reservations[k].group == Some(g)
      ensures t'.reservations[k].status == Inventory.Committed
    {
      assert Stock.SameIdentity(t.reservations[k], t'.reservations[k]);
      assert k in Inventory.GroupRows(t.reservations, g);
    }
  }

  lemma DeliverFailedKeeps(w: World, n: nat, p: Inventory.Principal, reason: Inventory.Reason, now: int, delivery: Delivery)
    requires WorldOk(w)
    ensures var w' := DoDeliverFailed(w, n, p, reason, now, delivery); WorldOk(w') && Later(w, w')
  {
    var w' := DoDeliverFailed(w, n, p, reason, now, delivery);
    hide Stock.Inv, Stock.Evolves, RecordsDrawn, ClaimsOk, OrdersOk, PaymentsOk, MessagesOk, SettlementsOk, HandlingOk,
         OrdersEvolve, PaymentsEvolve;
    hide Inventory.ReleaseGroup, ReleaseTolerated, Inventory.AllHave, Inventory.GroupRows;
    Same(w);
    if w' != w {
      var id := w.sent[n].order;
      FailMeans(w.orders[id]);
      hide Orders.FailShortcut;
      if Orders.FailShortcut(w.orders[id]).Some? {
        AcceptKeeps(w, w', n);
      } else {
        InventorySafety.ReleaseGroupAllOrNone(w.inventory, w.orders[id].group, p, reason, now);
        CallHandled(w, w', id, n);
      }
    }
  }

  // ---------------------------------------------------------------- payment rows

  lemma CreatePaymentKeeps(w: World, id: Id)
    requires WorldOk(w)
    ensures var w' := DoCreatePayment(w, id); WorldOk(w') && Later(w, w')
  {
    var w' := DoCreatePayment(w, id);
    hide Stock.Inv, Stock.Evolves, RecordsDrawn, ClaimsOk, OrdersOk, PaymentsOk, MessagesOk, SettlementsOk, HandlingOk,
         OrdersEvolve, PaymentsEvolve;
    Same(w);
    if w' != w {
      PaymentsAfter(w, w', id);
      PaymentStep(w, w');
      MessagesStay(w, w');
      SettlementsStay(w, w');
    }
  }

  /** The parts that a step on payment rows leaves alone. */
  lemma PaymentStep(w: World, w': World)
    requires WorldOk(w) && PaymentsEvolve(w, w') && w.sent <= w'.sent
    requires w' == w.(payments := w'.payments, webhooks := w'.webhooks, sent := w'.sent, settling := w'.settling)
    ensures RecordsDrawn(w') && ClaimsOk(w') && OrdersOk(w') && HandlingOk(w')
    ensures Stock.Evolves(w.inventory, w'.inventory)
  {
    hide Stock.Inv, Stock.Evolves, RecordsDrawn, ClaimsOk, OrdersOk, PaymentsOk, MessagesOk, SettlementsOk, HandlingOk,
         OrdersEvolve, PaymentsEvolve;
    InventoryRuns.Unchanged(w.inventory);
    RecordsStay(w, w');
    ClaimsStay(w, w');
    OrdersStay(w, w');
    HandlingStays(w, w');
  }

  lemma BeginWebhookKeeps(w: World, id: Id, event: Id, succeeded: bool)
    requires WorldOk(w) && AcceptedInRange(w)
    ensures var w' := DoBeginWebhook(w, id, event, succeeded); WorldOk(w') && Later(w, w')
  {
    var w' := DoBeginWebhook(w, id, event, succeeded);
    hide Stock.Inv, Stock.Evolves, RecordsDrawn, ClaimsOk, OrdersOk, PaymentsOk, MessagesOk, SettlementsOk, HandlingOk,
         OrdersEvolve, PaymentsEvolve;
    Same(w);
    if w' != w {
      if id in w.payments {
        PaymentOf(w, id);
      }
      NothingPaid(w, w');
      PaymentStep(w, w');
      PaymentsStay(w, w');
      if w'.sent == w.sent {
        MessagesStay(w, w');
        SettlementsStay(w, w');
      } else {
        SettlementsMore(w, w', id);
        MessagesAfterSend(w, w');
      }
    }
  }

  /** Requests not sent yet have no answer. */
  ghost predicate AcceptedInRange(w: World) {
    forall n :: n in w.accepted ==> n < |w.sent|
  }

  lemma SettlementsMore(w: World, w': World, id: Id)
    requires SettlementsOk(w) && w.sent <= w'.sent && id in w'.settling
    requires w'.settling == w.settling[id := w'.settling[id]]
    requires var s := w'.settling[id];
             && s.request < |w'.sent| && w'.sent[s.request].order == id
             && (if s.succeeded then w'.sent[s.request].AuthorizedMessage? else w'.sent[s.request].FailedMessage?)
    ensures SettlementsOk(w')
  {
  }

  /** The answered request tells what the order has been through; the other branch is closed to it. */
  lemma FinishWebhookKeeps(w: World, id: Id)
    requires WorldOk(w)
    ensures var w' := DoFinishWebhook(w, id); WorldOk(w') && Later(w, w')
  {
    var w' := DoFinishWebhook(w, id);
    hide Stock.Inv, Stock.Evolves, RecordsDrawn, ClaimsOk, OrdersOk, PaymentsOk, MessagesOk, SettlementsOk, HandlingOk,
         OrdersEvolve, PaymentsEvolve;
    Same(w);
    if w' != w {
      SettlementsStay(w, w');
      if w'.payments == w.payments {
        NothingPaid(w, w');
        PaymentsStay(w, w');
      } else {
        SettlementOf(w, id);
        MessageOf(w, w.settling[id].request);
        PaymentOf(w, id);
        OrderOf(w, id);
        SettledOk(w, w', id);
        hide Payments.PaymentOk, OrderInv, PaymentInv;
        PaymentsAfter(w, w', id);
      }
      PaymentStep(w, w');
      MessagesStay(w, w');
    }
  }

  lemma SettledOk(w: World, w': World, id: Id)
    requires id in w.payments && id in w.orders && id in w.settling && PaymentInv(w, id) && OrderInv(w, id)
    requires w'.orders == w.orders && id in w'.payments
    requires w'.payments[id] == Payments.Settle(w.payments[id], w.settling[id].succeeded)
    requires if w.settling[id].succeeded then Orders.Confirmed in w.orders[id].history
             else Orders.PaymentFailed in w.orders[id].history
    ensures PaymentInv(w', id)
  {
  }

  lemma RefundKeeps(w: World, id: Id, asked: Option<int>)
    requires WorldOk(w) && AcceptedInRange(w)
    ensures var w' := DoRefund(w, id, asked); WorldOk(w') && Later(w, w')
  {
    var w' := DoRefund(w, id, asked);
    hide Stock.Inv, Stock.Evolves, RecordsDrawn, ClaimsOk, OrdersOk, PaymentsOk, MessagesOk, SettlementsOk, HandlingOk,
         OrdersEvolve, PaymentsEvolve;
    Same(w);
    if id in w.payments && w'.payments != w.payments {
      PaymentOf(w, id);
      Payments.RefundConserves(w.payments[id], asked);
      Payments.SumNonNegative(w.payments[id].refunds);
      hide Payments.RefundedAmount, Payments.PaymentOk;
      PaymentsAfter(w, w', id);
      PaymentStep(w, w');
      SettlementsStay(w, w');
      MessagesAfterSend(w, w');
    } else {
      assert w' == w;
    }
  }
}
