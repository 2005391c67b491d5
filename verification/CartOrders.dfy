/** From the cart to the order: what a cart's items ask Inventory for, and what an order of them costs and ships. */
module CartOrders {
  import opened Common
  import opened Checkout
  import opened CheckoutSafety
  import opened CheckoutTheorems
  import opened Fulfilment
  import Carts
  import Inventory
  import InventoryRuns
  import Money
  import Orders
  import Payments

  /** Who sells a variant, and under which SKU. */
  datatype Offer = Offer(seller: Id, sku: string)

  predicate Offered(items: seq<Carts.Item>, offers: map<Id, Offer>) {
    forall k :: 0 <= k < |items| ==> items[k].variant in offers
  }

  /** The batch's lines, one per item. */
  function LinesOf(items: seq<Carts.Item>, offers: map<Id, Offer>): (lines: seq<Inventory.Line>)
    requires Offered(items, offers)
  {
    seq(|items|, k requires 0 <= k < |items| =>
      Inventory.Line(offers[items[k].variant].seller, offers[items[k].variant].sku, items[k].quantity))
  }

  /** The unit prices as decimals. */
  function PricesOf(items: seq<Carts.Item>): (prices: seq<real>) {
    seq(|items|, k requires 0 <= k < |items| => Money.FromMinorUnits(items[k].snapshot.price))
  }

  /** The subtotal a cart shows, in cents. */
  function CartSubtotal(items: seq<Carts.Item>): int {
    if items == [] then 0 else
    CartSubtotal(items[..|items| - 1]) + items[|items| - 1].quantity * items[|items| - 1].snapshot.price
  }

  // ---------------------------------------------------------------- one order

  lemma {:induction false} CartMinorTotal(items: seq<Carts.Item>, offers: map<Id, Offer>)
    requires Offered(items, offers)
    ensures Money.MinorTotal(Orders.Priced(LinesOf(items, offers), PricesOf(items))) == CartSubtotal(items)
  {
    if items == [] {
    } else {
      var n := |items| - 1;
      CartMinorTotal(items[..n], offers);
      assert Orders.Priced(LinesOf(items, offers), PricesOf(items))[..n]
          == Orders.Priced(LinesOf(items[..n], offers), PricesOf(items[..n]));
      Money.ConversionsInverse(items[n].snapshot.price, 0.0);
    }
  }

  /** The order's total is the cart's subtotal, and so is the sum of its line totals. */
  lemma OrderTakesCartSubtotal(customer: Id, items: seq<Carts.Item>, offers: map<Id, Offer>, currency: string, group: Id)
    requires Offered(items, offers)
    ensures var priced := Orders.Priced(LinesOf(items, offers), PricesOf(items));
            && Orders.NewOrder(customer, LinesOf(items, offers), PricesOf(items), currency, group).total == CartSubtotal(items)
            && Money.SumReal(Money.LineTotals(priced)) == Money.FromMinorUnits(CartSubtotal(items))
  {
    var priced := Orders.Priced(LinesOf(items, offers), PricesOf(items));
    forall k | 0 <= k < |priced| ensures Money.WholeCents(priced[k].unitPrice) {
      WholePrice(items[k].snapshot.price);
    }
    hide Money.WholeCents, Money.ToMinorUnits;
    CartMinorTotal(items, offers);
    Money.ChargeIsExact(priced);
    Money.SubtotalIsWhole(priced);
    Money.GrandTotalIsLineTotals(priced);
  }

  lemma WholePrice(cents: int)
    ensures Money.WholeCents(Money.FromMinorUnits(cents))
  {
    Money.ConversionsInverse(cents, Money.FromMinorUnits(cents));
  }

  /** A cart that keeps its laws makes a valid batch exactly when it has 1 to 100 items, none of more than a million
      pieces, and no seller offers two of its variants under one SKU. */
  lemma CartMakesValidBatch(l: Carts.Limits, items: seq<Carts.Item>, offers: map<Id, Offer>, data: Inventory.BatchData)
    requires Carts.ItemsOk(l, items) && Offered(items, offers) && data.lines == LinesOf(items, offers)
    ensures Inventory.ValidBatch(data)
            <==> && 1 <= |items| <= 100
                 && (forall k :: 0 <= k < |items| ==> items[k].quantity <= 1_000_000)
                 && (forall j, k :: 0 <= j < |items| && 0 <= k < |items| && items[j].variant != items[k].variant ==>
                       offers[items[j].variant] != offers[items[k].variant])
  {
    if Inventory.ValidBatch(data) {
      forall k | 0 <= k < |items| ensures items[k].quantity <= 1_000_000 {
        assert data.lines[k].quantity == items[k].quantity;
      }
      forall j, k | 0 <= j < |items| && 0 <= k < |items| && items[j].variant != items[k].variant
        ensures offers[items[j].variant] != offers[items[k].variant]
      {
        assert data.lines[Min(j, k)] != data.lines[Max(j, k)];
      }
    }
  }

  // ---------------------------------------------------------------- runs

  /** No claim asks for a pair twice: the batch it came from would have been refused. */
  lemma {:induction false} ClaimedPairsUnique(ws: seq<World>, actions: seq<Action>, n: nat, id: Id)
    requires IsRun(ws, actions) && n < |ws| && id in ws[n].claims
    ensures Inventory.UniquePairs(ws[n].claims[id].lines)
  {
    hide Step, Inventory.UniquePairs;
    if n > 0 {
      var w, a := ws[n - 1], actions[n - 1];
      if id in w.claims {
        ClaimedPairsUnique(ws, actions, n - 1, id);
      }
      ClaimStep(w, a, id);
    }
  }

  lemma ClaimStep(w: World, a: Action, id: Id)
    requires a.OtherCall? && a.call.CallSweep? ==> Inventory.InRange(a.call.fetched, |w.inventory.reservations|)
    requires id in Step(w, a).claims
    ensures (id in w.claims && Step(w, a).claims[id] == w.claims[id]) || Inventory.UniquePairs(Step(w, a).claims[id].lines)
  {
    if a.ReserveOrder? {
      hide DoReserve, Inventory.UniquePairs;
      ReservedPairsUnique(w, a.id, a.settings, a.key, a.data, a.now, a.delivery, id);
    } else {
      hide Step;
      if OfPayment(a) {
        PaymentClaimsNothing(w, a);
      } else if OfOrder(a) {
        HandlersClaimNothing(w, a);
      } else {
        OtherwiseNoClaim(w, a, id);
      }
    }
  }

  lemma ReservedPairsUnique(w: World, o: Id, settings: Inventory.Settings, key: Option<string>, data: Inventory.BatchData,
                            now: int, delivery: Delivery, id: Id)
    requires id in DoReserve(w, o, settings, key, data, now, delivery).claims
    ensures var claims := DoReserve(w, o, settings, key, data, now, delivery).claims;
            (id in w.claims && claims[id] == w.claims[id]) || Inventory.UniquePairs(claims[id].lines)
  {
    hide Inventory.UniquePairs;
    OnlyValidBatches(w.inventory, settings, key, data, now);
    hide Inventory.CreateBatch;
  }

  lemma OnlyValidBatches(t: Inventory.Tables, settings: Inventory.Settings, key: Option<string>, data: Inventory.BatchData, now: int)
    ensures Inventory.CreateBatch(t, settings, key, data, now).1.Ok? ==> Inventory.UniquePairs(data.lines)
  {
    hide Inventory.UniquePairs, Inventory.Lookup, Inventory.GroupRows, Inventory.BatchError, Inventory.BatchRows, Inventory.ReserveAll,
         Inventory.Remember;
  }

  lemma PaymentClaimsNothing(w: World, a: Action)
    requires OfPayment(a)
    ensures Step(w, a).claims == w.claims
  {
    hide Payments.Refund, Payments.AlreadyThere, Payments.Settle, CallbackFor, DoReserve, DoPersist, DoAbandon, DoDeliverAuthorized,
         DoDeliverFailed, DoDeliverRefunded, DoFinishHandling, DoFulfill, DoCancelRelease, DoCancelWrite;
  }

  lemma HandlersClaimNothing(w: World, a: Action)
    requires OfOrder(a)
    ensures Step(w, a).claims == w.claims
  {
    hide DoDeliverAuthorized, DoDeliverFailed, DoReserve, DoPersist, DoAbandon, DoRefund, DoCancelRelease, DoCancelWrite,
         DoBeginWebhook, DoFinishWebhook, Orders.OnRefunded, Orders.OnFulfillment, Orders.Confirm, Orders.Decline;
    match a
    case DeliverAuthorized(n, p, now, delivery) => AuthorizedClaimsNothing(w, n, p, now, delivery);
    case DeliverFailed(n, p, reason, now, delivery) => FailedClaimsNothing(w, n, p, reason, now, delivery);
    case _ =>
  }

  lemma AuthorizedClaimsNothing(w: World, n: nat, p: Inventory.Principal, now: int, delivery: Delivery)
    ensures DoDeliverAuthorized(w, n, p, now, delivery).claims == w.claims
  {
    hide Orders.AuthorizeShortcut, CommitCall;
  }

  lemma FailedClaimsNothing(w: World, n: nat, p: Inventory.Principal, reason: Inventory.Reason, now: int, delivery: Delivery)
    ensures DoDeliverFailed(w, n, p, reason, now, delivery).claims == w.claims
  {
    hide Orders.FailShortcut, ReleaseCall, ReleaseTolerated;
  }

  lemma OtherwiseNoClaim(w: World, a: Action, id: Id)
    requires !OfPayment(a) && !OfOrder(a) && !a.ReserveOrder?
    requires a.OtherCall? && a.call.CallSweep? ==> Inventory.InRange(a.call.fetched, |w.inventory.reservations|)
    requires id in Step(w, a).claims
    ensures id in w.claims && Step(w, a).claims[id] == w.claims[id]
  {
    hide ReleaseCall, ReleaseTolerated, InventoryRuns.After, Orders.NewOrder, Orders.CancelCheck, Orders.CancelWrite, DoReserve,
         DoDeliverAuthorized, DoDeliverFailed, DoDeliverRefunded, DoFinishHandling, DoFulfill, DoRefund, DoBeginWebhook, DoFinishWebhook;
  }

  lemma {:induction false} AskedOfLine(lines: seq<Inventory.Line>, k: nat)
    requires Inventory.UniquePairs(lines) && k < |lines|
    ensures Asked(lines, lines[k].seller, lines[k].sku) == lines[k].quantity
  {
    var n := |lines| - 1;
    if k < n {
      AskedOfLine(lines[..n], k);
    } else {
      AskedOfNobody(lines[..n], lines[k].seller, lines[k].sku);
    }
  }

  lemma {:induction false} AskedOfNobody(lines: seq<Inventory.Line>, seller: Id, sku: string)
    requires forall k :: 0 <= k < |lines| ==> lines[k].seller != seller || lines[k].sku != sku
    ensures Asked(lines, seller, sku) == 0
  {
    if lines == [] {
    } else {
      AskedOfNobody(lines[..|lines| - 1], seller, sku);
    }
  }

  /** The step writes the order of a cart: lines and prices are those of its items. */
  predicate WritesOrderOf(w: World, a: Action, id: Id, items: seq<Carts.Item>, offers: map<Id, Offer>)
    requires Offered(items, offers)
  {
    && a.PersistOrder? && a.id == id && a.prices == PricesOf(items)
    && id in w.claims && id !in w.orders && w.claims[id].lines == LinesOf(items, offers)
  }

  /**
   From the cart to the parcel: over every run, an order written from a cart costs the cart's subtotal and is charged
   just that; and once it was confirmed, what Inventory has committed for it is, item by item, what was in the cart.
   */
  lemma {:induction false} CartIsChargedAndShipped(ws: seq<World>, actions: seq<Action>, m: nat, n: nat, id: Id,
                                                   items: seq<Carts.Item>, offers: map<Id, Offer>)
    requires IsRun(ws, actions) && m < n < |ws|
    requires Offered(items, offers) && WritesOrderOf(ws[m], actions[m], id, items, offers)
    ensures id in ws[n].orders && ws[n].orders[id].total == CartSubtotal(items)
    ensures id in ws[n].payments ==> ws[n].payments[id].amount == CartSubtotal(items)
    ensures Orders.Confirmed in ws[n].orders[id].history ==>
              forall k :: 0 <= k < |items| ==>
                var offer := offers[items[k].variant];
                GroupQuantity(ws[n].inventory.reservations, ws[n].inventory.items, ws[n].orders[id].group, offer.seller, offer.sku,
                              {Inventory.Committed})
                == items[k].quantity
  {
    var lines := LinesOf(items, offers);
    WritesIt(ws[m], actions[m], id, items, offers);
    ClaimedPairsUnique(ws, actions, m, id);
    RunLater(ws, actions, m + 1, n);
    OrderStaysPriced(ws[m + 1], ws[n], id);
    hide Step, LinesOf, WritesOrderOf, Later, Inventory.UniquePairs;
    if id in ws[n].payments {
      PaymentAgreesWithOrder(ws, actions, n, id);
    }
    if Orders.Confirmed in ws[n].orders[id].history {
      ConfirmedOrderIsShipped(ws, actions, n, id);
      forall k | 0 <= k < |items|
        ensures var offer := offers[items[k].variant];
                GroupQuantity(ws[n].inventory.reservations, ws[n].inventory.items, ws[n].orders[id].group, offer.seller, offer.sku,
                              {Inventory.Committed})
                == items[k].quantity
      {
        LineOf(items, offers, k);
        AskedOfLine(lines, k);
      }
    }
  }

  lemma LineOf(items: seq<Carts.Item>, offers: map<Id, Offer>, k: nat)
    requires Offered(items, offers) && k < |items|
    ensures var lines, offer := LinesOf(items, offers), offers[items[k].variant];
            |lines| == |items| && lines[k] == Inventory.Line(offer.seller, offer.sku, items[k].quantity)
  {
  }

  lemma WritesIt(w: World, a: Action, id: Id, items: seq<Carts.Item>, offers: map<Id, Offer>)
    requires Offered(items, offers) && WritesOrderOf(w, a, id, items, offers)
    ensures var w' := DoPersist(w, a.id, a.prices, a.currency);
            && id in w'.orders && w'.orders[id].lines == LinesOf(items, offers) && w'.orders[id].total == CartSubtotal(items)
  {
    OrderTakesCartSubtotal(w.claims[id].customer, items, offers, a.currency, w.claims[id].group);
    hide Money.ToMinorUnits, Money.Subtotal;
  }

  lemma OrderStaysPriced(w: World, w': World, id: Id)
    requires Later(w, w') && id in w.orders
    ensures id in w'.orders && w'.orders[id].lines == w.orders[id].lines && w'.orders[id].total == w.orders[id].total
  {
  }
}
