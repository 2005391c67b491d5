/**
 What the payment side of the checkout does in each step, over whole runs: which webhooks ask and settle, which refunds
 and payments are made, and that these steps write what the keyed calls of `KeyedPayments` write.
 */
module PaymentSteps {
  import opened Common
  import opened Checkout
  import opened CheckoutSafety
  import opened CheckoutSteps
  import opened CheckoutTheorems
  import opened CheckoutLimits
  import opened Fulfilment
  import Inventory
  import InventoryRuns
  import KeyedPayments
  import Orders
  import Payments
  import Stock = StockInvariant

  // ---------------------------------------------------------------- webhooks

  /** Over every run: a webhook asks Order exactly if its event is new, no other transaction is open on the payment and the
      payment's status is not yet the one reported. It then sends one request, for the payment's own amount. */
  lemma WebhookAsksIff(ws: seq<World>, actions: seq<Action>, n: nat, id: Id, event: Id, succeeded: bool)
    requires IsRun(ws, actions) && n < |actions| && actions[n] == BeginWebhook(id, event, succeeded)
    ensures var w, w' := ws[n], ws[n + 1];
            if && event !in w.webhooks && id !in w.settling && id in w.payments
               && w.payments[id].status != (if succeeded then Payments.Succeeded else Payments.Failed)
            then
              && id in w.orders
              && w' == w.(sent := w.sent + [if succeeded then AuthorizedMessage(id, w.orders[id].total, w.orders[id].currency)
                                            else FailedMessage(id)],
                          settling := w.settling[id := Settlement(|w.sent|, event, succeeded)])
            else
              && w'.payments == w.payments && w'.sent == w.sent && w'.settling == w.settling
              && w'.webhooks == (if id in w.settling then w.webhooks else w.webhooks + {event})
  {
    var w := ws[n];
    assert ws[n + 1] == DoBeginWebhook(w, id, event, succeeded);
    assert event in w.webhooks ==> w.webhooks + {event} == w.webhooks;
    if id in w.payments {
      PaidAsOrdered(ws, actions, n, id);
    }
    hide Step, IsRun;
  }

  lemma PaidAsOrdered(ws: seq<World>, actions: seq<Action>, n: nat, id: Id)
    requires IsRun(ws, actions) && n < |ws| && id in ws[n].payments
    ensures id in ws[n].orders
    ensures ws[n].payments[id].amount == ws[n].orders[id].total && ws[n].payments[id].currency == ws[n].orders[id].currency
  {
    RunOk(ws, actions, n);
    PaymentOf(ws[n], id);
    hide WorldOk, IsRun;
  }

  /** Over every run: a webhook settles its payment exactly if Order accepted its request and its event was not
      recorded meanwhile; the status it was told of is written, the refunds stay, and the event is recorded. */
  lemma WebhookSettlesIff(ws: seq<World>, actions: seq<Action>, n: nat, id: Id)
    requires IsRun(ws, actions) && n < |actions| && actions[n] == FinishWebhook(id)
    ensures var w, w' := ws[n], ws[n + 1];
            if id in w.settling && id in w.payments && w.settling[id].request in w.accepted && w.settling[id].event !in w.webhooks
            then
              var s, p := w.settling[id], w.payments[id];
              w' == w.(payments := w.payments[id := p.(status := if s.succeeded then Payments.Succeeded else Payments.Failed,
                                                       version := p.version + 1)],
                       webhooks := w.webhooks + {s.event}, settling := w.settling - {id})
            else w'.payments == w.payments && w'.webhooks == w.webhooks
  {
    assert ws[n + 1] == DoFinishWebhook(ws[n], id);
    hide Step, IsRun;
  }

  /** Over every run: once an event is recorded, no delivery of it changes a payment, asks Order or records anything. */
  lemma EventTakesEffectOnce(ws: seq<World>, actions: seq<Action>, m: nat, n: nat, event: Id)
    requires IsRun(ws, actions) && m <= n < |actions| && event in ws[m].webhooks
    ensures event in ws[n].webhooks
    ensures actions[n].BeginWebhook? && actions[n].event == event ==> ws[n + 1] == ws[n]
    ensures actions[n].FinishWebhook? && actions[n].id in ws[n].settling && ws[n].settling[actions[n].id].event == event ==>
              ws[n + 1].payments == ws[n].payments && ws[n + 1].webhooks == ws[n].webhooks
  {
    RunLater(ws, actions, m, n);
    EventStays(ws[m], ws[n], event);
    hide WorldOk;
    if actions[n].BeginWebhook? && actions[n].event == event {
      assert ws[n + 1] == DoBeginWebhook(ws[n], actions[n].id, event, actions[n].succeeded);
    }
    if actions[n].FinishWebhook? {
      assert ws[n + 1] == DoFinishWebhook(ws[n], actions[n].id);
    }
    hide Step, IsRun;
  }

  lemma EventStays(w: World, w': World, event: Id)
    requires Later(w, w') && event in w.webhooks
    ensures event in w'.webhooks
  {
  }

  // ---------------------------------------------------------------- payments and refunds

  /** Over every run: a payment is made exactly for an order that has none and costs something; it charges the order's total. */
  lemma PaymentMadeIff(ws: seq<World>, actions: seq<Action>, n: nat, id: Id)
    requires IsRun(ws, actions) && n < |actions| && actions[n] == CreatePayment(id)
    ensures var w, w' := ws[n], ws[n + 1];
            if id in w.orders && id !in w.payments && 0 < w.orders[id].total
            then w' == w.(payments := w.payments[id := Payments.Payment(w.orders[id].total, w.orders[id].currency, Payments.Pending, [], 1)])
            else w' == w
  {
    assert ws[n + 1] == DoCreatePayment(ws[n], id);
    hide Step, IsRun;
  }

  /** Over every run: a refund is made exactly of a payment that was paid, on which no webhook is open, and that has as much
      left as is asked for; it is told to Order with all that was refunded so far. */
  lemma RefundMadeIff(ws: seq<World>, actions: seq<Action>, n: nat, id: Id, asked: Option<int>)
    requires IsRun(ws, actions) && n < |actions| && actions[n] == CreateRefund(id, asked)
    ensures var w, w' := ws[n], ws[n + 1];
            if id in w.payments && id !in w.settling && KeyedPayments.RefundFits(w.payments[id], asked)
            then
              var p := w.payments[id];
              w' == w.(payments := w.payments[id := KeyedPayments.WithRefund(p, asked)],
                       sent := w.sent + [RefundedMessage(id, Sum(p.refunds) + KeyedPayments.Asked(p, asked), p.currency)])
            else w' == w
  {
    var w := ws[n];
    assert ws[n + 1] == DoRefund(w, id, asked);
    if id in w.payments {
      KeyedPayments.RefundMeans(w.payments[id], asked);
      if KeyedPayments.RefundFits(w.payments[id], asked) {
        Payments.RefundAdds(w.payments[id], asked);
      }
    }
    hide Step, IsRun, Payments.Refund, KeyedPayments.RefundFits, KeyedPayments.WithRefund;
  }

  /** A keyed call that was not made before, for an order quoted as it is, writes the payment that the protocol's step writes. */
  lemma CheckoutPaymentIsKeyed(w: World, id: Id, t: KeyedPayments.Tables, who: KeyedPayments.Principal)
    requires t.payments == w.payments && id in w.orders
    ensures var quote := KeyedPayments.Quote(w.orders[id].total, w.orders[id].currency, true);
            var request := KeyedPayments.PaymentRequest(id);
            var (t', r) := KeyedPayments.Create(t, who, None, request, Some(quote), true);
            && DoCreatePayment(w, id).payments == t'.payments
            && (r.Ok? <==> id !in w.payments && 0 < w.orders[id].total)
  {
  }

  /** A keyed refund that was not made before writes what the protocol's step writes, and the step tells Order of it. */
  lemma CheckoutRefundIsKeyed(w: World, id: Id, asked: Option<int>, t: KeyedPayments.Tables, who: KeyedPayments.Principal,
                              reason: Option<string>)
    requires t.payments == w.payments && id in t.customers && (t.customers[id] == who.subject || who.admin)
    requires id !in w.settling && KeyedPayments.Accepted(None, asked, reason)
    ensures var request := KeyedPayments.RefundRequest(id, asked, reason);
            var (t', r) := KeyedPayments.Create(t, who, None, request, None, true);
            && DoRefund(w, id, asked).payments == t'.payments
            && (r.Ok? <==> |DoRefund(w, id, asked).sent| == |w.sent| + 1)
  {
    hide Payments.Refund, Payments.RefundedAmount;
  }

  // ---------------------------------------------------------------- creations that fail

  /** Over every run: a creation that is given up gives its stock back exactly if its call reaches Inventory from someone
      who may resolve the customer's reservations and the group is ACTIVE, or it had been released before. */
  lemma AbandonReleasesIff(ws: seq<World>, actions: seq<Action>, n: nat, id: Id, p: Inventory.Principal, reason: Inventory.Reason,
                           now: int, delivery: Delivery)
    requires IsRun(ws, actions) && n < |ws| && id in ws[n].claims && id !in ws[n].orders
    ensures var w, w', g := ws[n], DoAbandon(ws[n], id, p, reason, now, delivery), ws[n].claims[id].group;
            var may := Inventory.MayResolve(p, w.claims[id].customer);
            && id !in w'.claims && w'.orders == w.orders
            && (GroupAll(w'.inventory, g, Inventory.Released)
                <==> || GroupAll(w.inventory, g, Inventory.Released)
                     || (may && !delivery.NotDelivered? && GroupAll(w.inventory, g, Inventory.Active)))
  {
    ClaimHasGroup(ws, actions, n, id);
    ReleaseReleasesIff(ws[n].inventory, ws[n].claims[id].group, p, reason, now);
    hide IsRun, GroupAll, GroupExists, Inventory.ReleaseGroup, Inventory.MayResolve, ReleaseTolerated, Stock.Inv;
  }

  lemma ClaimHasGroup(ws: seq<World>, actions: seq<Action>, n: nat, id: Id)
    requires IsRun(ws, actions) && n < |ws| && id in ws[n].claims
    ensures var t, c := ws[n].inventory, ws[n].claims[id];
            Stock.Inv(t) && GroupExists(t, c.group) && t.reservations[c.group].customer == c.customer
  {
    RunOk(ws, actions, n);
    hide IsRun, Step;
    assert ClaimOk(ws[n], id);
  }
}
