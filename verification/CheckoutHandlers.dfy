/**
 The handlers of `OrderService` and `PaymentService` inside the protocol: the steps of `Checkout`, taken
 one after the other with Inventory's and Order's real answers, do what the handlers' functions say.
 */
module CheckoutHandlers {
  import opened Common
  import opened Checkout
  import Inventory
  import Orders
  import Payments

  /** What the order row, the request's answer and the open handlers are after a handler is through. */
  ghost predicate Handled(w: World, w': World, id: Id, n: nat, r: Result<Orders.Order, Orders.Error>)
    requires id in w.orders
  {
    && w'.orders == (if r.Ok? then w.orders[id := r.value] else w.orders)
    && w'.accepted == (if r.Ok? then w.accepted + {n} else w.accepted)
    && w'.handling == w.handling && w'.sent == w.sent && w'.payments == w.payments && w'.claims == w.claims
  }

  /** A request answered without asking Inventory leaves the order as it is. */
  lemma ShortcutIsOwn(o: Orders.Order)
    ensures forall amount, currency ::
              match Orders.AuthorizeShortcut(o, amount, currency) case Some(Ok(o')) => o' == o case _ => true
    ensures match Orders.FailShortcut(o) case Some(Ok(o')) => o' == o case _ => true
  {
  }

  lemma NothingHeld(w: World, id: Id)
    ensures id !in w.handling ==> DoFinishHandling(w, id) == w
  {
  }

  /** The handler that got Inventory's answer writes the row and lets go of it. */
  lemma HeldIsFinished(w: World, t: Inventory.Tables, id: Id, n: nat)
    requires n < |w.sent| && id in w.orders && id !in w.handling
    ensures var o' := if w.sent[n].AuthorizedMessage? then Orders.Confirm(w.orders[id]) else Orders.Decline(w.orders[id]);
            DoFinishHandling(w.(inventory := t, handling := w.handling[id := n]), id)
            == w.(inventory := t, orders := w.orders[id := o'], accepted := w.accepted + {n})
  {
    hide Orders.Confirm, Orders.Decline;
    assert w.handling[id := n] - {id} == w.handling;
  }

  /** Taking up a payment-authorized request and finishing it is `payment_authorized`, which confirms iff
      Inventory committed the group and its answer arrived. */
  lemma AuthorizedIsHandled(w: World, n: nat, p: Inventory.Principal, now: int, delivery: Delivery)
    requires n < |w.sent| && w.sent[n].AuthorizedMessage?
    requires w.sent[n].order in w.orders && w.sent[n].order !in w.handling
    ensures var id, o := w.sent[n].order, w.orders[w.sent[n].order];
            var w' := DoFinishHandling(DoDeliverAuthorized(w, n, p, now, delivery), id);
            var committed := delivery.Answered? && CommitCall(w, o.group, p, now).1.Ok?;
            var asked := Orders.AuthorizeShortcut(o, w.sent[n].amount, w.sent[n].currency).None? && !delivery.NotDelivered?;
            && Handled(w, w', id, n, Orders.OnAuthorized(o, w.sent[n].amount, w.sent[n].currency, committed))
            && w'.inventory == if asked then CommitCall(w, o.group, p, now).0 else w.inventory
  {
    var id, o := w.sent[n].order, w.orders[w.sent[n].order];
    ShortcutIsOwn(o);
    hide CommitCall, Orders.Confirm, Orders.AuthorizeShortcut, DoFinishHandling;
    assert w.orders[id := o] == w.orders;
    var t := CommitCall(w, o.group, p, now).0;
    NothingHeld(DoDeliverAuthorized(w, n, p, now, delivery), id);
    HeldIsFinished(w, t, id, n);
  }

  /** The same for `payment_failed`, which declines iff the release was made or met a 409, and its answer arrived. */
  lemma FailedIsHandled(w: World, n: nat, p: Inventory.Principal, reason: Inventory.Reason, now: int, delivery: Delivery)
    requires n < |w.sent| && w.sent[n].FailedMessage?
    requires w.sent[n].order in w.orders && w.sent[n].order !in w.handling
    ensures var id, o := w.sent[n].order, w.orders[w.sent[n].order];
            var w' := DoFinishHandling(DoDeliverFailed(w, n, p, reason, now, delivery), id);
            var released := delivery.Answered? && ReleaseTolerated(ReleaseCall(w, o.group, p, reason, now).1);
            var asked := Orders.FailShortcut(o).None? && !delivery.NotDelivered?;
            && Handled(w, w', id, n, Orders.OnFailed(o, released))
            && w'.inventory == if asked then ReleaseCall(w, o.group, p, reason, now).0 else w.inventory
  {
    var id, o := w.sent[n].order, w.orders[w.sent[n].order];
    ShortcutIsOwn(o);
    hide ReleaseCall, ReleaseTolerated, Orders.Decline, Orders.FailShortcut, DoFinishHandling;
    assert w.orders[id := o] == w.orders;
    var t := ReleaseCall(w, o.group, p, reason, now).0;
    NothingHeld(DoDeliverFailed(w, n, p, reason, now, delivery), id);
    HeldIsFinished(w, t, id, n);
  }

  /** Order's side of the protocol in between: it leaves payments, recorded events and open webhooks alone. */
  ghost predicate OrderActs(w: World, w': World) {
    w'.payments == w.payments && w'.webhooks == w.webhooks && w'.settling == w.settling
  }

  /** Opening a webhook transaction and closing it is the webhook handler, whatever Order does in between:
      it settles the payment iff Order came to accept the request it sent. */
  lemma WebhookIsHandled(w: World, w1: World, id: Id, event: Id, succeeded: bool)
    requires id !in w.settling && OrderActs(DoBeginWebhook(w, id, event, succeeded), w1)
    ensures var accepted := |w.sent| in w1.accepted;
            var w' := if accepted then DoFinishWebhook(w1, id) else DoAbortWebhook(w1, id);
            var (payments, webhooks, _) := Payments.OnWebhook(w.payments, w.webhooks, event, id, succeeded, accepted);
            && w'.payments == payments && w'.webhooks == webhooks && w'.settling == w.settling
  {
    hide Payments.Settle, Payments.AlreadyThere, CallbackFor;
    if event in w.webhooks || id !in w.payments || Payments.AlreadyThere(w.payments[id], succeeded) {
      NothingOpened(w1, id);
    } else {
      var s := Settlement(|w.sent|, event, succeeded);
      assert w1.settling == w.settling[id := s];
      CloseWebhook(w1, w.settling, id, s);
      hide DoFinishWebhook, DoAbortWebhook;
    }
  }

  lemma NothingOpened(w: World, id: Id)
    requires id !in w.settling
    ensures DoFinishWebhook(w, id) == w && DoAbortWebhook(w, id) == w
  {
    assert w.settling - {id} == w.settling;
  }

  lemma CloseWebhook(w: World, settling: map<Id, Settlement>, id: Id, s: Settlement)
    requires id in w.payments && id !in settling && w.settling == settling[id := s] && s.event !in w.webhooks
    ensures var w' := DoAbortWebhook(w, id);
            w'.payments == w.payments && w'.webhooks == w.webhooks && w'.settling == settling
    ensures s.request in w.accepted ==>
              var w' := DoFinishWebhook(w, id);
              && w'.payments == w.payments[id := Payments.Settle(w.payments[id], s.succeeded)]
              && w'.webhooks == w.webhooks + {s.event} && w'.settling == settling
  {
    hide Payments.Settle;
    assert settling[id := s] - {id} == settling;
  }
}
