/**
 The checkout protocol: Payment calls Order, Order calls Inventory, each commits on its own, and any
 reply can be lost. A world holds the committed rows of the three services, the requests Payment has
 sent, and the transactions that are still open. Requests may be delivered late, more than once and
 in any order; the inventory service also serves any other caller at any time.
 */
module Checkout {
  import opened Common
  import Inventory
  import InventoryRuns
  import Orders
  import Payments

  datatype Message =
    | AuthorizedMessage(order: Id, amount: int, currency: string)
    | FailedMessage(order: Id)
    | RefundedMessage(order: Id, refunded: int, currency: string)

  /** An open webhook transaction of a payment row, waiting for the answer to its request. */
  datatype Settlement = Settlement(request: nat, event: Id, succeeded: bool)

  /** A `cancel` call in progress: what it read, and how far it got. */
  datatype Phase = HasRead | HasReleased | Over
  datatype Cancellation = Cancellation(order: Id, version: int, phase: Phase)

  /** The group an order creation got from Inventory, and what it asked for. */
  datatype Claim = Claim(customer: Id, lines: seq<Inventory.Line>, group: Id)

  datatype World = World(
    inventory: Inventory.Tables,
    drawn: set<Id>,                       // order ids ever drawn
    claims: map<Id, Claim>,
    orders: map<Id, Orders.Order>,
    payments: map<Id, Payments.Payment>,  // one per order
    webhooks: set<Id>,                    // events recorded
    sent: seq<Message>,
    accepted: set<nat>,                   // requests Order has answered with success
    settling: map<Id, Settlement>,        // open transactions on payment rows
    handling: map<Id, nat>,               // order rows locked by the handler of a request, Inventory's answer in hand
    cancellations: seq<Cancellation>)

  const START: World := World(Inventory.EMPTY, {}, map[], map[], map[], {}, [], {}, map[], map[], [])

  /** What becomes of a call to Inventory. */
  datatype Delivery = Answered | ReplyLost | NotDelivered

  datatype Action =
    | OtherCall(call: InventoryRuns.Call)
    | ReserveOrder(id: Id, settings: Inventory.Settings, key: Option<string>, data: Inventory.BatchData, now: int,
                   delivery: Delivery)
    | PersistOrder(id: Id, prices: seq<real>, currency: string)
    | AbandonOrder(id: Id, p: Inventory.Principal, reason: Inventory.Reason, now: int, delivery: Delivery)
    | CreatePayment(id: Id)
    | BeginWebhook(id: Id, event: Id, succeeded: bool)
    | FinishWebhook(id: Id)
    | AbortWebhook(id: Id)
    | CreateRefund(id: Id, asked: Option<int>)
    | DeliverAuthorized(request: nat, p: Inventory.Principal, now: int, delivery: Delivery)
    | DeliverFailed(request: nat, p: Inventory.Principal, reason: Inventory.Reason, now: int, delivery: Delivery)
    | DeliverRefunded(request: nat)
    | FinishHandling(id: Id)
    | AbortHandling(id: Id)
    | Fulfill(id: Id, status: Orders.OrderStatus)
    | CancelRead(id: Id, version: int)
    | CancelRelease(cancellation: nat, p: Inventory.Principal, reason: Inventory.Reason, now: int, delivery: Delivery)
    | CancelWrite(cancellation: nat)

  /** Order numbers are unique per order id. */
  function OrderNumber(id: Id): string {
    seq(id, _ => '#')
  }

  /** Errors of the inventory service that reach its clients as status 409. */
  predicate Is409(e: Inventory.Error) {
    e == Inventory.GroupNotActive || e == Inventory.ItemMissing || e == Inventory.IntegrityError
  }

  /** `release_group` raises for every error except a 409. */
  predicate ReleaseTolerated(r: Result<seq<nat>, Inventory.Error>) {
    r.Ok? || Is409(r.error)
  }

  function CommitCall(w: World, g: Id, p: Inventory.Principal, now: int): (Inventory.Tables, Result<seq<nat>, Inventory.Error>) {
    Inventory.CommitGroup(w.inventory, g, p, now)
  }

  function ReleaseCall(w: World, g: Id, p: Inventory.Principal, reason: Inventory.Reason, now: int)
    : (Inventory.Tables, Result<seq<nat>, Inventory.Error>)
  {
    Inventory.ReleaseGroup(w.inventory, g, p, reason, now)
  }

  // ---------------------------------------------------------------- order creation

  /** The reservation an order creation asks for. The order id is fresh and its number is the order reference. */
  function DoReserve(w: World, id: Id, settings: Inventory.Settings, key: Option<string>, data: Inventory.BatchData,
                     now: int, delivery: Delivery): World
  {
    if id in w.drawn || data.orderRef != Some(OrderNumber(id)) then w
    else if delivery.NotDelivered? then w.(drawn := w.drawn + {id})
    else
      var (inventory, r) := Inventory.CreateBatch(w.inventory, settings, key, data, now);
      var w' := w.(inventory := inventory, drawn := w.drawn + {id});
      if r.Ok? && delivery.Answered?
      then w'.(claims := w.claims[id := Claim(data.customer, data.lines, r.value)])
      else w'
  }

  /** The order's lines and prices come from the same cart items. */
  function DoPersist(w: World, id: Id, prices: seq<real>, currency: string): World {
    if id !in w.claims || id in w.orders || |prices| != |w.claims[id].lines| then w
    else
      var c := w.claims[id];
      w.(orders := w.orders[id := Orders.NewOrder(c.customer, c.lines, prices, currency, c.group)])
  }

  /** Persisting failed: the group is released, or at least that is tried. */
  function DoAbandon(w: World, id: Id, p: Inventory.Principal, reason: Inventory.Reason, now: int, delivery: Delivery): World {
    if id !in w.claims || id in w.orders then w
    else
      var inventory := if delivery.NotDelivered? then w.inventory
                       else ReleaseCall(w, w.claims[id].group, p, reason, now).0;
      w.(inventory := inventory, claims := w.claims - {id})
  }

  // ---------------------------------------------------------------- Payment

  /** The order was read before the payment row is written, so its current status does not matter here. */
  function DoCreatePayment(w: World, id: Id): World {
    if id !in w.orders || id in w.payments || w.orders[id].total <= 0 then w
    else
      var o := w.orders[id];
      w.(payments := w.payments[id := Payments.Payment(o.total, o.currency, Payments.Pending, [], 1)])
  }

  function CallbackFor(w: World, id: Id, succeeded: bool): Message
    requires id in w.payments
  {
    if succeeded then AuthorizedMessage(id, w.payments[id].amount, w.payments[id].currency) else FailedMessage(id)
  }

  /** A webhook locks the payment row. If there is something to do, Order is asked before the commit. */
  function DoBeginWebhook(w: World, id: Id, event: Id, succeeded: bool): World {
    if event in w.webhooks || id in w.settling then w
    else if id !in w.payments || Payments.AlreadyThere(w.payments[id], succeeded) then w.(webhooks := w.webhooks + {event})
    else w.(sent := w.sent + [CallbackFor(w, id, succeeded)],
            settling := w.settling[id := Settlement(|w.sent|, event, succeeded)])
  }

  /** The answer arrived: commit. An event recorded meanwhile by another delivery makes the commit fail. */
  function DoFinishWebhook(w: World, id: Id): World {
    if id !in w.settling || id !in w.payments || w.settling[id].request !in w.accepted then w
    else
      var s := w.settling[id];
      if s.event in w.webhooks then w.(settling := w.settling - {id})
      else w.(payments := w.payments[id := Payments.Settle(w.payments[id], s.succeeded)],
              webhooks := w.webhooks + {s.event},
              settling := w.settling - {id})
  }

  /** No answer, or a refusal: roll back. */
  function DoAbortWebhook(w: World, id: Id): World {
    w.(settling := w.settling - {id})
  }

  /** A refund is committed first; the callback is sent once and its answer is not awaited. */
  function DoRefund(w: World, id: Id, asked: Option<int>): World {
    if id !in w.payments || id in w.settling then w
    else
      match Payments.Refund(w.payments[id], asked)
      case Err(_) => w
      case Ok(p) => w.(payments := w.payments[id := p],
                       sent := w.sent + [RefundedMessage(id, Payments.RefundedAmount(p), p.currency)])
  }

  // ---------------------------------------------------------------- Order

  /** Order takes up a payment-authorized request: it locks the row, checks it and asks Inventory. */
  function DoDeliverAuthorized(w: World, n: nat, p: Inventory.Principal, now: int, delivery: Delivery): World {
    if n >= |w.sent| || !w.sent[n].AuthorizedMessage? || w.sent[n].order !in w.orders || w.sent[n].order in w.handling
    then w
    else
      var id := w.sent[n].order;
      var o := w.orders[id];
      match Orders.AuthorizeShortcut(o, w.sent[n].amount, w.sent[n].currency)
      case Some(Ok(_)) => w.(accepted := w.accepted + {n})
      case Some(Err(_)) => w
      case None =>
        if delivery.NotDelivered? then w
        else
          var (inventory, r) := CommitCall(w, o.group, p, now);
          if r.Ok? && delivery.Answered?
          then w.(inventory := inventory, handling := w.handling[id := n])
          else w.(inventory := inventory)
  }

  function DoDeliverFailed(w: World, n: nat, p: Inventory.Principal, reason: Inventory.Reason, now: int, delivery: Delivery): World {
    if n >= |w.sent| || !w.sent[n].FailedMessage? || w.sent[n].order !in w.orders || w.sent[n].order in w.handling
    then w
    else
      var id := w.sent[n].order;
      var o := w.orders[id];
      match Orders.FailShortcut(o)
      case Some(Ok(_)) => w.(accepted := w.accepted + {n})
      case Some(Err(_)) => w
      case None =>
        if delivery.NotDelivered? then w
        else
          var (inventory, r) := ReleaseCall(w, o.group, p, reason, now);
          if ReleaseTolerated(r) && delivery.Answered?
          then w.(inventory := inventory, handling := w.handling[id := n])
          else w.(inventory := inventory)
  }

  /** The handler that holds the row writes it, commits and answers. */
  function DoFinishHandling(w: World, id: Id): World {
    if id !in w.handling || id !in w.orders || w.handling[id] >= |w.sent| then w
    else
      var n := w.handling[id];
      var o := w.orders[id];
      w.(orders := w.orders[id := if w.sent[n].AuthorizedMessage? then Orders.Confirm(o) else Orders.Decline(o)],
         accepted := w.accepted + {n},
         handling := w.handling - {id})
  }

  function DoDeliverRefunded(w: World, n: nat): World {
    if n >= |w.sent| || !w.sent[n].RefundedMessage? || w.sent[n].order !in w.orders || w.sent[n].order in w.handling
    then w
    else
      match Orders.OnRefunded(w.orders[w.sent[n].order], w.sent[n].refunded, w.sent[n].currency)
      case Err(_) => w
      case Ok(o) => w.(orders := w.orders[w.sent[n].order := o], accepted := w.accepted + {n})
  }

  function DoFulfill(w: World, id: Id, status: Orders.OrderStatus): World {
    if id !in w.orders || id in w.handling then w
    else
      match Orders.OnFulfillment(w.orders[id], status)
      case Err(_) => w
      case Ok(o) => w.(orders := w.orders[id := o])
  }

  /** `cancel` reads the order without a lock: even while a handler holds it. */
  function DoCancelRead(w: World, id: Id, version: int): World {
    if id !in w.orders || Orders.CancelCheck(w.orders[id], version).Err? then w
    else w.(cancellations := w.cancellations + [Cancellation(id, version, HasRead)])
  }

  function DoCancelRelease(w: World, k: nat, p: Inventory.Principal, reason: Inventory.Reason, now: int, delivery: Delivery): World {
    if k >= |w.cancellations| || w.cancellations[k].phase != HasRead || w.cancellations[k].order !in w.orders then w
    else
      var c := w.cancellations[k];
      if delivery.NotDelivered? then w.(cancellations := w.cancellations[k := c.(phase := Over)])
      else
        var (inventory, r) := ReleaseCall(w, w.orders[c.order].group, p, reason, now);
        var phase := if ReleaseTolerated(r) && delivery.Answered? then HasReleased else Over;
        w.(inventory := inventory, cancellations := w.cancellations[k := c.(phase := phase)])
  }

  /** The write waits for the row lock but not for what happened to the order since it was read. */
  function DoCancelWrite(w: World, k: nat): World {
    if k >= |w.cancellations| || w.cancellations[k].phase != HasReleased || w.cancellations[k].order !in w.orders
       || w.cancellations[k].order in w.handling
    then w
    else
      var c := w.cancellations[k];
      w.(orders := w.orders[c.order := Orders.CancelWrite(w.orders[c.order], c.version)],
         cancellations := w.cancellations[k := c.(phase := Over)])
  }

  // ---------------------------------------------------------------- steps and runs

  /** The reference does not anticipate the number of an order whose id has yet to be drawn. */
  ghost predicate NotAhead(w: World, orderRef: Option<string>) {
    forall id :: orderRef == Some(OrderNumber(id)) ==> id in w.drawn
  }

  /** Any other call of Inventory by anyone, batches included: an admin may make them too, and a batch of
      the order service may be carried out late. Only guessing a random order number in advance is left out. */
  ghost predicate Possible(w: World, a: Action) {
    a.OtherCall? ==>
      && InventoryRuns.Possible(w.inventory, a.call)
      && (a.call.CallBatch? ==> NotAhead(w, a.call.batch.orderRef))
  }

  function Step(w: World, a: Action): World
    requires a.OtherCall? && a.call.CallSweep? ==> Inventory.InRange(a.call.fetched, |w.inventory.reservations|)
  {
    match a
    case OtherCall(c) => w.(inventory := InventoryRuns.After(w.inventory, c))
    case ReserveOrder(id, settings, key, data, now, delivery) => DoReserve(w, id, settings, key, data, now, delivery)
    case PersistOrder(id, prices, currency) => DoPersist(w, id, prices, currency)
    case AbandonOrder(id, p, reason, now, delivery) => DoAbandon(w, id, p, reason, now, delivery)
    case CreatePayment(id) => DoCreatePayment(w, id)
    case BeginWebhook(id, event, succeeded) => DoBeginWebhook(w, id, event, succeeded)
    case FinishWebhook(id) => DoFinishWebhook(w, id)
    case AbortWebhook(id) => DoAbortWebhook(w, id)
    case CreateRefund(id, asked) => DoRefund(w, id, asked)
    case DeliverAuthorized(n, p, now, delivery) => DoDeliverAuthorized(w, n, p, now, delivery)
    case DeliverFailed(n, p, reason, now, delivery) => DoDeliverFailed(w, n, p, reason, now, delivery)
    case DeliverRefunded(n) => DoDeliverRefunded(w, n)
    case FinishHandling(id) => DoFinishHandling(w, id)
    case AbortHandling(id) => w.(handling := w.handling - {id})
    case Fulfill(id, status) => DoFulfill(w, id, status)
    case CancelRead(id, version) => DoCancelRead(w, id, version)
    case CancelRelease(k, p, reason, now, delivery) => DoCancelRelease(w, k, p, reason, now, delivery)
    case CancelWrite(k) => DoCancelWrite(w, k)
  }

  ghost predicate IsRun(ws: seq<World>, actions: seq<Action>) {
    && |ws| == |actions| + 1
    && ws[0] == START
    && forall n :: 0 <= n < |actions| ==> Possible(ws[n], actions[n]) && ws[n + 1] == Step(ws[n], actions[n])
  }
}
