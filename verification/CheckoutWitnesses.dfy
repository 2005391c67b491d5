/**
 Runs that reach the situations `CheckoutLimits` and `CheckoutRefunds` are about: a refunded payment that reopens, an
 order that no longer shows that all was refunded, stock that stays committed although the payment failed, and orders
 that are cancelled, after being confirmed or without ever being confirmed, while their stock stays committed.
 */
module CheckoutWitnesses {
  import opened Common
  import opened Checkout
  import opened CheckoutSafety
  import opened CheckoutTheorems
  import opened CheckoutLimits
  import opened Fulfilment
  import opened CheckoutSteps
  import Availability
  import Inventory
  import InventoryRuns
  import InventorySafety
  import Money
  import Stock = StockInvariant
  import Orders
  import Payments

  ghost predicate EndsIn(ws: seq<World>, actions: seq<Action>, w: World) {
    IsRun(ws, actions) && ws[|ws| - 1] == w
  }

  ghost predicate Reachable(w: World) {
    exists ws, actions :: EndsIn(ws, actions, w)
  }

  lemma StartIsReachable()
    ensures Reachable(START)
  {
    assert EndsIn([START], [], START);
  }

  lemma StepIsReachable(w: World, a: Action)
    requires Reachable(w) && Possible(w, a) && !(a.OtherCall? && a.call.CallSweep?)
    ensures Reachable(Step(w, a))
  {
    hide Step;
    var ws, actions :| EndsIn(ws, actions, w);
    var w' := Step(w, a);
    var ws', actions' := ws + [w'], actions + [a];
    forall n | 0 <= n < |actions'| ensures Possible(ws'[n], actions'[n]) && ws'[n + 1] == Step(ws'[n], actions'[n]) {
      assert n < |actions| ==> Possible(ws[n], actions[n]) && ws[n + 1] == Step(ws[n], actions[n]);
    }
    assert EndsIn(ws', actions', w');
  }

  lemma ReachableOk(w: World)
    requires Reachable(w)
    ensures WorldOk(w) && AcceptedInRange(w)
  {
    hide WorldOk, AcceptedInRange, Step;
    var ws, actions :| EndsIn(ws, actions, w);
    RunOk(ws, actions, |ws| - 1);
  }

  // ---------------------------------------------------------------- the scene

  const SELLER := Inventory.Principal(1, false, true, false)
  const BUYER := Inventory.Principal(7, false, false, false)
  const SERVICE := Inventory.Principal(9, false, false, true)
  const SETTINGS := Inventory.Settings(10, 1000)

  /** Five pieces come in; the order asks for two of them, at ten a piece. */
  const CREATE := InventoryRuns.CallCreateItem(
    SELLER, None, Inventory.CreateItemData(0, 0, 0, "S", 5, 0, true), 0, true, Some(Inventory.CatalogSku(0, 1, "S", true)))
  const STOCKED := Inventory.Tables(
    map[0 := Inventory.Item(1, "S", 0, 5, 0, 0, true, 1)],
    [],
    [Inventory.Movement(0, Inventory.Receipt, Inventory.PurchaseReceipt, 5, 0, 5, 0, Inventory.ItemRef(0))],
    map[])
  const LINE := Inventory.Line(1, "S", 2)
  const DATA := Inventory.BatchData(7, None, Some(OrderNumber(0)), Some(100), [LINE])

  lemma Stocking()
    ensures InventoryRuns.After(Inventory.EMPTY, CREATE) == STOCKED
  {
  }

  lemma StockedServes()
    ensures Inventory.ValidBatch(DATA) && Inventory.BatchError(STOCKED.items, DATA.lines) == None
  {
    Availability.OnlyRow(STOCKED.items, 1, "S", 0);
    Availability.LineNeedsOwn(STOCKED.items, LINE);
    hide Inventory.LineError;
    assert DATA.lines[..0] == [];
  }

  /** Group g is ACTIVE throughout and runs out at 100. */
  ghost predicate Waiting(t: Inventory.Tables, g: Id) {
    && GroupExists(t, g)
    && forall k :: 0 <= k < |t.reservations| && t.reservations[k].group == Some(g) ==>
         t.reservations[k].status == Inventory.Active && t.reservations[k].expiresAt == 100
  }

  lemma Reserving() returns (t: Inventory.Tables)
    requires Stock.Inv(STOCKED)
    ensures Inventory.CreateBatch(STOCKED, SETTINGS, None, DATA, 0) == (t, Ok(0)) && Waiting(t, 0)
  {
    StockedServes();
    hide Stock.Inv, Stock.Evolves, Inventory.BatchError, Inventory.ValidBatch, Inventory.ReserveAll, Inventory.BatchTakes;
    t := InventoryRuns.NewBatchKeeps(STOCKED, DATA, 100);
    var rows := Inventory.BatchRows(STOCKED, DATA, 100);
    assert [] + rows == rows;
    assert t.reservations == rows;
    InventorySafety.BatchRowsNonEmpty(STOCKED, DATA, 100);
  }

  lemma PriceOfOrder()
    ensures Money.ToMinorUnits(Money.Subtotal(Orders.Priced([LINE], [10.0]))) == 2000
  {
    var priced := Orders.Priced([LINE], [10.0]);
    assert priced == [Money.PricedLine(10.0, 2)];
    assert priced[..0] == [];
    assert Money.Subtotal(priced) == 20.0;
  }

  /** An order that waits for its payment, with no transaction open anywhere. */
  ghost predicate Unpaid(w: World, g: Id) {
    && Reachable(w)
    && 0 in w.orders && 0 in w.payments
    && w.orders[0].group == g && w.orders[0].customer == 7
    && w.orders[0].status == Orders.PendingPayment && w.orders[0].version == 1 && w.orders[0].total == 2000
    && w.payments[0] == Payments.Payment(w.orders[0].total, w.orders[0].currency, Payments.Pending, [], 1)
    && w.settling == map[] && w.handling == map[] && w.cancellations == []
    && w.webhooks == {} && w.accepted == {}
  }

  lemma StockedWorld() returns (w: World)
    ensures Reachable(w) && w == START.(inventory := STOCKED)
  {
    StartIsReachable();
    Stocking();
    hide Reachable, InventoryRuns.After;
    StepIsReachable(START, OtherCall(CREATE));
    w := START.(inventory := STOCKED);
  }

  lemma ReservedWorld() returns (w: World)
    ensures Reachable(w) && Waiting(w.inventory, 0)
    ensures w == START.(inventory := w.inventory, drawn := {0}, claims := map[0 := Claim(7, [LINE], 0)])
  {
    var w0 := StockedWorld();
    ReachableOk(w0);
    var t := Reserving();
    hide Reachable, Inventory.CreateBatch, Waiting, WorldOk, AcceptedInRange, Stock.Inv;
    w := Reserves(w0, t);
  }

  lemma Reserves(w: World, t: Inventory.Tables) returns (w': World)
    requires Reachable(w) && 0 !in w.drawn && Inventory.CreateBatch(w.inventory, SETTINGS, None, DATA, 0) == (t, Ok(0))
    ensures Reachable(w')
    ensures w' == w.(inventory := t, drawn := w.drawn + {0}, claims := w.claims[0 := Claim(7, [LINE], 0)])
  {
    hide Reachable, Possible, Inventory.CreateBatch;
    BySelf(w, ReserveOrder(0, SETTINGS, None, DATA, 0, Answered));
    StepIsReachable(w, ReserveOrder(0, SETTINGS, None, DATA, 0, Answered));
    w' := Step(w, ReserveOrder(0, SETTINGS, None, DATA, 0, Answered));
  }

  lemma OrderedWorld() returns (w: World)
    ensures Unpaid(w, 0) && Waiting(w.inventory, 0) && w.sent == []
  {
    var w0 := ReservedWorld();
    PriceOfOrder();
    hide Reachable, Waiting, Money.ToMinorUnits, Money.Subtotal;
    var persist := PersistOrder(0, [10.0], "USD");
    StepIsReachable(w0, persist);
    var w1 := Step(w0, persist);
    assert w1.orders == map[0 := Orders.NewOrder(7, [LINE], [10.0], "USD", 0)];
    StepIsReachable(w1, CreatePayment(0));
    w := Step(w1, CreatePayment(0));
  }

  // ---------------------------------------------------------------- committing

  lemma Committing(t: Inventory.Tables, g: Id) returns (t': Inventory.Tables)
    requires Stock.Inv(t) && Waiting(t, g)
    ensures t' == Inventory.CommitGroup(t, g, SERVICE, 0).0 && Inventory.CommitGroup(t, g, SERVICE, 0).1.Ok?
    ensures GroupExists(t', g) && GroupAll(t', g, Inventory.Committed)
  {
    t' := Inventory.CommitGroup(t, g, SERVICE, 0).0;
    FirstOfGroup(t, g);
    WaitingRows(t, g);
    InventorySafety.CommitGroupAllOrNone(t, g, SERVICE, 0);
    CommitAddsNoRow(t, g, SERVICE, 0);
    hide Stock.Inv, Stock.Evolves, Inventory.CommitGroup, Inventory.AnyExpired, Inventory.AllHave, Inventory.GroupRows;
    GroupStays(t, t', g);
    GroupRowsAll(t, t', g);
  }

  lemma WaitingRows(t: Inventory.Tables, g: Id)
    requires Waiting(t, g) && Inventory.GroupRows(t.reservations, g) != []
    ensures var rows := Inventory.GroupRows(t.reservations, g);
            && Inventory.LockedGroup(t, g, SERVICE).Ok?
            && Inventory.AllHave(t.reservations, rows, Inventory.Active)
            && !Inventory.AllHave(t.reservations, rows, Inventory.Committed)
            && !Inventory.AnyExpired(t.reservations, rows, 0)
  {
    var rows := Inventory.GroupRows(t.reservations, g);
    forall j | 0 <= j < |rows|
      ensures t.reservations[rows[j]].status == Inventory.Active && t.reservations[rows[j]].expiresAt == 100
    {
      assert rows[j] in rows;
    }
    hide Inventory.GroupRows;
  }

  // ---------------------------------------------------------------- single steps

  lemma Begins(w: World, event: Id, succeeded: bool) returns (w': World)
    requires Reachable(w) && 0 in w.payments && event !in w.webhooks && w.settling == map[]
    requires w.payments[0].status != Payments.Target(succeeded)
    ensures Reachable(w')
    ensures w' == w.(sent := w.sent + [CallbackFor(w, 0, succeeded)], settling := map[0 := Settlement(|w.sent|, event, succeeded)])
  {
    hide Reachable, CallbackFor, Possible;
    assert Possible(w, BeginWebhook(0, event, succeeded)) by { BySelf(w, BeginWebhook(0, event, succeeded)); }
    StepIsReachable(w, BeginWebhook(0, event, succeeded));
    w' := Step(w, BeginWebhook(0, event, succeeded));
  }

  /** What the services do by themselves is always possible. */
  lemma BySelf(w: World, a: Action)
    requires !a.OtherCall?
    ensures Possible(w, a)
  {
  }

  lemma Aborts(w: World, s: Settlement) returns (w': World)
    requires Reachable(w) && w.settling == map[0 := s]
    ensures Reachable(w') && w' == w.(settling := map[])
  {
    hide Reachable, Possible;
    BySelf(w, AbortWebhook(0));
    StepIsReachable(w, AbortWebhook(0));
    w' := Step(w, AbortWebhook(0));
    assert map[0 := s] - {0} == map[];
  }

  lemma Settles(w: World, s: Settlement) returns (w': World)
    requires Reachable(w) && w.settling == map[0 := s] && 0 in w.payments && s.request in w.accepted && s.event !in w.webhooks
    ensures Reachable(w')
    ensures w' == w.(payments := w.payments[0 := Payments.Settle(w.payments[0], s.succeeded)],
                     webhooks := w.webhooks + {s.event}, settling := map[])
  {
    hide Reachable, Possible, Payments.Settle;
    BySelf(w, FinishWebhook(0));
    StepIsReachable(w, FinishWebhook(0));
    w' := Step(w, FinishWebhook(0));
    assert map[0 := s] - {0} == map[];
  }

  lemma Authorizes(w: World, n: nat, t: Inventory.Tables, delivery: Delivery) returns (w': World)
    requires Reachable(w) && n < |w.sent| && 0 in w.orders && w.handling == map[] && !delivery.NotDelivered?
    requires w.sent[n] == AuthorizedMessage(0, w.orders[0].total, w.orders[0].currency)
    requires w.orders[0].status == Orders.PendingPayment
    requires CommitCall(w, w.orders[0].group, SERVICE, 0).0 == t && CommitCall(w, w.orders[0].group, SERVICE, 0).1.Ok?
    ensures Reachable(w')
    ensures w' == w.(inventory := t, handling := if delivery.Answered? then map[0 := n] else map[])
  {
    hide Reachable, Possible, CommitCall;
    BySelf(w, DeliverAuthorized(n, SERVICE, 0, delivery));
    StepIsReachable(w, DeliverAuthorized(n, SERVICE, 0, delivery));
    w' := Step(w, DeliverAuthorized(n, SERVICE, 0, delivery));
  }

  lemma Declines(w: World, n: nat) returns (w': World)
    requires Reachable(w) && n < |w.sent| && 0 in w.orders && w.handling == map[]
    requires w.sent[n] == FailedMessage(0) && w.orders[0].status == Orders.PendingPayment
    requires var (t, r) := ReleaseCall(w, w.orders[0].group, SERVICE, Inventory.CustomerCancelled, 0);
             t == w.inventory && ReleaseTolerated(r)
    ensures Reachable(w') && w' == w.(handling := map[0 := n])
  {
    hide Reachable, Possible, ReleaseCall, ReleaseTolerated;
    var a := DeliverFailed(n, SERVICE, Inventory.CustomerCancelled, 0, Answered);
    BySelf(w, a);
    StepIsReachable(w, a);
    w' := Step(w, a);
  }

  lemma Finishes(w: World, n: nat) returns (w': World)
    requires Reachable(w) && n < |w.sent| && 0 in w.orders && w.handling == map[0 := n]
    ensures Reachable(w')
    ensures var o := if w.sent[n].AuthorizedMessage? then Orders.Confirm(w.orders[0]) else Orders.Decline(w.orders[0]);
            w' == w.(orders := w.orders[0 := o], accepted := w.accepted + {n}, handling := map[])
  {
    hide Reachable, Possible, Orders.Confirm, Orders.Decline;
    BySelf(w, FinishHandling(0));
    StepIsReachable(w, FinishHandling(0));
    w' := Step(w, FinishHandling(0));
    assert map[0 := n] - {0} == map[];
  }

  lemma ReadsToCancel(w: World) returns (w': World)
    requires Reachable(w) && 0 in w.orders && w.cancellations == []
    requires w.orders[0].status in {Orders.PendingPayment, Orders.Confirmed}
    ensures Reachable(w') && w' == w.(cancellations := [Cancellation(0, w.orders[0].version, HasRead)])
  {
    hide Reachable, Possible;
    BySelf(w, CancelRead(0, w.orders[0].version));
    StepIsReachable(w, CancelRead(0, w.orders[0].version));
    w' := Step(w, CancelRead(0, w.orders[0].version));
  }

  lemma ReleasesToCancel(w: World, c: Cancellation) returns (w': World)
    requires Reachable(w) && w.cancellations == [c] && c.order == 0 && c.phase == HasRead && 0 in w.orders
    requires var (t, r) := ReleaseCall(w, w.orders[0].group, BUYER, Inventory.CustomerCancelled, 0);
             t == w.inventory && ReleaseTolerated(r)
    ensures Reachable(w') && w' == w.(cancellations := [c.(phase := HasReleased)])
  {
    hide Reachable, Possible, ReleaseCall, ReleaseTolerated;
    var a := CancelRelease(0, BUYER, Inventory.CustomerCancelled, 0, Answered);
    BySelf(w, a);
    StepIsReachable(w, a);
    w' := Step(w, a);
  }

  lemma WritesCancelled(w: World, c: Cancellation) returns (w': World)
    requires Reachable(w) && w.cancellations == [c] && c.order == 0 && c.phase == HasReleased
    requires 0 in w.orders && 0 !in w.handling
    ensures Reachable(w') && w'.inventory == w.inventory
    ensures w'.orders == w.orders[0 := Orders.CancelWrite(w.orders[0], c.version)]
  {
    hide Reachable, Possible, Orders.CancelWrite;
    BySelf(w, CancelWrite(0));
    StepIsReachable(w, CancelWrite(0));
    w' := Step(w, CancelWrite(0));
  }

  // ---------------------------------------------------------------- paid and confirmed

  /** The order is confirmed and paid. */
  ghost predicate PaidUp(w: World) {
    && Reachable(w)
    && 0 in w.orders && 0 in w.payments
    && w.orders[0].customer == 7
    && w.orders[0].status == Orders.Confirmed && w.orders[0].version == 2 && Orders.Confirmed in w.orders[0].history
    && w.orders[0].payment == Orders.Authorized
    && w.payments[0].status == Payments.Succeeded && w.payments[0].refunds == [] && w.payments[0].amount == 2000
    && w.settling == map[] && w.handling == map[] && w.cancellations == [] && w.webhooks == {1} && |w.sent| == 1
  }

  /** The order is confirmed; the webhook that paid for it has its answer and is still open. */
  lemma ConfirmedWorld() returns (w: World)
    ensures Reachable(w)
    ensures 0 in w.orders && 0 in w.payments
    ensures w.orders[0].customer == 7 && w.orders[0].version == 2
    ensures w.orders[0].status == Orders.Confirmed && Orders.Confirmed in w.orders[0].history
    ensures w.orders[0].payment == Orders.Authorized
    ensures w.payments[0].refunds == [] && w.payments[0].amount == 2000 && |w.sent| == 1
    ensures w.settling == map[0 := Settlement(0, 1, true)] && 0 in w.accepted
    ensures w.handling == map[] && w.cancellations == [] && w.webhooks == {}
  {
    var w0 := OrderedWorld();
    ReachableOk(w0);
    PaymentOf(w0, 0);
    var t := Committing(w0.inventory, 0);
    ConfirmsIntoHistory(w0.orders[0]);
    hide Reachable, WorldOk, Waiting, Inventory.CommitGroup, GroupExists, GroupAll, PaymentInv, AcceptedInRange, Orders.Confirm,
         Payments.PaymentOk;
    var w1 := Begins(w0, 1, true);
    var w2 := Authorizes(w1, 0, t, Answered);
    w := Finishes(w2, 0);
  }

  lemma PaidWorld() returns (w: World)
    ensures PaidUp(w)
  {
    var w0 := ConfirmedWorld();
    hide Reachable;
    w := Settles(w0, Settlement(0, 1, true));
  }

  lemma ConfirmsIntoHistory(o: Orders.Order)
    ensures var o' := Orders.Confirm(o);
            && Orders.Confirmed in o'.history && o'.status == Orders.Confirmed
            && o'.version == o.version + 1 && o'.customer == o.customer && o'.payment == Orders.Authorized
  {
    Orders.TransitionHistory(o.(payment := Orders.Authorized), Orders.Confirmed);
  }

  /** A confirmed order that is cancelled: its stock stays COMMITTED. */
  lemma CancelledAfterConfirmed() returns (w: World)
    ensures Reachable(w) && 0 in w.orders
    ensures w.orders[0].status == Orders.Cancelled && Orders.Confirmed in w.orders[0].history
    ensures GroupExists(w.inventory, w.orders[0].group) && GroupAll(w.inventory, w.orders[0].group, Inventory.Committed)
  {
    var w0 := PaidWorld();
    ReachableOk(w0);
    OrderOf(w0, 0);
    assert ClaimOk(w0, 0);
    w := Cancelling(w0);
  }

  /** The buyer cancels an order whose group is COMMITTED. */
  lemma Cancelling(w0: World) returns (w: World)
    requires Reachable(w0) && Stock.Inv(w0.inventory) && 0 in w0.orders && 0 !in w0.handling && w0.cancellations == []
    requires w0.orders[0].customer == 7 && w0.orders[0].status in {Orders.PendingPayment, Orders.Confirmed}
    requires var t, g := w0.inventory, w0.orders[0].group;
             GroupExists(t, g) && GroupAll(t, g, Inventory.Committed) && t.reservations[g].customer == 7
    ensures Reachable(w) && w.inventory == w0.inventory
    ensures w.orders == w0.orders[0 := Orders.CancelWrite(w0.orders[0], w0.orders[0].version)]
  {
    ReleaseReleasesIff(w0.inventory, w0.orders[0].group, BUYER, Inventory.CustomerCancelled, 0);
    hide Reachable, Stock.Inv, GroupExists, GroupAll, Inventory.ReleaseGroup, ReleaseTolerated, Orders.CancelWrite;
    var w1 := ReadsToCancel(w0);
    var w2 := ReleasesToCancel(w1, w1.cancellations[0]);
    w := WritesCancelled(w2, w2.cancellations[0]);
  }

  // ---------------------------------------------------------------- refunded and reopened

  /** A REFUNDED payment whose order still is CONFIRMED, and the world after another success event: the payment
      is SUCCEEDED again although all of it was refunded. */
  lemma RefundedThenReopened() returns (w: World, w': World)
    ensures Reachable(w) && Reachable(w') && 0 in w.payments && 0 in w.orders && 0 in w'.payments
    ensures w.payments[0].status == Payments.Refunded && w.orders[0].status == Orders.Confirmed
    ensures w'.payments[0].status == Payments.Succeeded
            && Payments.RefundedAmount(w'.payments[0]) == w'.payments[0].amount > 0
  {
    var w0 := PaidWorld();
    w := Refunding(w0);
    ReachableOk(w);
    PaymentOf(w, 0);
    OrderOf(w, 0);
    w' := Reopening(w);
  }

  lemma Reopening(w: World) returns (w': World)
    requires Reachable(w) && AcceptedInRange(w) && 0 in w.payments && PaymentInv(w, 0) && OrderInv(w, 0)
    requires w.payments[0].status == Payments.Refunded && w.orders[0].status == Orders.Confirmed
    requires w.settling == map[] && w.handling == map[] && w.webhooks == {1}
    requires Payments.RefundedAmount(w.payments[0]) == w.payments[0].amount > 0
    ensures Reachable(w') && 0 in w'.payments
    ensures w'.payments[0] == Payments.Settle(w.payments[0], true)
  {
    hide Reachable, OrderInv, Possible;
    var n := |w.sent|;
    assert n !in w.accepted;
    var w1 := Begins(w, 2, true);
    var a := DeliverAuthorized(n, SERVICE, 0, Answered);
    BySelf(w1, a);
    StepIsReachable(w1, a);
    var w2 := Step(w1, a);
    assert w2 == w1.(accepted := w1.accepted + {n});
    w' := Settles(w2, Settlement(n, 2, true));
  }

  lemma Refunding(w0: World) returns (w: World)
    requires PaidUp(w0)
    ensures Reachable(w) && 0 in w.payments && 0 in w.orders
    ensures w.payments[0].status == Payments.Refunded && w.orders[0].status == Orders.Confirmed
    ensures Payments.RefundedAmount(w.payments[0]) == w.payments[0].amount > 0
    ensures w.settling == map[] && w.handling == map[] && w.webhooks == {1}
  {
    AllRefunded(w0.payments[0]);
    hide Reachable, Payments.Refund, Payments.RefundedAmount;
    w := Refunds(w0, None);
  }

  lemma AllRefunded(p: Payments.Payment)
    requires p.status == Payments.Succeeded && p.refunds == [] && 0 < p.amount
    ensures Payments.Refund(p, None).Ok?
    ensures var p' := Payments.Refund(p, None).value;
            p'.amount == p.amount == Payments.RefundedAmount(p') && p'.status == Payments.Refunded
  {
    assert [p.amount][..0] == [] && [] + [p.amount] == [p.amount];
  }

  // ---------------------------------------------------------------- refunded, and told late

  /** A cent is refunded, then the rest; Order has heard of neither. */
  lemma TwiceRefunded() returns (w: World)
    ensures Reachable(w) && 0 in w.orders && 0 in w.payments && 0 !in w.handling
    ensures w.orders[0].payment == Orders.Authorized && w.orders[0].total == 2000
    ensures w.payments[0].status == Payments.Refunded && Payments.RefundedAmount(w.payments[0]) == w.payments[0].amount == 2000
    ensures |w.sent| == 3
    ensures w.sent[1] == RefundedMessage(0, 1, w.orders[0].currency) && w.sent[2] == RefundedMessage(0, 2000, w.orders[0].currency)
  {
    hide Reachable, WorldOk, Payments.Refund, Payments.RefundedAmount;
    var w0 := PaidWorld();
    MoneyOfOrder(w0);
    CentThenRest(w0.payments[0]);
    var w1 := Refunds(w0, Some(1));
    w := Refunds(w1, None);
  }

  lemma MoneyOfOrder(w: World)
    requires Reachable(w) && 0 in w.payments
    ensures 0 in w.orders && w.payments[0].currency == w.orders[0].currency && w.payments[0].amount == w.orders[0].total
  {
    ReachableOk(w);
    PaymentOf(w, 0);
    hide Reachable;
  }

  lemma CentThenRest(p: Payments.Payment)
    requires p.amount == 2000 && p.refunds == [] && p.status == Payments.Succeeded
    ensures Payments.Refund(p, Some(1)).Ok?
    ensures var p1 := Payments.Refund(p, Some(1)).value;
            && p1.currency == p.currency && Payments.RefundedAmount(p1) == 1
            && Payments.Refund(p1, None).Ok?
            && var p2 := Payments.Refund(p1, None).value;
               && p2.currency == p.currency && p2.amount == 2000 && p2.status == Payments.Refunded
               && Payments.RefundedAmount(p2) == 2000
  {
    assert [1][..0] == [] && [1, 1999][..1] == [1];
    assert [] + [1] == [1] && [1] + [1999] == [1, 1999];
  }

  lemma Refunds(w: World, asked: Option<int>) returns (w': World)
    requires Reachable(w) && 0 in w.payments && 0 !in w.settling && Payments.Refund(w.payments[0], asked).Ok?
    ensures Reachable(w')
    ensures var p := Payments.Refund(w.payments[0], asked).value;
            w' == w.(payments := w.payments[0 := p], sent := w.sent + [RefundedMessage(0, Payments.RefundedAmount(p), p.currency)])
  {
    hide Reachable, Possible, Payments.Refund, Payments.RefundedAmount;
    BySelf(w, CreateRefund(0, asked));
    StepIsReachable(w, CreateRefund(0, asked));
    w' := Step(w, CreateRefund(0, asked));
  }

  lemma Hears(w: World, n: nat) returns (w': World)
    requires Reachable(w) && n < |w.sent| && 0 in w.orders && 0 !in w.handling
    requires w.orders[0].payment in {Orders.Authorized, Orders.Refunded}
    requires w.sent[n].RefundedMessage? && w.sent[n].order == 0 && w.sent[n].currency == w.orders[0].currency
    requires w.sent[n].refunded <= w.orders[0].total
    ensures Reachable(w') && 0 in w'.orders && w'.payments == w.payments && w'.handling == w.handling && w'.sent == w.sent
    ensures w'.orders[0].total == w.orders[0].total && w'.orders[0].currency == w.orders[0].currency
    ensures w'.orders[0].payment == if w.sent[n].refunded == w.orders[0].total then Orders.Refunded else Orders.PartiallyRefunded
  {
    hide Reachable, Possible;
    BySelf(w, DeliverRefunded(n));
    StepIsReachable(w, DeliverRefunded(n));
    w' := Step(w, DeliverRefunded(n));
  }

  /** The callbacks of two refunds overtake each other: the order shows REFUNDED, and then, when the late one comes,
      PARTIALLY_REFUNDED, although all of its payment is refunded. */
  lemma RefundedThenPartly() returns (w: World, w': World)
    ensures Reachable(w) && Reachable(w') && 0 in w.orders && 0 in w'.orders && 0 in w.payments && w'.payments == w.payments
    ensures w.payments[0].status == Payments.Refunded && Payments.RefundedAmount(w.payments[0]) == w.payments[0].amount
    ensures w.orders[0].payment == Orders.Refunded && w'.orders[0].payment == Orders.PartiallyRefunded
  {
    hide Reachable, Payments.RefundedAmount;
    var w0 := TwiceRefunded();
    w := Hears(w0, 2);
    w' := Hears(w, 1);
  }

  // ---------------------------------------------------------------- committed, but the answer was lost

  /** Inventory committed the group, Order never heard of it and still waits for the payment. */
  lemma UnheardWorld() returns (w: World)
    ensures Unpaid(w, 0) && |w.sent| == 1
    ensures GroupExists(w.inventory, 0) && GroupAll(w.inventory, 0, Inventory.Committed)
  {
    var w0 := OrderedWorld();
    ReachableOk(w0);
    var t := Committing(w0.inventory, 0);
    hide Reachable, WorldOk, Waiting, Inventory.CommitGroup, GroupExists, GroupAll;
    var w1 := Begins(w0, 1, true);
    var w2 := Authorizes(w1, 0, t, ReplyLost);
    w := Aborts(w2, Settlement(0, 1, true));
  }

  lemma NeverConfirmed(o: Orders.Order)
    requires Orders.OrderOk(o) && o.status == Orders.PendingPayment
    ensures var o' := Orders.CancelWrite(o, o.version);
            o'.status == Orders.Cancelled && Orders.Confirmed !in o'.history && o'.group == o.group
  {
  }

  /** An order that is cancelled without ever having been confirmed, while its stock stays COMMITTED. */
  lemma CancelledWithoutConfirmed() returns (w: World)
    ensures Reachable(w) && 0 in w.orders
    ensures w.orders[0].status == Orders.Cancelled && Orders.Confirmed !in w.orders[0].history
    ensures GroupExists(w.inventory, w.orders[0].group) && GroupAll(w.inventory, w.orders[0].group, Inventory.Committed)
  {
    var w0 := UnheardWorld();
    ReachableOk(w0);
    OrderOf(w0, 0);
    assert ClaimOk(w0, 0);
    NeverConfirmed(w0.orders[0]);
    hide Reachable, WorldOk, OrderInv, ClaimOk, GroupAll, GroupExists, Orders.CancelWrite;
    w := Cancelling(w0);
  }

  /** An order whose payment failed, while its stock stays COMMITTED: at the decline its group was not ACTIVE. */
  lemma DeclinedButCommitted() returns (w: World, w': World)
    ensures Reachable(w) && 0 in w.orders && w.orders[0].status == Orders.PendingPayment
    ensures !GroupAll(w.inventory, w.orders[0].group, Inventory.Active)
    ensures Reachable(w') && 0 in w'.orders && w'.orders[0].status == Orders.PaymentFailed
    ensures GroupExists(w'.inventory, w'.orders[0].group) && GroupAll(w'.inventory, w'.orders[0].group, Inventory.Committed)
  {
    w := UnheardWorld();
    ReachableOk(w);
    OneStatus(w.inventory, 0);
    ReleaseReleasesIff(w.inventory, 0, SERVICE, Inventory.CustomerCancelled, 0);
    hide Reachable, WorldOk, GroupExists, GroupAll, Inventory.ReleaseGroup, ReleaseTolerated;
    var w1 := Begins(w, 2, false);
    var w2 := Declines(w1, 1);
    w' := Finishes(w2, 1);
  }
}
