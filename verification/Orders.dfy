/** The order service: what each callback does to one order row, and the service that does it in place. */
module Orders {
  import opened Common
  import Inventory
  import Money

  datatype OrderStatus =
    | PendingPayment | PaymentAuthorized | Confirmed | Processing | Shipped | Delivered | Cancelled | PaymentFailed

  datatype PaymentState = NotPaid | Authorized | Captured | Declined | Refunded | PartiallyRefunded

  /** The cart's items give a line and a unit price each. Amounts are whole cents. The history lists the statuses written, oldest first. */
  datatype Order = Order(
    customer: Id,
    lines: seq<Inventory.Line>,
    prices: seq<real>,
    total: int,
    currency: string,
    group: Id,
    status: OrderStatus,
    payment: PaymentState,
    version: int,
    history: seq<OrderStatus>)

  datatype Error =
    | NotFound | VersionConflict | NotCancellable | InvalidState | AmountMismatch | InventoryFailed | InvalidTransition

  function Priced(lines: seq<Inventory.Line>, prices: seq<real>): (priced: seq<Money.PricedLine>)
    requires |prices| == |lines|
  {
    seq(|lines|, k requires 0 <= k < |lines| => Money.PricedLine(prices[k], lines[k].quantity))
  }

  /** The grand total is the cart's subtotal. */
  function NewOrder(customer: Id, lines: seq<Inventory.Line>, prices: seq<real>, currency: string, group: Id): Order
    requires |prices| == |lines|
  {
    var total := Money.ToMinorUnits(Money.Subtotal(Priced(lines, prices)));
    Order(customer, lines, prices, total, currency, group, PendingPayment, NotPaid, 1, [PendingPayment])
  }

  /** `_transition`. */
  function Transition(o: Order, status: OrderStatus): Order {
    o.(status := status, version := o.version + 1, history := o.history + [status])
  }

  /** The checks of `payment_authorized` up to its call of Inventory: None means the call is made. */
  function AuthorizeShortcut(o: Order, amount: int, currency: string): Option<Result<Order, Error>> {
    if o.status == Confirmed then Some(Ok(o))
    else if o.status != PendingPayment then Some(Err(InvalidState))
    else if currency != o.currency || amount != o.total then Some(Err(AmountMismatch))
    else None
  }

  function Confirm(o: Order): Order {
    Transition(o.(payment := Authorized), Confirmed)
  }

  function OnAuthorized(o: Order, amount: int, currency: string, committed: bool): Result<Order, Error> {
    var shortcut := AuthorizeShortcut(o, amount, currency);
    if shortcut.Some? then shortcut.value
    else if !committed then Err(InventoryFailed)
    else Ok(Confirm(o))
  }

  function FailShortcut(o: Order): Option<Result<Order, Error>> {
    if o.status == PaymentFailed then Some(Ok(o))
    else if o.status != PendingPayment then Some(Err(InvalidState))
    else None
  }

  function Decline(o: Order): Order {
    Transition(o.(payment := Declined), PaymentFailed)
  }

  function OnFailed(o: Order, released: bool): Result<Order, Error> {
    var shortcut := FailShortcut(o);
    if shortcut.Some? then shortcut.value
    else if !released then Err(InventoryFailed)
    else Ok(Decline(o))
  }

  function OnRefunded(o: Order, refunded: int, currency: string): Result<Order, Error> {
    if o.payment !in {Authorized, Captured, Refunded, PartiallyRefunded} then Err(InvalidState)
    else if currency != o.currency || refunded > o.total then Err(AmountMismatch)
    else Ok(o.(payment := if refunded == o.total then Refunded else PartiallyRefunded, version := o.version + 1))
  }

  function OnFulfillment(o: Order, status: OrderStatus): Result<Order, Error> {
    if (o.status == Confirmed && status == Processing)
       || (o.status == Processing && status == Shipped)
       || (o.status == Shipped && status == Delivered)
    then Ok(Transition(o, status))
    else Err(InvalidTransition)
  }

  /** What `cancel` checks on its unlocked read. */
  function CancelCheck(o: Order, expectedVersion: int): Result<(), Error> {
    if o.version != expectedVersion then Err(VersionConflict)
    else if o.status !in {PendingPayment, PaymentAuthorized, Confirmed} then Err(NotCancellable)
    else Ok(())
  }

  /** What `cancel` finally writes over the row it finds: the status, and the version it read plus one. */
  function CancelWrite(o: Order, readVersion: int): Order {
    o.(status := Cancelled, version := readVersion + 1, history := o.history + [Cancelled])
  }

  // ---------------------------------------------------------------- what the transitions keep

  predicate Paid(p: PaymentState) {
    p == Authorized || p == Captured || p == Refunded || p == PartiallyRefunded
  }

  ghost predicate TotalOk(o: Order) {
    |o.prices| == |o.lines| && o.total == Money.ToMinorUnits(Money.Subtotal(Priced(o.lines, o.prices)))
  }

  /** Confirmed and payment-failed are two branches that never meet. */
  ghost predicate OrderOk(o: Order) {
    && TotalOk(o)
    && o.history != [] && o.history[|o.history| - 1] == o.status
    && !(Confirmed in o.history && PaymentFailed in o.history)
    && (o.status == PendingPayment ==> Confirmed !in o.history && PaymentFailed !in o.history)
    && (o.status in {Confirmed, Processing, Shipped, Delivered} ==> Confirmed in o.history)
    && (Confirmed in o.history ==> o.status in {Confirmed, Processing, Shipped, Delivered, Cancelled})
    && (o.status == PaymentFailed ==> PaymentFailed in o.history)
    && (PaymentFailed in o.history ==> o.status in {PaymentFailed, Cancelled})
    && (Confirmed in o.history <==> Paid(o.payment))
    && (PaymentFailed in o.history <==> o.payment == Declined)
    && o.status != PaymentAuthorized && o.payment != Captured
  }

  /** What no later write takes back. */
  ghost predicate OrderEvolves(o: Order, o': Order) {
    && o'.customer == o.customer && o'.lines == o.lines && o'.prices == o.prices && o'.total == o.total && o'.currency == o.currency
    && o'.group == o.group && o.history <= o'.history
    && (Paid(o.payment) ==> Paid(o'.payment))
  }

  lemma NewOrderOk(customer: Id, lines: seq<Inventory.Line>, prices: seq<real>, currency: string, group: Id)
    requires |prices| == |lines|
    ensures OrderOk(NewOrder(customer, lines, prices, currency, group))
  {
  }

  lemma TransitionHistory(o: Order, status: OrderStatus)
    ensures var o' := Transition(o, status);
            && o.history <= o'.history
            && forall s :: s in o'.history <==> s in o.history || s == status
  {
  }

  lemma ConfirmKeeps(o: Order)
    requires OrderOk(o) && o.status == PendingPayment
    ensures OrderOk(Confirm(o)) && OrderEvolves(o, Confirm(o)) && Confirmed in Confirm(o).history
  {
    TransitionHistory(o.(payment := Authorized), Confirmed);
  }

  lemma DeclineKeeps(o: Order)
    requires OrderOk(o) && o.status == PendingPayment
    ensures OrderOk(Decline(o)) && OrderEvolves(o, Decline(o)) && PaymentFailed in Decline(o).history
  {
    TransitionHistory(o.(payment := Declined), PaymentFailed);
  }

  lemma RefundKeeps(o: Order, refunded: int, currency: string)
    requires OrderOk(o) && OnRefunded(o, refunded, currency).Ok?
    ensures var o' := OnRefunded(o, refunded, currency).value; OrderOk(o') && OrderEvolves(o, o')
  {
  }

  lemma FulfillmentKeeps(o: Order, status: OrderStatus)
    requires OrderOk(o) && OnFulfillment(o, status).Ok?
    ensures var o' := OnFulfillment(o, status).value; OrderOk(o') && OrderEvolves(o, o')
  {
    TransitionHistory(o, status);
  }

  /** Whatever has become of the order since it was read, writing CANCELLED over it keeps its past. */
  lemma CancelKeeps(o: Order, readVersion: int)
    requires OrderOk(o)
    ensures OrderOk(CancelWrite(o, readVersion)) && OrderEvolves(o, CancelWrite(o, readVersion))
  {
    TransitionHistory(o, Cancelled);
    assert CancelWrite(o, readVersion).history == Transition(o, Cancelled).history;
  }

  // ---------------------------------------------------------------- the service

  /** The rows of the orders table; the answers of Inventory arrive as arguments. */
  class OrderService {
    var orders: map<Id, Order>

    constructor ()
      ensures orders == map[]
    {
      orders := map[];
    }

    method WriteTransition(id: Id, status: OrderStatus)
      requires id in orders
      modifies this
      ensures orders == old(orders)[id := Transition(old(orders)[id], status)]
    {
      orders := orders[id := orders[id].(status := status)];
      orders := orders[id := orders[id].(version := orders[id].version + 1)];
      orders := orders[id := orders[id].(history := orders[id].history + [status])];
      assert orders == old(orders)[id := orders[id]];
    }

    method PaymentAuthorized(id: Id, amount: int, currency: string, committed: bool) returns (r: Result<Order, Error>)
      modifies this
      ensures id !in old(orders) ==> r == Err(NotFound) && orders == old(orders)
      ensures id in old(orders) ==>
                && r == OnAuthorized(old(orders)[id], amount, currency, committed)
                && orders == if r.Ok? then old(orders)[id := r.value] else old(orders)
    {
      if id !in orders {
        return Err(NotFound);
      }
      if orders[id].status == Confirmed {
        assert orders == orders[id := orders[id]];
        return Ok(orders[id]);
      }
      if orders[id].status != PendingPayment {
        return Err(InvalidState);
      }
      if currency != orders[id].currency || amount != orders[id].total {
        return Err(AmountMismatch);
      }
      if !committed {
        return Err(InventoryFailed);
      }
      orders := orders[id := orders[id].(payment := Authorized)];
      WriteTransition(id, Confirmed);
      assert orders == old(orders)[id := orders[id]];
      return Ok(orders[id]);
    }

    method PaymentFailed(id: Id, released: bool) returns (r: Result<Order, Error>)
      modifies this
      ensures id !in old(orders) ==> r == Err(NotFound) && orders == old(orders)
      ensures id in old(orders) ==>
                && r == OnFailed(old(orders)[id], released)
                && orders == if r.Ok? then old(orders)[id := r.value] else old(orders)
    {
      if id !in orders {
        return Err(NotFound);
      }
      if orders[id].status == OrderStatus.PaymentFailed {
        assert orders == orders[id := orders[id]];
        return Ok(orders[id]);
      }
      if orders[id].status != PendingPayment {
        return Err(InvalidState);
      }
      if !released {
        return Err(InventoryFailed);
      }
      orders := orders[id := orders[id].(payment := Declined)];
      WriteTransition(id, OrderStatus.PaymentFailed);
      assert orders == old(orders)[id := orders[id]];
      return Ok(orders[id]);
    }

    method PaymentRefunded(id: Id, refunded: int, currency: string) returns (r: Result<Order, Error>)
      modifies this
      ensures id !in old(orders) ==> r == Err(NotFound) && orders == old(orders)
      ensures id in old(orders) ==>
                && r == OnRefunded(old(orders)[id], refunded, currency)
                && orders == if r.Ok? then old(orders)[id := r.value] else old(orders)
    {
      if id !in orders {
        return Err(NotFound);
      }
      if orders[id].payment !in {Authorized, Captured, Refunded, PartiallyRefunded} {
        return Err(InvalidState);
      }
      if currency != orders[id].currency {
        return Err(AmountMismatch);
      }
      if refunded > orders[id].total {
        return Err(AmountMismatch);
      }
      orders := orders[id := orders[id].(payment := if refunded == orders[id].total then Refunded else PartiallyRefunded)];
      orders := orders[id := orders[id].(version := orders[id].version + 1)];
      assert orders == old(orders)[id := orders[id]];
      return Ok(orders[id]);
    }

    method Fulfillment(id: Id, status: OrderStatus) returns (r: Result<Order, Error>)
      modifies this
      ensures id !in old(orders) ==> r == Err(NotFound) && orders == old(orders)
      ensures id in old(orders) ==>
                && r == OnFulfillment(old(orders)[id], status)
                && orders == if r.Ok? then old(orders)[id := r.value] else old(orders)
    {
      if id !in orders {
        return Err(NotFound);
      }
      var allowed := map[Confirmed := Processing, Processing := Shipped, Shipped := Delivered];
      if orders[id].status !in allowed || allowed[orders[id].status] != status {
        return Err(InvalidTransition);
      }
      WriteTransition(id, status);
      return Ok(orders[id]);
    }

    /** The unlocked read `cancel` starts with; the order it returns may be stale when it writes. */
    method CancelRead(id: Id, expectedVersion: int) returns (r: Result<Order, Error>)
      ensures id !in orders ==> r == Err(NotFound)
      ensures id in orders ==>
                r == match CancelCheck(orders[id], expectedVersion) case Ok(_) => Ok(orders[id]) case Err(e) => Err(e)
    {
      if id !in orders {
        return Err(NotFound);
      }
      if orders[id].version != expectedVersion {
        return Err(VersionConflict);
      }
      if orders[id].status !in {PendingPayment, OrderStatus.PaymentAuthorized, Confirmed} {
        return Err(NotCancellable);
      }
      return Ok(orders[id]);
    }

    /** The UPDATE that `cancel` ends with: only the columns it changed are written. */
    method CancelCommit(id: Id, read: Order)
      requires id in orders
      modifies this
      ensures orders == old(orders)[id := CancelWrite(old(orders)[id], read.version)]
    {
      orders := orders[id := orders[id].(status := Cancelled)];
      orders := orders[id := orders[id].(version := read.version + 1)];
      orders := orders[id := orders[id].(history := orders[id].history + [Cancelled])];
      assert orders == old(orders)[id := orders[id]];
    }
  }
}
