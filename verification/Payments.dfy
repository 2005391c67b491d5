/** The payment service: webhook handlers and refunds on one payment row. Amounts are whole cents. */
module Payments {
  import opened Common

  datatype Status = Pending | RequiresAction | Succeeded | Failed | Refunded | PartiallyRefunded

  /** `refunds` holds the amounts of the refund rows; the code only ever writes succeeded ones. */
  datatype Payment = Payment(amount: int, currency: string, status: Status, refunds: seq<int>, version: int)

  datatype Error = NotFound | NotRefundable | ExceedsRemaining | IntegrityError | OrderCallbackFailed

  function RefundedAmount(p: Payment): int {
    Sum(p.refunds)
  }

  /** `create_refund`, after its guards on the caller. None asks for all that remains. */
  function Refund(p: Payment, asked: Option<int>): Result<Payment, Error> {
    var remaining := p.amount - RefundedAmount(p);
    var amount := if asked.Some? then asked.value else remaining;
    if p.status != Succeeded && p.status != PartiallyRefunded then Err(NotRefundable)
    else if amount > remaining then Err(ExceedsRemaining)
    else if amount <= 0 then Err(IntegrityError)
    else Ok(p.(refunds := p.refunds + [amount],
               status := if amount == remaining then Refunded else PartiallyRefunded,
               version := p.version + 1))
  }

  /** The status a webhook asks for. */
  function Target(succeeded: bool): Status {
    if succeeded then Succeeded else Failed
  }

  /** A handler finds nothing to do if the payment already has the status. */
  predicate AlreadyThere(p: Payment, succeeded: bool) {
    p.status == Target(succeeded)
  }

  function Settle(p: Payment, succeeded: bool): Payment {
    p.(status := Target(succeeded), version := p.version + 1)
  }

  /** A webhook delivery as one transaction on the payment rows and the recorded events; `accepted` is
      Order's answer if it is asked. Unknown payments are only recorded. */
  function OnWebhook(payments: map<Id, Payment>, webhooks: set<Id>, event: Id, order: Id, succeeded: bool, accepted: bool)
    : (map<Id, Payment>, set<Id>, Result<(), Error>)
  {
    if event in webhooks then (payments, webhooks, Ok(()))
    else if order !in payments || AlreadyThere(payments[order], succeeded) then (payments, webhooks + {event}, Ok(()))
    else if !accepted then (payments, webhooks, Err(OrderCallbackFailed))
    else (payments[order := Settle(payments[order], succeeded)], webhooks + {event}, Ok(()))
  }

  predicate Success(s: Status) {
    s == Succeeded || s == PartiallyRefunded || s == Refunded
  }

  /** Refund conservation. */
  ghost predicate PaymentOk(p: Payment) {
    && 0 < p.amount
    && (forall k :: 0 <= k < |p.refunds| ==> 0 < p.refunds[k])
    && RefundedAmount(p) <= p.amount
    && (p.status == Refunded ==> RefundedAmount(p) == p.amount)
    && (p.status == PartiallyRefunded ==> 0 < RefundedAmount(p) < p.amount)
    && (!Success(p.status) ==> p.refunds == [])
    && p.status != RequiresAction
  }

  lemma {:induction false} SumNonNegative(xs: seq<int>)
    requires forall k :: 0 <= k < |xs| ==> 0 < xs[k]
    ensures |xs| <= Sum(xs)
  {
    if xs == [] {
    } else {
      SumNonNegative(xs[..|xs| - 1]);
    }
  }

  lemma {:induction false} SumOfPrefix(xs: seq<int>, ys: seq<int>)
    requires xs <= ys && forall k :: 0 <= k < |ys| ==> 0 < ys[k]
    ensures Sum(xs) <= Sum(ys)
  {
    if |xs| < |ys| {
      SumOfPrefix(xs, ys[..|ys| - 1]);
    } else {
      assert xs == ys;
    }
  }

  /** What a refund adds to a payment row. */
  lemma RefundAdds(p: Payment, asked: Option<int>)
    requires Refund(p, asked).Ok?
    ensures var p', left := Refund(p, asked).value, p.amount - RefundedAmount(p);
            var amount := if asked.Some? then asked.value else left;
            && 0 < amount <= left && p'.refunds == p.refunds + [amount]
            && p'.amount == p.amount && p'.currency == p.currency
            && RefundedAmount(p') == RefundedAmount(p) + amount
  {
    var amount := if asked.Some? then asked.value else p.amount - RefundedAmount(p);
    assert (p.refunds + [amount])[..|p.refunds|] == p.refunds;
  }

  /** A refund never takes more than was paid, and the status says whether anything is left. */
  lemma RefundConserves(p: Payment, asked: Option<int>)
    requires PaymentOk(p) && Refund(p, asked).Ok?
    ensures var p' := Refund(p, asked).value;
            && PaymentOk(p') && p.refunds <= p'.refunds
            && RefundedAmount(p) < RefundedAmount(p') <= p.amount
            && (p'.status == Refunded <==> RefundedAmount(p') == p.amount)
            && (p'.status == PartiallyRefunded <==> RefundedAmount(p') < p.amount)
  {
    RefundAdds(p, asked);
    SumNonNegative(p.refunds);
  }

  class PaymentService {
    /** One payment per order (unique index), so payments are keyed by their order. */
    var payments: map<Id, Payment>
    var webhooks: set<Id>

    constructor ()
      ensures payments == map[] && webhooks == {}
    {
      payments, webhooks := map[], {};
    }

    /** A refund is committed before Order is told; the cumulative amount to tell comes back. */
    method CreateRefund(order: Id, asked: Option<int>) returns (r: Result<int, Error>)
      modifies this`payments
      ensures order !in old(payments) ==> r == Err(NotFound) && payments == old(payments)
      ensures order in old(payments) ==>
                match Refund(old(payments)[order], asked)
                case Err(e) => r == Err(e) && payments == old(payments)
                case Ok(p) => r == Ok(RefundedAmount(p)) && payments == old(payments)[order := p]
    {
      hide RefundedAmount;
      if order !in payments {
        return Err(NotFound);
      }
      if payments[order].status != Succeeded && payments[order].status != PartiallyRefunded {
        return Err(NotRefundable);
      }
      var previously := RefundedAmount(payments[order]);
      var remaining := payments[order].amount - previously;
      var amount := remaining;
      if asked.Some? {
        amount := asked.value;
      }
      if amount > remaining {
        return Err(ExceedsRemaining);
      }
      if amount <= 0 {
        return Err(IntegrityError);
      }
      payments := payments[order := payments[order].(refunds := payments[order].refunds + [amount])];
      payments := payments[order := payments[order].(status := if amount == remaining then Refunded else PartiallyRefunded)];
      payments := payments[order := payments[order].(version := payments[order].version + 1)];
      assert payments == old(payments)[order := payments[order]];
      RefundAdds(old(payments)[order], asked);
      return Ok(previously + amount);
    }

    /** An unanswered or refused callback rolls everything back, so that the provider delivers the event again. */
    method HandleWebhook(event: Id, order: Id, succeeded: bool, accepted: bool) returns (r: Result<(), Error>)
      modifies this
      ensures (payments, webhooks, r) == OnWebhook(old(payments), old(webhooks), event, order, succeeded, accepted)
    {
      if event in webhooks {
        return Ok(());
      }
      var committed, seen := payments, webhooks;
      webhooks := webhooks + {event};
      if order !in payments || payments[order].status == Target(succeeded) {
        return Ok(());
      }
      payments := payments[order := payments[order].(status := Target(succeeded))];
      payments := payments[order := payments[order].(version := payments[order].version + 1)];
      if !accepted {
        payments, webhooks := committed, seen;
        return Err(OrderCallbackFailed);
      }
      assert payments == old(payments)[order := payments[order]];
      return Ok(());
    }
  }
}
