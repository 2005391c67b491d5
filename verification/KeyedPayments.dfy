/**
 Idempotency keys in the payment service. A call looks its key up first and writes later, with calls to Order
 or the provider in between, so calls under one key may overlap; only the unique index on actor and key is left then.
 */
module KeyedPayments {
  import opened Common
  import Payments

  datatype Principal = Principal(subject: Id, admin: bool)

  /** A request's body; its SHA-256 is taken as injective. */
  datatype Request =
    | PaymentRequest(order: Id)
    | RefundRequest(payment: Id, asked: Option<int>, reason: Option<string>)

  datatype RefundRow = RefundRow(payment: Id, amount: int, reason: Option<string>)
  datatype Record = Record(request: Request, resource: Id)
  type Key = (Id, string)

  /** A payment is named after its order (unique index), a refund after its row. */
  datatype Tables = Tables(
    payments: map<Id, Payments.Payment>,
    customers: map<Id, Id>,
    refunds: seq<RefundRow>,
    records: map<Key, Record>)

  const EMPTY: Tables := Tables(map[], map[], [], map[])

  /** What Order answers about an order; None if it does not. */
  datatype Quote = Quote(total: int, currency: string, payable: bool)

  datatype Error =
    | InvalidRequest | KeyConflict | PaymentExists | OrderUnavailable | NotPayable | ProviderFailed
    | OfPayment(error: Payments.Error)

  type Reply = Result<Id, Error>

  // ---------------------------------------------------------------- the two halves of a call

  /** The checks of the header and the request schema. */
  predicate Valid(key: Option<string>, request: Request) {
    && (key.Some? ==> 8 <= |key.value| <= 100)
    && (request.RefundRequest? ==>
          && (request.asked.Some? ==> 0 < request.asked.value)
          && (request.reason.Some? ==> |request.reason.value| <= 120))
  }

  predicate Exists(t: Tables, request: Request, resource: Id) {
    if request.PaymentRequest? then resource in t.payments else resource < |t.refunds|
  }

  function LookUp(t: Tables, who: Principal, key: Option<string>, request: Request): Option<Reply> {
    if key.None? || (who.subject, key.value) !in t.records then None
    else
      var found := t.records[(who.subject, key.value)];
      if found.request != request then Some(Err(KeyConflict))
      else if Exists(t, request, found.resource) then Some(Ok(found.resource))
      else None
  }

  /** The first half; None lets the call go on. */
  function Begin(t: Tables, who: Principal, key: Option<string>, request: Request): Option<Reply> {
    if !Valid(key, request) then Some(Err(InvalidRequest))
    else if LookUp(t, who, key, request).Some? then LookUp(t, who, key, request)
    else if request.PaymentRequest? && request.order in t.payments then Some(Err(PaymentExists))
    else None
  }

  /** A payment for an order that got one meanwhile violates the unique index, one of nothing a CHECK. */
  function WritePayment(t: Tables, who: Principal, order: Id, quote: Option<Quote>, provider: bool): (Tables, Reply) {
    if quote.None? then (t, Err(OrderUnavailable))
    else if !quote.value.payable then (t, Err(NotPayable))
    else if !provider then (t, Err(ProviderFailed))
    else if order in t.payments || quote.value.total <= 0 then (t, Err(OfPayment(Payments.IntegrityError)))
    else
      var p := Payments.Payment(quote.value.total, quote.value.currency, Payments.Pending, [], 1);
      (t.(payments := t.payments[order := p], customers := t.customers[order := who.subject]), Ok(order))
  }

  /** Refunds are for the payment's customer and admins. The provider is asked before the row is written. */
  function WriteRefund(t: Tables, who: Principal, payment: Id, asked: Option<int>, reason: Option<string>, provider: bool)
    : (Tables, Reply)
  {
    if payment !in t.payments || payment !in t.customers || (t.customers[payment] != who.subject && !who.admin)
    then (t, Err(OfPayment(Payments.NotFound)))
    else
      var p := t.payments[payment];
      match Payments.Refund(p, asked)
      case Err(e) => (t, Err(if e == Payments.IntegrityError && !provider then ProviderFailed else OfPayment(e)))
      case Ok(p') =>
        if !provider then (t, Err(ProviderFailed)) else
        var amount := if asked.Some? then asked.value else p.amount - Payments.RefundedAmount(p);
        (t.(payments := t.payments[payment := p'], refunds := t.refunds + [RefundRow(payment, amount, reason)]), Ok(|t.refunds|))
  }

  function Write(t: Tables, who: Principal, request: Request, quote: Option<Quote>, provider: bool): (Tables, Reply) {
    match request
    case PaymentRequest(order) => WritePayment(t, who, order, quote, provider)
    case RefundRequest(payment, asked, reason) => WriteRefund(t, who, payment, asked, reason, provider)
  }

  /** The second half: one transaction. A record that was inserted meanwhile makes its commit fail. */
  function Finish(t: Tables, who: Principal, key: Option<string>, request: Request, quote: Option<Quote>, provider: bool)
    : (Tables, Reply)
  {
    var (t', r) := Write(t, who, request, quote, provider);
    if r.Err? || key.None? then (t', r)
    else if (who.subject, key.value) in t.records then (t, Err(OfPayment(Payments.IntegrityError)))
    else (t'.(records := t.records[(who.subject, key.value) := Record(request, r.value)]), r)
  }

  /** A call nothing comes in between of. */
  function Create(t: Tables, who: Principal, key: Option<string>, request: Request, quote: Option<Quote>, provider: bool)
    : (Tables, Reply)
  {
    match Begin(t, who, key, request)
    case Some(r) => (t, r)
    case None => Finish(t, who, key, request, quote, provider)
  }

  // ---------------------------------------------------------------- runs

  datatype Call = Call(who: Principal, key: Option<string>, request: Request, over: bool)
  datatype World = World(tables: Tables, calls: seq<Call>)

  /** Webhooks settle payments whenever they like; calls may overlap, and need never finish. */
  datatype Action =
    | BeginCall(who: Principal, key: Option<string>, request: Request)
    | FinishCall(call: nat, quote: Option<Quote>, provider: bool)
    | Settle(order: Id, succeeded: bool)

  /** What the caller is told in this step, if anything. */
  function ReplyOf(w: World, a: Action): Option<Reply> {
    match a
    case BeginCall(who, key, request) => Begin(w.tables, who, key, request)
    case FinishCall(k, quote, provider) =>
      if k >= |w.calls| || w.calls[k].over then None else
      var c := w.calls[k];
      Some(Finish(w.tables, c.who, c.key, c.request, quote, provider).1)
    case Settle(_, _) => None
  }

  function Step(w: World, a: Action): World {
    match a
    case BeginCall(who, key, request) =>
      if Begin(w.tables, who, key, request).Some? then w
      else w.(calls := w.calls + [Call(who, key, request, false)])
    case FinishCall(k, quote, provider) =>
      if k >= |w.calls| || w.calls[k].over then w else
      var c := w.calls[k];
      World(Finish(w.tables, c.who, c.key, c.request, quote, provider).0, w.calls[k := c.(over := true)])
    case Settle(order, succeeded) =>
      if order !in w.tables.payments then w else
      w.(tables := w.tables.(payments := w.tables.payments[order := Payments.Settle(w.tables.payments[order], succeeded)]))
  }

  ghost predicate IsRun(ws: seq<World>, actions: seq<Action>) {
    && |ws| == |actions| + 1
    && ws[0] == World(EMPTY, [])
    && forall n :: 0 <= n < |actions| ==> ws[n + 1] == Step(ws[n], actions[n])
  }

  /** The key and request a step is about. */
  function CallOf(w: World, a: Action): Option<Call> {
    match a
    case BeginCall(who, key, request) => Some(Call(who, key, request, false))
    case FinishCall(k, _, _) => if k < |w.calls| && !w.calls[k].over then Some(w.calls[k]) else None
    case Settle(_, _) => None
  }

  predicate UnderKey(w: World, a: Action, key: Key) {
    var c := CallOf(w, a);
    c.Some? && c.value.key.Some? && (c.value.who.subject, c.value.key.value) == key
  }

  /** The step writes under a key, and is told the resource it made. */
  predicate Makes(w: World, a: Action, key: Key, request: Request, resource: Id) {
    && a.FinishCall? && UnderKey(w, a, key) && CallOf(w, a).value.request == request
    && ReplyOf(w, a) == Some(Ok(resource))
  }

  // ---------------------------------------------------------------- the invariant

  /** The amounts of a payment's refund rows, oldest first. */
  function RefundsOf(refunds: seq<RefundRow>, payment: Id): seq<int> {
    if refunds == [] then [] else
    RefundsOf(refunds[..|refunds| - 1], payment)
      + if refunds[|refunds| - 1].payment == payment then [refunds[|refunds| - 1].amount] else []
  }

  ghost predicate PaymentOk(t: Tables, id: Id)
    requires id in t.payments
  {
    var p := t.payments[id];
    && 0 < p.amount && id in t.customers
    && p.refunds == RefundsOf(t.refunds, id)
    && (forall k :: 0 <= k < |p.refunds| ==> 0 < p.refunds[k])
    && Payments.RefundedAmount(p) <= p.amount
  }

  ghost predicate Made(t: Tables, actor: Id, r: Record) {
    match r.request
    case PaymentRequest(order) => r.resource == order && order in t.customers && t.customers[order] == actor
    case RefundRequest(payment, asked, reason) =>
      && r.resource < |t.refunds|
      && t.refunds[r.resource].payment == payment && t.refunds[r.resource].reason == reason
      && (asked.Some? ==> t.refunds[r.resource].amount == asked.value)
  }

  ghost predicate RowsOk(t: Tables) {
    && (forall id :: id in t.payments ==> PaymentOk(t, id))
    && t.customers.Keys == t.payments.Keys
    && (forall n :: 0 <= n < |t.refunds| ==> t.refunds[n].payment in t.payments)
  }

  /** Records point at what their requests made, and no two at the same refund. */
  ghost predicate RecordsOk(t: Tables) {
    && (forall key :: key in t.records ==> Made(t, key.0, t.records[key]))
    && (forall a, b :: a in t.records && b in t.records && a != b
          && t.records[a].request.RefundRequest? && t.records[b].request.RefundRequest?
          ==> t.records[a].resource != t.records[b].resource)
  }

  /** What no step takes back. */
  ghost predicate Kept(t: Tables, t': Tables) {
    && t.refunds <= t'.refunds
    && (forall id :: id in t.customers ==> id in t'.customers && t'.customers[id] == t.customers[id])
    && (forall key :: key in t.records ==> key in t'.records && t'.records[key] == t.records[key])
    && (forall id :: id in t.payments ==> id in t'.payments && t'.payments[id].amount == t.payments[id].amount
                                          && t'.payments[id].currency == t.payments[id].currency)
  }

  ghost predicate TablesOk(t: Tables) {
    RowsOk(t) && RecordsOk(t)
  }

  lemma MadeStays(t: Tables, t': Tables, actor: Id, r: Record)
    requires Made(t, actor, r) && Kept(t, t')
    ensures Made(t', actor, r)
  {
  }

  lemma OtherRefunds(refunds: seq<RefundRow>, row: RefundRow, id: Id)
    ensures RefundsOf(refunds + [row], id) == RefundsOf(refunds, id) + if row.payment == id then [row.amount] else []
  {
    assert (refunds + [row])[..|refunds|] == refunds;
  }

  lemma {:induction false} NoRefunds(refunds: seq<RefundRow>, id: Id)
    requires forall n :: 0 <= n < |refunds| ==> refunds[n].payment != id
    ensures RefundsOf(refunds, id) == []
  {
    if refunds == [] {
    } else {
      NoRefunds(refunds[..|refunds| - 1], id);
    }
  }

  lemma WritePaymentKeeps(t: Tables, who: Principal, order: Id, quote: Option<Quote>, provider: bool)
    requires RowsOk(t) && WritePayment(t, who, order, quote, provider).1.Ok?
    ensures var (t', r) := WritePayment(t, who, order, quote, provider);
            && RowsOk(t') && Kept(t, t') && t'.records == t.records
            && r.value == order && Made(t', who.subject, Record(PaymentRequest(order), r.value))
  {
    var t' := WritePayment(t, who, order, quote, provider).0;
    NoRefunds(t.refunds, order);
    hide RefundsOf, Payments.RefundedAmount;
    forall id | id in t'.payments ensures PaymentOk(t', id) {
      if id == order {
        assert Payments.RefundedAmount(t'.payments[id]) == 0 by { NothingRefunded(t'.payments[id]); }
      } else {
        assert PaymentOk(t, id);
        SamePayment(t, t', id);
      }
    }
    hide PaymentOk;
  }

  lemma NothingRefunded(p: Payments.Payment)
    requires p.refunds == []
    ensures Payments.RefundedAmount(p) == 0
  {
  }

  lemma WriteRefundKeeps(t: Tables, who: Principal, payment: Id, asked: Option<int>, reason: Option<string>, provider: bool)
    requires RowsOk(t) && WriteRefund(t, who, payment, asked, reason, provider).1.Ok?
    ensures var (t', r) := WriteRefund(t, who, payment, asked, reason, provider);
            && RowsOk(t') && Kept(t, t') && t'.records == t.records
            && r.value == |t.refunds| && Made(t', who.subject, Record(RefundRequest(payment, asked, reason), r.value))
  {
    Payments.RefundAdds(t.payments[payment], asked);
    hide RowsOk, Kept, Payments.Refund, Payments.RefundedAmount;
    var t' := WriteRefund(t, who, payment, asked, reason, provider).0;
    RowAdded(t, t', t'.refunds[|t.refunds|]);
  }

  /** A refund row is added, with its amount in its payment. */
  lemma RowAdded(t: Tables, t': Tables, row: RefundRow)
    requires RowsOk(t) && row.payment in t.payments && row.payment in t'.payments
    requires t' == t.(payments := t.payments[row.payment := t'.payments[row.payment]], refunds := t.refunds + [row])
    requires var p, p' := t.payments[row.payment], t'.payments[row.payment];
             && p'.amount == p.amount && p'.currency == p.currency && p'.refunds == p.refunds + [row.amount] && 0 < row.amount
             && Payments.RefundedAmount(p') == Payments.RefundedAmount(p) + row.amount <= p.amount
    ensures RowsOk(t') && Kept(t, t')
  {
    hide Payments.RefundedAmount;
    forall id | id in t'.payments ensures PaymentOk(t', id) {
      assert PaymentOk(t, id);
      PaymentAfterRow(t, t', row, id);
    }
  }

  lemma PaymentAfterRow(t: Tables, t': Tables, row: RefundRow, id: Id)
    requires id in t.payments && PaymentOk(t, id) && id in t'.payments && t'.customers == t.customers
    requires t'.refunds == t.refunds + [row]
    requires if id != row.payment then t'.payments[id] == t.payments[id] else
             var p, p' := t.payments[id], t'.payments[id];
             && p'.amount == p.amount && p'.refunds == p.refunds + [row.amount] && 0 < row.amount
             && Payments.RefundedAmount(p') <= p.amount
    ensures PaymentOk(t', id)
  {
    hide Payments.RefundedAmount;
    OtherRefunds(t.refunds, row, id);
  }

  lemma FailedWriteChangesNothing(t: Tables, who: Principal, request: Request, quote: Option<Quote>, provider: bool)
    ensures var (t', r) := Write(t, who, request, quote, provider); r.Err? ==> t' == t
  {
    hide Payments.Refund, Payments.RefundedAmount;
  }

  lemma Same(t: Tables)
    ensures Kept(t, t)
  {
  }

  lemma WriteKeeps(t: Tables, who: Principal, request: Request, quote: Option<Quote>, provider: bool)
    requires TablesOk(t) && Write(t, who, request, quote, provider).1.Ok?
    ensures var (t', r) := Write(t, who, request, quote, provider);
            && TablesOk(t') && Kept(t, t') && t'.records == t.records && Made(t', who.subject, Record(request, r.value))
            && (request.RefundRequest? ==> r.value == |t.refunds|)
  {
    hide RowsOk, RecordsOk, Kept, Made, WritePayment, WriteRefund;
    match request {
      case PaymentRequest(order) => WritePaymentKeeps(t, who, order, quote, provider);
      case RefundRequest(payment, asked, reason) => WriteRefundKeeps(t, who, payment, asked, reason, provider);
    }
    RecordsStay(t, Write(t, who, request, quote, provider).0);
  }

  lemma RecordsStay(t: Tables, t': Tables)
    requires RecordsOk(t) && Kept(t, t') && t'.records == t.records
    ensures RecordsOk(t')
  {
    forall key | key in t'.records ensures Made(t', key.0, t'.records[key]) {
      MadeStays(t, t', key.0, t.records[key]);
    }
    hide Made, Kept;
  }

  /** A record under a new key, of what was made since t. */
  lemma RecordAdded(t: Tables, t1: Tables, actor: Id, key: string, r: Record)
    requires TablesOk(t) && TablesOk(t1) && Kept(t, t1) && t1.records == t.records && (actor, key) !in t.records
    requires Made(t1, actor, r) && (r.request.RefundRequest? ==> r.resource == |t.refunds|)
    ensures var t2 := t1.(records := t.records[(actor, key) := r]); TablesOk(t2) && Kept(t, t2)
  {
    var t2 := t1.(records := t.records[(actor, key) := r]);
    RowsIgnoreRecords(t1, t2);
    OlderRefund(t);
    hide RowsOk, Kept;
    forall k | k in t2.records ensures Made(t2, k.0, t2.records[k]) {
      if k != (actor, key) {
        assert Made(t1, k.0, t1.records[k]);
      }
      MadeIgnoresRecords(t1, t2, k.0, t2.records[k]);
    }
    hide Made;
    KeptAndRecorded(t, t1, (actor, key), r);
  }

  lemma KeptAndRecorded(t: Tables, t1: Tables, key: Key, r: Record)
    requires Kept(t, t1) && t1.records == t.records && key !in t.records
    ensures Kept(t, t1.(records := t.records[key := r]))
  {
  }

  lemma OlderRefund(t: Tables)
    requires RecordsOk(t)
    ensures forall key :: key in t.records && t.records[key].request.RefundRequest? ==> t.records[key].resource < |t.refunds|
  {
    forall key | key in t.records && t.records[key].request.RefundRequest? ensures t.records[key].resource < |t.refunds| {
      assert Made(t, key.0, t.records[key]);
    }
  }

  lemma MadeIgnoresRecords(t: Tables, t': Tables, actor: Id, r: Record)
    requires Made(t, actor, r) && t' == t.(records := t'.records)
    ensures Made(t', actor, r)
  {
  }

  lemma RowsIgnoreRecords(t: Tables, t': Tables)
    requires RowsOk(t) && t' == t.(records := t'.records)
    ensures RowsOk(t')
  {
    forall id | id in t'.payments ensures PaymentOk(t', id) {
      assert PaymentOk(t, id);
    }
  }

  /** Finishing keeps the invariant and takes nothing back; an error changes nothing, and a key that is taken is an error. */
  lemma FinishKeeps(t: Tables, who: Principal, key: Option<string>, request: Request, quote: Option<Quote>, provider: bool)
    requires TablesOk(t)
    ensures var (t', r) := Finish(t, who, key, request, quote, provider);
            && TablesOk(t') && Kept(t, t') && (r.Err? ==> t' == t)
            && (key.Some? && (who.subject, key.value) in t.records ==> r.Err?)
            && (r.Ok? && key.Some? ==>
                  (who.subject, key.value) in t'.records && t'.records[(who.subject, key.value)] == Record(request, r.value))
  {
    FailedWriteChangesNothing(t, who, request, quote, provider);
    Same(t);
    hide TablesOk, Kept, Write, WritePayment, WriteRefund;
    if Write(t, who, request, quote, provider).1.Ok? {
      WriteKeeps(t, who, request, quote, provider);
      if key.Some? && (who.subject, key.value) !in t.records {
        RecordAdded(t, Write(t, who, request, quote, provider).0, who.subject, key.value, Record(request, Write(t, who, request, quote, provider).1.value));
      }
    }
  }

  // ---------------------------------------------------------------- what holds over every run

  lemma SettleKeeps(t: Tables, order: Id, succeeded: bool)
    requires TablesOk(t) && order in t.payments
    ensures var t' := t.(payments := t.payments[order := Payments.Settle(t.payments[order], succeeded)]);
            TablesOk(t') && Kept(t, t')
  {
    var p := Payments.Settle(t.payments[order], succeeded);
    assert p.refunds == t.payments[order].refunds && p.amount == t.payments[order].amount && p.currency == t.payments[order].currency;
    hide RecordsOk, Payments.Settle;
    var t' := t.(payments := t.payments[order := p]);
    forall id | id in t'.payments ensures PaymentOk(t', id) {
      assert PaymentOk(t, id);
      SamePayment(t, t', id);
    }
    hide PaymentOk;
    assert Kept(t, t');
    hide RowsOk, Kept;
    RecordsStay(t, t');
  }

  lemma SamePayment(t: Tables, t': Tables, id: Id)
    requires id in t.payments && PaymentOk(t, id) && id in t'.payments && t'.refunds == t.refunds && id in t'.customers
    requires t'.payments[id].refunds == t.payments[id].refunds && t'.payments[id].amount == t.payments[id].amount
    ensures PaymentOk(t', id)
  {
    hide RefundsOf;
  }

  lemma StepKeeps(w: World, a: Action)
    requires TablesOk(w.tables)
    ensures TablesOk(Step(w, a).tables) && Kept(w.tables, Step(w, a).tables)
  {
    hide TablesOk, Kept, Finish, Begin;
    Same(w.tables);
    if a.FinishCall? && a.call < |w.calls| {
      var c := w.calls[a.call];
      FinishKeeps(w.tables, c.who, c.key, c.request, a.quote, a.provider);
    }
    if a.Settle? && a.order in w.tables.payments {
      SettleKeeps(w.tables, a.order, a.succeeded);
    }
  }

  lemma KeptTransitive(a: Tables, b: Tables, c: Tables)
    requires Kept(a, b) && Kept(b, c)
    ensures Kept(a, c)
  {
  }

  lemma {:induction false} RunOk(ws: seq<World>, actions: seq<Action>, n: nat)
    requires IsRun(ws, actions) && n < |ws|
    ensures TablesOk(ws[n].tables)
  {
    if n == 0 {
    } else {
      hide TablesOk, Step;
      RunOk(ws, actions, n - 1);
      StepKeeps(ws[n - 1], actions[n - 1]);
    }
  }

  lemma {:induction false} RunKept(ws: seq<World>, actions: seq<Action>, m: nat, n: nat)
    requires IsRun(ws, actions) && m <= n < |ws|
    ensures Kept(ws[m].tables, ws[n].tables)
    decreases n
  {
    hide TablesOk, Step, Kept;
    if m == n {
      Same(ws[m].tables);
    } else {
      RunKept(ws, actions, m, n - 1);
      RunOk(ws, actions, n - 1);
      StepKeeps(ws[n - 1], actions[n - 1]);
      KeptTransitive(ws[m].tables, ws[n - 1].tables, ws[n].tables);
    }
  }

  /** Whatever calls and webhooks do: a payment's refunds are its refund rows, each once, all positive, and together
      never more than was paid. */
  lemma RefundRowsConserved(ws: seq<World>, actions: seq<Action>, n: nat, id: Id)
    requires IsRun(ws, actions) && n < |ws| && id in ws[n].tables.payments
    ensures var t, p := ws[n].tables, ws[n].tables.payments[id];
            && p.refunds == RefundsOf(t.refunds, id)
            && 0 <= Sum(RefundsOf(t.refunds, id)) <= p.amount
  {
    RunOk(ws, actions, n);
    hide IsRun, RecordsOk;
    assert PaymentOk(ws[n].tables, id);
    Payments.SumNonNegative(ws[n].tables.payments[id].refunds);
  }

  /** A step that makes something under a key records it. */
  lemma MakingRecords(w: World, a: Action, key: Key, request: Request, resource: Id)
    requires TablesOk(w.tables) && Makes(w, a, key, request, resource)
    ensures var t' := Step(w, a).tables; key in t'.records && t'.records[key] == Record(request, resource)
  {
    hide TablesOk, Finish;
    var c := w.calls[a.call];
    FinishKeeps(w.tables, c.who, c.key, c.request, a.quote, a.provider);
  }

  /** Under a recorded key nothing is written, and the same request is answered with what it made. */
  lemma RecordedKey(w: World, a: Action, key: Key)
    requires TablesOk(w.tables) && key in w.tables.records && UnderKey(w, a, key)
    ensures Step(w, a).tables == w.tables
    ensures a.FinishCall? ==> ReplyOf(w, a).value.Err?
    ensures var r := w.tables.records[key];
            a.BeginCall? && Valid(a.key, a.request) ==>
              ReplyOf(w, a) == Some(if a.request == r.request then Ok(r.resource) else Err(KeyConflict))
  {
    if a.FinishCall? {
      hide TablesOk, Finish;
      var c := w.calls[a.call];
      FinishKeeps(w.tables, c.who, c.key, c.request, a.quote, a.provider);
    } else {
      assert Made(w.tables, key.0, w.tables.records[key]);
    }
  }

  /**
   Over every run, a key takes effect at most once: after a call under it has made a payment or a refund, no step of any
   call under that key writes anything. A later call with the same request is answered with what was made, one
   with another request is refused, and one that had overlapped the first fails.
   */
  lemma KeyTakesEffectOnce(ws: seq<World>, actions: seq<Action>, m: nat, n: nat, key: Key, request: Request, resource: Id)
    requires IsRun(ws, actions) && m < n < |actions|
    requires Makes(ws[m], actions[m], key, request, resource) && UnderKey(ws[n], actions[n], key)
    ensures ws[n + 1].tables == ws[n].tables
    ensures actions[n].FinishCall? ==> ReplyOf(ws[n], actions[n]).value.Err?
    ensures actions[n].BeginCall? && Valid(actions[n].key, actions[n].request) ==>
              ReplyOf(ws[n], actions[n]) == Some(if actions[n].request == request then Ok(resource) else Err(KeyConflict))
  {
    hide TablesOk, Step, Makes, UnderKey, ReplyOf, Valid;
    RunOk(ws, actions, m);
    MakingRecords(ws[m], actions[m], key, request, resource);
    RunKept(ws, actions, m + 1, n);
    RunOk(ws, actions, n);
    RecordedKey(ws[n], actions[n], key);
  }

  /** What a key's call made stays: a payment with its customer and amount, a refund with its amount and reason. */
  lemma MadeOnceStays(ws: seq<World>, actions: seq<Action>, m: nat, n: nat, key: Key, request: Request, resource: Id)
    requires IsRun(ws, actions) && m < n < |ws| && m < |actions| && Makes(ws[m], actions[m], key, request, resource)
    ensures Made(ws[n].tables, key.0, Record(request, resource)) && Exists(ws[n].tables, request, resource)
    ensures request.RefundRequest? ==>
              resource < |ws[m + 1].tables.refunds| && ws[n].tables.refunds[resource] == ws[m + 1].tables.refunds[resource]
  {
    hide Step, Makes, UnderKey, ReplyOf;
    RunOk(ws, actions, m);
    MakingRecords(ws[m], actions[m], key, request, resource);
    RunOk(ws, actions, m + 1);
    assert Made(ws[m + 1].tables, key.0, Record(request, resource));
    RunKept(ws, actions, m + 1, n);
    RunOk(ws, actions, n);
    MadeStays(ws[m + 1].tables, ws[n].tables, key.0, Record(request, resource));
  }

  /** Without a key, repeating a refund refunds again, exactly when an amount was named and fits twice. */
  lemma UnkeyedRepeatsIff(t: Tables, who: Principal, payment: Id, asked: Option<int>, reason: Option<string>)
    requires payment in t.payments && Create(t, who, None, RefundRequest(payment, asked, reason), None, true).1.Ok?
    ensures var t' := Create(t, who, None, RefundRequest(payment, asked, reason), None, true).0;
            var p := t.payments[payment];
            Create(t', who, None, RefundRequest(payment, asked, reason), None, true).1.Ok?
            <==> asked.Some? && 2 * asked.value <= p.amount - Payments.RefundedAmount(p)
  {
    UnkeyedRefund(t, who, payment, asked, reason);
    RepeatIff(t.payments[payment], asked);
    hide Create, Payments.Refund, Payments.RefundedAmount;
    UnkeyedRefund(Create(t, who, None, RefundRequest(payment, asked, reason), None, true).0, who, payment, asked, reason);
  }

  lemma UnkeyedRefund(t: Tables, who: Principal, payment: Id, asked: Option<int>, reason: Option<string>)
    requires payment in t.payments
    ensures var (t', r) := Create(t, who, None, RefundRequest(payment, asked, reason), None, true);
            && (r.Ok? <==> && Valid(None, RefundRequest(payment, asked, reason))
                           && payment in t.customers && (t.customers[payment] == who.subject || who.admin)
                           && Payments.Refund(t.payments[payment], asked).Ok?)
            && (r.Ok? ==> t'.customers == t.customers
                          && t'.payments == t.payments[payment := Payments.Refund(t.payments[payment], asked).value])
  {
    hide Payments.Refund, Payments.RefundedAmount;
  }

  lemma RepeatIff(p: Payments.Payment, asked: Option<int>)
    requires Payments.Refund(p, asked).Ok?
    ensures Payments.Refund(Payments.Refund(p, asked).value, asked).Ok?
            <==> asked.Some? && 2 * asked.value <= p.amount - Payments.RefundedAmount(p)
  {
    Payments.RefundAdds(p, asked);
    hide Payments.RefundedAmount;
  }

  // ---------------------------------------------------------------- what a call answers and writes

  /** A key header's length and a refund's fields, as the schemas ask. */
  predicate Accepted(key: Option<string>, asked: Option<int>, reason: Option<string>) {
    && (key == None || 8 <= |key.value| <= 100)
    && (asked == None || asked.value > 0)
    && (reason == None || |reason.value| <= 120)
  }

  /** Has this caller used the key for this very request? */
  predicate Replays(t: Tables, who: Principal, key: Option<string>, request: Request) {
    key.Some? && (who.subject, key.value) in t.records && t.records[(who.subject, key.value)].request == request
  }

  predicate Unused(t: Tables, who: Principal, key: Option<string>) {
    key.Some? ==> (who.subject, key.value) !in t.records
  }

  /** What is remembered under a key. */
  function Recorded(t: Tables, who: Principal, key: Option<string>, request: Request, resource: Id): map<Key, Record> {
    if key.None? then t.records else t.records[(who.subject, key.value) := Record(request, resource)]
  }

  /**
   A payment is made exactly for an order without one that is quoted as payable with a positive total, if the provider
   answers and the key, if any, is unused. It charges what was quoted, is PENDING with nothing refunded, and belongs to the
   caller. A replay is answered with the order's payment, and whatever is not Ok changes nothing.
   */
  lemma PaymentIsAnswered(t: Tables, who: Principal, key: Option<string>, order: Id, quote: Option<Quote>, provider: bool)
    requires TablesOk(t)
    ensures var request := PaymentRequest(order);
            var (t', r) := Create(t, who, key, request, quote, provider);
            var made := && Accepted(key, None, None) && Unused(t, who, key) && order !in t.payments
                        && quote.Some? && quote.value.payable && 0 < quote.value.total && provider;
            && (r.Ok? <==> made || (Accepted(key, None, None) && Replays(t, who, key, request)))
            && (r.Ok? ==> r.value == order)
            && t' == if made
                     then Tables(t.payments[order := Payments.Payment(quote.value.total, quote.value.currency, Payments.Pending, [], 1)],
                                 t.customers[order := who.subject], t.refunds, Recorded(t, who, key, request, order))
                     else t
  {
    LookUpMeans(t, who, key, PaymentRequest(order));
    if Replays(t, who, key, PaymentRequest(order)) {
      assert Made(t, who.subject, t.records[(who.subject, key.value)]);
    }
    hide LookUp, TablesOk;
  }

  /**
   A refund is made exactly of a payment of the caller, or any for an admin, that was paid and still has what is asked for
   (all the rest, if no amount is named), if the provider answers and the key, if any, is unused. A replay is answered with
   the refund it made, and whatever is not Ok changes nothing.
   */
  lemma RefundIsAnswered(t: Tables, who: Principal, key: Option<string>, payment: Id, asked: Option<int>, reason: Option<string>,
                         provider: bool)
    requires TablesOk(t)
    ensures var request := RefundRequest(payment, asked, reason);
            var (t', r) := Create(t, who, key, request, None, provider);
            var made := && Accepted(key, asked, reason) && Unused(t, who, key) && payment in t.payments && payment in t.customers
                        && (t.customers[payment] == who.subject || who.admin) && provider
                        && RefundFits(t.payments[payment], asked);
            && (r.Ok? <==> made || (Accepted(key, asked, reason) && Replays(t, who, key, request)))
            && t' == if made
                     then Tables(t.payments[payment := WithRefund(t.payments[payment], asked)], t.customers,
                                 t.refunds + [RefundRow(payment, Asked(t.payments[payment], asked), reason)],
                                 Recorded(t, who, key, request, |t.refunds|))
                     else t
  {
    LookUpMeans(t, who, key, RefundRequest(payment, asked, reason));
    hide LookUp, TablesOk;
    if payment in t.payments {
      RefundMeans(t.payments[payment], asked);
    }
    hide Payments.Refund, Payments.RefundedAmount, RefundFits, WithRefund;
  }

  /** What the lookup finds: nothing under an unused key, what the request made before, or another request's record. */
  lemma LookUpMeans(t: Tables, who: Principal, key: Option<string>, request: Request)
    requires TablesOk(t)
    ensures Unused(t, who, key) <==> LookUp(t, who, key, request) == None
    ensures Replays(t, who, key, request) ==>
              LookUp(t, who, key, request) == Some(Ok(t.records[(who.subject, key.value)].resource))
    ensures !Unused(t, who, key) && !Replays(t, who, key, request) ==> LookUp(t, who, key, request) == Some(Err(KeyConflict))
  {
    if !Unused(t, who, key) {
      assert Made(t, who.subject, t.records[(who.subject, key.value)]);
    }
  }

  function Asked(p: Payments.Payment, asked: Option<int>): int {
    if asked.Some? then asked.value else p.amount - Sum(p.refunds)
  }

  predicate RefundFits(p: Payments.Payment, asked: Option<int>) {
    && (p.status == Payments.Succeeded || p.status == Payments.PartiallyRefunded)
    && 0 < Asked(p, asked) && Sum(p.refunds) + Asked(p, asked) <= p.amount
  }

  /** The payment with one refund more; it is REFUNDED once the refunds come to its amount. */
  function WithRefund(p: Payments.Payment, asked: Option<int>): Payments.Payment {
    p.(refunds := p.refunds + [Asked(p, asked)], version := p.version + 1,
       status := if Sum(p.refunds) + Asked(p, asked) == p.amount then Payments.Refunded else Payments.PartiallyRefunded)
  }

  lemma RefundMeans(p: Payments.Payment, asked: Option<int>)
    ensures Payments.Refund(p, asked).Ok? <==> RefundFits(p, asked)
    ensures RefundFits(p, asked) ==> Payments.Refund(p, asked).value == WithRefund(p, asked)
  {
    hide Sum;
  }

  /** Over every run: where a payment turns up, a call for its order was carried through; it is the only new row, it
      charges what Order quoted for the order, and it is the caller's. */
  lemma PaymentTurnsUp(ws: seq<World>, actions: seq<Action>, n: nat, order: Id)
    requires IsRun(ws, actions) && n < |actions|
    requires order !in ws[n].tables.payments && order in ws[n + 1].tables.payments
    ensures var w, w', a := ws[n], ws[n + 1], actions[n];
            && a.FinishCall? && a.provider && a.call < |w.calls| && !w.calls[a.call].over
            && w.calls[a.call].request == PaymentRequest(order) && Unused(w.tables, w.calls[a.call].who, w.calls[a.call].key)
            && a.quote.Some? && a.quote.value.payable && 0 < a.quote.value.total
            && w'.tables.payments
               == w.tables.payments[order := Payments.Payment(a.quote.value.total, a.quote.value.currency, Payments.Pending, [], 1)]
            && w'.tables.customers == w.tables.customers[order := w.calls[a.call].who.subject]
            && w'.tables.refunds == w.tables.refunds
  {
    hide Payments.Refund, Payments.RefundedAmount, Payments.Settle;
  }

  /** Over every run: a call for a payment that passed the lookup is told Ok exactly if it writes one. */
  lemma PaymentFinishesIff(ws: seq<World>, actions: seq<Action>, n: nat, k: nat, order: Id, quote: Option<Quote>, provider: bool)
    requires IsRun(ws, actions) && n < |ws| && k < |ws[n].calls| && !ws[n].calls[k].over
    requires ws[n].calls[k].request == PaymentRequest(order)
    ensures var w, c, a := ws[n], ws[n].calls[k], FinishCall(k, quote, provider);
            && (ReplyOf(w, a) == Some(Ok(order))
                <==> && order !in w.tables.payments && Unused(w.tables, c.who, c.key)
                     && quote.Some? && quote.value.payable && 0 < quote.value.total && provider)
            && (ReplyOf(w, a) != Some(Ok(order)) ==> Step(w, a).tables == w.tables)
  {
    hide IsRun;
  }

  // ---------------------------------------------------------------- the service

  /** The rows in place. Each call is carried through on its own; an error rolls it back. */
  class KeyedPaymentService {
    const rows: Payments.PaymentService
    var customers: map<Id, Id>
    var refunds: seq<RefundRow>
    var records: map<Key, Record>

    constructor ()
      ensures fresh(rows) && Contents() == EMPTY
    {
      rows := new Payments.PaymentService();
      customers, refunds, records := map[], [], map[];
    }

    function Contents(): Tables
      reads this, rows
    {
      Tables(rows.payments, customers, refunds, records)
    }

    method Remember(actor: Id, key: Option<string>, request: Request, resource: Id) returns (inserted: bool)
      modifies this`records
      ensures inserted == (key.None? || (actor, key.value) !in old(records))
      ensures records == if inserted && key.Some? then old(records)[(actor, key.value) := Record(request, resource)] else old(records)
    {
      if key.None? {
        return true;
      }
      if (actor, key.value) in records {
        return false;
      }
      records := records[(actor, key.value) := Record(request, resource)];
      return true;
    }

    method FindRecord(who: Principal, key: Option<string>, request: Request) returns (r: Option<Reply>)
      ensures r == LookUp(Contents(), who, key, request)
    {
      if key.Some? && (who.subject, key.value) in records {
        var found := records[(who.subject, key.value)];
        if found.request != request {
          return Some(Err(KeyConflict));
        }
        if Exists(Contents(), request, found.resource) {
          return Some(Ok(found.resource));
        }
      }
      return None;
    }

    method CreatePayment(who: Principal, key: Option<string>, order: Id, quote: Option<Quote>, provider: bool) returns (r: Reply)
      modifies this, rows`payments
      ensures (Contents(), r) == Create(old(Contents()), who, key, PaymentRequest(order), quote, provider)
    {
      if !Valid(key, PaymentRequest(order)) {
        return Err(InvalidRequest);
      }
      var found := FindRecord(who, key, PaymentRequest(order));
      if found.Some? {
        return found.value;
      }
      if order in rows.payments {
        return Err(PaymentExists);
      }
      if quote.None? {
        return Err(OrderUnavailable);
      }
      if !quote.value.payable {
        return Err(NotPayable);
      }
      if !provider {
        return Err(ProviderFailed);
      }
      if quote.value.total <= 0 {
        return Err(OfPayment(Payments.IntegrityError));
      }
      var committed, owners := rows.payments, customers;
      rows.payments := rows.payments[order := Payments.Payment(quote.value.total, quote.value.currency, Payments.Pending, [], 1)];
      customers := customers[order := who.subject];
      var inserted := Remember(who.subject, key, PaymentRequest(order), order);
      if !inserted {
        rows.payments, customers := committed, owners;
        return Err(OfPayment(Payments.IntegrityError));
      }
      return Ok(order);
    }

    method CreateRefund(who: Principal, key: Option<string>, payment: Id, asked: Option<int>, reason: Option<string>, provider: bool)
      returns (r: Reply)
      modifies this, rows`payments
      ensures (Contents(), r) == Create(old(Contents()), who, key, RefundRequest(payment, asked, reason), None, provider)
    {
      hide Payments.Refund, Payments.RefundedAmount, LookUp, Valid;
      var request := RefundRequest(payment, asked, reason);
      if !Valid(key, request) {
        return Err(InvalidRequest);
      }
      var found := FindRecord(who, key, request);
      if found.Some? {
        return found.value;
      }
      if payment !in rows.payments || payment !in customers || (customers[payment] != who.subject && !who.admin) {
        return Err(OfPayment(Payments.NotFound));
      }
      var committed, earlier := rows.payments, refunds;
      var previously := Payments.RefundedAmount(committed[payment]);
      var refunded := rows.CreateRefund(payment, asked);
      if refunded.Err? {
        return Err(if refunded.error == Payments.IntegrityError && !provider then ProviderFailed else OfPayment(refunded.error));
      }
      if !provider {
        rows.payments := committed;
        return Err(ProviderFailed);
      }
      Payments.RefundAdds(committed[payment], asked);
      refunds := refunds + [RefundRow(payment, refunded.value - previously, reason)];
      var inserted := Remember(who.subject, key, request, |earlier|);
      if !inserted {
        rows.payments, refunds := committed, earlier;
        return Err(OfPayment(Payments.IntegrityError));
      }
      return Ok(|earlier|);
    }
  }
}
