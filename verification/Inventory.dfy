/**
 The tables of the inventory service and what each of its operations does to them.

 A table is a value here; `InventoryService` keeps the four tables as fields and is proved to
 change them exactly as these functions say. An operation that raises an error leaves the tables
 alone (the transaction rolls back), except for the two "expired at commit" paths, which commit
 the expiry and then raise.
 */
module Inventory {
  import opened Common

  datatype Status = Active | Committed | Released | Expired

  datatype Item = Item(
    seller: Id,
    sku: string,
    warehouse: Id,
    onHand: int,
    reserved: int,
    threshold: int,
    isActive: bool,
    version: nat)
  {
    function Available(): int {
      onHand - reserved
    }

    /** The CHECK constraints of the row. */
    predicate Checks() {
      0 <= reserved <= onHand
    }
  }

  datatype Reservation = Reservation(
    item: Id,
    customer: Id,
    cartRef: Option<string>,
    orderRef: Option<string>,
    group: Option<Id>,
    quantity: int,
    status: Status,
    expiresAt: int,
    resolvedAt: Option<int>,
    version: nat)

  datatype MovementType = Receipt | Adjustment | Reserve | Release | Commitment

  datatype Reason =
    | PurchaseReceipt | CycleCount | Damage | CustomerOrder | ReservationExpired
    | CustomerCancelled | CustomerReturn | AdminCorrection

  datatype Reference =
    | NoRef
    | ItemRef(item: Id)
    | RowRef(row: nat)
    | GroupRef(group: Id)
    | OrderRef(order: string)
    | CallerRef(text: string)

  /** A row of the append-only stock ledger. */
  datatype Movement = Movement(
    item: Id,
    kind: MovementType,
    reason: Reason,
    onHandDelta: int,
    reservedDelta: int,
    resultingOnHand: int,
    resultingReserved: int,
    reference: Reference)

  datatype CatalogSku = CatalogSku(product: Id, seller: Id, sku: string, isActive: bool)

  datatype CreateItemData = CreateItemData(
    warehouse: Id, product: Id, variant: Id, sku: string, initial: int, threshold: int, isActive: bool)
  datatype AdjustData = AdjustData(delta: int, reason: Reason, reference: Reference)
  datatype ReserveData = ReserveData(item: Id, quantity: int, cartRef: Option<string>, expiresAt: Option<int>)
  datatype Line = Line(seller: Id, sku: string, quantity: int)
  datatype BatchData = BatchData(
    customer: Id, cartRef: Option<string>, orderRef: Option<string>, expiresAt: Option<int>, lines: seq<Line>)

  /** What an idempotency record remembers of a request; the SHA-256 of the body, taken as injective. */
  datatype Request =
    | CreateItemRequest(create: CreateItemData)
    | AdjustRequest(item: Id, adjust: AdjustData, expectedVersion: int)
    | ReserveRequest(reserve: ReserveData)
    | BatchRequest(batch: BatchData)

  datatype Key = Key(actor: Id, text: string)
  datatype Record = Record(request: Request, resource: Id)

  datatype Tables = Tables(
    items: map<Id, Item>,
    reservations: seq<Reservation>,
    ledger: seq<Movement>,
    records: map<Key, Record>)

  const EMPTY: Tables := Tables(map[], [], [], map[])

  datatype Principal = Principal(subject: Id, admin: bool, seller: bool, commitScope: bool)

  datatype Settings = Settings(defaultSeconds: nat, maxSeconds: nat)

  datatype Error =
    | InvalidRequest | IdempotencyConflict | InvalidWarehouse | InvalidCatalogSku | CatalogSkuForbidden
    | IntegrityError | ItemNotFound | InventoryForbidden | VersionConflict | InsufficientUnreservedStock
    | InsufficientStock | InvalidExpiration | InvalidSku | GroupNotFound | ReservationForbidden
    | GroupNotActive | ReservationExpired | ReservationNotFound | ReservationNotActive | ItemMissing

  // ---------------------------------------------------------------- guards

  /** Is the record under this key one of this very request? */
  function Lookup(t: Tables, actor: Id, key: Option<string>, request: Request): Result<Option<Record>, Error> {
    if key.None? || Key(actor, key.value) !in t.records then Ok(None)
    else if t.records[Key(actor, key.value)].request != request then Err(IdempotencyConflict)
    else Ok(Some(t.records[Key(actor, key.value)]))
  }

  function Remember(t: Tables, actor: Id, key: Option<string>, request: Request, resource: Id): Tables {
    if key.None? then t else t.(records := t.records[Key(actor, key.value) := Record(request, resource)])
  }

  /** Who may resolve reservations of a customer. */
  predicate MayResolve(p: Principal, customer: Id) {
    p.admin || p.seller || p.commitScope || p.subject == customer
  }

  function Expiry(s: Settings, asked: Option<int>, now: int): Result<int, Error> {
    var at := if asked.Some? then asked.value else now + s.defaultSeconds;
    if at <= now || at > now + s.maxSeconds then Err(InvalidExpiration) else Ok(at)
  }

  // ---------------------------------------------------------------- single-row steps

  /** Change the counters of one item and write the ledger row that says so. */
  function Move(t: Tables, i: Id, onHandDelta: int, reservedDelta: int,
                kind: MovementType, reason: Reason, reference: Reference): Tables
    requires i in t.items
  {
    var item := t.items[i].(onHand := t.items[i].onHand + onHandDelta,
                            reserved := t.items[i].reserved + reservedDelta,
                            version := t.items[i].version + 1);
    t.(items := t.items[i := item],
       ledger := t.ledger + [Movement(i, kind, reason, onHandDelta, reservedDelta,
                                      item.onHand, item.reserved, reference)])
  }

  /** Insert an ACTIVE reservation and reserve its quantity. */
  function ReserveRow(t: Tables, r: Reservation, reference: Reference): Tables
    requires r.item in t.items
  {
    Move(t.(reservations := t.reservations + [r]), r.item, 0, r.quantity, Reserve, CustomerOrder, reference)
  }

  /** Give the quantity of row k back: RELEASED or EXPIRED. */
  function ResolveRow(t: Tables, k: nat, target: Status, reason: Reason, now: int): Tables
    requires k < |t.reservations| && t.reservations[k].item in t.items
  {
    var r := t.reservations[k];
    var r' := r.(status := target, resolvedAt := Some(now), version := r.version + 1);
    Move(t.(reservations := t.reservations[k := r']), r.item, 0, -r.quantity, Release, reason, RowRef(k))
  }

  /** Ship the quantity of row k: it leaves both counters. */
  function CommitRow(t: Tables, k: nat, orderRef: Option<string>, now: int, reference: Reference): Tables
    requires k < |t.reservations| && t.reservations[k].item in t.items
  {
    var r := t.reservations[k];
    var r' := r.(status := Committed, orderRef := orderRef, resolvedAt := Some(now), version := r.version + 1);
    Move(t.(reservations := t.reservations[k := r']), r.item, -r.quantity, -r.quantity,
         Commitment, CustomerOrder, reference)
  }

  /** A flushed ResolveRow: the CHECK constraints may reject it. */
  function TryResolve(t: Tables, k: nat, target: Status, reason: Reason, now: int): Result<Tables, Error>
    requires k < |t.reservations|
  {
    var r := t.reservations[k];
    if r.item !in t.items then Err(ItemMissing) else
    var t' := ResolveRow(t, k, target, reason, now);
    if t'.items[r.item].Checks() && r.quantity != 0 then Ok(t') else Err(IntegrityError)
  }

  function TryCommit(t: Tables, k: nat, orderRef: Option<string>, now: int, reference: Reference): Result<Tables, Error>
    requires k < |t.reservations|
  {
    var r := t.reservations[k];
    if r.item !in t.items then Err(ItemMissing) else
    var t' := CommitRow(t, k, orderRef, now, reference);
    if t'.items[r.item].Checks() && r.quantity != 0 then Ok(t') else Err(IntegrityError)
  }

  // ---------------------------------------------------------------- queries

  predicate InRange(rows: seq<nat>, n: nat) {
    forall j :: 0 <= j < |rows| ==> rows[j] < n
  }

  /** The rows of a group, in id order. */
  function GroupRows(rs: seq<Reservation>, g: Id): (rows: seq<nat>)
    ensures Ascending(rows) && Distinct(rows) && InRange(rows, |rs|)
    ensures forall k: nat :: k in rows <==> k < |rs| && rs[k].group == Some(g)
  {
    if rs == [] then [] else
    var n := |rs| - 1;
    var earlier := GroupRows(rs[..n], g);
    if rs[n].group == Some(g) then earlier + [n] else earlier
  }

  predicate IsDue(r: Reservation, now: int) {
    r.status == Active && r.expiresAt <= now
  }

  /** The rows `list_expired_active` selects before its ORDER BY and LIMIT. */
  function Due(rs: seq<Reservation>, now: int): set<nat> {
    set k: nat | k < |rs| && IsDue(rs[k], now)
  }

  /** A possible answer of `list_expired_active` while other transactions hold the rows in `locked`:
      due rows nobody holds, earliest first, as many as the limit allows, none of them later than
      such a row left out. Ties are the database's to break. */
  ghost predicate IsFetch(rs: seq<Reservation>, now: int, limit: nat, locked: set<nat>, rows: seq<nat>) {
    var free := Due(rs, now) - locked;
    && Distinct(rows)
    && InRange(rows, |rs|)
    && (forall k :: 0 <= k < |rows| ==> rows[k] in free)
    && |rows| == Min(limit, |free|)
    && (forall j, k :: 0 <= j < k < |rows| ==> rs[rows[j]].expiresAt <= rs[rows[k]].expiresAt)
    && (forall j, k :: 0 <= j < |rows| && k in free && k !in rows ==> rs[rows[j]].expiresAt <= rs[k].expiresAt)
  }

  /** A possible answer, whatever rows others hold at that moment. */
  ghost predicate CanFetch(rs: seq<Reservation>, now: int, limit: nat, rows: seq<nat>) {
    exists locked :: IsFetch(rs, now, limit, locked, rows)
  }

  /** `get_items_for_reservation` for one pair: its active rows in id order. */
  function Candidates(items: map<Id, Item>, seller: Id, sku: string): (ids: seq<Id>)
    ensures Ascending(ids) && Distinct(ids)
    ensures forall i :: i in ids <==>
              i in items && items[i].seller == seller && items[i].sku == sku && items[i].isActive
  {
    SortedIds(set i | i in items && items[i].seller == seller && items[i].sku == sku && items[i].isActive)
  }

  function Availabilities(items: map<Id, Item>, ids: seq<Id>): (a: seq<int>)
    requires forall i :: i in ids ==> i in items
    ensures |a| == |ids|
  {
    seq(|ids|, j requires 0 <= j < |ids| => items[ids[j]].Available())
  }

  // ---------------------------------------------------------------- allocation of a batch

  datatype Take = Take(item: Id, quantity: int)

  /** What rows before j can give. */
  function GivenBefore(a: seq<int>, j: nat): int
    requires j <= |a|
  {
    if j == 0 then 0 else GivenBefore(a, j - 1) + Max(0, a[j - 1])
  }

  /** The share of row j in a line of `quantity` over rows with availabilities `a`. */
  function Share(a: seq<int>, quantity: int, j: nat): int
    requires j < |a|
  {
    Clamp(quantity - GivenBefore(a, j), 0, Max(0, a[j]))
  }

  /** The shares of the first n rows, leaving out those that give nothing. */
  function Takes(ids: seq<Id>, a: seq<int>, quantity: int, n: nat): (takes: seq<Take>)
    requires |ids| == |a| && n <= |a|
    ensures forall k :: 0 <= k < |takes| ==> takes[k].quantity > 0
  {
    if n == 0 then [] else
    var earlier := Takes(ids, a, quantity, n - 1);
    var share := Share(a, quantity, n - 1);
    if share > 0 then earlier + [Take(ids[n - 1], share)] else earlier
  }

  function LineTakes(items: map<Id, Item>, line: Line): seq<Take> {
    var ids := Candidates(items, line.seller, line.sku);
    Takes(ids, Availabilities(items, ids), line.quantity, |ids|)
  }

  function LineError(items: map<Id, Item>, line: Line): Option<Error> {
    var ids := Candidates(items, line.seller, line.sku);
    if ids == [] then Some(InvalidSku)
    else if Sum(Availabilities(items, ids)) < line.quantity then Some(InsufficientStock)
    else None
  }

  /** The error of the first line that the stock cannot serve. */
  function BatchError(items: map<Id, Item>, lines: seq<Line>): Option<Error> {
    if lines == [] then None else
    var earlier := BatchError(items, lines[..|lines| - 1]);
    if earlier.Some? then earlier else LineError(items, lines[|lines| - 1])
  }

  function BatchTakes(items: map<Id, Item>, lines: seq<Line>): seq<Take> {
    if lines == [] then [] else
    BatchTakes(items, lines[..|lines| - 1]) + LineTakes(items, lines[|lines| - 1])
  }

  /** The request schema's validator: 1 to 100 lines, positive quantities, no pair twice. */
  predicate ValidBatch(data: BatchData) {
    && 1 <= |data.lines| <= 100
    && (forall j :: 0 <= j < |data.lines| ==> 0 < data.lines[j].quantity <= 1_000_000)
    && UniquePairs(data.lines)
  }

  predicate UniquePairs(lines: seq<Line>) {
    forall j, k :: 0 <= j < k < |lines| ==> lines[j].seller != lines[k].seller || lines[j].sku != lines[k].sku
  }

  function RowOf(data: BatchData, take: Take, group: Id, expiresAt: int): Reservation {
    Reservation(take.item, data.customer, data.cartRef, data.orderRef, Some(group),
                take.quantity, Active, expiresAt, None, 1)
  }

  predicate OnItems(rows: seq<Reservation>, items: map<Id, Item>) {
    forall k :: 0 <= k < |rows| ==> rows[k].item in items
  }

  /** One reservation after the other. */
  function ReserveAll(t: Tables, rows: seq<Reservation>, reference: Reference): (t': Tables)
    requires OnItems(rows, t.items)
    ensures t'.items.Keys == t.items.Keys
  {
    if rows == [] then t else
    ReserveRow(ReserveAll(t, rows[..|rows| - 1], reference), rows[|rows| - 1], reference)
  }

  // ---------------------------------------------------------------- operations

  function CreateItem(t: Tables, p: Principal, key: Option<string>, data: CreateItemData, newId: Id,
                      warehouseActive: bool, catalog: Option<CatalogSku>): (Tables, Result<Id, Error>)
  {
    var request := CreateItemRequest(data);
    if !(0 <= data.initial <= 1_000_000_000) then (t, Err(InvalidRequest)) else
    match Lookup(t, p.subject, key, request)
    case Err(e) => (t, Err(e))
    case Ok(found) =>
      if found.Some? && found.value.resource in t.items then (t, Ok(found.value.resource))
      else if !warehouseActive then (t, Err(InvalidWarehouse))
      else if catalog.None? || !catalog.value.isActive || catalog.value.product != data.product
              || catalog.value.sku != data.sku then (t, Err(InvalidCatalogSku))
      else if !p.admin && catalog.value.seller != p.subject then (t, Err(CatalogSkuForbidden))
      else if newId in t.items
              || (exists i :: i in t.items && t.items[i].warehouse == data.warehouse && t.items[i].sku == data.sku)
      then (t, Err(IntegrityError))
      else
        var item := Item(p.subject, data.sku, data.warehouse, data.initial, 0, data.threshold, data.isActive, 1);
        var receipt := if data.initial == 0 then [] else
                       [Movement(newId, Receipt, PurchaseReceipt, data.initial, 0, data.initial, 0, ItemRef(newId))];
        (Remember(t.(items := t.items[newId := item], ledger := t.ledger + receipt), p.subject, key, request, newId),
         Ok(newId))
  }

  /** `_managed_item` and `_check_version`. */
  function Managed(t: Tables, p: Principal, i: Id, expectedVersion: int): Result<Item, Error> {
    if i !in t.items then Err(ItemNotFound)
    else if !p.admin && t.items[i].seller != p.subject then Err(InventoryForbidden)
    else if t.items[i].version != expectedVersion then Err(VersionConflict)
    else Ok(t.items[i])
  }

  function UpdateItem(t: Tables, p: Principal, i: Id, threshold: Option<int>, isActive: Option<bool>,
                      expectedVersion: int): (Tables, Result<Id, Error>)
  {
    match Managed(t, p, i, expectedVersion)
    case Err(e) => (t, Err(e))
    case Ok(item) =>
      var item' := item.(threshold := if threshold.Some? then threshold.value else item.threshold,
                         isActive := if isActive.Some? then isActive.value else item.isActive,
                         version := item.version + 1);
      (t.(items := t.items[i := item']), Ok(i))
  }

  function AdjustStock(t: Tables, p: Principal, key: Option<string>, i: Id, data: AdjustData,
                       expectedVersion: int): (Tables, Result<Id, Error>)
  {
    var request := AdjustRequest(i, data, expectedVersion);
    if data.delta == 0 then (t, Err(InvalidRequest)) else
    match Lookup(t, p.subject, key, request)
    case Err(e) => (t, Err(e))
    case Ok(found) =>
      if found.Some? && i in t.items then (t, Ok(i)) else
      match Managed(t, p, i, expectedVersion)
      case Err(e) => (t, Err(e))
      case Ok(item) =>
        if item.onHand + data.delta < item.reserved then (t, Err(InsufficientUnreservedStock)) else
        (Remember(Move(t, i, data.delta, 0, Adjustment, data.reason, data.reference), p.subject, key, request, i),
         Ok(i))
  }

  function CreateReservation(t: Tables, s: Settings, p: Principal, key: Option<string>, data: ReserveData,
                             now: int): (Tables, Result<nat, Error>)
  {
    var request := ReserveRequest(data);
    if !(0 < data.quantity <= 1_000_000) then (t, Err(InvalidRequest)) else
    match Lookup(t, p.subject, key, request)
    case Err(e) => (t, Err(e))
    case Ok(found) =>
      if found.Some? && found.value.resource < |t.reservations| then (t, Ok(found.value.resource))
      else if data.item !in t.items || !t.items[data.item].isActive then (t, Err(ItemNotFound))
      else if t.items[data.item].Available() < data.quantity then (t, Err(InsufficientStock))
      else
        match Expiry(s, data.expiresAt, now)
        case Err(e) => (t, Err(e))
        case Ok(at) =>
          var k := |t.reservations|;
          var r := Reservation(data.item, p.subject, data.cartRef, None, None, data.quantity, Active, at, None, 1);
          (Remember(ReserveRow(t, r, RowRef(k)), p.subject, key, request, k), Ok(k))
  }

  /** The group of a batch: named after its first row, so no earlier row carries it. */
  function FreshGroup(t: Tables): Id {
    |t.reservations|
  }

  function BatchRows(t: Tables, data: BatchData, at: int): (rows: seq<Reservation>)
  {
    var takes := BatchTakes(t.items, data.lines);
    seq(|takes|, k requires 0 <= k < |takes| => RowOf(data, takes[k], FreshGroup(t), at))
  }

  function CreateBatch(t: Tables, s: Settings, key: Option<string>, data: BatchData,
                       now: int): (Tables, Result<Id, Error>)
  {
    var request := BatchRequest(data);
    if !ValidBatch(data) then (t, Err(InvalidRequest)) else
    match Lookup(t, data.customer, key, request)
    case Err(e) => (t, Err(e))
    case Ok(found) =>
      if found.Some? && GroupRows(t.reservations, found.value.resource) != [] then (t, Ok(found.value.resource)) else
      match Expiry(s, data.expiresAt, now)
      case Err(e) => (t, Err(e))
      case Ok(at) =>
        match BatchError(t.items, data.lines)
        case Some(e) => (t, Err(e))
        case None =>
          BatchTakesInItems(t.items, data.lines);
          var group := FreshGroup(t);
          (Remember(ReserveAll(t, BatchRows(t, data, at), GroupRef(group)), data.customer, key, request, group),
           Ok(group))
  }

  lemma {:induction false} TakesInItems(ids: seq<Id>, a: seq<int>, quantity: int, n: nat)
    requires |ids| == |a| && n <= |a|
    ensures forall k :: 0 <= k < |Takes(ids, a, quantity, n)| ==> Takes(ids, a, quantity, n)[k].item in ids[..n]
  {
    if n == 0 {
    } else {
      TakesInItems(ids, a, quantity, n - 1);
      assert ids[..n] == ids[..n - 1] + [ids[n - 1]];
    }
  }

  lemma {:induction false} BatchTakesInItems(items: map<Id, Item>, lines: seq<Line>)
    ensures forall k :: 0 <= k < |BatchTakes(items, lines)| ==> BatchTakes(items, lines)[k].item in items
  {
    if lines == [] {
    } else {
      var n := |lines| - 1;
      BatchTakesInItems(items, lines[..n]);
      var ids := Candidates(items, lines[n].seller, lines[n].sku);
      TakesInItems(ids, Availabilities(items, ids), lines[n].quantity, |ids|);
    }
  }

  /** Resolve rows one by one; the first rejected flush rolls the whole transaction back. */
  function ResolveAll(t: Tables, rows: seq<nat>, target: Status, reason: Reason, now: int): Result<Tables, Error>
    requires InRange(rows, |t.reservations|)
    ensures var r := ResolveAll(t, rows, target, reason, now);
            r.Ok? ==> |r.value.reservations| == |t.reservations|
  {
    if rows == [] then Ok(t) else
    match ResolveAll(t, rows[..|rows| - 1], target, reason, now)
    case Err(e) => Err(e)
    case Ok(t') => TryResolve(t', rows[|rows| - 1], target, reason, now)
  }

  function CommitAll(t: Tables, rows: seq<nat>, now: int, reference: Reference): Result<Tables, Error>
    requires InRange(rows, |t.reservations|)
    ensures var r := CommitAll(t, rows, now, reference);
            r.Ok? ==> |r.value.reservations| == |t.reservations|
  {
    if rows == [] then Ok(t) else
    match CommitAll(t, rows[..|rows| - 1], now, reference)
    case Err(e) => Err(e)
    case Ok(t') => TryCommit(t', rows[|rows| - 1], t'.reservations[rows[|rows| - 1]].orderRef, now, reference)
  }

  predicate AllHave(rs: seq<Reservation>, rows: seq<nat>, status: Status) {
    forall j :: 0 <= j < |rows| ==> rows[j] < |rs| && rs[rows[j]].status == status
  }

  predicate AnyExpired(rs: seq<Reservation>, rows: seq<nat>, now: int) {
    exists j :: 0 <= j < |rows| && rows[j] < |rs| && rs[rows[j]].expiresAt <= now
  }

  /** `_locked_group`. */
  function LockedGroup(t: Tables, g: Id, p: Principal): (r: Result<seq<nat>, Error>)
    ensures r.Ok? ==> r.value == GroupRows(t.reservations, g) && r.value != []
  {
    var rows := GroupRows(t.reservations, g);
    if rows == [] then Err(GroupNotFound) else
    assert rows[0] in rows;
    if !MayResolve(p, t.reservations[rows[0]].customer) then Err(ReservationForbidden)
    else Ok(rows)
  }

  function CommitGroup(t: Tables, g: Id, p: Principal, now: int): (Tables, Result<seq<nat>, Error>) {
    match LockedGroup(t, g, p)
    case Err(e) => (t, Err(e))
    case Ok(rows) =>
      if AllHave(t.reservations, rows, Committed) then (t, Ok(rows))
      else if !AllHave(t.reservations, rows, Active) then (t, Err(GroupNotActive))
      else if AnyExpired(t.reservations, rows, now) then
        match ResolveAll(t, rows, Expired, Reason.ReservationExpired, now)
        case Err(e) => (t, Err(e))
        case Ok(t') => (t', Err(Error.ReservationExpired))
      else
        match CommitAll(t, rows, now, GroupRef(g))
        case Err(e) => (t, Err(e))
        case Ok(t') => (t', Ok(rows))
  }

  function ReleaseGroup(t: Tables, g: Id, p: Principal, reason: Reason, now: int): (Tables, Result<seq<nat>, Error>) {
    match LockedGroup(t, g, p)
    case Err(e) => (t, Err(e))
    case Ok(rows) =>
      if AllHave(t.reservations, rows, Released) then (t, Ok(rows))
      else if !AllHave(t.reservations, rows, Active) then (t, Err(GroupNotActive))
      else
        match ResolveAll(t, rows, Released, reason, now)
        case Err(e) => (t, Err(e))
        case Ok(t') => (t', Ok(rows))
  }

  /** `_active_reservation_with_item`. */
  function ActiveRow(t: Tables, k: nat, p: Principal): (r: Result<Reservation, Error>)
    ensures r.Ok? ==> k < |t.reservations| && r.value == t.reservations[k] && r.value.status == Active
                      && r.value.item in t.items
  {
    if k >= |t.reservations| then Err(ReservationNotFound)
    else if !MayResolve(p, t.reservations[k].customer) then Err(ReservationForbidden)
    else if t.reservations[k].status != Active then Err(ReservationNotActive)
    else if t.reservations[k].item !in t.items then Err(ItemMissing)
    else Ok(t.reservations[k])
  }

  function CommitReservation(t: Tables, k: nat, orderRef: string, p: Principal, now: int): (Tables, Result<nat, Error>) {
    match ActiveRow(t, k, p)
    case Err(e) => (t, Err(e))
    case Ok(r) =>
      if r.expiresAt <= now then
        match TryResolve(t, k, Expired, Reason.ReservationExpired, now)
        case Err(e) => (t, Err(e))
        case Ok(t') => (t', Err(Error.ReservationExpired))
      else
        match TryCommit(t, k, Some(orderRef), now, OrderRef(orderRef))
        case Err(e) => (t, Err(e))
        case Ok(t') => (t', Ok(k))
  }

  function ReleaseReservation(t: Tables, k: nat, p: Principal, reason: Reason, now: int): (Tables, Result<nat, Error>) {
    match ActiveRow(t, k, p)
    case Err(e) => (t, Err(e))
    case Ok(_) =>
      match TryResolve(t, k, Released, reason, now)
      case Err(e) => (t, Err(e))
      case Ok(t') => (t', Ok(k))
  }

  /** One sweep over the fetched rows: a row whose flush is rejected is skipped (its savepoint rolls back). */
  function Sweep(t: Tables, rows: seq<nat>, now: int): (t': Tables)
    requires InRange(rows, |t.reservations|)
    ensures |t'.reservations| == |t.reservations|
  {
    if rows == [] then t else
    var t' := Sweep(t, rows[..|rows| - 1], now);
    var r := TryResolve(t', rows[|rows| - 1], Expired, Reason.ReservationExpired, now);
    if r.Ok? then r.value else t'
  }

  /** How many rows a sweep reports as expired. */
  function SweepCount(t: Tables, rows: seq<nat>, now: int): nat
    requires InRange(rows, |t.reservations|)
  {
    if rows == [] then 0 else
    var earlier := rows[..|rows| - 1];
    SweepCount(t, earlier, now)
      + if TryResolve(Sweep(t, earlier, now), rows[|rows| - 1], Expired, Reason.ReservationExpired, now).Ok? then 1 else 0
  }
}
