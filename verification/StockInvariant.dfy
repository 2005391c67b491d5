/**
 What every table state of the inventory service satisfies: the reserved counter of an item is the
 sum of its ACTIVE reservations, the ledger replays to the counters, and reservation rows follow
 their life cycle. None of this is stored by the service; each single-row step is shown to keep it.
 */
module StockInvariant {
  import opened Common
  import opened Inventory

  // ---------------------------------------------------------------- sums over reservations

  function Counted(r: Reservation, i: Id, status: Status): int {
    if r.item == i && r.status == status then r.quantity else 0
  }

  /** The quantity of item i in reservations of the given status. */
  function SumBy(rs: seq<Reservation>, i: Id, status: Status): int {
    if rs == [] then 0 else SumBy(rs[..|rs| - 1], i, status) + Counted(rs[|rs| - 1], i, status)
  }

  lemma {:induction false} SumByUpdate(rs: seq<Reservation>, k: nat, r: Reservation, i: Id, status: Status)
    requires k < |rs|
    ensures SumBy(rs[k := r], i, status) == SumBy(rs, i, status) - Counted(rs[k], i, status) + Counted(r, i, status)
  {
    var n := |rs| - 1;
    if k == n {
      assert rs[k := r][..n] == rs[..n];
    } else {
      assert rs[k := r][..n] == rs[..n][k := r];
      SumByUpdate(rs[..n], k, r, i, status);
    }
  }

  lemma SumByAppend(rs: seq<Reservation>, r: Reservation, i: Id, status: Status)
    ensures SumBy(rs + [r], i, status) == SumBy(rs, i, status) + Counted(r, i, status)
  {
    assert (rs + [r])[..|rs|] == rs;
  }

  lemma {:induction false} SumByCovers(rs: seq<Reservation>, k: nat, i: Id, status: Status)
    requires k < |rs|
    requires forall j :: 0 <= j < |rs| ==> rs[j].quantity > 0
    ensures Counted(rs[k], i, status) <= SumBy(rs, i, status)
  {
    var n := |rs| - 1;
    SumByNonNegative(rs[..n], i, status);
    if k < n {
      SumByCovers(rs[..n], k, i, status);
    }
  }

  lemma {:induction false} SumByNonNegative(rs: seq<Reservation>, i: Id, status: Status)
    requires forall j :: 0 <= j < |rs| ==> rs[j].quantity > 0
    ensures 0 <= SumBy(rs, i, status)
  {
    if rs == [] {
    } else {
      SumByNonNegative(rs[..|rs| - 1], i, status);
    }
  }

  lemma {:induction false} SumByNowhere(rs: seq<Reservation>, i: Id, status: Status)
    requires forall j :: 0 <= j < |rs| ==> rs[j].item != i
    ensures SumBy(rs, i, status) == 0
  {
    if rs == [] {
    } else {
      SumByNowhere(rs[..|rs| - 1], i, status);
    }
  }

  // ---------------------------------------------------------------- the ledger

  datatype Level = Level(onHand: int, reserved: int)

  /** Fold the movements of item i from zero. */
  function Replay(ledger: seq<Movement>, i: Id): Level {
    if ledger == [] then Level(0, 0) else
    var before := Replay(ledger[..|ledger| - 1], i);
    var m := ledger[|ledger| - 1];
    if m.item == i then Level(before.onHand + m.onHandDelta, before.reserved + m.reservedDelta) else before
  }

  /** Stock that came in: receipts and adjustments (an adjustment may be negative). */
  function Inflow(ledger: seq<Movement>, i: Id): int {
    if ledger == [] then 0 else
    var m := ledger[|ledger| - 1];
    Inflow(ledger[..|ledger| - 1], i) + if m.item == i && (m.kind.Receipt? || m.kind.Adjustment?) then m.onHandDelta else 0
  }

  /** Stock that left with committed reservations. */
  function Outflow(ledger: seq<Movement>, i: Id): int {
    if ledger == [] then 0 else
    var m := ledger[|ledger| - 1];
    Outflow(ledger[..|ledger| - 1], i) - if m.item == i && m.kind.Commitment? then m.onHandDelta else 0
  }

  predicate KindOk(m: Movement) {
    match m.kind
    case Receipt => m.onHandDelta != 0 && m.reservedDelta == 0
    case Adjustment => m.onHandDelta != 0 && m.reservedDelta == 0
    case Reserve => m.onHandDelta == 0 && m.reservedDelta > 0
    case Release => m.onHandDelta == 0 && m.reservedDelta < 0
    case Commitment => m.onHandDelta == m.reservedDelta < 0
  }

  /** Entry n reports the counters that the entries up to and including it add up to. */
  predicate EntryOk(ledger: seq<Movement>, n: nat)
    requires n < |ledger|
  {
    && KindOk(ledger[n])
    && Replay(ledger[..n + 1], ledger[n].item) == Level(ledger[n].resultingOnHand, ledger[n].resultingReserved)
  }

  ghost predicate LedgerOk(ledger: seq<Movement>) {
    forall n :: 0 <= n < |ledger| ==> EntryOk(ledger, n)
  }

  lemma LedgerAppend(ledger: seq<Movement>, m: Movement)
    requires LedgerOk(ledger) && KindOk(m)
    requires m.resultingOnHand == Replay(ledger, m.item).onHand + m.onHandDelta
    requires m.resultingReserved == Replay(ledger, m.item).reserved + m.reservedDelta
    ensures LedgerOk(ledger + [m])
  {
    var l := ledger + [m];
    assert l[..|ledger|] == ledger && l[..|ledger| + 1] == l;
    forall n | 0 <= n < |l| ensures EntryOk(l, n) {
      if n < |ledger| {
        assert EntryOk(ledger, n);
        assert l[..n + 1] == ledger[..n + 1];
      }
    }
  }

  lemma AppendFolds(ledger: seq<Movement>, m: Movement, i: Id)
    ensures Replay(ledger + [m], i) == if m.item == i
              then Level(Replay(ledger, i).onHand + m.onHandDelta, Replay(ledger, i).reserved + m.reservedDelta)
              else Replay(ledger, i)
    ensures Inflow(ledger + [m], i) == Inflow(ledger, i)
              + if m.item == i && (m.kind.Receipt? || m.kind.Adjustment?) then m.onHandDelta else 0
    ensures Outflow(ledger + [m], i) == Outflow(ledger, i)
              - if m.item == i && m.kind.Commitment? then m.onHandDelta else 0
  {
    assert (ledger + [m])[..|ledger|] == ledger;
  }

  lemma {:induction false} ReplayNowhere(ledger: seq<Movement>, i: Id)
    requires forall n :: 0 <= n < |ledger| ==> ledger[n].item != i
    ensures Replay(ledger, i) == Level(0, 0) && Outflow(ledger, i) == 0
  {
    if ledger == [] {
    } else {
      ReplayNowhere(ledger[..|ledger| - 1], i);
    }
  }

  /** Conservation: on-hand stock is what came in less what was shipped. */
  lemma {:induction false} OnHandIsInflowLessOutflow(ledger: seq<Movement>, i: Id)
    requires forall n :: 0 <= n < |ledger| ==> KindOk(ledger[n])
    ensures Replay(ledger, i).onHand == Inflow(ledger, i) - Outflow(ledger, i)
  {
    if ledger == [] {
    } else {
      var n := |ledger| - 1;
      assert KindOk(ledger[n]);
      OnHandIsInflowLessOutflow(ledger[..n], i);
    }
  }

  // ---------------------------------------------------------------- the invariant

  ghost predicate ItemOk(t: Tables, i: Id)
    requires i in t.items
  {
    && t.items[i].Checks()
    && t.items[i].reserved == SumBy(t.reservations, i, Active)
    && Replay(t.ledger, i) == Level(t.items[i].onHand, t.items[i].reserved)
    && Outflow(t.ledger, i) == SumBy(t.reservations, i, Committed)
  }

  ghost predicate StockOk(t: Tables) {
    && (forall i :: i in t.items ==> ItemOk(t, i))
    && LedgerOk(t.ledger)
    && (forall n :: 0 <= n < |t.ledger| ==> t.ledger[n].item in t.items)
  }

  predicate LifeOk(r: Reservation) {
    && r.quantity > 0
    && (r.status == Active <==> r.resolvedAt.None?)
    && (r.status == Committed ==> r.resolvedAt.value < r.expiresAt)
    && (r.status == Expired ==> r.resolvedAt.value >= r.expiresAt)
  }

  ghost predicate RowsOk(t: Tables) {
    && (forall k :: 0 <= k < |t.reservations| ==>
          LifeOk(t.reservations[k]) && t.reservations[k].item in t.items)
    && (forall k :: 0 <= k < |t.reservations| && t.reservations[k].group.Some? ==>
          t.reservations[k].group.value <= k)
    && SharedExpiry(t.reservations)
  }

  ghost predicate SharedExpiry(rs: seq<Reservation>) {
    forall j, k :: 0 <= j < |rs| && 0 <= k < |rs| && rs[j].group.Some? && rs[j].group == rs[k].group ==>
      rs[j].expiresAt == rs[k].expiresAt
  }

  /** Every record points at the resource its request created. */
  ghost predicate RecordOk(t: Tables, record: Record) {
    match record.request
    case CreateItemRequest(_) => record.resource in t.items
    case AdjustRequest(i, _, _) => record.resource == i && i in t.items
    case ReserveRequest(_) => record.resource < |t.reservations|
    case BatchRequest(_) => record.resource < |t.reservations|
                            && t.reservations[record.resource].group == Some(record.resource)
  }

  ghost predicate RecordsOk(t: Tables) {
    forall key :: key in t.records ==> RecordOk(t, t.records[key])
  }

  ghost predicate Inv(t: Tables) {
    StockOk(t) && RowsOk(t) && RecordsOk(t)
  }

  // ---------------------------------------------------------------- what later states keep of earlier ones

  predicate SameIdentity(r: Reservation, r': Reservation) {
    && r'.item == r.item && r'.customer == r.customer && r'.group == r.group
    && r'.quantity == r.quantity && r'.expiresAt == r.expiresAt
  }

  ghost predicate SamePairs(t: Tables, t': Tables) {
    && t'.items.Keys == t.items.Keys
    && forall i :: i in t.items ==> t'.items[i].seller == t.items[i].seller && t'.items[i].sku == t.items[i].sku
  }

  /** Later tables: rows stay, a resolved reservation never changes again, the ledger only grows,
      a group never gains members, and records stay. */
  ghost predicate Evolves(t: Tables, t': Tables) {
    && (forall i :: i in t.items ==>
          i in t'.items && t'.items[i].seller == t.items[i].seller && t'.items[i].sku == t.items[i].sku)
    && |t.reservations| <= |t'.reservations|
    && (forall k :: 0 <= k < |t.reservations| ==>
          && SameIdentity(t.reservations[k], t'.reservations[k])
          && (t.reservations[k].status != Active ==> t'.reservations[k] == t.reservations[k]))
    && (forall k :: |t.reservations| <= k < |t'.reservations| && t'.reservations[k].group.Some? ==>
          t'.reservations[k].group.value >= |t.reservations|)
    && t.ledger <= t'.ledger
    && (forall key :: key in t.records ==> key in t'.records && t'.records[key] == t.records[key])
  }

  lemma EvolvesTransitive(a: Tables, b: Tables, c: Tables)
    requires Evolves(a, b) && Evolves(b, c)
    ensures Evolves(a, c)
  {
    forall k | 0 <= k < |a.reservations|
      ensures SameIdentity(a.reservations[k], c.reservations[k])
      ensures a.reservations[k].status != Active ==> c.reservations[k] == a.reservations[k]
    {
      assert SameIdentity(a.reservations[k], b.reservations[k]);
      assert SameIdentity(b.reservations[k], c.reservations[k]);
    }
    forall k | |a.reservations| <= k < |c.reservations| && c.reservations[k].group.Some?
      ensures c.reservations[k].group.value >= |a.reservations|
    {
      if k < |b.reservations| {
        assert SameIdentity(b.reservations[k], c.reservations[k]);
      }
    }
  }

  // ---------------------------------------------------------------- single-row steps keep it

  /** Changing the counters of item i by (a, b) together with the reservations that justify it. */
  lemma MoveKeepsStock(t: Tables, rs: seq<Reservation>, i: Id, a: int, b: int,
                       kind: MovementType, reason: Reason, reference: Reference)
    requires StockOk(t) && i in t.items
    requires 0 <= t.items[i].reserved + b <= t.items[i].onHand + a
    requires KindOk(Movement(i, kind, reason, a, b, 0, 0, reference))
    requires forall j :: SumBy(rs, j, Active) == SumBy(t.reservations, j, Active) + if j == i then b else 0
    requires forall j :: SumBy(rs, j, Committed)
               == SumBy(t.reservations, j, Committed) - if j == i && kind.Commitment? then a else 0
    ensures StockOk(Move(t.(reservations := rs), i, a, b, kind, reason, reference))
  {
    var t' := Move(t.(reservations := rs), i, a, b, kind, reason, reference);
    var m := t'.ledger[|t.ledger|];
    assert ItemOk(t, i);
    forall j | j in t'.items ensures ItemOk(t', j) {
      assert ItemOk(t, j);
      AppendFolds(t.ledger, m, j);
    }
    LedgerAppend(t.ledger, m);
  }

  lemma ReserveRowKeepsStock(t: Tables, r: Reservation, reference: Reference)
    requires StockOk(t) && r.item in t.items
    requires 0 < r.quantity <= t.items[r.item].Available() && r.status == Active
    ensures StockOk(ReserveRow(t, r, reference))
  {
    var rs := t.reservations + [r];
    forall j
      ensures SumBy(rs, j, Active) == SumBy(t.reservations, j, Active) + if j == r.item then r.quantity else 0
      ensures SumBy(rs, j, Committed) == SumBy(t.reservations, j, Committed)
    {
      SumByAppend(t.reservations, r, j, Active);
      SumByAppend(t.reservations, r, j, Committed);
    }
    assert ItemOk(t, r.item);
    MoveKeepsStock(t, rs, r.item, 0, r.quantity, Reserve, CustomerOrder, reference);
  }

  /** A new reservation may open a group or join one that expires when it does. */
  ghost predicate MayJoin(rs: seq<Reservation>, r: Reservation) {
    r.group.Some? ==>
      && r.group.value <= |rs|
      && forall k :: 0 <= k < |rs| && rs[k].group == r.group ==> rs[k].expiresAt == r.expiresAt
  }

  lemma ReserveRowKeeps(t: Tables, r: Reservation, reference: Reference)
    requires Inv(t) && r.item in t.items
    requires 0 < r.quantity <= t.items[r.item].Available()
    requires r.status == Active && r.resolvedAt == None && MayJoin(t.reservations, r)
    ensures Inv(ReserveRow(t, r, reference))
  {
    ReserveRowKeepsStock(t, r, reference);
    var t' := ReserveRow(t, r, reference);
    forall k | 0 <= k < |t'.reservations|
      ensures LifeOk(t'.reservations[k]) && t'.reservations[k].item in t'.items
    {
      if k < |t.reservations| {
        assert LifeOk(t.reservations[k]) && t.reservations[k].item in t.items;
      }
    }
    forall key | key in t'.records ensures RecordOk(t', t'.records[key]) {
      assert RecordOk(t, t.records[key]);
    }
  }

  /** Replacing an ACTIVE row by its resolved form keeps everything that is about rows and records. */
  lemma ResolvedRowKeepsRows(t: Tables, t': Tables, k: nat, r': Reservation)
    requires RowsOk(t) && RecordsOk(t) && k < |t.reservations| && t.reservations[k].status == Active
    requires SameIdentity(t.reservations[k], r') && LifeOk(r')
    requires t'.reservations == t.reservations[k := r']
    requires SamePairs(t, t') && t'.records == t.records && t.ledger <= t'.ledger
    ensures RowsOk(t') && RecordsOk(t') && Evolves(t, t')
  {
    forall key | key in t'.records ensures RecordOk(t', t'.records[key]) {
      assert RecordOk(t, t.records[key]);
    }
    forall j | 0 <= j < |t'.reservations|
      ensures LifeOk(t'.reservations[j]) && t'.reservations[j].item in t'.items
      ensures SameIdentity(t.reservations[j], t'.reservations[j])
    {
      assert LifeOk(t.reservations[j]) && t.reservations[j].item in t.items;
    }
  }

  lemma ResolvedSums(rs: seq<Reservation>, k: nat, r': Reservation)
    requires k < |rs| && rs[k].status == Active && SameIdentity(rs[k], r') && r'.status != Active
    ensures forall j :: SumBy(rs[k := r'], j, Active) == SumBy(rs, j, Active) - if j == r'.item then r'.quantity else 0
    ensures forall j :: SumBy(rs[k := r'], j, Committed)
              == SumBy(rs, j, Committed) + if j == r'.item && r'.status == Committed then r'.quantity else 0
  {
    forall j
      ensures SumBy(rs[k := r'], j, Active) == SumBy(rs, j, Active) - if j == r'.item then r'.quantity else 0
      ensures SumBy(rs[k := r'], j, Committed)
              == SumBy(rs, j, Committed) + if j == r'.item && r'.status == Committed then r'.quantity else 0
    {
      SumByUpdate(rs, k, r', j, Active);
      SumByUpdate(rs, k, r', j, Committed);
    }
  }

  /** Row k took the target status; no other row and no record changed. */
  ghost predicate OneRow(t: Tables, t': Tables, k: nat, target: Status) {
    && t'.records == t.records && k < |t'.reservations| == |t.reservations|
    && t'.reservations[k].status == target
    && forall j :: 0 <= j < |t.reservations| && j != k ==> t'.reservations[j] == t.reservations[j]
  }

  lemma AllParts(t: Tables)
    requires StockOk(t) && RowsOk(t) && RecordsOk(t)
    ensures Inv(t)
  {
  }

  /** What an invariant state says of one of its rows. */
  lemma RowOfState(t: Tables, k: nat)
    requires RowsOk(t) && k < |t.reservations|
    ensures LifeOk(t.reservations[k]) && t.reservations[k].item in t.items
  {
  }

  /** A movement leaves the items' pairs and the ledger's past alone. */
  lemma MoveShape(t: Tables, rs: seq<Reservation>, i: Id, a: int, b: int, kind: MovementType, reason: Reason, reference: Reference)
    requires i in t.items
    ensures var t' := Move(t.(reservations := rs), i, a, b, kind, reason, reference);
            && t'.reservations == rs && t'.records == t.records && SamePairs(t, t') && t.ledger <= t'.ledger
            && forall j :: j in t.items && j != i ==> t'.items[j] == t.items[j]
  {
  }

  lemma ResolvedLife(r: Reservation, r': Reservation, now: int)
    requires LifeOk(r) && r.status == Active && SameIdentity(r, r') && r'.resolvedAt == Some(now)
    requires || r'.status == Released
             || (r'.status == Expired && r.expiresAt <= now)
             || (r'.status == Committed && now < r.expiresAt)
    ensures LifeOk(r')
  {
  }

  /** One row resolved, with stock in order: the whole invariant is kept. */
  lemma RowResolved(t: Tables, t': Tables, k: nat, r': Reservation, now: int)
    requires Inv(t) && StockOk(t') && k < |t.reservations| && t.reservations[k].status == Active
    requires SameIdentity(t.reservations[k], r') && r'.resolvedAt == Some(now)
    requires || r'.status == Released
             || (r'.status == Expired && r'.expiresAt <= now)
             || (r'.status == Committed && now < r'.expiresAt)
    requires t'.reservations == t.reservations[k := r'] && t'.records == t.records && SamePairs(t, t') && t.ledger <= t'.ledger
    ensures Inv(t') && Evolves(t, t') && OneRow(t, t', k, r'.status)
  {
    hide StockOk, RowsOk, RecordsOk, SamePairs, Evolves, LifeOk;
    RowOfState(t, k);
    ResolvedLife(t.reservations[k], r', now);
    ResolvedRowKeepsRows(t, t', k, r');
  }

  lemma ResolveRowKeeps(t: Tables, k: nat, target: Status, reason: Reason, now: int)
    requires Inv(t) && k < |t.reservations| && t.reservations[k].status == Active
    requires target == Released || (target == Expired && t.reservations[k].expiresAt <= now)
    ensures TryResolve(t, k, target, reason, now) == Ok(ResolveRow(t, k, target, reason, now))
    ensures Inv(ResolveRow(t, k, target, reason, now)) && Evolves(t, ResolveRow(t, k, target, reason, now))
    ensures OneRow(t, ResolveRow(t, k, target, reason, now), k, target)
  {
    var r := t.reservations[k];
    var r' := r.(status := target, resolvedAt := Some(now), version := r.version + 1);
    hide StockOk, RowsOk, RecordsOk, SamePairs, Evolves, Move, TryResolve, OneRow;
    RowOfState(t, k);
    ResolveRowKeepsStock(t, k, target, reason, now);
    MoveShape(t, t.reservations[k := r'], r.item, 0, -r.quantity, Release, reason, RowRef(k));
    hide Inv, LifeOk;
    RowResolved(t, ResolveRow(t, k, target, reason, now), k, r', now);
  }

  /** The counters of an item cover each of its ACTIVE reservations. */
  lemma ReservedCovers(t: Tables, k: nat)
    requires StockOk(t) && RowsOk(t) && k < |t.reservations| && t.reservations[k].status == Active
    ensures var r := t.reservations[k];
            r.item in t.items && 0 < r.quantity <= t.items[r.item].reserved <= t.items[r.item].onHand
  {
    var r := t.reservations[k];
    assert LifeOk(r);
    assert ItemOk(t, r.item);
    SumByCovers(t.reservations, k, r.item, Active);
  }

  lemma ResolveSucceeds(t: Tables, k: nat, target: Status, reason: Reason, now: int)
    requires k < |t.reservations| && t.reservations[k].item in t.items
    requires var r := t.reservations[k]; 0 < r.quantity <= t.items[r.item].reserved <= t.items[r.item].onHand
    ensures TryResolve(t, k, target, reason, now) == Ok(ResolveRow(t, k, target, reason, now))
  {
  }

  lemma CommitSucceeds(t: Tables, k: nat, orderRef: Option<string>, now: int, reference: Reference)
    requires k < |t.reservations| && t.reservations[k].item in t.items
    requires var r := t.reservations[k]; 0 < r.quantity <= t.items[r.item].reserved <= t.items[r.item].onHand
    ensures TryCommit(t, k, orderRef, now, reference) == Ok(CommitRow(t, k, orderRef, now, reference))
  {
  }

  lemma ResolveRowKeepsStock(t: Tables, k: nat, target: Status, reason: Reason, now: int)
    requires StockOk(t) && RowsOk(t) && k < |t.reservations| && t.reservations[k].status == Active
    requires target == Released || target == Expired
    ensures TryResolve(t, k, target, reason, now) == Ok(ResolveRow(t, k, target, reason, now))
    ensures StockOk(ResolveRow(t, k, target, reason, now))
  {
    var r := t.reservations[k];
    var r' := r.(status := target, resolvedAt := Some(now), version := r.version + 1);
    hide StockOk, RowsOk, SumBy, TryResolve;
    ReservedCovers(t, k);
    ResolveSucceeds(t, k, target, reason, now);
    ResolvedSums(t.reservations, k, r');
    MoveKeepsStock(t, t.reservations[k := r'], r.item, 0, -r.quantity, Release, reason, RowRef(k));
  }

  lemma CommitRowKeeps(t: Tables, k: nat, orderRef: Option<string>, now: int, reference: Reference)
    requires Inv(t) && k < |t.reservations| && t.reservations[k].status == Active
    requires now < t.reservations[k].expiresAt
    ensures TryCommit(t, k, orderRef, now, reference) == Ok(CommitRow(t, k, orderRef, now, reference))
    ensures Inv(CommitRow(t, k, orderRef, now, reference)) && Evolves(t, CommitRow(t, k, orderRef, now, reference))
    ensures OneRow(t, CommitRow(t, k, orderRef, now, reference), k, Committed)
  {
    var r := t.reservations[k];
    var r' := r.(status := Committed, orderRef := orderRef, resolvedAt := Some(now), version := r.version + 1);
    hide StockOk, RowsOk, RecordsOk, SamePairs, Evolves, Move, TryCommit, OneRow;
    RowOfState(t, k);
    CommitRowKeepsStock(t, k, orderRef, now, reference);
    MoveShape(t, t.reservations[k := r'], r.item, -r.quantity, -r.quantity, Commitment, CustomerOrder, reference);
    hide Inv, LifeOk;
    RowResolved(t, CommitRow(t, k, orderRef, now, reference), k, r', now);
  }

  lemma CommitRowKeepsStock(t: Tables, k: nat, orderRef: Option<string>, now: int, reference: Reference)
    requires StockOk(t) && RowsOk(t) && k < |t.reservations| && t.reservations[k].status == Active
    ensures TryCommit(t, k, orderRef, now, reference) == Ok(CommitRow(t, k, orderRef, now, reference))
    ensures StockOk(CommitRow(t, k, orderRef, now, reference))
  {
    var r := t.reservations[k];
    var r' := r.(status := Committed, orderRef := orderRef, resolvedAt := Some(now), version := r.version + 1);
    hide StockOk, RowsOk, SumBy, TryCommit;
    ReservedCovers(t, k);
    CommitSucceeds(t, k, orderRef, now, reference);
    ResolvedSums(t.reservations, k, r');
    MoveKeepsStock(t, t.reservations[k := r'], r.item, -r.quantity, -r.quantity, Commitment, CustomerOrder, reference);
  }
}
