/**
 What the callers of the inventory service are told, and what each answer leaves behind: for every state that
 satisfies the stock invariant, who gets what, and which row, counter and movement it costs.
 */
module InventoryAnswers {
  import opened Common
  import opened Inventory
  import opened StockInvariant
  import opened InventorySafety
  import opened InventoryRuns
  import opened InventoryGuarantees

  // ---------------------------------------------------------------- what a step leaves alone

  /** A customer's reservations are resolved by the customer, sellers, admins and services. */
  predicate Allowed(p: Principal, customer: Id) {
    p.subject == customer || p.seller || p.admin || p.commitScope
  }

  /** No row but k changed, and of that row neither whose nor what it is. */
  ghost predicate OnlyRow(t: Tables, t': Tables, k: nat) {
    && k < |t.reservations| == |t'.reservations|
    && (forall j :: 0 <= j < |t.reservations| && j != k ==> t'.reservations[j] == t.reservations[j])
    && SameIdentity(t.reservations[k], t'.reservations[k]) && t'.reservations[k].cartRef == t.reservations[k].cartRef
  }

  /** No item but i changed, and of that item nothing but its counters, by a and b, and its version. */
  ghost predicate OnlyCounters(t: Tables, t': Tables, i: Id, a: int, b: int) {
    && i in t.items && t'.items.Keys == t.items.Keys
    && (forall j :: j in t.items && j != i ==> t'.items[j] == t.items[j])
    && t'.items[i] == t.items[i].(onHand := t.items[i].onHand + a, reserved := t.items[i].reserved + b,
                                  version := t.items[i].version + 1)
  }

  /** The ledger has one more entry, which tells just that. */
  ghost predicate OneMovement(t: Tables, t': Tables, i: Id, a: int, b: int, kind: MovementType, reason: Reason,
                              reference: Reference) {
    && |t'.ledger| == |t.ledger| + 1 && t.ledger <= t'.ledger && i in t'.items
    && var m := t'.ledger[|t.ledger|];
       && m.item == i && m.kind == kind && m.reason == reason && m.onHandDelta == a && m.reservedDelta == b && m.reference == reference
       && m.resultingOnHand == t'.items[i].onHand && m.resultingReserved == t'.items[i].reserved
  }

  ghost predicate Told(t: Tables, t': Tables, i: Id, a: int, b: int, kind: MovementType, reason: Reason,
                              reference: Reference) {
    OnlyCounters(t, t', i, a, b) && OneMovement(t, t', i, a, b, kind, reason, reference)
  }

  lemma MoveIsTold(t: Tables, rs: seq<Reservation>, i: Id, a: int, b: int, kind: MovementType, reason: Reason, reference: Reference)
    requires i in t.items
    ensures var t' := Move(t.(reservations := rs), i, a, b, kind, reason, reference);
            Told(t, t', i, a, b, kind, reason, reference) && t'.reservations == rs && t'.records == t.records
  {
  }

  // ---------------------------------------------------------------- one reservation

  /**
   Committing one reservation. Whoever may resolve it and finds it ACTIVE either ships it, or, once it is due, has it
   expired and its stock given back and is told so; for anyone else, and any other row, nothing changes.
   */
  lemma CommitIsAnswered(t: Tables, k: nat, orderRef: string, p: Principal, now: int)
    requires Inv(t)
    ensures var (t', r) := CommitReservation(t, k, orderRef, p, now);
            if k >= |t.reservations| then t' == t && r == Err(ReservationNotFound)
            else
              var row := t.reservations[k];
              if !Allowed(p, row.customer) then t' == t && r == Err(ReservationForbidden)
              else if row.status != Active then t' == t && r == Err(ReservationNotActive)
              else
                && OnlyRow(t, t', k) && t'.records == t.records
                && t'.reservations[k].resolvedAt == Some(now)
                && if row.expiresAt <= now
                   then && r == Err(Error.ReservationExpired)
                        && t'.reservations[k].status == Expired && t'.reservations[k].orderRef == row.orderRef
                        && Told(t, t', row.item, 0, -row.quantity, Release, Reason.ReservationExpired, RowRef(k))
                   else && r == Ok(k)
                        && t'.reservations[k].status == Committed && t'.reservations[k].orderRef == Some(orderRef)
                        && Told(t, t', row.item, -row.quantity, -row.quantity, Commitment, CustomerOrder, OrderRef(orderRef))
  {
    if k < |t.reservations| && t.reservations[k].status == Active {
      RowOfState(t, k);
      ReservedCovers(t, k);
      hide Inv, LifeOk, Told, Move;
      if t.reservations[k].expiresAt <= now {
        ResolveIsTold(t, k, Expired, Reason.ReservationExpired, now);
      } else {
        CommitIsTold(t, k, Some(orderRef), now, OrderRef(orderRef));
      }
    } else {
      hide Inv, TryResolve, TryCommit;
    }
  }

  /** A row whose stock is there is resolved. */
  lemma ResolveIsTold(t: Tables, k: nat, target: Status, reason: Reason, now: int)
    requires k < |t.reservations| && t.reservations[k].item in t.items
    requires var r := t.reservations[k]; 0 < r.quantity <= t.items[r.item].reserved <= t.items[r.item].onHand
    ensures var r := TryResolve(t, k, target, reason, now);
            && r.Ok? && OnlyRow(t, r.value, k) && r.value.records == t.records
            && r.value.reservations[k].status == target && r.value.reservations[k].resolvedAt == Some(now)
            && r.value.reservations[k].orderRef == t.reservations[k].orderRef
            && Told(t, r.value, t.reservations[k].item, 0, -t.reservations[k].quantity, Release, reason, RowRef(k))
  {
    ResolveSucceeds(t, k, target, reason, now);
    var row := t.reservations[k];
    var row' := row.(status := target, resolvedAt := Some(now), version := row.version + 1);
    MoveIsTold(t, t.reservations[k := row'], row.item, 0, -row.quantity, Release, reason, RowRef(k));
    hide Move, TryResolve, Told;
  }

  lemma CommitIsTold(t: Tables, k: nat, orderRef: Option<string>, now: int, reference: Reference)
    requires k < |t.reservations| && t.reservations[k].item in t.items
    requires var r := t.reservations[k]; 0 < r.quantity <= t.items[r.item].reserved <= t.items[r.item].onHand
    ensures var r := TryCommit(t, k, orderRef, now, reference);
            && r.Ok? && OnlyRow(t, r.value, k) && r.value.records == t.records
            && r.value.reservations[k].status == Committed && r.value.reservations[k].resolvedAt == Some(now)
            && r.value.reservations[k].orderRef == orderRef
            && Told(t, r.value, t.reservations[k].item, -t.reservations[k].quantity, -t.reservations[k].quantity,
                    Commitment, CustomerOrder, reference)
  {
    CommitSucceeds(t, k, orderRef, now, reference);
    var row := t.reservations[k];
    var row' := row.(status := Committed, orderRef := orderRef, resolvedAt := Some(now), version := row.version + 1);
    MoveIsTold(t, t.reservations[k := row'], row.item, -row.quantity, -row.quantity, Commitment, CustomerOrder, reference);
    hide Move, TryCommit, Told;
  }

  /** Releasing one reservation: whoever may resolve it and finds it ACTIVE gives its stock back, due or not. */
  lemma ReleaseIsAnswered(t: Tables, k: nat, p: Principal, reason: Reason, now: int)
    requires Inv(t)
    ensures var (t', r) := ReleaseReservation(t, k, p, reason, now);
            if k >= |t.reservations| then t' == t && r == Err(ReservationNotFound)
            else
              var row := t.reservations[k];
              if !Allowed(p, row.customer) then t' == t && r == Err(ReservationForbidden)
              else if row.status != Active then t' == t && r == Err(ReservationNotActive)
              else
                && r == Ok(k) && OnlyRow(t, t', k) && t'.records == t.records
                && t'.reservations[k].status == Released && t'.reservations[k].resolvedAt == Some(now)
                && t'.reservations[k].orderRef == row.orderRef
                && Told(t, t', row.item, 0, -row.quantity, Release, reason, RowRef(k))
  {
    if k < |t.reservations| && t.reservations[k].status == Active {
      RowOfState(t, k);
      ReservedCovers(t, k);
      hide Inv, LifeOk, Told, Move, TryResolve;
      ResolveIsTold(t, k, Released, reason, now);
    } else {
      hide Inv, TryResolve;
    }
  }

  // ---------------------------------------------------------------- a group of reservations

  /** What the given rows hold of item i. */
  function Held(rs: seq<Reservation>, rows: seq<nat>, i: Id): int
    requires InRange(rows, |rs|)
  {
    if rows == [] then 0 else
    Held(rs, rows[..|rows| - 1], i)
      + if rs[rows[|rows| - 1]].item == i then rs[rows[|rows| - 1]].quantity else 0
  }

  ghost predicate Stamped(r: Reservation, r': Reservation, target: Status, now: int) {
    && SameIdentity(r, r') && r'.cartRef == r.cartRef && r'.orderRef == r.orderRef
    && r'.status == target && r'.resolvedAt == Some(now)
  }

  /** The given rows took the target status at `now`, and no other row changed. */
  ghost predicate OnlyRows(t: Tables, t': Tables, rows: seq<nat>, target: Status, now: int) {
    && |t'.reservations| == |t.reservations| && t'.records == t.records
    && forall k :: 0 <= k < |t.reservations| ==>
         if k in rows then Stamped(t.reservations[k], t'.reservations[k], target, now)
         else t'.reservations[k] == t.reservations[k]
  }

  /** Each item gave back what the rows held of it, and if they were shipped lost it on hand too. */
  ghost predicate HeldLeft(t: Tables, t': Tables, rows: seq<nat>, shipped: bool)
    requires InRange(rows, |t.reservations|)
  {
    && t'.items.Keys == t.items.Keys
    && forall i :: i in t.items ==>
         && t'.items[i].reserved == t.items[i].reserved - Held(t.reservations, rows, i)
         && t'.items[i].onHand == t.items[i].onHand - (if shipped then Held(t.reservations, rows, i) else 0)
  }

  /** The ledger has one more entry for each of the rows, in their order. */
  ghost predicate EntryEach(t: Tables, t': Tables, rows: seq<nat>, shipped: bool, reason: Reason, reference: Option<Reference>)
    requires InRange(rows, |t.reservations|)
  {
    && |t'.ledger| == |t.ledger| + |rows| && t.ledger <= t'.ledger
    && forall j :: 0 <= j < |rows| ==>
         var m, r := t'.ledger[|t.ledger| + j], t.reservations[rows[j]];
         && m.item == r.item && m.reason == reason && m.reservedDelta == -r.quantity
         && (if shipped then m.kind == Commitment && m.onHandDelta == -r.quantity else m.kind == Release && m.onHandDelta == 0)
         && m.reference == if reference.Some? then reference.value else RowRef(rows[j])
  }

  /** One more entry. */
  lemma EntriesStep(t: Tables, t1: Tables, t2: Tables, rows: seq<nat>, shipped: bool, reason: Reason, reference: Option<Reference>)
    requires rows != [] && InRange(rows, |t.reservations|)
    requires EntryEach(t, t1, rows[..|rows| - 1], shipped, reason, reference)
    requires var k := rows[|rows| - 1];
             var r := t.reservations[k];
             OneMovement(t1, t2, r.item, if shipped then -r.quantity else 0, -r.quantity,
                         if shipped then Commitment else Release, reason, if reference.Some? then reference.value else RowRef(k))
    ensures EntryEach(t, t2, rows, shipped, reason, reference)
  {
    var n := |rows| - 1;
    forall j | 0 <= j < |rows|
      ensures t2.ledger[|t.ledger| + j] == if j < n then t1.ledger[|t.ledger| + j] else t2.ledger[|t1.ledger|]
      ensures j < n ==> rows[j] == rows[..n][j]
    {
    }
  }

  /** One more row. */
  lemma RowsStep(t: Tables, t1: Tables, t2: Tables, rows: seq<nat>, target: Status, now: int, shipped: bool)
    requires rows != [] && InRange(rows, |t.reservations|) && Distinct(rows)
    requires OnlyRows(t, t1, rows[..|rows| - 1], target, now) && HeldLeft(t, t1, rows[..|rows| - 1], shipped)
    requires var k := rows[|rows| - 1];
             && OnlyRow(t1, t2, k) && t2.records == t1.records && Stamped(t1.reservations[k], t2.reservations[k], target, now)
             && var q := t1.reservations[k].quantity;
                OnlyCounters(t1, t2, t1.reservations[k].item, if shipped then -q else 0, -q)
    ensures OnlyRows(t, t2, rows, target, now) && HeldLeft(t, t2, rows, shipped)
  {
    var n := |rows| - 1;
    assert rows[n] !in rows[..n];
    assert rows == rows[..n] + [rows[n]];
  }

  lemma {:induction false} ResolveAllTold(t: Tables, rows: seq<nat>, target: Status, reason: Reason, now: int)
    requires Inv(t) && Resolvable(t, rows)
    requires target == Released
             || (target == Expired && forall j :: 0 <= j < |rows| ==> t.reservations[rows[j]].expiresAt <= now)
    ensures var r := ResolveAll(t, rows, target, reason, now);
            && r.Ok? && OnlyRows(t, r.value, rows, target, now) && HeldLeft(t, r.value, rows, false)
            && EntryEach(t, r.value, rows, false, reason, None)
  {
    if rows == [] {
    } else {
      var n := |rows| - 1;
      hide Inv, Became, OnlyRows, HeldLeft, EntryEach, TryResolve;
      ResolveAllTold(t, rows[..n], target, reason, now);
      ResolveAllKeeps(t, rows[..n], target, reason, now);
      ResolveLast(t, ResolveAll(t, rows[..n], target, reason, now).value, rows, target, reason, now);
    }
  }

  lemma {:induction false} CommitAllTold(t: Tables, rows: seq<nat>, now: int, reference: Reference)
    requires Inv(t) && Resolvable(t, rows)
    requires forall j :: 0 <= j < |rows| ==> now < t.reservations[rows[j]].expiresAt
    ensures var r := CommitAll(t, rows, now, reference);
            && r.Ok? && OnlyRows(t, r.value, rows, Committed, now) && HeldLeft(t, r.value, rows, true)
            && EntryEach(t, r.value, rows, true, CustomerOrder, Some(reference))
  {
    if rows == [] {
    } else {
      var n := |rows| - 1;
      hide Inv, Became, OnlyRows, HeldLeft, EntryEach, TryCommit;
      CommitAllTold(t, rows[..n], now, reference);
      CommitAllKeeps(t, rows[..n], now, reference);
      CommitLast(t, CommitAll(t, rows[..n], now, reference).value, rows, now, reference);
    }
  }

  lemma LastInRange(t: Tables, rows: seq<nat>)
    requires rows != [] && Resolvable(t, rows)
    ensures InRange(rows, |t.reservations|) && Distinct(rows) && InRange(rows[..|rows| - 1], |t.reservations|)
    ensures rows[|rows| - 1] < |t.reservations|
  {
  }

  /** The last row follows when the others are done. */
  lemma ResolveLast(t: Tables, t1: Tables, rows: seq<nat>, target: Status, reason: Reason, now: int)
    requires rows != [] && Resolvable(t, rows) && Became(t, t1, rows[..|rows| - 1], target)
    requires OnlyRows(t, t1, rows[..|rows| - 1], target, now) && HeldLeft(t, t1, rows[..|rows| - 1], false)
    requires EntryEach(t, t1, rows[..|rows| - 1], false, reason, None)
    ensures |t1.reservations| == |t.reservations|
    ensures var r := TryResolve(t1, rows[|rows| - 1], target, reason, now);
            && r.Ok? && OnlyRows(t, r.value, rows, target, now) && HeldLeft(t, r.value, rows, false)
            && EntryEach(t, r.value, rows, false, reason, None)
  {
    hide *;
    LastInRange(t, rows);
    BecameInv(t, t1, rows[..|rows| - 1], target);
    LastUntouched(t, t1, rows, target);
    ResolveOne(t1, rows[|rows| - 1], target, reason, now);
    var t2 := TryResolve(t1, rows[|rows| - 1], target, reason, now).value;
    RowsStep(t, t1, t2, rows, target, now, false);
    EntriesStep(t, t1, t2, rows, false, reason, None);
  }

  lemma CommitLast(t: Tables, t1: Tables, rows: seq<nat>, now: int, reference: Reference)
    requires rows != [] && Resolvable(t, rows) && Became(t, t1, rows[..|rows| - 1], Committed)
    requires OnlyRows(t, t1, rows[..|rows| - 1], Committed, now) && HeldLeft(t, t1, rows[..|rows| - 1], true)
    requires EntryEach(t, t1, rows[..|rows| - 1], true, CustomerOrder, Some(reference))
    ensures |t1.reservations| == |t.reservations|
    ensures var r := TryCommit(t1, rows[|rows| - 1], t1.reservations[rows[|rows| - 1]].orderRef, now, reference);
            && r.Ok? && OnlyRows(t, r.value, rows, Committed, now) && HeldLeft(t, r.value, rows, true)
            && EntryEach(t, r.value, rows, true, CustomerOrder, Some(reference))
  {
    hide *;
    LastInRange(t, rows);
    BecameInv(t, t1, rows[..|rows| - 1], Committed);
    LastUntouched(t, t1, rows, Committed);
    var k := rows[|rows| - 1];
    CommitOne(t1, k, now, reference);
    var t2 := TryCommit(t1, k, t1.reservations[k].orderRef, now, reference).value;
    RowsStep(t, t1, t2, rows, Committed, now, true);
    EntriesStep(t, t1, t2, rows, true, CustomerOrder, Some(reference));
  }

  lemma ResolveOne(t: Tables, k: nat, target: Status, reason: Reason, now: int)
    requires Inv(t) && k < |t.reservations| && t.reservations[k].status == Active
    ensures var r, row := TryResolve(t, k, target, reason, now), t.reservations[k];
            && r.Ok? && OnlyRow(t, r.value, k) && r.value.records == t.records
            && Stamped(row, r.value.reservations[k], target, now)
            && OnlyCounters(t, r.value, row.item, 0, -row.quantity)
            && OneMovement(t, r.value, row.item, 0, -row.quantity, Release, reason, RowRef(k))
  {
    ReservedCovers(t, k);
    hide Inv, TryResolve;
    ResolveIsTold(t, k, target, reason, now);
  }

  lemma CommitOne(t: Tables, k: nat, now: int, reference: Reference)
    requires Inv(t) && k < |t.reservations| && t.reservations[k].status == Active
    ensures var r, row := TryCommit(t, k, t.reservations[k].orderRef, now, reference), t.reservations[k];
            && r.Ok? && OnlyRow(t, r.value, k) && r.value.records == t.records
            && Stamped(row, r.value.reservations[k], Committed, now)
            && OnlyCounters(t, r.value, row.item, -row.quantity, -row.quantity)
            && OneMovement(t, r.value, row.item, -row.quantity, -row.quantity, Commitment, CustomerOrder, reference)
  {
    ReservedCovers(t, k);
    hide Inv, TryCommit;
    CommitIsTold(t, k, t.reservations[k].orderRef, now, reference);
  }

  /** A group that is due is due as a whole: its first row tells. */
  lemma GroupIsDue(t: Tables, g: Id, now: int)
    requires Inv(t) && GroupRows(t.reservations, g) != []
    ensures var rows := GroupRows(t.reservations, g);
            && rows[0] < |t.reservations|
            && (AnyExpired(t.reservations, rows, now) <==> t.reservations[rows[0]].expiresAt <= now)
            && (forall j :: 0 <= j < |rows| ==> t.reservations[rows[j]].expiresAt == t.reservations[rows[0]].expiresAt)
  {
    var rows := GroupRows(t.reservations, g);
    forall j | 0 <= j < |rows| ensures t.reservations[rows[j]].expiresAt == t.reservations[rows[0]].expiresAt {
      assert rows[j] in rows && rows[0] in rows;
    }
  }

  /**
   Committing a group, for whoever may resolve its reservations: all its members are shipped, or, once they are
   due, all are expired and their stock given back; a group that was committed before is answered again; in any other
   case nothing changes.
   */
  lemma GroupCommitIsAnswered(t: Tables, g: Id, p: Principal, now: int)
    requires Inv(t)
    ensures var (t', r) := CommitGroup(t, g, p, now);
            var rows := GroupRows(t.reservations, g);
            if rows == [] then t' == t && r == Err(GroupNotFound)
            else if !Allowed(p, t.reservations[rows[0]].customer) then t' == t && r == Err(ReservationForbidden)
            else if AllHave(t.reservations, rows, Committed) then t' == t && r == Ok(rows)
            else if !AllHave(t.reservations, rows, Active) then t' == t && r == Err(GroupNotActive)
            else if t.reservations[rows[0]].expiresAt <= now then
              && r == Err(Error.ReservationExpired)
              && OnlyRows(t, t', rows, Expired, now) && HeldLeft(t, t', rows, false)
              && EntryEach(t, t', rows, false, Reason.ReservationExpired, None)
            else
              && r == Ok(rows)
              && OnlyRows(t, t', rows, Committed, now) && HeldLeft(t, t', rows, true)
              && EntryEach(t, t', rows, true, CustomerOrder, Some(GroupRef(g)))
  {
    var rows := GroupRows(t.reservations, g);
    if rows != [] {
      GroupIsDue(t, g, now);
      hide Inv, OnlyRows, HeldLeft, EntryEach, AllHave, AnyExpired, GroupRows, ResolveAll, CommitAll;
      if AllHave(t.reservations, rows, Active) {
        if t.reservations[rows[0]].expiresAt <= now {
          ResolveAllTold(t, rows, Expired, Reason.ReservationExpired, now);
        } else {
          CommitAllTold(t, rows, now, GroupRef(g));
        }
      }
    }
  }

  /** Releasing a group: all its members give their stock back, due or not; one released before is answered again. */
  lemma GroupReleaseIsAnswered(t: Tables, g: Id, p: Principal, reason: Reason, now: int)
    requires Inv(t)
    ensures var (t', r) := ReleaseGroup(t, g, p, reason, now);
            var rows := GroupRows(t.reservations, g);
            if rows == [] then t' == t && r == Err(GroupNotFound)
            else if !Allowed(p, t.reservations[rows[0]].customer) then t' == t && r == Err(ReservationForbidden)
            else if AllHave(t.reservations, rows, Released) then t' == t && r == Ok(rows)
            else if !AllHave(t.reservations, rows, Active) then t' == t && r == Err(GroupNotActive)
            else
              && r == Ok(rows)
              && OnlyRows(t, t', rows, Released, now) && HeldLeft(t, t', rows, false)
              && EntryEach(t, t', rows, false, reason, None)
  {
    var rows := GroupRows(t.reservations, g);
    if rows != [] && AllHave(t.reservations, rows, Active) {
      ResolveAllTold(t, rows, Released, reason, now);
    }
    hide Inv, OnlyRows, HeldLeft, EntryEach, AllHave, GroupRows, ResolveAll;
  }
}
