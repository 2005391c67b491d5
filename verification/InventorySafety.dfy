/** Every operation of the inventory service, and so every run of them, keeps the stock invariant. */
module InventorySafety {
  import opened Common
  import opened Inventory
  import opened StockInvariant
  import opened Allocation

  // ---------------------------------------------------------------- groups of rows

  /** The rows are ACTIVE, and none of them occurs twice. */
  ghost predicate Resolvable(t: Tables, rows: seq<nat>) {
    InRange(rows, |t.reservations|) && Distinct(rows) && AllHave(t.reservations, rows, Active)
  }

  /** From t to t', the given rows took the target status and nothing else happened to any row. */
  ghost predicate Became(t: Tables, t': Tables, rows: seq<nat>, target: Status) {
    && Inv(t') && Evolves(t, t') && t'.records == t.records
    && |t'.reservations| == |t.reservations|
    && AllHave(t'.reservations, rows, target)
    && (forall k :: 0 <= k < |t.reservations| && k !in rows ==> t'.reservations[k] == t.reservations[k])
  }

  lemma BecameStep(t: Tables, t1: Tables, t2: Tables, rows: seq<nat>, target: Status)
    requires rows != [] && Resolvable(t, rows) && Became(t, t1, rows[..|rows| - 1], target)
    requires Inv(t2) && Evolves(t1, t2) && OneRow(t1, t2, rows[|rows| - 1], target)
    ensures Became(t, t2, rows, target)
  {
    hide Inv;
    var n := |rows| - 1;
    EvolvesTransitive(t, t1, t2);
    forall j | 0 <= j < |rows| ensures t2.reservations[rows[j]].status == target {
      if j < n { assert rows[..n][j] == rows[j]; }
    }
    forall k | 0 <= k < |t.reservations| && k !in rows ensures t2.reservations[k] == t.reservations[k] {
      assert rows[n] in rows && k !in rows[..n];
    }
  }

  /** The last of the rows is still untouched when its turn comes. */
  lemma LastUntouched(t: Tables, t1: Tables, rows: seq<nat>, target: Status)
    requires rows != [] && Resolvable(t, rows) && Became(t, t1, rows[..|rows| - 1], target)
    ensures Resolvable(t, rows[..|rows| - 1])
    ensures t1.reservations[rows[|rows| - 1]] == t.reservations[rows[|rows| - 1]]
    ensures t1.reservations[rows[|rows| - 1]].status == Active
  {
    assert rows[|rows| - 1] !in rows[..|rows| - 1];
  }

  lemma {:induction false} ResolveAllKeeps(t: Tables, rows: seq<nat>, target: Status, reason: Reason, now: int)
    requires Inv(t) && Resolvable(t, rows)
    requires target == Released
             || (target == Expired && forall j :: 0 <= j < |rows| ==> t.reservations[rows[j]].expiresAt <= now)
    ensures var r := ResolveAll(t, rows, target, reason, now);
            r.Ok? && Became(t, r.value, rows, target)
  {
    if rows == [] {
    } else {
      hide Inv, Evolves, Became, OneRow, TryResolve, ResolveRow, TryCommit, CommitRow;
      var n := |rows| - 1;
      ResolveAllKeeps(t, rows[..n], target, reason, now);
      var t1 := ResolveAll(t, rows[..n], target, reason, now).value;
      LastUntouched(t, t1, rows, target);
      BecameInv(t, t1, rows[..n], target);
      ResolveRowKeeps(t1, rows[n], target, reason, now);
      BecameStep(t, t1, ResolveRow(t1, rows[n], target, reason, now), rows, target);
    }
  }

  lemma BecameInv(t: Tables, t': Tables, rows: seq<nat>, target: Status)
    requires Became(t, t', rows, target)
    ensures Inv(t') && |t'.reservations| == |t.reservations|
  {
  }

  lemma {:induction false} CommitAllKeeps(t: Tables, rows: seq<nat>, now: int, reference: Reference)
    requires Inv(t) && Resolvable(t, rows)
    requires forall j :: 0 <= j < |rows| ==> now < t.reservations[rows[j]].expiresAt
    ensures var r := CommitAll(t, rows, now, reference);
            r.Ok? && Became(t, r.value, rows, Committed)
  {
    if rows == [] {
    } else {
      hide Inv, Evolves, Became, OneRow, TryResolve, ResolveRow, TryCommit, CommitRow;
      var n := |rows| - 1;
      CommitAllKeeps(t, rows[..n], now, reference);
      var t1 := CommitAll(t, rows[..n], now, reference).value;
      LastUntouched(t, t1, rows, Committed);
      BecameInv(t, t1, rows[..n], Committed);
      var orderRef := t1.reservations[rows[n]].orderRef;
      CommitRowKeeps(t1, rows[n], orderRef, now, reference);
      BecameStep(t, t1, CommitRow(t1, rows[n], orderRef, now, reference), rows, Committed);
    }
  }

  /** A group shares one expiry, so if any member is due, all are. */
  lemma GroupExpiresTogether(t: Tables, g: Id, now: int)
    requires RowsOk(t) && AnyExpired(t.reservations, GroupRows(t.reservations, g), now)
    ensures forall j :: 0 <= j < |GroupRows(t.reservations, g)| ==>
              t.reservations[GroupRows(t.reservations, g)[j]].expiresAt <= now
  {
    var rows := GroupRows(t.reservations, g);
    forall j | 0 <= j < |rows| ensures t.reservations[rows[j]].expiresAt <= now {
      assert rows[j] in rows;
      var k :| 0 <= k < |rows| && t.reservations[rows[k]].expiresAt <= now;
      assert rows[k] in rows;
    }
  }

  /** A group commit commits every member or none; an expired group is expired as a whole, and stays so. */
  lemma CommitGroupAllOrNone(t: Tables, g: Id, p: Principal, now: int)
    requires Inv(t)
    ensures var (t', r) := CommitGroup(t, g, p, now);
            var rows := GroupRows(t.reservations, g);
            && Inv(t') && Evolves(t, t') && t'.records == t.records
            && (forall k :: 0 <= k < |t.reservations| && k !in rows ==> t'.reservations[k] == t.reservations[k])
            && (r.Ok? ==> rows != [] && r.value == rows && AllHave(t'.reservations, rows, Committed))
            && (r == Err(Error.ReservationExpired) ==> rows != [] && AllHave(t'.reservations, rows, Expired))
            && (r.Err? && r != Err(Error.ReservationExpired) ==> t' == t)
            && (LockedGroup(t, g, p).Ok? ==>
                  if AllHave(t.reservations, rows, Committed) then r.Ok?
                  else if !AllHave(t.reservations, rows, Active) then r == Err(GroupNotActive)
                  else if AnyExpired(t.reservations, rows, now) then r == Err(Error.ReservationExpired)
                  else r.Ok?)
  {
    var rows := GroupRows(t.reservations, g);
    if LockedGroup(t, g, p).Ok? && !AllHave(t.reservations, rows, Committed) && AllHave(t.reservations, rows, Active) {
      if AnyExpired(t.reservations, rows, now) {
        GroupExpiresTogether(t, g, now);
        ResolveAllKeeps(t, rows, Expired, Reason.ReservationExpired, now);
      } else {
        CommitAllKeeps(t, rows, now, GroupRef(g));
      }
    }
  }

  lemma ReleaseGroupAllOrNone(t: Tables, g: Id, p: Principal, reason: Reason, now: int)
    requires Inv(t)
    ensures var (t', r) := ReleaseGroup(t, g, p, reason, now);
            var rows := GroupRows(t.reservations, g);
            && Inv(t') && Evolves(t, t') && t'.records == t.records
            && (forall k :: 0 <= k < |t.reservations| && k !in rows ==> t'.reservations[k] == t.reservations[k])
            && (r.Ok? ==> rows != [] && r.value == rows && AllHave(t'.reservations, rows, Released))
            && (r.Err? ==> t' == t)
            && (LockedGroup(t, g, p).Ok? ==>
                  if AllHave(t.reservations, rows, Active) || AllHave(t.reservations, rows, Released)
                  then r.Ok? else r == Err(GroupNotActive))
  {
    var rows := GroupRows(t.reservations, g);
    if LockedGroup(t, g, p).Ok? && !AllHave(t.reservations, rows, Released) && AllHave(t.reservations, rows, Active) {
      ResolveAllKeeps(t, rows, Released, reason, now);
    }
  }

  // ---------------------------------------------------------------- single reservations and the sweep

  lemma CommitReservationKeeps(t: Tables, k: nat, orderRef: string, p: Principal, now: int)
    requires Inv(t)
    ensures var (t', r) := CommitReservation(t, k, orderRef, p, now);
            && Inv(t') && Evolves(t, t')
            && (r.Ok? ==> k < |t'.reservations| && t'.reservations[k].status == Committed)
            && (r.Err? && r != Err(Error.ReservationExpired) ==> t' == t)
  {
    if ActiveRow(t, k, p).Ok? {
      if t.reservations[k].expiresAt <= now {
        ResolveRowKeeps(t, k, Expired, Reason.ReservationExpired, now);
      } else {
        CommitRowKeeps(t, k, Some(orderRef), now, OrderRef(orderRef));
      }
    }
  }

  lemma ReleaseReservationKeeps(t: Tables, k: nat, p: Principal, reason: Reason, now: int)
    requires Inv(t)
    ensures var (t', r) := ReleaseReservation(t, k, p, reason, now);
            && Inv(t') && Evolves(t, t') && (r.Err? ==> t' == t)
            && (r.Ok? ==> k < |t'.reservations| && t'.reservations[k].status == Released)
  {
    if ActiveRow(t, k, p).Ok? {
      ResolveRowKeeps(t, k, Released, reason, now);
    }
  }

  /** From a valid state a sweep skips nothing: exactly the fetched rows expire. */
  lemma {:induction false} SweepKeeps(t: Tables, rows: seq<nat>, now: int)
    requires Inv(t) && Resolvable(t, rows)
    requires forall j :: 0 <= j < |rows| ==> t.reservations[rows[j]].expiresAt <= now
    ensures Became(t, Sweep(t, rows, now), rows, Expired) && SweepCount(t, rows, now) == |rows|
  {
    if rows == [] {
    } else {
      hide Inv, Evolves, Became, OneRow, TryResolve, ResolveRow, TryCommit, CommitRow;
      var n := |rows| - 1;
      SweepKeeps(t, rows[..n], now);
      var t1 := Sweep(t, rows[..n], now);
      LastUntouched(t, t1, rows, Expired);
      BecameInv(t, t1, rows[..n], Expired);
      ResolveRowKeeps(t1, rows[n], Expired, Reason.ReservationExpired, now);
      BecameStep(t, t1, ResolveRow(t1, rows[n], Expired, Reason.ReservationExpired, now), rows, Expired);
    }
  }

  // ---------------------------------------------------------------- batches

  /** Rows a batch may insert one after the other: fresh, of one group, on different items with enough stock. */
  ghost predicate Insertable(t: Tables, rows: seq<Reservation>) {
    && (forall k :: 0 <= k < |rows| ==>
          && rows[k].item in t.items
          && 0 < rows[k].quantity <= t.items[rows[k].item].Available()
          && rows[k].status == Active && rows[k].resolvedAt == None
          && rows[k].group == Some(|t.reservations|)
          && rows[k].expiresAt == rows[0].expiresAt)
    && (forall j, k :: 0 <= j < k < |rows| ==> rows[j].item != rows[k].item)
  }

  /** What inserting rows one after the other leads to. */
  ghost predicate Inserted(t: Tables, t': Tables, rows: seq<Reservation>) {
    && Inv(t') && t'.reservations == t.reservations + rows && t'.records == t.records
    && t.ledger <= t'.ledger && SamePairs(t, t')
    && (forall i :: i in t.items && (forall k :: 0 <= k < |rows| ==> rows[k].item != i) ==> t'.items[i] == t.items[i])
  }

  lemma InsertedStep(t: Tables, t1: Tables, rows: seq<Reservation>, reference: Reference)
    requires rows != [] && Insertable(t, rows) && Inserted(t, t1, rows[..|rows| - 1])
    requires Inv(ReserveRow(t1, rows[|rows| - 1], reference))
    ensures Inserted(t, ReserveRow(t1, rows[|rows| - 1], reference), rows)
  {
    var row := rows[|rows| - 1];
    assert row.item in t1.items;
    hide Inv, Insertable, Move, SamePairs, Inserted;
    MoveShape(t1, t1.reservations + [row], row.item, 0, row.quantity, Reserve, CustomerOrder, reference);
    InsertedMore(t, t1, ReserveRow(t1, row, reference), rows);
  }

  lemma InsertedMore(t: Tables, t1: Tables, t2: Tables, rows: seq<Reservation>)
    requires rows != [] && Inserted(t, t1, rows[..|rows| - 1]) && Inv(t2)
    requires var row := rows[|rows| - 1];
             && t2.reservations == t1.reservations + [row] && t2.records == t1.records
             && SamePairs(t1, t2) && t1.ledger <= t2.ledger
             && forall i :: i in t1.items && i != row.item ==> i in t2.items && t2.items[i] == t1.items[i]
    ensures Inserted(t, t2, rows)
  {
    hide Inv, SamePairs;
    var n := |rows| - 1;
    SamePairsTransitive(t, t1, t2);
    assert t.reservations + rows == t.reservations + rows[..n] + [rows[n]];
    forall i | i in t.items && (forall k :: 0 <= k < |rows| ==> rows[k].item != i)
      ensures i in t2.items && t2.items[i] == t.items[i]
    {
      SamePairsItem(t, t1, i);
    }
    SamePairsKeys(t, t2);
  }

  lemma SamePairsKeys(a: Tables, b: Tables)
    requires SamePairs(a, b)
    ensures forall i :: i in a.items ==> i in b.items
  {
  }

  lemma SamePairsTransitive(a: Tables, b: Tables, c: Tables)
    requires SamePairs(a, b) && SamePairs(b, c)
    ensures SamePairs(a, c)
  {
  }

  lemma SamePairsItem(a: Tables, b: Tables, i: Id)
    requires SamePairs(a, b) && i in a.items
    ensures i in b.items
  {
  }

  lemma {:induction false} ReserveAllKeeps(t: Tables, rows: seq<Reservation>, reference: Reference)
    requires Inv(t) && Insertable(t, rows)
    ensures Inserted(t, ReserveAll(t, rows, reference), rows)
  {
    if rows == [] {
    } else {
      var n := |rows| - 1;
      InsertableFront(t, rows);
      hide Inv, MayJoin, Inserted;
      ReserveAllKeeps(t, rows[..n], reference);
      var t1 := ReserveAll(t, rows[..n], reference);
      NextInsertable(t, t1, rows);
      hide Insertable;
      ReserveRowKeeps(t1, rows[n], reference);
      InsertedStep(t, t1, rows, reference);
    }
  }

  /** The next row still finds its item as it was. */
  lemma NextInsertable(t: Tables, t1: Tables, rows: seq<Reservation>)
    requires Inv(t) && rows != [] && Insertable(t, rows) && Inserted(t, t1, rows[..|rows| - 1])
    ensures var r := rows[|rows| - 1];
            && Inv(t1) && r.item in t1.items && 0 < r.quantity <= t1.items[r.item].Available()
            && r.status == Active && r.resolvedAt == None && MayJoin(t1.reservations, r)
  {
    JoinsGroup(t, rows, |rows| - 1);
    hide Inv, MayJoin;
    var r := rows[|rows| - 1];
    assert t1.items[r.item] == t.items[r.item];
  }

  lemma InsertableFront(t: Tables, rows: seq<Reservation>)
    requires rows != [] && Insertable(t, rows)
    ensures Insertable(t, rows[..|rows| - 1])
  {
  }

  lemma JoinsGroup(t: Tables, rows: seq<Reservation>, n: nat)
    requires Inv(t) && Insertable(t, rows) && n < |rows|
    ensures MayJoin(t.reservations + rows[..n], rows[n])
  {
    assert forall k :: 0 <= k < |t.reservations| && t.reservations[k].group.Some? ==>
        t.reservations[k].group.value <= k;
  }

  lemma BatchRowsInsertable(t: Tables, data: BatchData, at: int)
    requires ValidBatch(data)
    ensures Insertable(t, BatchRows(t, data, at))
  {
    var takes := BatchTakes(t.items, data.lines);
    BatchTakesFromLines(t.items, data.lines);
    BatchTakesDistinct(t.items, data.lines);
    forall k | 0 <= k < |takes|
      ensures takes[k].item in t.items && 0 < takes[k].quantity <= t.items[takes[k].item].Available()
    {
      assert FromLine(t.items, data.lines, takes[k]);
    }
  }

  /** A valid batch that the stock can serve reserves something, so its group is not empty. */
  lemma BatchRowsNonEmpty(t: Tables, data: BatchData, at: int)
    requires ValidBatch(data) && BatchError(t.items, data.lines).None?
    ensures BatchRows(t, data, at) != []
  {
    var last := |data.lines| - 1;
    var line := data.lines[last];
    LineServedInFull(t.items, line);
    assert LineTakes(t.items, line) != [];
  }

  lemma ReserveAllEvolves(t: Tables, t': Tables, rows: seq<Reservation>)
    requires t'.reservations == t.reservations + rows && t.ledger <= t'.ledger && SamePairs(t, t')
    requires forall k :: 0 <= k < |rows| ==> rows[k].group == Some(|t.reservations|)
    requires forall key :: key in t.records ==> key in t'.records && t'.records[key] == t.records[key]
    ensures Evolves(t, t')
  {
  }

  /** Writing the record of a request that was not known before. */
  lemma RememberKeeps(t: Tables, t1: Tables, actor: Id, key: Option<string>, request: Request, resource: Id)
    requires Inv(t1) && Evolves(t, t1) && t1.records == t.records
    requires key.Some? ==> Key(actor, key.value) !in t.records
    requires RecordOk(t1, Record(request, resource))
    ensures Inv(Remember(t1, actor, key, request, resource))
    ensures Evolves(t, Remember(t1, actor, key, request, resource))
  {
    var t' := Remember(t1, actor, key, request, resource);
    assert StockOk(t') by {
      forall i | i in t'.items ensures ItemOk(t', i) { assert ItemOk(t1, i); }
    }
    forall k | k in t'.records ensures RecordOk(t', t'.records[k]) {
      if k in t.records { assert RecordOk(t1, t1.records[k]); }
    }
  }

  /** A record found under the key of a request names an existing resource of that request. */
  lemma LookupFinds(t: Tables, actor: Id, key: Option<string>, request: Request)
    requires Inv(t) && Lookup(t, actor, key, request).Ok?
    ensures var found := Lookup(t, actor, key, request).value;
            if found.Some? then found.value.request == request && RecordOk(t, found.value)
            else key.Some? ==> Key(actor, key.value) !in t.records
  {
    if Lookup(t, actor, key, request).value.Some? {
      assert RecordOk(t, t.records[Key(actor, key.value)]);
    }
  }
}
