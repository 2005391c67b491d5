/** What the reservations of a group amount to, line by line. */
module Fulfilment {
  import opened Common
  import opened Inventory
  import opened StockInvariant
  import opened Allocation
  import opened InventoryRuns

  /** Row r belongs to group g and reserves stock of the pair. */
  predicate Serves(r: Reservation, items: map<Id, Item>, g: Id, seller: Id, sku: string) {
    r.group == Some(g) && r.item in items && items[r.item].seller == seller && items[r.item].sku == sku
  }

  /** The quantity of a pair that the rows of group g hold in one of the given statuses. */
  function GroupQuantity(rs: seq<Reservation>, items: map<Id, Item>, g: Id, seller: Id, sku: string,
                         statuses: set<Status>): int
  {
    if rs == [] then 0 else
    var r := rs[|rs| - 1];
    GroupQuantity(rs[..|rs| - 1], items, g, seller, sku, statuses)
      + if Serves(r, items, g, seller, sku) && r.status in statuses then r.quantity else 0
  }

  const ANY_STATUS: set<Status> := {Active, Committed, Released, Expired}

  ghost predicate GroupExists(t: Tables, g: Id) {
    g < |t.reservations| && t.reservations[g].group == Some(g)
  }

  ghost predicate GroupAll(t: Tables, g: Id, status: Status) {
    forall k :: 0 <= k < |t.reservations| && t.reservations[k].group == Some(g) ==> t.reservations[k].status == status
  }

  /** A member was given back or ran out: the group can no longer be shipped as a whole. */
  ghost predicate GroupDead(t: Tables, g: Id) {
    exists k :: 0 <= k < |t.reservations| && t.reservations[k].group == Some(g)
                && (t.reservations[k].status == Released || t.reservations[k].status == Expired)
  }

  lemma GroupStays(t: Tables, t': Tables, g: Id)
    requires Evolves(t, t') && GroupExists(t, g)
    ensures GroupExists(t', g)
    ensures GroupAll(t, g, Committed) ==> GroupAll(t', g, Committed)
    ensures GroupDead(t, g) ==> GroupDead(t', g)
  {
    assert SameIdentity(t.reservations[g], t'.reservations[g]);
    if GroupAll(t, g, Committed) {
      forall k | 0 <= k < |t'.reservations| && t'.reservations[k].group == Some(g)
        ensures t'.reservations[k].status == Committed
      {
        if k < |t.reservations| {
          assert SameIdentity(t.reservations[k], t'.reservations[k]);
        }
      }
    }
    if GroupDead(t, g) {
      var k :| 0 <= k < |t.reservations| && t.reservations[k].group == Some(g)
               && (t.reservations[k].status == Released || t.reservations[k].status == Expired);
      assert t'.reservations[k] == t.reservations[k];
    }
  }

  lemma EveryStatus(status: Status)
    ensures status in ANY_STATUS
  {
  }

  lemma {:induction false} SameRowsSameQuantity(rs: seq<Reservation>, rs': seq<Reservation>, items: map<Id, Item>,
                                                items': map<Id, Item>, g: Id, seller: Id, sku: string)
    requires |rs| == |rs'|
    requires forall k :: 0 <= k < |rs| ==> SameIdentity(rs[k], rs'[k]) && rs[k].item in items
    requires forall i :: i in items ==>
               i in items' && items'[i].seller == items[i].seller && items'[i].sku == items[i].sku
    ensures GroupQuantity(rs', items', g, seller, sku, ANY_STATUS) == GroupQuantity(rs, items, g, seller, sku, ANY_STATUS)
  {
    if rs == [] {
    } else {
      var n := |rs| - 1;
      SameRowsSameQuantity(rs[..n], rs'[..n], items, items', g, seller, sku);
      EveryStatus(rs[n].status);
      EveryStatus(rs'[n].status);
      assert SameIdentity(rs[n], rs'[n]);
    }
  }

  lemma {:induction false} LaterRowsAddNothing(rs: seq<Reservation>, n: nat, items: map<Id, Item>,
                                               g: Id, seller: Id, sku: string)
    requires n <= |rs| && forall k :: n <= k < |rs| ==> rs[k].group != Some(g)
    ensures GroupQuantity(rs, items, g, seller, sku, ANY_STATUS) == GroupQuantity(rs[..n], items, g, seller, sku, ANY_STATUS)
    decreases |rs|
  {
    if n < |rs| {
      LaterRowsAddNothing(rs[..|rs| - 1], n, items, g, seller, sku);
      assert rs[..|rs| - 1][..n] == rs[..n];
    } else {
      assert rs[..n] == rs;
    }
  }

  /** The quantities of a group are fixed when it is created. */
  lemma GroupQuantityStays(t: Tables, t': Tables, g: Id, seller: Id, sku: string)
    requires Evolves(t, t') && RowsOk(t) && GroupExists(t, g)
    ensures GroupQuantity(t'.reservations, t'.items, g, seller, sku, ANY_STATUS)
            == GroupQuantity(t.reservations, t.items, g, seller, sku, ANY_STATUS)
  {
    var n := |t.reservations|;
    LaterRowsAddNothing(t'.reservations, n, t'.items, g, seller, sku);
    SameRowsSameQuantity(t.reservations, t'.reservations[..n], t.items, t'.items, g, seller, sku);
  }

  /** Of a fully committed group everything counts as shipped. */
  lemma {:induction false} CommittedGroupShips(rs: seq<Reservation>, items: map<Id, Item>, g: Id, seller: Id, sku: string)
    requires forall k :: 0 <= k < |rs| && rs[k].group == Some(g) ==> rs[k].status == Committed
    ensures GroupQuantity(rs, items, g, seller, sku, {Committed}) == GroupQuantity(rs, items, g, seller, sku, ANY_STATUS)
  {
    if rs == [] {
    } else {
      EveryStatus(rs[|rs| - 1].status);
      CommittedGroupShips(rs[..|rs| - 1], items, g, seller, sku);
    }
  }

  // ---------------------------------------------------------------- a new group serves its lines in full

  function PairQuantity(items: map<Id, Item>, takes: seq<Take>, seller: Id, sku: string): int {
    if takes == [] then 0 else
    var last := takes[|takes| - 1];
    PairQuantity(items, takes[..|takes| - 1], seller, sku)
      + if last.item in items && items[last.item].seller == seller && items[last.item].sku == sku then last.quantity else 0
  }

  lemma {:induction false} PairAppend(items: map<Id, Item>, a: seq<Take>, b: seq<Take>, seller: Id, sku: string)
    ensures PairQuantity(items, a + b, seller, sku) == PairQuantity(items, a, seller, sku) + PairQuantity(items, b, seller, sku)
  {
    if b == [] {
      assert a + b == a;
    } else {
      assert (a + b)[..|a + b| - 1] == a + b[..|b| - 1];
      PairAppend(items, a, b[..|b| - 1], seller, sku);
    }
  }

  lemma {:induction false} PairOfLine(items: map<Id, Item>, line: Line, takes: seq<Take>, seller: Id, sku: string)
    requires AllJustified(items, line, takes)
    ensures PairQuantity(items, takes, seller, sku)
            == if line.seller == seller && line.sku == sku then Quantity(takes) else 0
  {
    if takes == [] {
    } else {
      assert Justified(items, line, takes[|takes| - 1]);
      PairOfLine(items, line, takes[..|takes| - 1], seller, sku);
    }
  }

  /** What the lines ask of a pair. */
  function Asked(lines: seq<Line>, seller: Id, sku: string): int {
    if lines == [] then 0 else
    var last := lines[|lines| - 1];
    Asked(lines[..|lines| - 1], seller, sku) + if last.seller == seller && last.sku == sku then last.quantity else 0
  }

  /** A batch that succeeds takes of each pair exactly what its lines ask. */
  lemma {:induction false} BatchServesLines(items: map<Id, Item>, lines: seq<Line>, seller: Id, sku: string)
    requires BatchError(items, lines).None? && forall n :: 0 <= n < |lines| ==> 0 <= lines[n].quantity
    ensures PairQuantity(items, BatchTakes(items, lines), seller, sku) == Asked(lines, seller, sku)
  {
    if lines == [] {
    } else {
      var n := |lines| - 1;
      BatchServesLines(items, lines[..n], seller, sku);
      PairAppend(items, BatchTakes(items, lines[..n]), LineTakes(items, lines[n]), seller, sku);
      LineTakesJustified(items, lines[n]);
      PairOfLine(items, lines[n], LineTakes(items, lines[n]), seller, sku);
      LineServedInFull(items, lines[n]);
    }
  }

  lemma {:induction false} NewRowsQuantity(rs: seq<Reservation>, items: map<Id, Item>, data: BatchData, takes: seq<Take>,
                                           at: int, seller: Id, sku: string)
    requires forall k :: 0 <= k < |rs| ==> rs[k].group != Some(|rs|)
    requires forall k :: 0 <= k < |takes| ==> takes[k].item in items
    ensures GroupQuantity(rs + seq(|takes|, k requires 0 <= k < |takes| => RowOf(data, takes[k], |rs|, at)),
                          items, |rs|, seller, sku, ANY_STATUS)
            == PairQuantity(items, takes, seller, sku)
  {
    var rows := seq(|takes|, k requires 0 <= k < |takes| => RowOf(data, takes[k], |rs|, at));
    if takes == [] {
      assert rs + rows == rs;
      NoRows(rs, items, |rs|, seller, sku);
    } else {
      var n := |takes| - 1;
      NewRowsQuantity(rs, items, data, takes[..n], at, seller, sku);
      assert (rs + rows)[..|rs| + n]
          == rs + seq(n, k requires 0 <= k < n => RowOf(data, takes[..n][k], |rs|, at));
      assert (rs + rows)[|rs| + n] == RowOf(data, takes[n], |rs|, at);
    }
  }

  lemma {:induction false} NoRows(rs: seq<Reservation>, items: map<Id, Item>, g: Id, seller: Id, sku: string)
    requires forall k :: 0 <= k < |rs| ==> rs[k].group != Some(g)
    ensures GroupQuantity(rs, items, g, seller, sku, ANY_STATUS) == 0
  {
    if rs == [] {
    } else {
      NoRows(rs[..|rs| - 1], items, g, seller, sku);
    }
  }

  lemma GroupIsNew(t: Tables)
    requires RowsOk(t)
    ensures forall k :: 0 <= k < |t.reservations| ==> t.reservations[k].group != Some(|t.reservations|)
  {
    assert forall k :: 0 <= k < |t.reservations| && t.reservations[k].group.Some? ==> t.reservations[k].group.value <= k;
  }

  lemma NewRowsOnItems(t: Tables, data: BatchData, at: int)
    requires RowsOk(t)
    ensures forall k :: 0 <= k < |t.reservations + BatchRows(t, data, at)| ==>
              (t.reservations + BatchRows(t, data, at))[k].item in t.items
  {
    BatchTakesInItems(t.items, data.lines);
  }

  lemma NewGroupPairs(t: Tables, data: BatchData, at: int, seller: Id, sku: string)
    requires RowsOk(t) && ValidBatch(data) && BatchError(t.items, data.lines).None?
    ensures GroupQuantity(t.reservations + BatchRows(t, data, at), t.items, |t.reservations|, seller, sku, ANY_STATUS)
            == Asked(data.lines, seller, sku)
  {
    GroupIsNew(t);
    BatchTakesInItems(t.items, data.lines);
    BatchServesLines(t.items, data.lines, seller, sku);
    NewRowsQuantity(t.reservations, t.items, data, BatchTakes(t.items, data.lines), at, seller, sku);
    hide RowsOk, BatchError, ValidBatch, BatchTakes, RowOf, GroupQuantity;
  }

  /** A batch that is not a replay opens a group that holds, pair by pair, what its lines ask. */
  lemma NewGroupServesLines(t: Tables, t': Tables, data: BatchData, at: int, seller: Id, sku: string)
    requires RowsOk(t) && Evolves(t, t') && ValidBatch(data) && BatchError(t.items, data.lines).None?
    requires t'.reservations == t.reservations + BatchRows(t, data, at)
    ensures GroupQuantity(t'.reservations, t'.items, |t.reservations|, seller, sku, ANY_STATUS)
            == Asked(data.lines, seller, sku)
  {
    NewRowsOnItems(t, data, at);
    NewGroupPairs(t, data, at, seller, sku);
    hide RowsOk, BatchError, ValidBatch, BatchRows, GroupQuantity;
    SameRowsSameQuantity(t'.reservations, t'.reservations, t.items, t'.items, |t.reservations|, seller, sku);
  }
}
