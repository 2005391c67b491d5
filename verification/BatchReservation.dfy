/** The facts that let the batch loop of `InventoryService` meet its specification. */
module BatchReservation {
  import opened Common
  import opened Inventory
  import opened Allocation

  function Reserved(item: Item, quantity: int): Item {
    item.(reserved := item.reserved + quantity, version := item.version + 1)
  }

  /** The item rows after the given takes. */
  function ApplyTakes(items: map<Id, Item>, takes: seq<Take>): (items': map<Id, Item>)
    requires forall k :: 0 <= k < |takes| ==> takes[k].item in items
    ensures items'.Keys == items.Keys
  {
    if takes == [] then items else
    var earlier := ApplyTakes(items, takes[..|takes| - 1]);
    var last := takes[|takes| - 1];
    earlier[last.item := Reserved(earlier[last.item], last.quantity)]
  }

  lemma ApplyOne(items: map<Id, Item>, takes: seq<Take>, take: Take)
    requires take.item in items && forall k :: 0 <= k < |takes| ==> takes[k].item in items
    ensures ApplyTakes(items, takes + [take])
            == ApplyTakes(items, takes)[take.item := Reserved(ApplyTakes(items, takes)[take.item], take.quantity)]
  {
    assert (takes + [take])[..|takes|] == takes;
  }

  lemma {:induction false} ApplyElsewhere(items: map<Id, Item>, takes: seq<Take>, i: Id)
    requires i in items && forall k :: 0 <= k < |takes| ==> takes[k].item in items && takes[k].item != i
    ensures ApplyTakes(items, takes)[i] == items[i]
  {
    if takes == [] {
    } else {
      ApplyElsewhere(items, takes[..|takes| - 1], i);
    }
  }

  lemma {:induction false} ApplyOnce(items: map<Id, Item>, takes: seq<Take>, k: nat)
    requires k < |takes| && DistinctItems(takes) && forall k :: 0 <= k < |takes| ==> takes[k].item in items
    ensures ApplyTakes(items, takes)[takes[k].item] == Reserved(items[takes[k].item], takes[k].quantity)
  {
    var n := |takes| - 1;
    if k == n {
      ApplyElsewhere(items, takes[..n], takes[n].item);
    } else {
      ApplyOnce(items, takes[..n], k);
    }
  }

  function Rows(data: BatchData, takes: seq<Take>, group: Id, at: int): seq<Reservation> {
    seq(|takes|, k requires 0 <= k < |takes| => RowOf(data, takes[k], group, at))
  }

  /** The ledger row of one take, given the item rows before the batch. */
  function Entry(items: map<Id, Item>, take: Take, reference: Reference): Movement
    requires take.item in items
  {
    var item := Reserved(items[take.item], take.quantity);
    Movement(take.item, Reserve, CustomerOrder, 0, take.quantity, item.onHand, item.reserved, reference)
  }

  function Entries(items: map<Id, Item>, takes: seq<Take>, reference: Reference): seq<Movement>
    requires forall k :: 0 <= k < |takes| ==> takes[k].item in items
  {
    seq(|takes|, k requires 0 <= k < |takes| => Entry(items, takes[k], reference))
  }

  /** Writing all counters first and one movement per touched item afterwards comes to the same tables
      as reserving row after row, because no item is touched twice. */
  lemma {:induction false} LedgerMayWait(t: Tables, data: BatchData, takes: seq<Take>, group: Id, at: int, reference: Reference)
    requires DistinctItems(takes) && forall k :: 0 <= k < |takes| ==> takes[k].item in t.items
    ensures ReserveAll(t, Rows(data, takes, group, at), reference)
            == t.(items := ApplyTakes(t.items, takes),
                  reservations := t.reservations + Rows(data, takes, group, at),
                  ledger := t.ledger + Entries(t.items, takes, reference))
  {
    var rows := Rows(data, takes, group, at);
    if takes == [] {
      assert t.reservations + rows == t.reservations;
      assert t.ledger + Entries(t.items, takes, reference) == t.ledger;
    } else {
      var n := |takes| - 1;
      LedgerMayWait(t, data, takes[..n], group, at, reference);
      ApplyElsewhere(t.items, takes[..n], takes[n].item);
      var t1 := ReserveAll(t, rows[..n], reference);
      LastRow(t.reservations, data, takes, group, at);
      LastEntry(t, takes, reference);
      ReserveRowIsApply(t, t1, rows[n], takes[n], reference);
      hide ReserveRow, Rows, Entries, Entry, RowOf, Reserved, DistinctItems;
    }
  }

  lemma LastRow(rs: seq<Reservation>, data: BatchData, takes: seq<Take>, group: Id, at: int)
    requires takes != []
    ensures var rows, n := Rows(data, takes, group, at), |takes| - 1;
            && rows[..n] == Rows(data, takes[..n], group, at)
            && rows[n] == RowOf(data, takes[n], group, at)
            && rs + rows == rs + rows[..n] + [rows[n]]
  {
  }

  lemma LastEntry(t: Tables, takes: seq<Take>, reference: Reference)
    requires takes != [] && forall k :: 0 <= k < |takes| ==> takes[k].item in t.items
    ensures var n := |takes| - 1;
            t.ledger + Entries(t.items, takes, reference)
            == t.ledger + Entries(t.items, takes[..n], reference) + [Entry(t.items, takes[n], reference)]
  {
  }

  lemma ReserveRowIsApply(t: Tables, t1: Tables, row: Reservation, take: Take, reference: Reference)
    requires take.item in t.items && take.item in t1.items && t1.items[take.item] == t.items[take.item]
    requires row.item == take.item && row.quantity == take.quantity
    ensures ReserveRow(t1, row, reference)
            == t1.(items := t1.items[take.item := Reserved(t1.items[take.item], take.quantity)],
                   reservations := t1.reservations + [row],
                   ledger := t1.ledger + [Entry(t.items, take, reference)])
  {
  }

  /** Once the quantity is found, later rows give nothing. */
  lemma {:induction false} RestGivesNothing(ids: seq<Id>, a: seq<int>, quantity: int, j: nat, n: nat)
    requires |ids| == |a| && j <= n <= |a| && 0 <= quantity
    requires quantity <= GivenBefore(a, j)
    ensures Takes(ids, a, quantity, n) == Takes(ids, a, quantity, j)
    decreases n
  {
    if j < n {
      RestGivesNothing(ids, a, quantity, j, n - 1);
      GivenBeforeMonotone(a, j, n - 1);
      assert Share(a, quantity, n - 1) == 0;
    }
  }

  /** The rows of a line's pair are untouched by the other lines of a valid batch. */
  lemma PairUntouched(items: map<Id, Item>, lines: seq<Line>, n: nat, takes: seq<Take>, i: Id)
    requires n < |lines| && UniquePairs(lines) && takes == BatchTakes(items, lines[..n])
    requires i in Candidates(items, lines[n].seller, lines[n].sku)
    ensures forall k :: 0 <= k < |takes| ==> takes[k].item in items && takes[k].item != i
  {
    BatchTakesFromLines(items, lines[..n]);
    forall k | 0 <= k < |takes| ensures takes[k].item in items && takes[k].item != i {
      assert FromLine(items, lines[..n], takes[k]);
      var m :| 0 <= m < n && Justified(items, lines[..n][m], takes[k]);
    }
  }

  lemma {:induction false} ErrorOfPrefix(items: map<Id, Item>, lines: seq<Line>, n: nat)
    requires n <= |lines| && BatchError(items, lines[..n]).Some?
    ensures BatchError(items, lines) == BatchError(items, lines[..n])
    decreases |lines|
  {
    if n < |lines| {
      var last := |lines| - 1;
      assert lines[..last][..n] == lines[..n];
      ErrorOfPrefix(items, lines[..last], n);
    } else {
      assert lines[..n] == lines;
    }
  }

  lemma BatchPrefix(items: map<Id, Item>, lines: seq<Line>, n: nat)
    requires n < |lines|
    ensures BatchTakes(items, lines[..n + 1]) == BatchTakes(items, lines[..n]) + LineTakes(items, lines[n])
    ensures BatchError(items, lines[..n + 1])
            == if BatchError(items, lines[..n]).Some? then BatchError(items, lines[..n]) else LineError(items, lines[n])
  {
    hide LineTakes, LineError;
    assert lines[..n + 1][..n] == lines[..n];
  }
}
