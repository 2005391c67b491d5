/** The availability the inventory service reports for a SKU, against what a batch line can get. */
module Availability {
  import opened Common
  import opened Inventory

  /** `get_availability`: the active rows of a SKU, whoever sells from them. */
  function RowsOfSku(items: map<Id, Item>, sku: string): (ids: seq<Id>)
    ensures Ascending(ids)
    ensures forall i :: i in ids <==> i in items && items[i].sku == sku && items[i].isActive
  {
    SortedIds(set i | i in items && items[i].sku == sku && items[i].isActive)
  }

  function Reported(items: map<Id, Item>, sku: string): int {
    Sum(Availabilities(items, RowsOfSku(items, sku)))
  }

  lemma AvailabilitiesFront(items: map<Id, Item>, ids: seq<Id>)
    requires ids != [] && forall i :: i in ids ==> i in items
    ensures Sum(Availabilities(items, ids))
            == Sum(Availabilities(items, ids[..|ids| - 1])) + items[ids[|ids| - 1]].Available()
  {
    assert Availabilities(items, ids)[..|ids| - 1] == Availabilities(items, ids[..|ids| - 1]);
  }

  /** The rows of `ids` that belong to the seller, or those that do not. */
  function Share(items: map<Id, Item>, ids: seq<Id>, seller: Id, own: bool): (share: seq<Id>)
    requires forall i :: i in ids ==> i in items
    ensures forall i :: i in share <==> i in ids && (items[i].seller == seller) == own
  {
    if ids == [] then [] else
    var last := ids[|ids| - 1];
    var front := Share(items, ids[..|ids| - 1], seller, own);
    assert ids == ids[..|ids| - 1] + [last];
    if (items[last].seller == seller) == own then front + [last] else front
  }

  lemma {:induction false} ShareAscends(items: map<Id, Item>, ids: seq<Id>, seller: Id, own: bool)
    requires Ascending(ids) && forall i :: i in ids ==> i in items
    ensures Ascending(Share(items, ids, seller, own))
  {
    if ids == [] {
    } else {
      ShareAscends(items, ids[..|ids| - 1], seller, own);
      var front := Share(items, ids[..|ids| - 1], seller, own);
      forall k | 0 <= k < |front| ensures front[k] < ids[|ids| - 1] {
        assert front[k] in front;
      }
    }
  }

  /** What is available splits into the seller's part and the others'. */
  lemma {:induction false} SharesAddUp(items: map<Id, Item>, ids: seq<Id>, seller: Id)
    requires forall i :: i in ids ==> i in items
    ensures Sum(Availabilities(items, ids))
            == Sum(Availabilities(items, Share(items, ids, seller, true)))
               + Sum(Availabilities(items, Share(items, ids, seller, false)))
  {
    if ids == [] {
      assert Availabilities(items, ids) == [];
    } else {
      var front, last := ids[..|ids| - 1], ids[|ids| - 1];
      SharesAddUp(items, front, seller);
      AvailabilitiesFront(items, ids);
      var own := items[last].seller == seller;
      var share := Share(items, ids, seller, own);
      AvailabilitiesFront(items, share);
      assert share[..|share| - 1] == Share(items, front, seller, own);
    }
  }

  /** Rows that are not overdrawn sum to nothing exactly when each of them holds nothing. */
  lemma {:induction false} NothingAvailableIff(items: map<Id, Item>, ids: seq<Id>)
    requires forall i :: i in ids ==> i in items && 0 <= items[i].Available()
    ensures 0 <= Sum(Availabilities(items, ids))
    ensures Sum(Availabilities(items, ids)) == 0 <==> forall i :: i in ids ==> items[i].Available() == 0
  {
    if ids == [] {
      assert Availabilities(items, ids) == [];
    } else {
      NothingAvailableIff(items, ids[..|ids| - 1]);
      AvailabilitiesFront(items, ids);
      assert ids == ids[..|ids| - 1] + [ids[|ids| - 1]];
    }
  }

  /** What the seller's own active rows of the SKU have, which is what a batch line draws on. */
  function Own(items: map<Id, Item>, seller: Id, sku: string): int {
    Sum(Availabilities(items, Candidates(items, seller, sku)))
  }

  /** Other sellers' active rows of the SKU hold nothing. */
  predicate OthersHoldNothing(items: map<Id, Item>, seller: Id, sku: string) {
    forall i :: i in items && items[i].sku == sku && items[i].isActive && items[i].seller != seller ==>
      items[i].Available() == 0
  }

  lemma OwnAgainstReport(items: map<Id, Item>, seller: Id, sku: string)
    requires forall i :: i in items ==> items[i].Checks()
    ensures 0 <= Own(items, seller, sku) <= Reported(items, sku)
    ensures Own(items, seller, sku) == Reported(items, sku) <==> OthersHoldNothing(items, seller, sku)
  {
    var all := RowsOfSku(items, sku);
    var own, others := Share(items, all, seller, true), Share(items, all, seller, false);
    ShareAscends(items, all, seller, true);
    AscendingUnique(own, Candidates(items, seller, sku));
    SharesAddUp(items, all, seller);
    NothingAvailableIff(items, own);
    NothingAvailableIff(items, others);
  }

  lemma LineNeedsOwn(items: map<Id, Item>, line: Line)
    requires 0 < line.quantity
    ensures LineError(items, line).None? <==> line.quantity <= Own(items, line.seller, line.sku)
  {
    var own := Candidates(items, line.seller, line.sku);
    if own == [] {
      assert Availabilities(items, own) == [];
    }
  }

  /** The report never understates: what a line can get is reported as available. */
  lemma ReportBoundsLine(items: map<Id, Item>, line: Line)
    requires forall i :: i in items ==> items[i].Checks()
    requires 0 < line.quantity
    ensures LineError(items, line).None? ==> line.quantity <= Reported(items, line.sku)
  {
    LineNeedsOwn(items, line);
    OwnAgainstReport(items, line.seller, line.sku);
  }

  /** The report decides every line of a seller exactly when no other seller's active row of the SKU
      holds anything. */
  lemma ReportDecidesIff(items: map<Id, Item>, seller: Id, sku: string)
    requires forall i :: i in items ==> items[i].Checks()
    ensures (forall quantity :: 0 < quantity ==>
               (LineError(items, Line(seller, sku, quantity)).None? <==> quantity <= Reported(items, sku)))
            <==> OthersHoldNothing(items, seller, sku)
  {
    OwnAgainstReport(items, seller, sku);
    forall quantity | 0 < quantity
      ensures LineError(items, Line(seller, sku, quantity)).None? <==> quantity <= Own(items, seller, sku)
    {
      LineNeedsOwn(items, Line(seller, sku, quantity));
    }
    var reported := Reported(items, sku);
    if Own(items, seller, sku) < reported {
      assert LineError(items, Line(seller, sku, reported)).Some?;
    }
  }

  /** The failing family has a member: the stock of another seller is counted in. */
  lemma ReportMayOverstate(a: Id, b: Id, sku: string, warehouse: Id)
    requires a != b
    ensures var items := map[0 := Item(a, sku, warehouse, 0, 0, 0, true, 1), 1 := Item(b, sku, warehouse + 1, 5, 0, 0, true, 1)];
            !OthersHoldNothing(items, a, sku)
            && 1 <= Reported(items, sku) && LineError(items, Line(a, sku, 1)) == Some(InsufficientStock)
  {
    var items := map[0 := Item(a, sku, warehouse, 0, 0, 0, true, 1), 1 := Item(b, sku, warehouse + 1, 5, 0, 0, true, 1)];
    assert 1 in items && items[1].Available() == 5;
    OwnAgainstReport(items, a, sku);
    OnlyRow(items, a, sku, 0);
    LineNeedsOwn(items, Line(a, sku, 1));
  }

  lemma OnlyRow(items: map<Id, Item>, seller: Id, sku: string, i: Id)
    requires forall k :: k in items && items[k].seller == seller && items[k].sku == sku && items[k].isActive <==> k == i
    ensures Candidates(items, seller, sku) == [i] && Own(items, seller, sku) == items[i].Available()
  {
    var only := [i];
    AscendingUnique(Candidates(items, seller, sku), only);
    AvailabilitiesFront(items, only);
    assert only[..0] == [] && Availabilities(items, only[..0]) == [];
  }
}
