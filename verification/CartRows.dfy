/**
 What each cart call does row by row. Item ids are drawn fresh, so an id names one row, in every cart of every run;
 a call changes the row it names and nothing else.
 */
module CartRows {
  import opened Common
  import opened Carts
  import opened CartLaws

  // ---------------------------------------------------------------- an id names one row

  ghost predicate ItemIds(items: seq<Item>, bound: Id) {
    && (forall k :: 0 <= k < |items| ==> items[k].id < bound)
    && (forall j, k :: 0 <= j < k < |items| ==> items[j].id != items[k].id)
  }

  ghost predicate SavedIds(saved: seq<Saved>, bound: Id) {
    && (forall k :: 0 <= k < |saved| ==> saved[k].id < bound)
    && (forall j, k :: 0 <= j < k < |saved| ==> saved[j].id != saved[k].id)
  }

  ghost predicate IdsOk(c: Cart) {
    ItemIds(c.items, c.nextId) && SavedIds(c.saved, c.nextId)
  }

  lemma ApplyKeepsIds(l: Limits, c: Cart, w: Write, expected: nat, now: int)
    requires IdsOk(c)
    ensures Apply(l, c, w, expected, now).Ok? ==> IdsOk(Apply(l, c, w, expected, now).value)
  {
    hide IdsOk, Add, UpdateQuantity, Remove, SaveForLater, MoveToCart, DeleteSaved, Clear, RefreshPrices;
    match w
    case AddItem(v, quantity, snapshot) => AddKeepsIds(l, c, v, quantity, snapshot, expected, now);
    case UpdateItem(id, quantity) => UpdateKeepsIds(l, c, id, quantity, expected, now);
    case RemoveItem(id) => RemoveKeepsIds(c, id, expected, now);
    case SaveItem(id) => SaveKeepsIds(c, id, expected, now);
    case MoveSaved(id, snapshot) => MoveKeepsIds(l, c, id, snapshot, expected, now);
    case DropSaved(id) => DropKeepsIds(c, id, expected, now);
    case ClearItems => ClearKeepsIds(c, expected, now);
    case Readiness(prices) => ReadinessKeepsIds(c, prices, expected, now);
  }

  lemma AddKeepsIds(l: Limits, c: Cart, v: Id, quantity: int, snapshot: Snapshot, expected: nat, now: int)
    requires IdsOk(c)
    ensures var r := Add(l, c, v, quantity, snapshot, expected, now); r.Ok? ==> IdsOk(r.value)
  {
    hide Guard;
  }

  lemma UpdateKeepsIds(l: Limits, c: Cart, id: Id, quantity: int, expected: nat, now: int)
    requires IdsOk(c)
    ensures var r := UpdateQuantity(l, c, id, quantity, expected, now); r.Ok? ==> IdsOk(r.value)
  {
    hide Guard;
  }

  lemma RemoveKeepsIds(c: Cart, id: Id, expected: nat, now: int)
    requires IdsOk(c)
    ensures var r := Remove(c, id, expected, now); r.Ok? ==> IdsOk(r.value)
  {
    hide Guard;
  }

  lemma SaveKeepsIds(c: Cart, id: Id, expected: nat, now: int)
    requires IdsOk(c)
    ensures var r := SaveForLater(c, id, expected, now); r.Ok? ==> IdsOk(r.value)
  {
    hide Guard;
  }

  lemma MoveKeepsIds(l: Limits, c: Cart, id: Id, snapshot: Snapshot, expected: nat, now: int)
    requires IdsOk(c)
    ensures var r := MoveToCart(l, c, id, snapshot, expected, now); r.Ok? ==> IdsOk(r.value)
  {
    hide Guard;
  }

  lemma DropKeepsIds(c: Cart, id: Id, expected: nat, now: int)
    requires IdsOk(c)
    ensures var r := DeleteSaved(c, id, expected, now); r.Ok? ==> IdsOk(r.value)
  {
    hide Guard;
  }

  lemma ClearKeepsIds(c: Cart, expected: nat, now: int)
    requires IdsOk(c)
    ensures var r := Clear(c, expected, now); r.Ok? ==> IdsOk(r.value)
  {
    hide Guard;
  }

  lemma ReadinessKeepsIds(c: Cart, prices: map<Id, Snapshot>, expected: nat, now: int)
    requires IdsOk(c)
    ensures var r := RefreshPrices(c, prices, expected, now); r.Ok? ==> IdsOk(r.value)
  {
    hide Guard;
    if forall k :: 0 <= k < |c.items| ==> c.items[k].variant in prices {
      RefreshedIds(c.items, prices);
      hide Refreshed;
    }
  }

  lemma {:induction false} RefreshedIds(items: seq<Item>, prices: map<Id, Snapshot>)
    requires forall k :: 0 <= k < |items| ==> items[k].variant in prices
    ensures |Refreshed(items, prices)| == |items|
    ensures forall k :: 0 <= k < |items| ==> RefreshedItem(items[k], Refreshed(items, prices)[k], prices[items[k].variant])
  {
    if items == [] {
    } else {
      RefreshedIds(items[..|items| - 1], prices);
    }
  }

  /** An item shows the current price; if it did before, it was not touched. */
  predicate RefreshedItem(item: Item, item': Item, current: Snapshot) {
    if item.snapshot.price == current.price && item.snapshot.productVersion == current.productVersion then item' == item
    else item' == item.(snapshot := current, version := item.version + 1)
  }

  lemma {:induction false} MergedItemIds(l: Limits, items: seq<Item>, source: seq<Item>, n: nat, nextId: Id)
    requires n <= |source| && ItemIds(items, nextId)
    ensures var m := MergeItems(l, items, source, n, nextId); m.Some? ==> ItemIds(m.value, nextId + n)
  {
    if n == 0 {
    } else {
      MergedItemIds(l, items, source, n - 1, nextId);
    }
  }

  lemma {:induction false} MergedSavedIds(saved: seq<Saved>, source: seq<Saved>, n: nat, nextId: Id)
    requires n <= |source| && SavedIds(saved, nextId)
    ensures SavedIds(MergeSaved(saved, source, n, nextId), nextId + n)
  {
    if n == 0 {
    } else {
      MergedSavedIds(saved, source, n - 1, nextId);
    }
  }

  lemma MergeKeepsIds(l: Limits, customer: Cart, guest: Cart, now: int)
    requires IdsOk(customer) && IdsOk(guest) && MergeCarts(l, customer, guest, now).Ok?
    ensures var (merged, closed) := MergeCarts(l, customer, guest, now).value; IdsOk(merged) && IdsOk(closed)
  {
    var n := customer.nextId + |guest.items|;
    MergedItemIds(l, customer.items, guest.items, |guest.items|, customer.nextId);
    MergedSavedIds(customer.saved, guest.saved, |guest.saved|, n);
    hide MergeItems, MergeSaved;
  }

  ghost predicate AllIdsOk(carts: map<Id, Cart>) {
    forall id :: id in carts ==> IdsOk(carts[id])
  }

  lemma NextKeepsIds(l: Limits, carts: map<Id, Cart>, e: Timed)
    requires AllIdsOk(carts)
    ensures AllIdsOk(Next(l, carts, e))
  {
    hide Apply, MergeCarts, ItemIds, SavedIds;
    match e.event
    case Opened(_, _) => NewCartIs(l, e.event.isGuest, e.now);
    case ClientWrite(id, w, expected) =>
      if id in carts {
        ApplyKeepsIds(l, carts[id], w, expected, e.now);
      }
    case OrderPlaced(id) =>
    case Merge(customer, guest) =>
      if customer in carts && guest in carts && MergeCarts(l, carts[customer], carts[guest], e.now).Ok? {
        MergeKeepsIds(l, carts[customer], carts[guest], e.now);
      }
  }

  /** In every cart a run can reach, an id names one item, and one saved entry. */
  lemma {:induction false} RunKeepsIds(l: Limits, run: seq<Timed>)
    ensures AllIdsOk(After(l, run))
  {
    if run == [] {
    } else {
      hide AllIdsOk, Next;
      RunKeepsIds(l, run[..|run| - 1]);
      NextKeepsIds(l, After(l, run[..|run| - 1]), run[|run| - 1]);
    }
  }

  // ---------------------------------------------------------------- what each call writes

  /** A new cart is empty, open, and runs out after its kind's time. */
  lemma NewCartIs(l: Limits, isGuest: bool, now: int)
    ensures var c := NewCart(l, isGuest, now);
            && c.status == Active && c.items == [] && c.saved == [] && c.version == 1 && c.isGuest == isGuest
            && c.expiresAt == now + (if isGuest then l.guestTtl else l.customerTtl)
            && IdsOk(c)
  {
  }

  /** The row at k was replaced; the other rows are as they were. */
  ghost predicate RowReplaced(items: seq<Item>, items': seq<Item>, k: nat, item: Item) {
    && k < |items| == |items'| && items'[k] == item
    && forall j :: 0 <= j < |items| && j != k ==> items'[j] == items[j]
  }

  /** A row was added behind the others. */
  ghost predicate RowAdded(items: seq<Item>, items': seq<Item>, item: Item) {
    |items'| == |items| + 1 && items <= items' && items'[|items|] == item
  }

  /** An added variant shows the price it has now: on its row, if it has one, else on a new row. The cart's time starts anew. */
  lemma AddWrites(l: Limits, c: Cart, v: Id, quantity: int, snapshot: Snapshot, expected: nat, now: int)
    requires CartOk(l, c) && Add(l, c, v, quantity, snapshot, expected, now).Ok?
    ensures var c' := Add(l, c, v, quantity, snapshot, expected, now).value;
      && c' == c.(items := c'.items, nextId := c'.nextId, currency := c'.currency, version := c.version + 1,
                  expiresAt := now + if c.isGuest then l.guestTtl else l.customerTtl)
      && if exists k :: 0 <= k < |c.items| && c.items[k].variant == v
         then && c'.currency == c.currency
              && exists k :: 0 <= k < |c.items| && c.items[k].variant == v
                   && RowReplaced(c.items, c'.items, k,
                                  c.items[k].(quantity := c.items[k].quantity + quantity, snapshot := snapshot,
                                              version := c.items[k].version + 1))
         else && c'.currency == snapshot.currency
              && RowAdded(c.items, c'.items, Item(c.nextId, v, quantity, snapshot, 1))
  {
    hide ItemsOk, SavedOk;
    match FindVariant(c.items, v)
    case Some(k) =>
      assert c.items[k].variant == v;
      assert RowReplaced(c.items, Add(l, c, v, quantity, snapshot, expected, now).value.items, k,
                         c.items[k].(quantity := c.items[k].quantity + quantity, snapshot := snapshot,
                                     version := c.items[k].version + 1));
    case None =>
  }

  /** A quantity is set exactly within the bounds, in a usable cart, for an item that is there; its row and the cart's
      version change, and nothing else. */
  lemma QuantityIsSet(l: Limits, c: Cart, id: Id, quantity: int, expected: nat, now: int)
    ensures var r := UpdateQuantity(l, c, id, quantity, expected, now);
      && (r.Ok? <==> && 1 <= quantity <= 1000 && quantity <= l.maxQuantity && Usable(c, expected, now)
                     && exists k :: 0 <= k < |c.items| && c.items[k].id == id)
      && (r.Ok? ==>
            && r.value == c.(items := r.value.items, version := c.version + 1)
            && exists k :: 0 <= k < |c.items| && c.items[k].id == id
                 && RowReplaced(c.items, r.value.items, k,
                                c.items[k].(quantity := quantity, version := c.items[k].version + 1)))
  {
    UsableMeans(c, expected, now);
    match FindItem(c.items, id)
    case Some(k) =>
      assert c.items[k].id == id;
      var items := c.items[k := c.items[k].(quantity := quantity, version := c.items[k].version + 1)];
      assert RowReplaced(c.items, items, k, items[k]);
    case None =>
  }

  /** The rows without the one at k. */
  ghost predicate RowGone<T>(rows: seq<T>, rows': seq<T>, k: nat) {
    k < |rows| && rows' == rows[..k] + rows[k + 1..]
  }

  /** An item is removed, or moved to the saved ones, exactly in a usable cart that has it; its row goes and the others
      stay in order. Saving keeps its price with it, unless its variant is saved already. */
  lemma ItemLeaves(c: Cart, id: Id, expected: nat, now: int, save: bool)
    ensures var r := if save then SaveForLater(c, id, expected, now) else Remove(c, id, expected, now);
      && (r.Ok? <==> Usable(c, expected, now) && exists k :: 0 <= k < |c.items| && c.items[k].id == id)
      && (r.Ok? ==>
            && r.value == c.(items := r.value.items, saved := r.value.saved, nextId := r.value.nextId, version := c.version + 1)
            && exists k :: 0 <= k < |c.items| && c.items[k].id == id && RowGone(c.items, r.value.items, k)
                 && r.value.saved == if save && !IsSaved(c.saved, c.items[k].variant)
                                     then c.saved + [Saved(c.nextId, c.items[k].variant, c.items[k].snapshot)]
                                     else c.saved)
  {
    UsableMeans(c, expected, now);
    match FindItem(c.items, id)
    case Some(k) =>
      assert c.items[k].id == id && RowGone(c.items, Without(c.items, k), k);
    case None =>
  }

  /** A saved entry goes back to the cart, at the price it has now, exactly in a usable cart that has it saved and has room for
      one more piece of its variant. */
  lemma SavedMovesBack(l: Limits, c: Cart, id: Id, snapshot: Snapshot, expected: nat, now: int)
    requires CartOk(l, c) && IdsOk(c)
    ensures var r := MoveToCart(l, c, id, snapshot, expected, now);
      && (r.Ok? <==> Usable(c, expected, now)
                     && exists s :: 0 <= s < |c.saved| && c.saved[s].id == id
                          && Quantity(c.items, c.saved[s].variant) < l.maxQuantity)
      && (r.Ok? ==>
            && r.value == c.(items := r.value.items, saved := r.value.saved, nextId := r.value.nextId, version := c.version + 1)
            && exists s :: 0 <= s < |c.saved| && c.saved[s].id == id && RowGone(c.saved, r.value.saved, s)
                 && MovedBack(c, r.value.items, c.saved[s].variant, snapshot))
  {
    UsableMeans(c, expected, now);
    var r := MoveToCart(l, c, id, snapshot, expected, now);
    match FindSaved(c.saved, id)
    case None =>
    case Some(s) =>
      var v := c.saved[s].variant;
      MoveExactly(l, c, id, snapshot, expected, now);
      assert c.saved[s].id == id && RowGone(c.saved, Without(c.saved, s), s);
      if r.Ok? {
        BackOnItsRow(l, c, s, id, snapshot, expected, now);
      }
      hide MoveToCart, Quantity, MovedBack, ItemsOk, SavedOk, IsSaved, Usable, Guard;
  }

  ghost predicate MovedBack(c: Cart, items: seq<Item>, v: Id, snapshot: Snapshot) {
    if exists k :: 0 <= k < |c.items| && c.items[k].variant == v
    then exists k :: 0 <= k < |c.items| && c.items[k].variant == v
           && RowReplaced(c.items, items, k,
                          c.items[k].(quantity := c.items[k].quantity + 1, snapshot := snapshot, version := c.items[k].version + 1))
    else RowAdded(c.items, items, Item(c.nextId, v, 1, snapshot, 1))
  }

  lemma BackOnItsRow(l: Limits, c: Cart, s: nat, id: Id, snapshot: Snapshot, expected: nat, now: int)
    requires FindSaved(c.saved, id) == Some(s) && MoveToCart(l, c, id, snapshot, expected, now).Ok?
    ensures var c' := MoveToCart(l, c, id, snapshot, expected, now).value;
      && c' == c.(items := c'.items, saved := c'.saved, nextId := c'.nextId, version := c.version + 1)
      && s < |c.saved| && c'.saved == Without(c.saved, s) && MovedBack(c, c'.items, c.saved[s].variant, snapshot)
  {
    hide Guard, Without;
    var v := c.saved[s].variant;
    match FindVariant(c.items, v)
    case Some(k) =>
      assert c.items[k].variant == v;
      assert RowReplaced(c.items, MoveToCart(l, c, id, snapshot, expected, now).value.items, k,
                         c.items[k].(quantity := c.items[k].quantity + 1, snapshot := snapshot, version := c.items[k].version + 1));
    case None =>
  }

  /** A customer's row with the pieces the guest has of its variant, if any; its price stays. */
  function Grown(item: Item, source: seq<Item>): Item {
    match FindVariant(source, item.variant)
    case Some(j) => item.(quantity := item.quantity + source[j].quantity, version := item.version + 1)
    case None => item
  }

  function GrownRows(items: seq<Item>, source: seq<Item>): (rows: seq<Item>) {
    seq(|items|, k requires 0 <= k < |items| => Grown(items[k], source))
  }

  /** The guest's rows whose variants the customer does not have, in their order and at their prices. */
  function NewRows(items: seq<Item>, source: seq<Item>, n: nat, nextId: Id): seq<Item>
    requires n <= |source|
  {
    if n == 0 then [] else
    var s := source[n - 1];
    NewRows(items, source, n - 1, nextId)
      + if FindVariant(items, s.variant).Some? then [] else [Item(nextId + n - 1, s.variant, s.quantity, s.snapshot, 1)]
  }

  lemma {:induction false} NewRowVariants(items: seq<Item>, source: seq<Item>, n: nat, nextId: Id)
    requires n <= |source|
    ensures var rows := NewRows(items, source, n, nextId);
            forall k :: 0 <= k < |rows| ==> exists j :: 0 <= j < n && source[j].variant == rows[k].variant
  {
    if n == 0 {
    } else {
      NewRowVariants(items, source, n - 1, nextId);
      hide FindVariant;
      var rows := NewRows(items, source, n, nextId);
      forall k | 0 <= k < |rows| ensures exists j :: 0 <= j < n && source[j].variant == rows[k].variant {
        if k < |NewRows(items, source, n - 1, nextId)| {
          assert rows[k] == NewRows(items, source, n - 1, nextId)[k];
        } else {
          assert source[n - 1].variant == rows[k].variant;
        }
      }
    }
  }

  /** One more guest item: the rows of other variants are as before. */
  lemma GrownOne(l: Limits, item: Item, source: seq<Item>, n: nat)
    requires ItemsOk(l, source) && 1 <= n <= |source|
    ensures var s := source[n - 1];
            Grown(item, source[..n])
            == if item.variant == s.variant then item.(quantity := item.quantity + s.quantity, version := item.version + 1)
               else Grown(item, source[..n - 1])
    ensures item.variant == source[n - 1].variant ==> Grown(item, source[..n - 1]) == item
  {
    assert forall j :: 0 <= j < n - 1 ==> source[..n][j] == source[..n - 1][j];
    assert source[..n][n - 1] == source[n - 1];
  }

  /** Where the next guest item's variant is among the rows merged so far. */
  lemma NextFound(l: Limits, items: seq<Item>, source: seq<Item>, n: nat, nextId: Id)
    requires ItemsOk(l, items) && ItemsOk(l, source) && 1 <= n <= |source|
    ensures FindVariant(GrownRows(items, source[..n - 1]) + NewRows(items, source, n - 1, nextId), source[n - 1].variant)
         == FindVariant(items, source[n - 1].variant)
  {
    var m := GrownRows(items, source[..n - 1]) + NewRows(items, source, n - 1, nextId);
    NewRowVariants(items, source, n - 1, nextId);
    hide NewRows;
    forall k | |items| <= k < |m| ensures m[k].variant != source[n - 1].variant {
      assert m[k] == NewRows(items, source, n - 1, nextId)[k - |items|];
      var j :| 0 <= j < n - 1 && source[j].variant == m[k].variant;
    }
    forall k | 0 <= k < |items| ensures m[k].variant == items[k].variant {
    }
    SameFind(l, items, m, source[n - 1].variant);
  }

  lemma SameFind(l: Limits, items: seq<Item>, m: seq<Item>, v: Id)
    requires ItemsOk(l, items) && |items| <= |m|
    requires forall k :: 0 <= k < |items| ==> m[k].variant == items[k].variant
    requires forall k :: |items| <= k < |m| ==> m[k].variant != v
    ensures FindVariant(m, v) == FindVariant(items, v)
  {
    var a, b := FindVariant(m, v), FindVariant(items, v);
    if a.Some? && b.Some? {
      assert items[a.value].variant == v == items[b.value].variant;
    }
  }

  /**
   A merge in full: each of the customer's rows gets the pieces the guest has of its variant, at the customer's price, and
   the guest's other rows follow as new ones, at the guest's.
   */
  lemma {:induction false} MergeWrites(l: Limits, items: seq<Item>, source: seq<Item>, n: nat, nextId: Id)
    requires ItemsOk(l, items) && ItemsOk(l, source) && n <= |source|
    ensures var m := MergeItems(l, items, source, n, nextId);
            m.Some? ==> m.value == GrownRows(items, source[..n]) + NewRows(items, source, n, nextId)
  {
    hide ItemsOk, GrownRows, FindVariant, MergeItem;
    if n == 0 {
      NothingGrown(items, source[..0]);
    } else {
      MergeWrites(l, items, source, n - 1, nextId);
      NextFound(l, items, source, n, nextId);
      RowsGrow(l, items, source, n);
      MergeAmong(l, items, GrownRows(items, source[..n - 1]), NewRows(items, source, n - 1, nextId), source[n - 1], nextId + n - 1);
    }
  }

  lemma NothingGrown(items: seq<Item>, source: seq<Item>)
    requires source == []
    ensures GrownRows(items, source) == items
  {
  }

  /** The next guest item goes to the customer's row of its variant, or behind all rows. */
  lemma MergeAmong(l: Limits, items: seq<Item>, g: seq<Item>, r: seq<Item>, s: Item, id: Id)
    requires |g| == |items| && FindVariant(g + r, s.variant) == FindVariant(items, s.variant)
    ensures var next := MergeItem(l, g + r, s, id);
            next.Some? ==>
              next.value == match FindVariant(items, s.variant)
                            case Some(k) => g[k := g[k].(quantity := g[k].quantity + s.quantity, version := g[k].version + 1)] + r
                            case None => g + (r + [Item(id, s.variant, s.quantity, s.snapshot, 1)])
  {
    match FindVariant(items, s.variant)
    case Some(k) =>
      var item := g[k].(quantity := g[k].quantity + s.quantity, version := g[k].version + 1);
      assert (g + r)[k := item] == g[k := item] + r;
    case None =>
  }

  lemma RowsGrow(l: Limits, items: seq<Item>, source: seq<Item>, n: nat)
    requires ItemsOk(l, items) && ItemsOk(l, source) && 1 <= n <= |source|
    ensures var g, s := GrownRows(items, source[..n - 1]), source[n - 1];
            && |g| == |items|
            && GrownRows(items, source[..n])
               == match FindVariant(items, s.variant)
                  case Some(k) => g[k := g[k].(quantity := g[k].quantity + s.quantity, version := g[k].version + 1)]
                  case None => g
  {
    hide Grown;
    forall k | 0 <= k < |items|
      ensures Grown(items[k], source[..n])
              == if items[k].variant == source[n - 1].variant
                 then items[k].(quantity := items[k].quantity + source[n - 1].quantity, version := items[k].version + 1)
                 else Grown(items[k], source[..n - 1])
      ensures items[k].variant == source[n - 1].variant ==> Grown(items[k], source[..n - 1]) == items[k]
    {
      GrownOne(l, items[k], source, n);
    }
  }

  /** A saved entry is forgotten exactly in a usable cart that has it. */
  lemma SavedIsDropped(c: Cart, id: Id, expected: nat, now: int)
    ensures var r := DeleteSaved(c, id, expected, now);
      && (r.Ok? <==> Usable(c, expected, now) && exists s :: 0 <= s < |c.saved| && c.saved[s].id == id)
      && (r.Ok? ==>
            && r.value == c.(saved := r.value.saved, version := c.version + 1)
            && exists s :: 0 <= s < |c.saved| && c.saved[s].id == id && RowGone(c.saved, r.value.saved, s))
  {
    UsableMeans(c, expected, now);
    match FindSaved(c.saved, id)
    case Some(s) =>
      assert c.saved[s].id == id && RowGone(c.saved, Without(c.saved, s), s);
    case None =>
  }

  /** Clearing takes every piece out of a usable cart and keeps what is saved. */
  lemma ClearEmpties(c: Cart, expected: nat, now: int)
    ensures var r := Clear(c, expected, now);
      && (r.Ok? <==> Usable(c, expected, now))
      && (r.Ok? ==> r.value == c.(items := r.value.items, version := c.version + 1)
                    && forall v :: Quantity(r.value.items, v) == 0)
  {
    UsableMeans(c, expected, now);
  }

  /** An order closes a cart exactly if the cart is active, has not run out and holds something; its contents stay, and no
      write or order is taken for it any more. */
  lemma OrderCloses(l: Limits, c: Cart, now: int)
    ensures var r := CheckOut(c, now);
      && (r.Ok? <==> c.status == Active && now < c.expiresAt && c.items != [])
      && (r.Ok? ==>
            && r.value == c.(status := r.value.status, version := c.version + 1) && r.value.status == CheckedOut
            && (forall later :: CheckOut(r.value, later).Err?)
            && (forall w, expected, later :: Apply(l, r.value, w, expected, later).Err?))
  {
    hide FindItem, FindVariant, FindSaved;
  }

  /** Getting ready for checkout needs a usable cart and every variant's price; each item then shows its current price, and the
      cart's version is raised exactly if one did not. */
  lemma PricesAreRefreshed(c: Cart, prices: map<Id, Snapshot>, expected: nat, now: int)
    ensures var r := RefreshPrices(c, prices, expected, now);
      && (r.Ok? <==> Usable(c, expected, now) && forall k :: 0 <= k < |c.items| ==> c.items[k].variant in prices)
      && (r.Ok? ==>
            && r.value == c.(items := r.value.items, version := r.value.version)
            && |r.value.items| == |c.items|
            && (forall k :: 0 <= k < |c.items| ==> RefreshedItem(c.items[k], r.value.items[k], prices[c.items[k].variant]))
            && r.value.version == if r.value.items == c.items then c.version else c.version + 1)
  {
    UsableMeans(c, expected, now);
    hide Guard;
    if forall k :: 0 <= k < |c.items| ==> c.items[k].variant in prices {
      RefreshedIds(c.items, prices);
      hide Refreshed;
      if exists k :: 0 <= k < |c.items| && Stale(c.items[k], prices[c.items[k].variant]) {
        var k :| 0 <= k < |c.items| && Stale(c.items[k], prices[c.items[k].variant]);
        assert Refreshed(c.items, prices)[k] != c.items[k];
      }
    }
  }
}
