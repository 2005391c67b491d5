/** What the cart operations promise: limits kept, quantities conserved by a merge, no lost update. */
module CartLaws {
  import opened Common
  import opened Carts

  lemma {:induction false} QuantityUpdate(items: seq<Item>, k: nat, item: Item, v: Id)
    requires k < |items| && item.variant == items[k].variant
    ensures Quantity(items[k := item], v) == Quantity(items, v) + if item.variant == v then item.quantity - items[k].quantity else 0
  {
    var n := |items| - 1;
    if k < n {
      assert items[k := item][..n] == items[..n][k := item];
      QuantityUpdate(items[..n], k, item, v);
    } else {
      assert items[k := item][..n] == items[..n];
    }
  }

  lemma QuantityAppend(items: seq<Item>, item: Item, v: Id)
    ensures Quantity(items + [item], v) == Quantity(items, v) + if item.variant == v then item.quantity else 0
  {
    assert (items + [item])[..|items|] == items;
  }

  lemma {:induction false} QuantityWithout(items: seq<Item>, k: nat, v: Id)
    requires k < |items|
    ensures Quantity(Without(items, k), v) == Quantity(items, v) - if items[k].variant == v then items[k].quantity else 0
  {
    var n := |items| - 1;
    if k < n {
      assert Without(items, k)[..n - 1] == Without(items[..n], k);
      QuantityWithout(items[..n], k, v);
    } else {
      assert Without(items, k) == items[..n];
    }
  }

  lemma {:induction false} QuantityAbsent(items: seq<Item>, v: Id)
    requires forall k :: 0 <= k < |items| ==> items[k].variant != v
    ensures Quantity(items, v) == 0
  {
    if items == [] {
    } else {
      QuantityAbsent(items[..|items| - 1], v);
    }
  }

  /** With no duplicate variants, the quantity of a variant is that of its only item. */
  lemma {:induction false} QuantityOfItem(l: Limits, items: seq<Item>, k: nat)
    requires ItemsOk(l, items) && k < |items|
    ensures Quantity(items, items[k].variant) == items[k].quantity
  {
    var n := |items| - 1;
    if k < n {
      QuantityOfItem(l, items[..n], k);
    } else {
      QuantityAbsent(items[..n], items[k].variant);
    }
  }

  lemma {:induction false} RefreshedKeeps(items: seq<Item>, prices: map<Id, Snapshot>)
    requires forall k :: 0 <= k < |items| ==> items[k].variant in prices
    ensures |Refreshed(items, prices)| == |items|
    ensures forall k :: 0 <= k < |items| ==>
      && Refreshed(items, prices)[k].variant == items[k].variant
      && Refreshed(items, prices)[k].quantity == items[k].quantity
  {
    if items == [] {
    } else {
      RefreshedKeeps(items[..|items| - 1], prices);
    }
  }

  /** Replacing an item by another of its variant moves that variant's quantity by the difference. */
  lemma ReplaceItem(l: Limits, items: seq<Item>, k: nat, item: Item)
    requires ItemsOk(l, items) && k < |items| && item.variant == items[k].variant && 1 <= item.quantity <= l.maxQuantity
    ensures ItemsOk(l, items[k := item]) && Quantity(items, item.variant) == items[k].quantity
    ensures forall u :: Quantity(items[k := item], u)
                     == Quantity(items, u) + if u == item.variant then item.quantity - items[k].quantity else 0
  {
    QuantityOfItem(l, items, k);
    hide ItemsOk, Quantity;
    forall u ensures Quantity(items[k := item], u)
                  == Quantity(items, u) + if u == item.variant then item.quantity - items[k].quantity else 0
    {
      QuantityUpdate(items, k, item, u);
    }
  }

  /** An item of a new variant brings its own quantity. */
  lemma AppendItem(l: Limits, items: seq<Item>, item: Item)
    requires ItemsOk(l, items) && 1 <= item.quantity <= l.maxQuantity
    requires forall k :: 0 <= k < |items| ==> items[k].variant != item.variant
    ensures ItemsOk(l, items + [item]) && Quantity(items, item.variant) == 0
    ensures forall u :: Quantity(items + [item], u) == Quantity(items, u) + if u == item.variant then item.quantity else 0
  {
    QuantityAbsent(items, item.variant);
    hide Quantity;
    forall u ensures Quantity(items + [item], u) == Quantity(items, u) + if u == item.variant then item.quantity else 0 {
      QuantityAppend(items, item, u);
    }
  }

  /** An active cart that has not run out, in the version the caller saw. */
  predicate Usable(c: Cart, expected: nat, now: int) {
    c.status == Active && now < c.expiresAt && c.version == expected
  }

  lemma UsableMeans(c: Cart, expected: nat, now: int)
    ensures Guard(c, expected, now).None? <==> Usable(c, expected, now)
  {
  }

  /** Adding succeeds exactly when the new total fits the limits, and changes the quantity of that
      variant alone. */
  lemma AddExactly(l: Limits, c: Cart, v: Id, quantity: int, snapshot: Snapshot, expected: nat, now: int)
    requires CartOk(l, c)
    ensures var r := Add(l, c, v, quantity, snapshot, expected, now);
      var known := exists k :: 0 <= k < |c.items| && c.items[k].variant == v;
      && (r.Ok? <==>
            && 1 <= quantity <= 1000
            && Usable(c, expected, now)
            && Quantity(c.items, v) + quantity <= l.maxQuantity
            && (known || (|c.items| < l.maxDistinct && (c.items == [] || c.currency == snapshot.currency))))
      && (r.Ok? ==>
            && CartOk(l, r.value)
            && r.value.saved == c.saved
            && forall u :: Quantity(r.value.items, u) == Quantity(c.items, u) + if u == v then quantity else 0)
  {
    var r := Add(l, c, v, quantity, snapshot, expected, now);
    UsableMeans(c, expected, now);
    match FindVariant(c.items, v)
    case Some(k) =>
      QuantityOfItem(l, c.items, k);
      hide Quantity, ItemsOk, SavedOk, Guard;
      assert c.items[k].variant == v;
      if r.Ok? {
        ReplaceItem(l, c.items, k, r.value.items[k]);
      }
    case None =>
      QuantityAbsent(c.items, v);
      hide Quantity, ItemsOk, SavedOk, Guard;
      if r.Ok? {
        AppendItem(l, c.items, Item(c.nextId, v, quantity, snapshot, 1));
      }
  }

  /** Moving a saved variant back adds one piece of it and forgets the saved entry. */
  lemma MoveExactly(l: Limits, c: Cart, id: Id, snapshot: Snapshot, expected: nat, now: int)
    requires CartOk(l, c)
    requires FindSaved(c.saved, id).Some?
    ensures var r := MoveToCart(l, c, id, snapshot, expected, now);
      var v := c.saved[FindSaved(c.saved, id).value].variant;
      && (r.Ok? <==> Usable(c, expected, now) && Quantity(c.items, v) < l.maxQuantity)
      && (r.Ok? ==>
            && CartOk(l, r.value)
            && (forall u :: Quantity(r.value.items, u) == Quantity(c.items, u) + if u == v then 1 else 0)
            && (forall u :: IsSaved(r.value.saved, u) <==> IsSaved(c.saved, u) && u != v))
  {
    var r := MoveToCart(l, c, id, snapshot, expected, now);
    var s := FindSaved(c.saved, id).value;
    var v := c.saved[s].variant;
    WithoutSaved(c.saved, s);
    UsableMeans(c, expected, now);
    match FindVariant(c.items, v)
    case Some(k) =>
      QuantityOfItem(l, c.items, k);
      hide Quantity, ItemsOk, SavedOk, IsSaved, Guard, Without;
      if r.Ok? {
        ReplaceItem(l, c.items, k, r.value.items[k]);
      }
    case None =>
      QuantityAbsent(c.items, v);
      hide Quantity, ItemsOk, SavedOk, IsSaved, Guard, Without;
      if r.Ok? {
        AppendItem(l, c.items, Item(c.nextId, v, 1, snapshot, 1));
      }
  }

  lemma WithoutSaved(saved: seq<Saved>, k: nat)
    requires SavedOk(saved) && k < |saved|
    ensures SavedOk(Without(saved, k))
    ensures forall u :: IsSaved(Without(saved, k), u) <==> IsSaved(saved, u) && u != saved[k].variant
  {
    var rest := Without(saved, k);
    forall u ensures IsSaved(rest, u) <==> IsSaved(saved, u) && u != saved[k].variant {
      if IsSaved(saved, u) && u != saved[k].variant {
        var j :| 0 <= j < |saved| && saved[j].variant == u;
        assert rest[if j < k then j else j - 1].variant == u;
      }
    }
  }

  /** All pieces of v are gone and no others; v is among the saved variants if it was to be saved, and no other is new there. */
  ghost predicate Left(c: Cart, c': Cart, v: Id, save: bool) {
    && (forall u :: Quantity(c'.items, u) == if u == v then 0 else Quantity(c.items, u))
    && (forall u :: IsSaved(c'.saved, u) <==> IsSaved(c.saved, u) || (save && u == v))
  }

  /** Removing or saving an item takes all of its variant out of the cart and nothing else; saving
      remembers the variant once. */
  lemma LeaveExactly(l: Limits, c: Cart, id: Id, expected: nat, now: int, save: bool)
    requires CartOk(l, c)
    ensures var r := if save then SaveForLater(c, id, expected, now) else Remove(c, id, expected, now);
      && (r.Ok? <==> Usable(c, expected, now) && exists k :: 0 <= k < |c.items| && c.items[k].id == id)
      && (r.Ok? ==>
            && CartOk(l, r.value)
            && exists k :: 0 <= k < |c.items| && c.items[k].id == id && Left(c, r.value, c.items[k].variant, save))
  {
    var r := if save then SaveForLater(c, id, expected, now) else Remove(c, id, expected, now);
    if r.Ok? {
      var k := FindItem(c.items, id).value;
      var v := c.items[k].variant;
      QuantityOfItem(l, c.items, k);
      forall u ensures Quantity(r.value.items, u) == if u == v then 0 else Quantity(c.items, u) {
        QuantityWithout(c.items, k, u);
      }
      if save && !IsSaved(c.saved, v) {
        SavedAppend(c.saved, r.value.saved[|c.saved|]);
      }
      assert c.items[k].id == id && Left(c, r.value, v, save);
    }
  }

  lemma SavedAppend(saved: seq<Saved>, entry: Saved)
    ensures forall u :: IsSaved(saved + [entry], u) <==> IsSaved(saved, u) || u == entry.variant
    ensures SavedOk(saved) && !IsSaved(saved, entry.variant) ==> SavedOk(saved + [entry])
  {
    var longer := saved + [entry];
    forall u ensures IsSaved(longer, u) <==> IsSaved(saved, u) || u == entry.variant {
      if IsSaved(saved, u) {
        var k :| 0 <= k < |saved| && saved[k].variant == u;
        assert longer[k].variant == u;
      }
      assert longer[|saved|] == entry;
      if IsSaved(longer, u) {
        var k :| 0 <= k < |longer| && longer[k].variant == u;
        assert k < |saved| ==> saved[k].variant == u;
      }
    }
  }

  // ---------------------------------------------------------------- the merge's laws

  /** No variant of the two carts together exceeds the limit. */
  ghost predicate MergeFits(l: Limits, items: seq<Item>, source: seq<Item>) {
    forall v :: Quantity(items, v) + Quantity(source, v) <= l.maxQuantity
  }

  lemma {:induction false} QuantityBounds(l: Limits, items: seq<Item>, v: Id)
    requires 1 <= l.maxQuantity && ItemsOk(l, items)
    ensures 0 <= Quantity(items, v) <= l.maxQuantity
  {
    match FindVariant(items, v)
    case Some(k) => QuantityOfItem(l, items, k);
    case None => QuantityAbsent(items, v);
  }

  /** The quantities of a prefix that has one more item. */
  lemma QuantityPrefix(items: seq<Item>, n: nat, v: Id)
    requires 1 <= n <= |items|
    ensures Quantity(items[..n], v)
         == Quantity(items[..n - 1], v) + if items[n - 1].variant == v then items[n - 1].quantity else 0
  {
    assert items[..n] == items[..n - 1] + [items[n - 1]];
    QuantityAppend(items[..n - 1], items[n - 1], v);
  }

  /** What moving one guest item over does. */
  lemma MergeOne(l: Limits, merged: seq<Item>, s: Item, id: Id)
    requires 1 <= l.maxQuantity && ItemsOk(l, merged) && 1 <= s.quantity <= l.maxQuantity
    ensures var next := MergeItem(l, merged, s, id);
      && (next.Some? <==> Quantity(merged, s.variant) + s.quantity <= l.maxQuantity)
      && (next.Some? ==>
            && ItemsOk(l, next.value)
            && forall v :: Quantity(next.value, v) == Quantity(merged, v) + if v == s.variant then s.quantity else 0)
  {
    var next := MergeItem(l, merged, s, id);
    match FindVariant(merged, s.variant)
    case Some(k) =>
      QuantityOfItem(l, merged, k);
      hide Quantity, ItemsOk;
      if next.Some? {
        ReplaceItem(l, merged, k, next.value[k]);
      }
    case None =>
      hide Quantity, ItemsOk;
      AppendItem(l, merged, Item(id, s.variant, s.quantity, s.snapshot, 1));
  }

  lemma {:induction false} MergeItemsSums(l: Limits, items: seq<Item>, source: seq<Item>, n: nat, nextId: Id)
    requires 1 <= l.maxQuantity && ItemsOk(l, items) && ItemsOk(l, source) && n <= |source|
    ensures var m := MergeItems(l, items, source, n, nextId);
      && (m.Some? <==> MergeFits(l, items, source[..n]))
      && (m.Some? ==> ItemsOk(l, m.value) && AddsUp(m.value, items, source[..n]))
  {
    if n == 0 {
      forall v ensures 0 <= Quantity(items, v) <= l.maxQuantity && Quantity(source[..0], v) == 0 {
        QuantityBounds(l, items, v);
      }
    } else {
      MergeItemsSums(l, items, source, n - 1, nextId);
      var before := MergeItems(l, items, source, n - 1, nextId);
      PrefixSums(l, source, n);
      hide Quantity, ItemsOk, MergeItem, MergeFits, AddsUp;
      if before.None? {
        TooMuchStays(l, items, source[..n - 1], source[..n], source[n - 1]);
      } else {
        MergeOne(l, before.value, source[n - 1], nextId + n - 1);
        MergeSumsStep(l, items, source[..n - 1], source[..n], source[n - 1], before.value,
                      MergeItem(l, before.value, source[n - 1], nextId + n - 1));
      }
    }
  }

  /** The merged quantities are the sums. */
  ghost predicate AddsUp(merged: seq<Item>, items: seq<Item>, source: seq<Item>) {
    forall v :: Quantity(merged, v) == Quantity(items, v) + Quantity(source, v)
  }

  /** `longer` holds what `shorter` holds and the item s besides. */
  ghost predicate OneMore(shorter: seq<Item>, longer: seq<Item>, s: Item) {
    forall v :: Quantity(longer, v) == Quantity(shorter, v) + if s.variant == v then s.quantity else 0
  }

  lemma PrefixSums(l: Limits, source: seq<Item>, n: nat)
    requires ItemsOk(l, source) && 1 <= n <= |source|
    ensures 1 <= source[n - 1].quantity <= l.maxQuantity && OneMore(source[..n - 1], source[..n], source[n - 1])
  {
    hide Quantity;
    forall v ensures Quantity(source[..n], v)
                  == Quantity(source[..n - 1], v) + if source[n - 1].variant == v then source[n - 1].quantity else 0
    {
      QuantityPrefix(source, n, v);
    }
  }

  lemma TooMuchStays(l: Limits, items: seq<Item>, shorter: seq<Item>, longer: seq<Item>, s: Item)
    requires !MergeFits(l, items, shorter) && OneMore(shorter, longer, s) && 1 <= s.quantity
    ensures !MergeFits(l, items, longer)
  {
    hide Quantity;
    var v :| Quantity(items, v) + Quantity(shorter, v) > l.maxQuantity;
    assert Quantity(items, v) + Quantity(longer, v) > l.maxQuantity;
  }

  lemma MergeSumsStep(l: Limits, items: seq<Item>, shorter: seq<Item>, longer: seq<Item>, s: Item,
                      before: seq<Item>, next: Option<seq<Item>>)
    requires 1 <= l.maxQuantity && AddsUp(before, items, shorter) && OneMore(shorter, longer, s)
    requires next.Some? <==> Quantity(before, s.variant) + s.quantity <= l.maxQuantity
    requires next.Some? ==>
               && ItemsOk(l, next.value)
               && forall v :: Quantity(next.value, v) == Quantity(before, v) + if v == s.variant then s.quantity else 0
    ensures next.Some? <==> MergeFits(l, items, longer)
    ensures next.Some? ==> AddsUp(next.value, items, longer)
  {
    hide Quantity, ItemsOk;
    if next.Some? {
      forall v ensures Quantity(items, v) + Quantity(longer, v) <= l.maxQuantity
                       && Quantity(next.value, v) == Quantity(items, v) + Quantity(longer, v)
      {
        QuantityBounds(l, next.value, v);
        assert Quantity(before, v) == Quantity(items, v) + Quantity(shorter, v);
      }
    } else {
      assert Quantity(before, s.variant) == Quantity(items, s.variant) + Quantity(shorter, s.variant);
      assert Quantity(items, s.variant) + Quantity(longer, s.variant) > l.maxQuantity;
    }
  }

  /** The customer's own items stay where they are, with their price, and only their quantity grows; the
      items added behind them are the guest's, at the guest's price. */
  lemma {:induction false} MergeItemsOrigin(l: Limits, items: seq<Item>, source: seq<Item>, n: nat, nextId: Id)
    requires n <= |source|
    ensures var m := MergeItems(l, items, source, n, nextId);
      m.Some? ==>
        && |items| <= |m.value|
        && (forall k :: 0 <= k < |items| ==>
              && m.value[k].id == items[k].id
              && m.value[k].variant == items[k].variant
              && m.value[k].snapshot == items[k].snapshot)
        && (forall k :: |items| <= k < |m.value| ==>
              exists j :: 0 <= j < n && source[j].variant == m.value[k].variant && source[j].snapshot == m.value[k].snapshot)
  {
    if n == 0 {
    } else {
      MergeItemsOrigin(l, items, source, n - 1, nextId);
    }
  }

  lemma {:induction false} MergeSavedUnion(saved: seq<Saved>, source: seq<Saved>, n: nat, nextId: Id)
    requires SavedOk(saved) && SavedOk(source) && n <= |source|
    ensures SavedOk(MergeSaved(saved, source, n, nextId))
    ensures forall v :: IsSaved(MergeSaved(saved, source, n, nextId), v) <==> IsSaved(saved, v) || IsSaved(source[..n], v)
  {
    if n == 0 {
    } else {
      MergeSavedUnion(saved, source, n - 1, nextId);
      var before := MergeSaved(saved, source, n - 1, nextId);
      var s := source[n - 1];
      assert source[..n] == source[..n - 1] + [s];
      SavedAppend(source[..n - 1], s);
      SavedAppend(before, Saved(nextId + n - 1, s.variant, s.snapshot));
      assert !IsSaved(source[..n - 1], s.variant);
    }
  }

  /** A merge succeeds exactly when both carts are usable and no variant exceeds the limit. It then
      conserves every variant's pieces, unites the saved variants, and closes the guest's cart without
      touching its contents. */
  lemma MergeExactly(l: Limits, customer: Cart, guest: Cart, now: int)
    requires CartOk(l, customer) && CartOk(l, guest)
    ensures var r := MergeCarts(l, customer, guest, now);
      && (r.Ok? <==>
            && guest.status == Active
            && customer.status == Active && now < customer.expiresAt
            && MergeFits(l, customer.items, guest.items))
      && (r.Ok? ==>
            var (merged, closed) := r.value;
            && CartOk(l, merged) && CartOk(l, closed)
            && (forall v :: Quantity(merged.items, v) == Quantity(customer.items, v) + Quantity(guest.items, v))
            && (forall v :: IsSaved(merged.saved, v) <==> IsSaved(customer.saved, v) || IsSaved(guest.saved, v))
            && merged.status == Active && merged.version == customer.version + 1
            && merged.expiresAt == now + l.customerTtl
            && merged.currency == customer.currency && merged.isGuest == customer.isGuest
            && closed == guest.(status := Merged, version := guest.version + 1))
  {
    assert guest.items[..|guest.items|] == guest.items;
    assert guest.saved[..|guest.saved|] == guest.saved;
    MergeItemsSums(l, customer.items, guest.items, |guest.items|, customer.nextId);
    MergeSavedUnion(customer.saved, guest.saved, |guest.saved|, customer.nextId + |guest.items|);
  }

  /** A guest's cart can be merged once. */
  lemma MergedOnce(l: Limits, customer: Cart, guest: Cart, now: int, other: Cart, later: int)
    requires MergeCarts(l, customer, guest, now).Ok?
    ensures MergeCarts(l, other, MergeCarts(l, customer, guest, now).value.1, later) == Err(GuestNotFound)
  {
  }

  // ---------------------------------------------------------------- runs over all carts

  /** A call on the cart service. `Opened` creates the cart of a guest or of a customer who has none. */
  datatype Event =
    | Opened(cart: Id, isGuest: bool)
    | ClientWrite(cart: Id, write: Write, expected: nat)
    | OrderPlaced(cart: Id)
    | Merge(customer: Id, guest: Id)

  datatype Timed = Timed(event: Event, now: int)

  function Written(carts: map<Id, Cart>, id: Id, r: Result<Cart, Error>): map<Id, Cart> {
    match r
    case Ok(cart) => carts[id := cart]
    case Err(_) => carts
  }

  /** A failing call changes no cart. A merge is of a guest's cart into a customer's. */
  function Next(l: Limits, carts: map<Id, Cart>, e: Timed): map<Id, Cart> {
    match e.event
    case Opened(id, isGuest) => if id in carts then carts else carts[id := NewCart(l, isGuest, e.now)]
    case ClientWrite(id, w, expected) =>
      if id in carts then Written(carts, id, Apply(l, carts[id], w, expected, e.now)) else carts
    case OrderPlaced(id) =>
      if id in carts then Written(carts, id, CheckOut(carts[id], e.now)) else carts
    case Merge(customer, guest) =>
      if customer in carts && guest in carts && !carts[customer].isGuest && carts[guest].isGuest then
        match MergeCarts(l, carts[customer], carts[guest], e.now)
        case Ok(pair) => carts[customer := pair.0][guest := pair.1]
        case Err(_) => carts
      else carts
  }

  function After(l: Limits, run: seq<Timed>): map<Id, Cart> {
    if run == [] then map[] else Next(l, After(l, run[..|run| - 1]), run[|run| - 1])
  }

  ghost predicate CartsOk(l: Limits, carts: map<Id, Cart>) {
    forall id :: id in carts ==> CartOk(l, carts[id])
  }

  lemma ApplyKeeps(l: Limits, c: Cart, w: Write, expected: nat, now: int)
    requires CartOk(l, c)
    ensures Apply(l, c, w, expected, now).Ok? ==> CartOk(l, Apply(l, c, w, expected, now).value)
  {
    hide Quantity, IsSaved, CartOk, Add, UpdateQuantity, Remove, SaveForLater, MoveToCart, DeleteSaved, Clear, RefreshPrices;
    match w
    case AddItem(v, quantity, snapshot) => AddExactly(l, c, v, quantity, snapshot, expected, now);
    case UpdateItem(id, quantity) => UpdateKeeps(l, c, id, quantity, expected, now);
    case RemoveItem(id) => LeaveExactly(l, c, id, expected, now, false);
    case SaveItem(id) => LeaveExactly(l, c, id, expected, now, true);
    case MoveSaved(id, snapshot) => MoveKeeps(l, c, id, snapshot, expected, now);
    case DropSaved(id) => DropKeeps(l, c, id, expected, now);
    case ClearItems => ClearKeeps(l, c, expected, now);
    case Readiness(prices) => RefreshKeeps(l, c, prices, expected, now);
  }

  lemma UpdateKeeps(l: Limits, c: Cart, id: Id, quantity: int, expected: nat, now: int)
    requires CartOk(l, c)
    ensures var r := UpdateQuantity(l, c, id, quantity, expected, now); r.Ok? ==> CartOk(l, r.value)
  {
    var r := UpdateQuantity(l, c, id, quantity, expected, now);
    hide ItemsOk, SavedOk, Quantity;
    if r.Ok? {
      var k := FindItem(c.items, id).value;
      ReplaceItem(l, c.items, k, r.value.items[k]);
    }
  }

  lemma MoveKeeps(l: Limits, c: Cart, id: Id, snapshot: Snapshot, expected: nat, now: int)
    requires CartOk(l, c)
    ensures var r := MoveToCart(l, c, id, snapshot, expected, now); r.Ok? ==> CartOk(l, r.value)
  {
    hide CartOk, Quantity, IsSaved;
    if FindSaved(c.saved, id).Some? {
      MoveExactly(l, c, id, snapshot, expected, now);
    }
  }

  lemma DropKeeps(l: Limits, c: Cart, id: Id, expected: nat, now: int)
    requires CartOk(l, c)
    ensures var r := DeleteSaved(c, id, expected, now); r.Ok? ==> CartOk(l, r.value)
  {
    hide ItemsOk, IsSaved;
    if FindSaved(c.saved, id).Some? {
      WithoutSaved(c.saved, FindSaved(c.saved, id).value);
    }
  }

  lemma ClearKeeps(l: Limits, c: Cart, expected: nat, now: int)
    requires CartOk(l, c)
    ensures var r := Clear(c, expected, now); r.Ok? ==> CartOk(l, r.value)
  {
  }

  lemma RefreshKeeps(l: Limits, c: Cart, prices: map<Id, Snapshot>, expected: nat, now: int)
    requires CartOk(l, c)
    ensures var r := RefreshPrices(c, prices, expected, now); r.Ok? ==> CartOk(l, r.value)
  {
    if forall k :: 0 <= k < |c.items| ==> c.items[k].variant in prices {
      RefreshedKeeps(c.items, prices);
    }
    hide Refreshed, SavedOk;
  }

  lemma WrittenOk(l: Limits, carts: map<Id, Cart>, id: Id, r: Result<Cart, Error>)
    requires CartsOk(l, carts) && (r.Ok? ==> CartOk(l, r.value))
    ensures CartsOk(l, Written(carts, id, r))
  {
  }

  lemma NextKeeps(l: Limits, carts: map<Id, Cart>, e: Timed)
    requires 1 <= l.maxQuantity && CartsOk(l, carts)
    ensures CartsOk(l, Next(l, carts, e))
  {
    hide Apply, CheckOut, MergeCarts, Quantity, MergeFits, IsSaved;
    match e.event
    case Opened(_, _) =>
    case ClientWrite(id, w, expected) =>
      if id in carts {
        ApplyKeeps(l, carts[id], w, expected, e.now);
        WrittenOk(l, carts, id, Apply(l, carts[id], w, expected, e.now));
      }
    case OrderPlaced(id) =>
      if id in carts {
        CheckOutKeeps(l, carts[id], e.now);
        WrittenOk(l, carts, id, CheckOut(carts[id], e.now));
      }
    case Merge(customer, guest) =>
      if customer in carts && guest in carts {
        MergeExactly(l, carts[customer], carts[guest], e.now);
      }
  }

  lemma CheckOutKeeps(l: Limits, c: Cart, now: int)
    requires CartOk(l, c)
    ensures CheckOut(c, now).Ok? ==> CartOk(l, CheckOut(c, now).value)
  {
  }

  /** In every cart a run can reach, no variant occurs twice and every quantity is within the limit. */
  lemma {:induction false} RunKeepsCarts(l: Limits, run: seq<Timed>)
    requires 1 <= l.maxQuantity
    ensures CartsOk(l, After(l, run))
  {
    if run == [] {
    } else {
      hide CartsOk, Next;
      RunKeepsCarts(l, run[..|run| - 1]);
      NextKeeps(l, After(l, run[..|run| - 1]), run[|run| - 1]);
    }
  }

  /** A client's write names the version it found and, if it writes the cart, raises it by one. */
  lemma ApplyRaisesVersion(l: Limits, c: Cart, w: Write, expected: nat, now: int)
    requires Apply(l, c, w, expected, now).Ok?
    ensures expected == c.version
    ensures var after := Apply(l, c, w, expected, now).value; after == c || after.version == c.version + 1
  {
    hide FindItem, FindSaved, FindVariant, Refreshed, IsSaved, Without;
  }

  /** No call takes a cart away or lowers its version. */
  lemma NextVersions(l: Limits, carts: map<Id, Cart>, e: Timed, id: Id)
    requires id in carts
    ensures id in Next(l, carts, e) && carts[id].version <= Next(l, carts, e)[id].version
  {
    hide Apply, MergeItems, MergeSaved;
    if e.event.ClientWrite? && e.event.cart == id && Apply(l, carts[id], e.event.write, e.event.expected, e.now).Ok? {
      ApplyRaisesVersion(l, carts[id], e.event.write, e.event.expected, e.now);
    }
  }

  lemma {:induction false} VersionsGrow(l: Limits, run: seq<Timed>, j: nat, k: nat, id: Id)
    requires j <= k <= |run| && id in After(l, run[..j])
    ensures id in After(l, run[..k]) && After(l, run[..j])[id].version <= After(l, run[..k])[id].version
  {
    if j == k {
    } else {
      hide Next;
      VersionsGrow(l, run, j, k - 1, id);
      assert run[..k][..k - 1] == run[..k - 1];
      NextVersions(l, After(l, run[..k - 1]), run[k - 1], id);
    }
  }

  /** The k-th call of the run is a client's write that wrote its cart. */
  predicate Commits(l: Limits, run: seq<Timed>, k: nat)
    requires k < |run|
  {
    var before, e := After(l, run[..k]), run[k].event;
    && e.ClientWrite? && e.cart in before
    && Apply(l, before[e.cart], e.write, e.expected, run[k].now).Ok?
    && Apply(l, before[e.cart], e.write, e.expected, run[k].now).value != before[e.cart]
  }

  /** What a committed write leaves: its cart, one version above the one it named. */
  lemma CommitRaisesVersion(l: Limits, run: seq<Timed>, k: nat)
    requires k < |run| && Commits(l, run, k)
    ensures var id := run[k].event.cart;
            && id in After(l, run[..k]) && After(l, run[..k])[id].version == run[k].event.expected
            && id in After(l, run[..k + 1]) && After(l, run[..k + 1])[id].version == run[k].event.expected + 1
  {
    hide Apply;
    var before, e := After(l, run[..k]), run[k].event;
    ApplyRaisesVersion(l, before[e.cart], e.write, e.expected, run[k].now);
    assert run[..k + 1][..k] == run[..k];
  }

  /** No two client writes that took effect on a cart ever carried the same expected version. */
  lemma NoLostUpdate(l: Limits, run: seq<Timed>, j: nat, k: nat)
    requires j < k < |run| && Commits(l, run, j) && Commits(l, run, k) && run[j].event.cart == run[k].event.cart
    ensures run[j].event.expected < run[k].event.expected
  {
    hide After;
    CommitRaisesVersion(l, run, j);
    CommitRaisesVersion(l, run, k);
    VersionsGrow(l, run, j + 1, k, run[j].event.cart);
  }
}
