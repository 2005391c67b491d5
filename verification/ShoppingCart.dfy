/** The cart service's calls on a cart row, in place. */
module ShoppingCarts {
  import opened Common
  import opened Carts

  /** Once one item does not fit, the merge has failed. */
  lemma {:induction false} MergeStops(l: Limits, items: seq<Item>, source: seq<Item>, n: nat, m: nat, nextId: Id)
    requires n <= m <= |source| && MergeItems(l, items, source, n, nextId).None?
    ensures MergeItems(l, items, source, m, nextId).None?
  {
    if n < m {
      MergeStops(l, items, source, n, m - 1, nextId);
    }
  }

  /** The first n items have been looked at. */
  ghost predicate RefreshedTo(items: seq<Item>, prices: map<Id, Snapshot>, n: nat, refreshed: seq<Item>, changed: bool) {
    && n <= |items| == |refreshed|
    && (forall k :: 0 <= k < n ==> items[k].variant in prices)
    && refreshed == Refreshed(items[..n], prices) + items[n..]
    && (changed <==> exists k :: 0 <= k < n && Stale(items[k], prices[items[k].variant]))
  }

  lemma NothingRefreshed(items: seq<Item>, prices: map<Id, Snapshot>)
    ensures RefreshedTo(items, prices, 0, items, false)
  {
  }

  lemma RefreshOne(items: seq<Item>, prices: map<Id, Snapshot>, n: nat, refreshed: seq<Item>, changed: bool)
    requires RefreshedTo(items, prices, n, refreshed, changed) && n < |items|
    ensures |refreshed| == |items| && refreshed[n] == items[n]
    ensures items[n].variant in prices ==>
              var item, now := items[n], prices[items[n].variant];
              var item' := item.(snapshot := now, version := item.version + 1);
              if Stale(item, now) then RefreshedTo(items, prices, n + 1, refreshed[n := item'], true)
              else RefreshedTo(items, prices, n + 1, refreshed, changed)
  {
    assert |Refreshed(items[..n], prices)| == n;
    assert items[..n + 1][..n] == items[..n];
    hide Stale;
  }

  lemma AllRefreshed(items: seq<Item>, prices: map<Id, Snapshot>, refreshed: seq<Item>, changed: bool)
    requires RefreshedTo(items, prices, |items|, refreshed, changed)
    ensures forall k :: 0 <= k < |items| ==> items[k].variant in prices
    ensures refreshed == Refreshed(items, prices)
    ensures changed <==> exists k :: 0 <= k < |items| && Stale(items[k], prices[items[k].variant])
  {
    assert items[..|items|] == items;
  }

  /** A cart's row and its children, changed in place by one service call at a time. */
  class ShoppingCart {
    const isGuest: bool
    var status: Status
    var expiresAt: int
    var currency: string
    var items: seq<Item>
    var saved: seq<Saved>
    var version: nat
    var nextId: Id

    constructor (l: Limits, isGuest: bool, now: int)
      ensures State() == NewCart(l, isGuest, now)
    {
      this.isGuest := isGuest;
      status, expiresAt, currency := Active, ExpiryFor(l, isGuest, now), "USD";
      items, saved, version, nextId := [], [], 1, 0;
    }

    function State(): Cart
      reads this
    {
      Cart(isGuest, status, expiresAt, currency, items, saved, version, nextId)
    }

    method CheckGuard(expected: nat, now: int) returns (error: Option<Error>)
      ensures error == Guard(State(), expected, now)
    {
      if status != Active { return Some(NotActive); }
      if expiresAt <= now { return Some(CartExpired); }
      if version != expected { return Some(VersionConflict); }
      return None;
    }

    method AddItem(l: Limits, variant: Id, quantity: int, snapshot: Snapshot, expected: nat, now: int)
      returns (error: Option<Error>)
      modifies this
      ensures var r := Apply(l, old(State()), Write.AddItem(variant, quantity, snapshot), expected, now);
        if r.Ok? then error == None && State() == r.value else error == Some(r.error) && State() == old(State())
    {
      if !QuantityAccepted(quantity) { return Some(InvalidQuantity); }
      error := CheckGuard(expected, now);
      if error.Some? { return; }
      if quantity > l.maxQuantity { return Some(QuantityLimit); }
      var existing := FindVariant(items, variant);
      if existing.Some? {
        var item := items[existing.value];
        var total := item.quantity + quantity;
        if total > l.maxQuantity { return Some(QuantityLimit); }
        items := items[existing.value := item.(quantity := total, version := item.version + 1, snapshot := snapshot)];
      } else {
        if |items| >= l.maxDistinct { return Some(ItemLimit); }
        if items != [] && currency != snapshot.currency { return Some(CurrencyMismatch); }
        currency := snapshot.currency;
        items := items + [Item(nextId, variant, quantity, snapshot, 1)];
        nextId := nextId + 1;
      }
      version := version + 1;
      expiresAt := ExpiryFor(l, isGuest, now);
    }

    method UpdateQuantity(l: Limits, id: Id, quantity: int, expected: nat, now: int) returns (error: Option<Error>)
      modifies this
      ensures var r := Apply(l, old(State()), UpdateItem(id, quantity), expected, now);
        if r.Ok? then error == None && State() == r.value else error == Some(r.error) && State() == old(State())
    {
      if !QuantityAccepted(quantity) { return Some(InvalidQuantity); }
      error := CheckGuard(expected, now);
      if error.Some? { return; }
      if quantity > l.maxQuantity { return Some(QuantityLimit); }
      var found := FindItem(items, id);
      if found.None? { return Some(ItemNotFound); }
      var item := items[found.value];
      items := items[found.value := item.(quantity := quantity, version := item.version + 1)];
      version := version + 1;
    }

    method RemoveItem(l: Limits, id: Id, expected: nat, now: int) returns (error: Option<Error>)
      modifies this
      ensures var r := Apply(l, old(State()), Write.RemoveItem(id), expected, now);
        if r.Ok? then error == None && State() == r.value else error == Some(r.error) && State() == old(State())
    {
      error := CheckGuard(expected, now);
      if error.Some? { return; }
      var found := FindItem(items, id);
      if found.None? { return Some(ItemNotFound); }
      items := Without(items, found.value);
      version := version + 1;
    }

    method SaveForLater(l: Limits, id: Id, expected: nat, now: int) returns (error: Option<Error>)
      modifies this
      ensures var r := Apply(l, old(State()), SaveItem(id), expected, now);
        if r.Ok? then error == None && State() == r.value else error == Some(r.error) && State() == old(State())
    {
      error := CheckGuard(expected, now);
      if error.Some? { return; }
      var found := FindItem(items, id);
      if found.None? { return Some(ItemNotFound); }
      var item := items[found.value];
      if !IsSaved(saved, item.variant) {
        saved := saved + [Saved(nextId, item.variant, item.snapshot)];
      }
      nextId := nextId + 1;
      items := Without(items, found.value);
      version := version + 1;
    }

    method MoveSavedToCart(l: Limits, id: Id, snapshot: Snapshot, expected: nat, now: int) returns (error: Option<Error>)
      modifies this
      ensures var r := Apply(l, old(State()), MoveSaved(id, snapshot), expected, now);
        if r.Ok? then error == None && State() == r.value else error == Some(r.error) && State() == old(State())
    {
      error := CheckGuard(expected, now);
      if error.Some? { return; }
      var found := FindSaved(saved, id);
      if found.None? { return Some(SavedNotFound); }
      var variant := saved[found.value].variant;
      var existing := FindVariant(items, variant);
      if existing.Some? {
        var item := items[existing.value];
        if item.quantity >= l.maxQuantity { return Some(QuantityLimit); }
        items := items[existing.value := item.(quantity := item.quantity + 1, version := item.version + 1, snapshot := snapshot)];
      } else {
        items := items + [Item(nextId, variant, 1, snapshot, 1)];
        nextId := nextId + 1;
      }
      saved := Without(saved, found.value);
      version := version + 1;
    }

    method DeleteSaved(l: Limits, id: Id, expected: nat, now: int) returns (error: Option<Error>)
      modifies this
      ensures var r := Apply(l, old(State()), DropSaved(id), expected, now);
        if r.Ok? then error == None && State() == r.value else error == Some(r.error) && State() == old(State())
    {
      error := CheckGuard(expected, now);
      if error.Some? { return; }
      var found := FindSaved(saved, id);
      if found.None? { return Some(SavedNotFound); }
      saved := Without(saved, found.value);
      version := version + 1;
    }

    /** The items are refreshed one by one; the row is written only if a price was stale. */
    method CheckReadiness(l: Limits, prices: map<Id, Snapshot>, expected: nat, now: int) returns (error: Option<Error>)
      modifies this
      ensures var r := Apply(l, old(State()), Readiness(prices), expected, now);
        if r.Ok? then error == None && State() == r.value else error == Some(r.error) && State() == old(State())
    {
      error := CheckGuard(expected, now);
      if error.Some? { return; }
      var result := FreshItems(prices);
      if result.None? { return Some(ProductNotFound); }
      var (refreshed, changed) := result.value;
      if changed {
        items := refreshed;
        version := version + 1;
      }
    }

    /** Item by item: the refreshed items and whether any was stale; None if the product service does not know one. */
    method FreshItems(prices: map<Id, Snapshot>) returns (result: Option<(seq<Item>, bool)>)
      ensures result.None? <==> exists k :: 0 <= k < |items| && items[k].variant !in prices
      ensures result.Some? ==>
                && result.value.0 == Refreshed(items, prices)
                && (result.value.1 <==> exists k :: 0 <= k < |items| && Stale(items[k], prices[items[k].variant]))
    {
      hide *;
      var refreshed := items;
      var changed := false;
      NothingRefreshed(items, prices);
      for n := 0 to |items|
        invariant RefreshedTo(items, prices, n, refreshed, changed)
      {
        RefreshOne(items, prices, n, refreshed, changed);
        var item := refreshed[n];
        if item.variant !in prices { return None; }
        if Stale(item, prices[item.variant]) {
          changed := true;
          refreshed := refreshed[n := item.(snapshot := prices[item.variant], version := item.version + 1)];
        }
      }
      AllRefreshed(items, prices, refreshed, changed);
      return Some((refreshed, changed));
    }

    method Clear(l: Limits, expected: nat, now: int) returns (error: Option<Error>)
      modifies this
      ensures var r := Apply(l, old(State()), ClearItems, expected, now);
        if r.Ok? then error == None && State() == r.value else error == Some(r.error) && State() == old(State())
    {
      error := CheckGuard(expected, now);
      if error.Some? { return; }
      items := [];
      version := version + 1;
    }

    method MarkCheckedOut(now: int) returns (error: Option<Error>)
      modifies this
      ensures var r := CheckOut(old(State()), now);
        if r.Ok? then error == None && State() == r.value else error == Some(r.error) && State() == old(State())
    {
      if status != Active { return Some(NotActive); }
      if expiresAt <= now { return Some(CartExpired); }
      if items == [] { return Some(EmptyCart); }
      status := CheckedOut;
      version := version + 1;
      error := None;
    }

    /** The guest's items one after the other, on the transaction's copy of the customer's. */
    method TakeOver(l: Limits, sources: seq<Item>) returns (result: Option<seq<Item>>)
      ensures result == MergeItems(l, items, sources, |sources|, nextId)
    {
      hide FindVariant;
      var merged := items;
      for n := 0 to |sources|
        invariant MergeItems(l, items, sources, n, nextId) == Some(merged)
      {
        var source := sources[n];
        var target := FindVariant(merged, source.variant);
        if target.Some? {
          var quantity := merged[target.value].quantity + source.quantity;
          if quantity > l.maxQuantity {
            MergeStops(l, items, sources, n + 1, |sources|, nextId);
            return None;
          }
          merged := merged[target.value := merged[target.value].(quantity := quantity, version := merged[target.value].version + 1)];
        } else {
          merged := merged + [Item(nextId + n, source.variant, source.quantity, source.snapshot, 1)];
        }
      }
      return Some(merged);
    }

    /** Both loops work on the transaction's copy; a quantity over the limit rolls it back. */
    method MergeGuest(l: Limits, guest: ShoppingCart, now: int) returns (error: Option<Error>)
      requires guest != this
      modifies this, guest
      ensures var r := MergeCarts(l, old(State()), old(guest.State()), now);
        if r.Ok? then error == None && (State(), guest.State()) == r.value
        else error == Some(r.error) && State() == old(State()) && guest.State() == old(guest.State())
    {
      if guest.status != Active { return Some(GuestNotFound); }
      if status != Active { return Some(NotActive); }
      if expiresAt <= now { return Some(CartExpired); }
      var merged := TakeOver(l, guest.items);
      if merged.None? { return Some(QuantityLimit); }
      var id := nextId + |guest.items|;
      var united := saved;
      for n := 0 to |guest.saved|
        invariant united == MergeSaved(saved, guest.saved, n, id)
      {
        var source := guest.saved[n];
        if !IsSaved(saved, source.variant) {
          united := united + [Saved(id + n, source.variant, source.snapshot)];
        }
      }
      guest.status := Merged;
      guest.version := guest.version + 1;
      items, saved, nextId := merged.value, united, id + |guest.saved|;
      version := version + 1;
      expiresAt := ExpiryFor(l, false, now);
      error := None;
    }
  }
}
