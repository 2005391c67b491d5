/** Shopping carts: what each operation does to one cart, and the merge of a guest's cart into a customer's. */
module Carts {
  import opened Common

  datatype Status = Active | CheckedOut | Abandoned | Expired | Merged

  /** What the product service says of a variant; taken as it is. Prices are whole cents, as the columns that hold them. */
  datatype Snapshot = Snapshot(price: int, currency: string, productVersion: nat)

  datatype Item = Item(id: Id, variant: Id, quantity: int, snapshot: Snapshot, version: nat)
  datatype Saved = Saved(id: Id, variant: Id, snapshot: Snapshot)

  /** Item ids are drawn from `nextId`, which stands for fresh UUIDs. */
  datatype Cart = Cart(
    isGuest: bool,
    status: Status,
    expiresAt: int,
    currency: string,
    items: seq<Item>,
    saved: seq<Saved>,
    version: nat,
    nextId: Id)

  datatype Limits = Limits(maxQuantity: int, maxDistinct: int, customerTtl: nat, guestTtl: nat)

  /** The request schema's bounds on a quantity. */
  predicate QuantityAccepted(quantity: int) {
    1 <= quantity <= 1000
  }

  /** `_expires_at`: guests' carts live on their own schedule. */
  function ExpiryFor(l: Limits, isGuest: bool, now: int): int {
    now + if isGuest then l.guestTtl else l.customerTtl
  }

  datatype Error =
    | NotActive | CartExpired | VersionConflict | QuantityLimit | ItemLimit | CurrencyMismatch
    | ItemNotFound | SavedNotFound | EmptyCart | GuestNotFound | InvalidQuantity | ProductNotFound

  // ---------------------------------------------------------------- lookups and sums

  /** The position of the first item of a variant. */
  function FindVariant(items: seq<Item>, v: Id): (r: Option<nat>)
    ensures r.Some? ==> r.value < |items| && items[r.value].variant == v
    ensures r.None? <==> forall k :: 0 <= k < |items| ==> items[k].variant != v
  {
    if items == [] then None
    else if items[0].variant == v then Some(0)
    else
      var rest := FindVariant(items[1..], v);
      assert forall k :: 1 <= k < |items| ==> items[k] == items[1..][k - 1];
      if rest.Some? then Some(rest.value + 1) else None
  }

  function FindItem(items: seq<Item>, id: Id): (r: Option<nat>)
    ensures r.Some? ==> r.value < |items| && items[r.value].id == id
    ensures r.None? <==> forall k :: 0 <= k < |items| ==> items[k].id != id
  {
    if items == [] then None
    else if items[0].id == id then Some(0)
    else
      var rest := FindItem(items[1..], id);
      assert forall k :: 1 <= k < |items| ==> items[k] == items[1..][k - 1];
      if rest.Some? then Some(rest.value + 1) else None
  }

  function FindSaved(saved: seq<Saved>, id: Id): (r: Option<nat>)
    ensures r.Some? ==> r.value < |saved| && saved[r.value].id == id
    ensures r.None? <==> forall k :: 0 <= k < |saved| ==> saved[k].id != id
  {
    if saved == [] then None
    else if saved[0].id == id then Some(0)
    else
      var rest := FindSaved(saved[1..], id);
      assert forall k :: 1 <= k < |saved| ==> saved[k] == saved[1..][k - 1];
      if rest.Some? then Some(rest.value + 1) else None
  }

  predicate IsSaved(saved: seq<Saved>, v: Id) {
    exists k :: 0 <= k < |saved| && saved[k].variant == v
  }

  /** How many pieces of a variant the items hold. */
  function Quantity(items: seq<Item>, v: Id): int {
    if items == [] then 0 else
    Quantity(items[..|items| - 1], v) + if items[|items| - 1].variant == v then items[|items| - 1].quantity else 0
  }

  function Without<T>(s: seq<T>, k: nat): seq<T>
    requires k < |s|
  {
    s[..k] + s[k + 1..]
  }

  ghost predicate ItemsOk(l: Limits, items: seq<Item>) {
    && (forall k :: 0 <= k < |items| ==> 1 <= items[k].quantity <= l.maxQuantity)
    && (forall j, k :: 0 <= j < k < |items| ==> items[j].variant != items[k].variant)
  }

  ghost predicate SavedOk(saved: seq<Saved>) {
    forall j, k :: 0 <= j < k < |saved| ==> saved[j].variant != saved[k].variant
  }

  ghost predicate CartOk(l: Limits, c: Cart) {
    1 <= l.maxQuantity && ItemsOk(l, c.items) && SavedOk(c.saved)
  }

  // ---------------------------------------------------------------- operations on one cart

  function NewCart(l: Limits, isGuest: bool, now: int): Cart {
    Cart(isGuest, Active, ExpiryFor(l, isGuest, now), "USD", [], [], 1, 0)
  }

  /** `_assert_active`, then `_assert_version`. */
  function Guard(c: Cart, expected: nat, now: int): Option<Error> {
    if c.status != Active then Some(NotActive)
    else if c.expiresAt <= now then Some(CartExpired)
    else if c.version != expected then Some(VersionConflict)
    else None
  }

  function Touched(c: Cart): Cart {
    c.(version := c.version + 1)
  }

  function Add(l: Limits, c: Cart, v: Id, quantity: int, snapshot: Snapshot, expected: nat, now: int): Result<Cart, Error> {
    if !QuantityAccepted(quantity) then Err(InvalidQuantity)
    else if Guard(c, expected, now).Some? then Err(Guard(c, expected, now).value)
    else if quantity > l.maxQuantity then Err(QuantityLimit)
    else
      match FindVariant(c.items, v)
      case Some(k) =>
        var item := c.items[k];
        if item.quantity + quantity > l.maxQuantity then Err(QuantityLimit) else
        Ok(Touched(c.(items := c.items[k := Item(item.id, v, item.quantity + quantity, snapshot, item.version + 1)],
                      expiresAt := ExpiryFor(l, c.isGuest, now))))
      case None =>
        if |c.items| >= l.maxDistinct then Err(ItemLimit)
        else if c.items != [] && c.currency != snapshot.currency then Err(CurrencyMismatch)
        else Ok(Touched(c.(items := c.items + [Item(c.nextId, v, quantity, snapshot, 1)], nextId := c.nextId + 1,
                           currency := snapshot.currency, expiresAt := ExpiryFor(l, c.isGuest, now))))
  }

  function UpdateQuantity(l: Limits, c: Cart, id: Id, quantity: int, expected: nat, now: int): Result<Cart, Error> {
    if !QuantityAccepted(quantity) then Err(InvalidQuantity)
    else if Guard(c, expected, now).Some? then Err(Guard(c, expected, now).value)
    else if quantity > l.maxQuantity then Err(QuantityLimit)
    else
      match FindItem(c.items, id)
      case None => Err(ItemNotFound)
      case Some(k) =>
        Ok(Touched(c.(items := c.items[k := c.items[k].(quantity := quantity, version := c.items[k].version + 1)])))
  }

  function Remove(c: Cart, id: Id, expected: nat, now: int): Result<Cart, Error> {
    if Guard(c, expected, now).Some? then Err(Guard(c, expected, now).value)
    else
      match FindItem(c.items, id)
      case None => Err(ItemNotFound)
      case Some(k) => Ok(Touched(c.(items := Without(c.items, k))))
  }

  function SaveForLater(c: Cart, id: Id, expected: nat, now: int): Result<Cart, Error> {
    if Guard(c, expected, now).Some? then Err(Guard(c, expected, now).value)
    else
      match FindItem(c.items, id)
      case None => Err(ItemNotFound)
      case Some(k) =>
        var item := c.items[k];
        var saved := if IsSaved(c.saved, item.variant) then c.saved
                     else c.saved + [Saved(c.nextId, item.variant, item.snapshot)];
        Ok(Touched(c.(items := Without(c.items, k), saved := saved, nextId := c.nextId + 1)))
  }

  /** Neither the number of distinct items nor the currency is checked here. */
  function MoveToCart(l: Limits, c: Cart, id: Id, snapshot: Snapshot, expected: nat, now: int): Result<Cart, Error> {
    if Guard(c, expected, now).Some? then Err(Guard(c, expected, now).value)
    else
      match FindSaved(c.saved, id)
      case None => Err(SavedNotFound)
      case Some(s) =>
        var v := c.saved[s].variant;
        match FindVariant(c.items, v)
        case Some(k) =>
          var item := c.items[k];
          if item.quantity >= l.maxQuantity then Err(QuantityLimit) else
          Ok(Touched(c.(items := c.items[k := Item(item.id, v, item.quantity + 1, snapshot, item.version + 1)],
                        saved := Without(c.saved, s))))
        case None =>
          Ok(Touched(c.(items := c.items + [Item(c.nextId, v, 1, snapshot, 1)], nextId := c.nextId + 1,
                        saved := Without(c.saved, s))))
  }

  function DeleteSaved(c: Cart, id: Id, expected: nat, now: int): Result<Cart, Error> {
    if Guard(c, expected, now).Some? then Err(Guard(c, expected, now).value)
    else
      match FindSaved(c.saved, id)
      case None => Err(SavedNotFound)
      case Some(s) => Ok(Touched(c.(saved := Without(c.saved, s))))
  }

  function Clear(c: Cart, expected: nat, now: int): Result<Cart, Error> {
    if Guard(c, expected, now).Some? then Err(Guard(c, expected, now).value)
    else Ok(Touched(c.(items := [])))
  }

  function CheckOut(c: Cart, now: int): Result<Cart, Error> {
    if c.status != Active then Err(NotActive)
    else if c.expiresAt <= now then Err(CartExpired)
    else if c.items == [] then Err(EmptyCart)
    else Ok(Touched(c.(status := CheckedOut)))
  }

  /** Is the price or the product's version other than the one shown to the customer? */
  predicate Stale(item: Item, now: Snapshot) {
    item.snapshot.price != now.price || item.snapshot.productVersion != now.productVersion
  }

  function Refreshed(items: seq<Item>, prices: map<Id, Snapshot>): seq<Item>
    requires forall k :: 0 <= k < |items| ==> items[k].variant in prices
  {
    if items == [] then [] else
    var last := items[|items| - 1];
    var now := prices[last.variant];
    Refreshed(items[..|items| - 1], prices)
      + [if Stale(last, now) then last.(snapshot := now, version := last.version + 1) else last]
  }

  /** The checkout-readiness call: writes the cart only if some price is stale. */
  function RefreshPrices(c: Cart, prices: map<Id, Snapshot>, expected: nat, now: int): Result<Cart, Error> {
    if Guard(c, expected, now).Some? then Err(Guard(c, expected, now).value)
    else if exists k :: 0 <= k < |c.items| && c.items[k].variant !in prices then Err(ProductNotFound)
    else if exists k :: 0 <= k < |c.items| && Stale(c.items[k], prices[c.items[k].variant])
      then Ok(Touched(c.(items := Refreshed(c.items, prices))))
    else Ok(c)
  }

  /** The calls that carry an expected version. */
  datatype Write =
    | AddItem(variant: Id, quantity: int, snapshot: Snapshot)
    | UpdateItem(item: Id, quantity: int)
    | RemoveItem(item: Id)
    | SaveItem(item: Id)
    | MoveSaved(entry: Id, snapshot: Snapshot)
    | DropSaved(entry: Id)
    | ClearItems
    | Readiness(prices: map<Id, Snapshot>)

  function Apply(l: Limits, c: Cart, w: Write, expected: nat, now: int): Result<Cart, Error> {
    match w
    case AddItem(v, quantity, snapshot) => Add(l, c, v, quantity, snapshot, expected, now)
    case UpdateItem(id, quantity) => UpdateQuantity(l, c, id, quantity, expected, now)
    case RemoveItem(id) => Remove(c, id, expected, now)
    case SaveItem(id) => SaveForLater(c, id, expected, now)
    case MoveSaved(id, snapshot) => MoveToCart(l, c, id, snapshot, expected, now)
    case DropSaved(id) => DeleteSaved(c, id, expected, now)
    case ClearItems => Clear(c, expected, now)
    case Readiness(prices) => RefreshPrices(c, prices, expected, now)
  }

  // ---------------------------------------------------------------- the merge

  /** Move one guest item over; None if its quantity would exceed the limit. */
  function MergeItem(l: Limits, merged: seq<Item>, source: Item, id: Id): Option<seq<Item>> {
    match FindVariant(merged, source.variant)
    case Some(k) =>
      var quantity := merged[k].quantity + source.quantity;
      if quantity > l.maxQuantity then None
      else Some(merged[k := merged[k].(quantity := quantity, version := merged[k].version + 1)])
    case None => Some(merged + [Item(id, source.variant, source.quantity, source.snapshot, 1)])
  }

  /** Move the first n guest items over; None if a quantity would exceed the limit. */
  function MergeItems(l: Limits, items: seq<Item>, source: seq<Item>, n: nat, nextId: Id): Option<seq<Item>>
    requires n <= |source|
  {
    if n == 0 then Some(items) else
    match MergeItems(l, items, source, n - 1, nextId)
    case None => None
    case Some(merged) => MergeItem(l, merged, source[n - 1], nextId + n - 1)
  }

  /** Saved items the customer did not have when the merge began. */
  function MergeSaved(saved: seq<Saved>, source: seq<Saved>, n: nat, nextId: Id): seq<Saved>
    requires n <= |source|
  {
    if n == 0 then saved else
    var merged := MergeSaved(saved, source, n - 1, nextId);
    if IsSaved(saved, source[n - 1].variant) then merged
    else merged + [Saved(nextId + n - 1, source[n - 1].variant, source[n - 1].snapshot)]
  }

  /** The guest's cart need only be ACTIVE; its expiry is not looked at. The result is the customer's
      cart and the guest's. */
  function MergeCarts(l: Limits, customer: Cart, guest: Cart, now: int): Result<(Cart, Cart), Error> {
    if guest.status != Active then Err(GuestNotFound)
    else if customer.status != Active then Err(NotActive)
    else if customer.expiresAt <= now then Err(CartExpired)
    else
      match MergeItems(l, customer.items, guest.items, |guest.items|, customer.nextId)
      case None => Err(QuantityLimit)
      case Some(items) =>
        var nextId := customer.nextId + |guest.items|;
        var saved := MergeSaved(customer.saved, guest.saved, |guest.saved|, nextId);
        Ok((Touched(customer.(items := items, saved := saved, nextId := nextId + |guest.saved|, expiresAt := ExpiryFor(l, false, now))),
            Touched(guest.(status := Merged))))
  }
}
