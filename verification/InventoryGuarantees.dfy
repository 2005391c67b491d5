/** What callers of the inventory service rely on: idempotent writes, order-free batches, a complete sweep. */
module InventoryGuarantees {
  import opened Common
  import opened Inventory
  import opened StockInvariant
  import opened Allocation
  import opened InventorySafety
  import opened InventoryRuns

  // ---------------------------------------------------------------- idempotent writes

  /** The record a keyed write looks up. The actor of a batch is the customer it is for. */
  function KeyOf(c: Call): Option<Key> {
    match c
    case CallCreateItem(p, key, _, _, _, _) => if key.Some? then Some(Key(p.subject, key.value)) else None
    case CallAdjust(p, key, _, _, _) => if key.Some? then Some(Key(p.subject, key.value)) else None
    case CallReserve(_, p, key, _, _) => if key.Some? then Some(Key(p.subject, key.value)) else None
    case CallBatch(_, key, data, _) => if key.Some? then Some(Key(data.customer, key.value)) else None
    case _ => None
  }

  function RequestOf(c: Call): Option<Request> {
    match c
    case CallCreateItem(_, _, data, _, _, _) => Some(CreateItemRequest(data))
    case CallAdjust(_, _, i, data, version) => Some(AdjustRequest(i, data, version))
    case CallReserve(_, _, _, data, _) => Some(ReserveRequest(data))
    case CallBatch(_, _, data, _) => Some(BatchRequest(data))
    case _ => None
  }

  /** A keyed write that succeeds leaves the record of its request and of the resource it answered. */
  lemma SuccessIsRecorded(t: Tables, c: Call)
    requires Inv(t) && KeyOf(c).Some? && Perform(t, c).1.Resource?
    ensures var t' := After(t, c);
            KeyOf(c).value in t'.records && t'.records[KeyOf(c).value] == Record(RequestOf(c).value, Perform(t, c).1.id)
  {
    hide StockOk, RowsOk;
    match c
    case CallCreateItem(p, key, data, _, _, _) => LookupFinds(t, p.subject, key, CreateItemRequest(data));
    case CallAdjust(p, key, i, data, version) => LookupFinds(t, p.subject, key, AdjustRequest(i, data, version));
    case CallReserve(_, p, key, data, _) => LookupFinds(t, p.subject, key, ReserveRequest(data));
    case CallBatch(_, key, data, _) => LookupFinds(t, data.customer, key, BatchRequest(data));
  }

  /** The checks made on a request before anything is looked up. */
  predicate WellFormed(request: Request) {
    match request
    case CreateItemRequest(data) => 0 <= data.initial <= 1_000_000_000
    case AdjustRequest(_, data, _) => data.delta != 0
    case ReserveRequest(data) => 0 < data.quantity <= 1_000_000
    case BatchRequest(data) => ValidBatch(data)
  }

  lemma SuccessIsWellFormed(t: Tables, c: Call)
    requires RequestOf(c).Some? && Perform(t, c).1.Resource?
    ensures WellFormed(RequestOf(c).value)
  {
    hide ValidBatch, Move, ReserveRow, ReserveAll, Remember, Expiry, BatchError, Managed, Lookup, GroupRows;
  }

  /** With its record in place a well-formed keyed write changes nothing and answers the recorded resource. */
  lemma RecordedIsReplayed(t: Tables, c: Call)
    requires Inv(t) && KeyOf(c).Some? && KeyOf(c).value in t.records && WellFormed(RequestOf(c).value)
    requires t.records[KeyOf(c).value].request == RequestOf(c).value
    ensures Perform(t, c) == (t, Resource(t.records[KeyOf(c).value].resource))
  {
    var g := t.records[KeyOf(c).value].resource;
    assert RecordOk(t, t.records[KeyOf(c).value]);
    assert c.CallBatch? ==> g in GroupRows(t.reservations, g);
    hide Inv, ValidBatch, Move, ReserveRow, ReserveAll, Remember, Expiry, BatchError, Managed, GroupRows;
    match c
    case CallCreateItem(_, _, _, _, _, _) =>
    case CallAdjust(_, _, _, _, _) =>
    case CallReserve(_, _, _, _, _) =>
    case CallBatch(_, _, _, _) =>
  }

  lemma RecordStays(t: Tables, t': Tables, key: Key)
    requires Evolves(t, t') && key in t.records
    ensures key in t'.records && t'.records[key] == t.records[key]
  {
  }

  /**
   Over any run, a keyed write that succeeded takes effect once: the same request under the same key
   changes nothing at any later time and is answered with the same item, reservation or group,
   and another request under that key is refused and changes nothing, whichever kind of write it is.
   */
  lemma AtMostOnce(ts: seq<Tables>, calls: seq<Call>, m: nat, n: nat, c: Call)
    requires IsRun(ts, calls) && ts[0] == EMPTY && m < n < |ts|
    requires KeyOf(calls[m]).Some? && Perform(ts[m], calls[m]).1.Resource?
    requires KeyOf(c) == KeyOf(calls[m])
    ensures RequestOf(c) == RequestOf(calls[m]) ==> Perform(ts[n], c) == (ts[n], Perform(ts[m], calls[m]).1)
    ensures RequestOf(c) != RequestOf(calls[m]) ==> After(ts[n], c) == ts[n] && Perform(ts[n], c).1.Failed?
  {
    hide Inv, Evolves, Perform, Possible;
    EmptyOk();
    RunKeeps(ts, calls, 0, m);
    CallKeeps(ts[m], calls[m]);
    RunKeeps(ts, calls, m + 1, n);
    SuccessIsRecorded(ts[m], calls[m]);
    RecordStays(ts[m + 1], ts[n], KeyOf(c).value);
    if RequestOf(c) == RequestOf(calls[m]) {
      SuccessIsWellFormed(ts[m], calls[m]);
      RecordedIsReplayed(ts[n], c);
    } else {
      OtherRequestRefused(ts[n], c);
    }
  }

  lemma OtherRequestRefused(t: Tables, c: Call)
    requires KeyOf(c).Some? && KeyOf(c).value in t.records
    requires RequestOf(c) != Some(t.records[KeyOf(c).value].request)
    ensures After(t, c) == t && Perform(t, c).1.Failed?
  {
  }

  // ---------------------------------------------------------------- what a batch does to the items

  /** A batch raises each item's reserved counter by what is taken of it, and changes nothing else of it. */
  lemma {:induction false} ReserveAllItems(t: Tables, takes: seq<Take>, rows: seq<Reservation>, reference: Reference, i: Id)
    requires |takes| == |rows| && i in t.items
    requires forall k :: 0 <= k < |rows| ==>
               rows[k].item == takes[k].item && rows[k].quantity == takes[k].quantity && rows[k].item in t.items
    ensures ReserveAll(t, rows, reference).items[i]
            == t.items[i].(reserved := t.items[i].reserved + TakenOf(takes, i),
                           version := t.items[i].version + TimesOf(takes, i))
  {
    if rows == [] {
    } else {
      ReserveAllItems(t, takes[..|rows| - 1], rows[..|rows| - 1], reference, i);
    }
  }

  ghost predicate NewKey(t: Tables, actor: Id, key: Option<string>) {
    key.Some? ==> Key(actor, key.value) !in t.records
  }

  /** Under a key not used before, a valid batch with a valid expiry succeeds iff every line can be served. */
  lemma BatchSucceedsExactly(t: Tables, s: Settings, key: Option<string>, data: BatchData, now: int)
    requires ValidBatch(data) && NewKey(t, data.customer, key) && Expiry(s, data.expiresAt, now).Ok?
    ensures CreateBatch(t, s, key, data, now).1.Ok?
            <==> forall n :: 0 <= n < |data.lines| ==> Servable(t.items, data.lines[n])
  {
    BatchSucceedsIff(t.items, data.lines);
  }

  lemma BatchItems(t: Tables, s: Settings, key: Option<string>, data: BatchData, now: int, i: Id)
    requires NewKey(t, data.customer, key) && i in t.items && CreateBatch(t, s, key, data, now).1.Ok?
    ensures var t' := CreateBatch(t, s, key, data, now).0;
            && t'.items.Keys == t.items.Keys
            && t'.items[i] == t.items[i].(reserved := t.items[i].reserved + Effect(t.items, data.lines, i).0,
                                          version := t.items[i].version + Effect(t.items, data.lines, i).1)
  {
    var at := Expiry(s, data.expiresAt, now).value;
    BatchRowsItems(t, data, at, i);
    hide BatchRows, ReserveAll, Expiry, BatchError, ValidBatch, Effect;
  }

  lemma BatchRowsItems(t: Tables, data: BatchData, at: int, i: Id)
    requires i in t.items && ValidBatch(data)
    ensures OnItems(BatchRows(t, data, at), t.items)
    ensures var t' := ReserveAll(t, BatchRows(t, data, at), GroupRef(FreshGroup(t)));
            && t'.items.Keys == t.items.Keys
            && t'.items[i] == t.items[i].(reserved := t.items[i].reserved + Effect(t.items, data.lines, i).0,
                                          version := t.items[i].version + Effect(t.items, data.lines, i).1)
  {
    BatchTakesInItems(t.items, data.lines);
    RowsMatchTakes(t, data, at);
    hide BatchTakes, BatchRows, ReserveAll, TakenOf, TimesOf;
    ReserveAllItems(t, BatchTakes(t.items, data.lines), BatchRows(t, data, at), GroupRef(FreshGroup(t)), i);
  }

  lemma RowsMatchTakes(t: Tables, data: BatchData, at: int)
    ensures var takes, rows := BatchTakes(t.items, data.lines), BatchRows(t, data, at);
            && |takes| == |rows|
            && forall k :: 0 <= k < |rows| ==> rows[k].item == takes[k].item && rows[k].quantity == takes[k].quantity
  {
    hide BatchTakes;
  }

  /** The order of a batch's lines matters neither for its success nor for the stock it leaves. */
  lemma BatchOrderIrrelevant(t: Tables, s: Settings, key: Option<string>, data: BatchData, data': BatchData, now: int)
    requires ValidBatch(data) && ValidBatch(data') && data' == data.(lines := data'.lines)
    requires multiset(data.lines) == multiset(data'.lines) && NewKey(t, data.customer, key)
    ensures var (t1, r1) := CreateBatch(t, s, key, data, now);
            var (t2, r2) := CreateBatch(t, s, key, data', now);
            && (r1.Ok? <==> r2.Ok?)
            && t1.items == t2.items
  {
    hide *;
    LineOrderIrrelevant(t.items, data.lines, data'.lines, 0);
    BatchOutcome(t, s, key, data, now);
    BatchOutcome(t, s, key, data', now);
    var (t1, r1) := CreateBatch(t, s, key, data, now);
    var (t2, r2) := CreateBatch(t, s, key, data', now);
    if r1.Ok? {
      BatchKeys(t, s, key, data, now);
      BatchKeys(t, s, key, data', now);
      forall i | i in t.items ensures t1.items[i] == t2.items[i] {
        LineOrderIrrelevant(t.items, data.lines, data'.lines, i);
        BatchItems(t, s, key, data, now, i);
        BatchItems(t, s, key, data', now, i);
      }
    }
  }

  lemma BatchOutcome(t: Tables, s: Settings, key: Option<string>, data: BatchData, now: int)
    requires ValidBatch(data) && NewKey(t, data.customer, key)
    ensures var (t', r) := CreateBatch(t, s, key, data, now);
            && (r.Ok? <==> Expiry(s, data.expiresAt, now).Ok? && BatchError(t.items, data.lines).None?)
            && (r.Err? ==> t' == t)
  {
    hide BatchRows, ReserveAll, Remember, Expiry, GroupRows, BatchError;
  }

  lemma BatchKeys(t: Tables, s: Settings, key: Option<string>, data: BatchData, now: int)
    ensures CreateBatch(t, s, key, data, now).0.items.Keys == t.items.Keys
  {
  }

  // ---------------------------------------------------------------- the expiry sweep

  /** Any subset of the due rows, in order of expiry and within the limit, can be what a sweep gets:
      the others may be held elsewhere. */
  lemma CanFetchIff(rs: seq<Reservation>, now: int, limit: nat, rows: seq<nat>)
    ensures CanFetch(rs, now, limit, rows) <==>
              && Distinct(rows) && InRange(rows, |rs|) && |rows| <= limit
              && (forall k :: 0 <= k < |rows| ==> rs[rows[k]].status == Active && rs[rows[k]].expiresAt <= now)
              && (forall j, k :: 0 <= j < k < |rows| ==> rs[rows[j]].expiresAt <= rs[rows[k]].expiresAt)
  {
    hide Due;
    if CanFetch(rs, now, limit, rows) {
      var locked :| IsFetch(rs, now, limit, locked, rows);
      forall k | 0 <= k < |rows| ensures IsDue(rs[rows[k]], now) {
        assert rows[k] in Due(rs, now);
        DueMeans(rs, now, rows[k]);
      }
    } else if Distinct(rows) && InRange(rows, |rs|) && |rows| <= limit && (forall k :: 0 <= k < |rows| ==> IsDue(rs[rows[k]], now)) {
      RestLocked(rs, now, limit, rows);
    }
  }

  lemma DueMeans(rs: seq<Reservation>, now: int, k: nat)
    ensures k in Due(rs, now) <==> k < |rs| && rs[k].status == Active && rs[k].expiresAt <= now
  {
  }

  /** With all other due rows held elsewhere, these are what is left. */
  lemma RestLocked(rs: seq<Reservation>, now: int, limit: nat, rows: seq<nat>)
    requires Distinct(rows) && InRange(rows, |rs|) && |rows| <= limit
    requires forall k :: 0 <= k < |rows| ==> IsDue(rs[rows[k]], now)
    ensures (forall j, k :: 0 <= j < k < |rows| ==> rs[rows[j]].expiresAt <= rs[rows[k]].expiresAt) ==>
              CanFetch(rs, now, limit, rows)
  {
    hide Due;
    var due, fetched := Due(rs, now), set k | k in rows;
    DistinctCardinality(rows);
    forall k | k in fetched ensures k in due {
      var j :| 0 <= j < |rows| && rows[j] == k;
      DueMeans(rs, now, k);
    }
    var locked := due - fetched;
    assert due - locked == fetched;
    assert (forall j, k :: 0 <= j < k < |rows| ==> rs[rows[j]].expiresAt <= rs[rows[k]].expiresAt) ==>
        IsFetch(rs, now, limit, locked, rows);
  }

  ghost predicate SweepStep(t: Tables, t': Tables, now: int, limit: nat, locked: set<nat>, fetched: seq<nat>) {
    IsFetch(t.reservations, now, limit, locked, fetched) && t' == Sweep(t, fetched, now)
  }

  /** One sweep expires what it fetched; what was due and not fetched stays due, nothing else becomes due.
      Of the rows nobody holds it takes the earliest, as many as the limit allows. */
  lemma SweepShrinksDue(t: Tables, t': Tables, now: int, limit: nat, locked: set<nat>, fetched: seq<nat>)
    requires Inv(t) && SweepStep(t, t', now, limit, locked, fetched)
    ensures Inv(t') && Became(t, t', fetched, Expired)
    ensures |Due(t'.reservations, now)| == |Due(t.reservations, now)| - Min(limit, |Due(t.reservations, now) - locked|)
    ensures forall j, k :: 0 <= j < |fetched| && k in Due(t'.reservations, now) && k !in locked ==>
              t.reservations[fetched[j]].expiresAt <= t.reservations[k].expiresAt
  {
    assert CanFetch(t.reservations, now, limit, fetched);
    FetchResolvable(t, now, limit, fetched);
    SweepKeeps(t, fetched, now);
    hide Inv, Evolves;
    DueShrinks(t.reservations, t'.reservations, fetched, now);
  }

  lemma DueShrinks(rs: seq<Reservation>, rs': seq<Reservation>, fetched: seq<nat>, now: int)
    requires |rs| == |rs'| && Distinct(fetched) && InRange(fetched, |rs|)
    requires forall j :: 0 <= j < |fetched| ==> fetched[j] in Due(rs, now) && rs'[fetched[j]].status == Expired
    requires forall k :: 0 <= k < |rs| && k !in fetched ==> rs'[k] == rs[k]
    ensures |Due(rs', now)| == |Due(rs, now)| - |fetched|
    ensures forall k :: k in Due(rs', now) ==> k in Due(rs, now) && k !in fetched
  {
    var before, after := Due(rs, now), Due(rs', now);
    var gone := set k | k in fetched;
    DistinctCardinality(fetched);
    forall k ensures k in after <==> k in before && k !in gone {
      if k in gone {
        var j :| 0 <= j < |fetched| && fetched[j] == k;
        assert rs'[fetched[j]].status == Expired;
      }
    }
    assert after == before - gone && gone <= before;
  }

  /** Repeated sweeps at a fixed time, with no row held by anyone else. */
  ghost predicate SweepChain(ts: seq<Tables>, fetches: seq<seq<nat>>, now: int, limit: nat) {
    && |ts| == |fetches| + 1
    && forall n :: 0 <= n < |fetches| ==> SweepStep(ts[n], ts[n + 1], now, limit, {}, fetches[n])
  }

  /** What a sweep with nothing locked does to the number of due rows, and to each row. */
  lemma FreeSweep(t: Tables, t': Tables, now: int, limit: nat, fetched: seq<nat>)
    requires Inv(t) && SweepStep(t, t', now, limit, {}, fetched)
    ensures Inv(t') && |t'.reservations| == |t.reservations|
    ensures |Due(t'.reservations, now)| == Max(0, |Due(t.reservations, now)| - limit)
    ensures forall k :: 0 <= k < |t.reservations| ==>
              t'.reservations[k] == t.reservations[k] || t'.reservations[k].status == Expired
  {
    SweepShrinksDue(t, t', now, limit, {}, fetched);
    hide Inv, Evolves, Due, IsFetch;
    assert Due(t.reservations, now) - {} == Due(t.reservations, now);
    forall k | 0 <= k < |t.reservations|
      ensures t'.reservations[k] == t.reservations[k] || t'.reservations[k].status == Expired
    {
      if k in fetched {
        var j :| 0 <= j < |fetched| && fetched[j] == k;
      }
    }
  }

  lemma MoreSweeps(n: nat, limit: nat, due: nat)
    requires 0 < n
    ensures Max(0, Max(0, due - (n - 1) * limit) - limit) == Max(0, due - n * limit)
  {
    assert n * limit == (n - 1) * limit + limit;
  }

  /** n sweeps dispose of n * limit due rows, if there are as many. */
  lemma {:induction false} SweepsDrain(ts: seq<Tables>, fetches: seq<seq<nat>>, now: int, limit: nat, n: nat)
    requires SweepChain(ts, fetches, now, limit) && n < |ts| && Inv(ts[0])
    ensures Inv(ts[n]) && |ts[n].reservations| == |ts[0].reservations|
    ensures |Due(ts[n].reservations, now)| == Max(0, |Due(ts[0].reservations, now)| - n * limit)
    ensures forall k :: 0 <= k < |ts[0].reservations| ==>
              ts[n].reservations[k] == ts[0].reservations[k] || ts[n].reservations[k].status == Expired
  {
    hide Inv, Due, SweepStep;
    if n == 0 {
    } else {
      SweepsDrain(ts, fetches, now, limit, n - 1);
      assert SweepStep(ts[n - 1], ts[n], now, limit, {}, fetches[n - 1]);
      FreeSweep(ts[n - 1], ts[n], now, limit, fetches[n - 1]);
      MoreSweeps(n, limit, |Due(ts[0].reservations, now)|);
    }
  }

  /** From a valid state, enough sweeps expire every due reservation: none is skipped or starved. */
  lemma SweepsComplete(ts: seq<Tables>, fetches: seq<seq<nat>>, now: int, limit: nat)
    requires SweepChain(ts, fetches, now, limit) && Inv(ts[0])
    requires |Due(ts[0].reservations, now)| <= |fetches| * limit
    ensures var last := ts[|fetches|];
            && Due(last.reservations, now) == {}
            && |last.reservations| == |ts[0].reservations|
            && (forall k :: 0 <= k < |last.reservations| && last.reservations[k].status == Active ==> now < last.reservations[k].expiresAt)
            && forall k :: k in Due(ts[0].reservations, now) ==> last.reservations[k].status == Expired
  {
    var n := |fetches|;
    SweepsDrain(ts, fetches, now, limit, n);
    forall k | k in Due(ts[0].reservations, now) ensures ts[n].reservations[k].status == Expired {
      assert k !in Due(ts[n].reservations, now);
    }
    forall k | 0 <= k < |ts[n].reservations| && ts[n].reservations[k].status == Active ensures now < ts[n].reservations[k].expiresAt {
      DueMeans(ts[n].reservations, now, k);
    }
  }

  /** Within the CHECK constraints, resolving a row fails exactly when the reserved counter of its item
      has drifted below the row's quantity. */
  lemma ResolveFailsIff(t: Tables, k: nat, target: Status, reason: Reason, now: int)
    requires k < |t.reservations| && t.reservations[k].item in t.items
    requires t.items[t.reservations[k].item].Checks() && t.reservations[k].quantity > 0
    ensures TryResolve(t, k, target, reason, now).Err?
            <==> t.items[t.reservations[k].item].reserved < t.reservations[k].quantity
  {
  }

  /** In any state, drifted or not: a row that cannot be resolved leaves no trace. The sweep ends as if
      the query had not returned it. */
  lemma {:induction false} SkippedRowLeavesNoTrace(t: Tables, rows: seq<nat>, m: nat, now: int)
    requires InRange(rows, |t.reservations|) && m < |rows|
    requires TryResolve(Sweep(t, rows[..m], now), rows[m], Expired, Reason.ReservationExpired, now).Err?
    ensures Sweep(t, rows, now) == Sweep(t, rows[..m] + rows[m + 1..], now)
    decreases |rows|
  {
    var n := |rows| - 1;
    var others := rows[..m] + rows[m + 1..];
    if m == n {
      assert others == rows[..n];
    } else {
      hide TryResolve;
      WithoutEarlier(rows, m);
      SkippedRowLeavesNoTrace(t, rows[..n], m, now);
    }
  }

  lemma WithoutEarlier(rows: seq<nat>, m: nat)
    requires m < |rows| - 1
    ensures var n, others := |rows| - 1, rows[..m] + rows[m + 1..];
            && rows[..n][..m] == rows[..m]
            && others[..|others| - 1] == rows[..n][..m] + rows[..n][m + 1..]
            && others[|others| - 1] == rows[n]
  {
  }
}
