/** How a batch spreads its lines over the warehouse rows of each (seller, sku) pair. */
module Allocation {
  import opened Common
  import opened Inventory

  function Quantity(takes: seq<Take>): int {
    if takes == [] then 0 else Quantity(takes[..|takes| - 1]) + takes[|takes| - 1].quantity
  }

  lemma {:induction false} QuantityAppend(a: seq<Take>, b: seq<Take>)
    ensures Quantity(a + b) == Quantity(a) + Quantity(b)
  {
    if b == [] {
      assert a + b == a;
    } else {
      assert (a + b)[..|a + b| - 1] == a + b[..|b| - 1];
      QuantityAppend(a, b[..|b| - 1]);
    }
  }

  lemma {:induction false} GivenBeforeMonotone(a: seq<int>, j: nat, k: nat)
    requires j <= k <= |a|
    ensures 0 <= GivenBefore(a, j) <= GivenBefore(a, k)
    decreases k
  {
    if j < k {
      GivenBeforeMonotone(a, j, k - 1);
    } else if 0 < k {
      GivenBeforeMonotone(a, j - 1, k - 1);
    }
  }

  /** The shares of the first n rows add up to what those rows can give, but no more than asked. */
  lemma {:induction false} TakesQuantity(ids: seq<Id>, a: seq<int>, quantity: int, n: nat)
    requires |ids| == |a| && n <= |a| && 0 <= quantity
    ensures Quantity(Takes(ids, a, quantity, n)) == Min(quantity, GivenBefore(a, n))
  {
    if n == 0 {
    } else {
      TakesQuantity(ids, a, quantity, n - 1);
      GivenBeforeMonotone(a, n - 1, n);
      var earlier := Takes(ids, a, quantity, n - 1);
      var share := Share(a, quantity, n - 1);
      if share > 0 {
        QuantityAppend(earlier, [Take(ids[n - 1], share)]);
        assert Quantity([Take(ids[n - 1], share)]) == share;
      }
    }
  }

  /** The closed form is what a greedy walk takes: as much as the row has of what is still missing. */
  lemma ShareIsGreedy(ids: seq<Id>, a: seq<int>, quantity: int, j: nat)
    requires |ids| == |a| && j < |a| && 0 <= quantity
    ensures Share(a, quantity, j) == Max(0, Min(a[j], quantity - Quantity(Takes(ids, a, quantity, j))))
  {
    TakesQuantity(ids, a, quantity, j);
    GivenBeforeMonotone(a, 0, j);
  }

  lemma {:induction false} GivenCoversSum(a: seq<int>, n: nat)
    requires n <= |a|
    ensures Sum(a[..n]) <= GivenBefore(a, n)
  {
    if n == 0 {
    } else {
      GivenCoversSum(a, n - 1);
      assert a[..n][..n - 1] == a[..n - 1];
    }
  }

  /** A line the stock can serve is served in full. */
  lemma LineServedInFull(items: map<Id, Item>, line: Line)
    requires LineError(items, line).None? && 0 <= line.quantity
    ensures Quantity(LineTakes(items, line)) == line.quantity
  {
    var ids := Candidates(items, line.seller, line.sku);
    var a := Availabilities(items, ids);
    TakesQuantity(ids, a, line.quantity, |ids|);
    GivenCoversSum(a, |a|);
    assert a[..|a|] == a;
  }

  /** Rows before one that still gives are drained, so at most one row of a line is partly drained. */
  lemma AtMostOnePartlyDrained(a: seq<int>, quantity: int, j: nat, k: nat)
    requires j < k < |a| && 0 < Share(a, quantity, k)
    ensures Share(a, quantity, j) == Max(0, a[j])
    ensures !(0 < Share(a, quantity, j) < a[j])
  {
    GivenBeforeMonotone(a, j + 1, k);
  }

  // ---------------------------------------------------------------- which rows a batch touches

  /** A take is justified by a line: a positive share of an active row of the line's pair, covered by its stock. */
  predicate Justified(items: map<Id, Item>, line: Line, take: Take) {
    && take.item in items
    && items[take.item].seller == line.seller && items[take.item].sku == line.sku && items[take.item].isActive
    && 0 < take.quantity <= items[take.item].Available()
  }

  lemma ShareBounds(a: seq<int>, quantity: int, j: nat)
    requires j < |a|
    ensures 0 <= Share(a, quantity, j) <= Max(0, a[j])
  {
  }

  ghost predicate AllJustified(items: map<Id, Item>, line: Line, takes: seq<Take>) {
    forall k :: 0 <= k < |takes| ==> Justified(items, line, takes[k])
  }

  ghost predicate DistinctItems(takes: seq<Take>) {
    forall j, k :: 0 <= j < k < |takes| ==> takes[j].item != takes[k].item
  }

  lemma {:induction false} TakesJustified(items: map<Id, Item>, line: Line, ids: seq<Id>, a: seq<int>, n: nat)
    requires ids == Candidates(items, line.seller, line.sku) && a == Availabilities(items, ids)
    requires n <= |ids|
    ensures AllJustified(items, line, Takes(ids, a, line.quantity, n))
    ensures DistinctItems(Takes(ids, a, line.quantity, n))
  {
    hide Candidates, Share;
    if n == 0 {
    } else {
      var earlier := Takes(ids, a, line.quantity, n - 1);
      ShareBounds(a, line.quantity, n - 1);
      TakesJustified(items, line, ids, a, n - 1);
      TakesInItems(ids, a, line.quantity, n - 1);
      var share := Share(a, line.quantity, n - 1);
      if share > 0 {
        var take := Take(ids[n - 1], share);
        assert ids[n - 1] in ids;
        assert Justified(items, line, take);
        forall k | 0 <= k < |earlier| ensures earlier[k].item != take.item {
          assert earlier[k].item in ids[..n - 1];
        }
      }
    }
  }

  lemma LineTakesJustified(items: map<Id, Item>, line: Line)
    ensures AllJustified(items, line, LineTakes(items, line)) && DistinctItems(LineTakes(items, line))
  {
    var ids := Candidates(items, line.seller, line.sku);
    TakesJustified(items, line, ids, Availabilities(items, ids), |ids|);
  }

  ghost predicate FromLine(items: map<Id, Item>, lines: seq<Line>, take: Take) {
    exists n :: 0 <= n < |lines| && Justified(items, lines[n], take)
  }

  ghost predicate AllFromLines(items: map<Id, Item>, lines: seq<Line>, takes: seq<Take>) {
    forall k :: 0 <= k < |takes| ==> FromLine(items, lines, takes[k])
  }

  lemma FromMoreLines(items: map<Id, Item>, lines: seq<Line>, line: Line, takes: seq<Take>)
    requires AllFromLines(items, lines, takes)
    ensures AllFromLines(items, lines + [line], takes)
  {
    hide Justified;
    forall k | 0 <= k < |takes| ensures FromLine(items, lines + [line], takes[k]) {
      assert FromLine(items, lines, takes[k]);
      var m :| 0 <= m < |lines| && Justified(items, lines[m], takes[k]);
      assert (lines + [line])[m] == lines[m];
    }
  }

  lemma FromLastLine(items: map<Id, Item>, lines: seq<Line>, line: Line, takes: seq<Take>)
    requires AllJustified(items, line, takes)
    ensures AllFromLines(items, lines + [line], takes)
  {
    hide Justified;
    assert (lines + [line])[|lines|] == line;
  }

  lemma {:induction false} BatchTakesFromLines(items: map<Id, Item>, lines: seq<Line>)
    ensures AllFromLines(items, lines, BatchTakes(items, lines))
  {
    if lines == [] {
    } else {
      var n := |lines| - 1;
      LastTakes(items, lines);
      hide BatchTakes, LineTakes, AllFromLines, AllJustified;
      BatchTakesFromLines(items, lines[..n]);
      LineTakesJustified(items, lines[n]);
      FromMoreLines(items, lines[..n], lines[n], BatchTakes(items, lines[..n]));
      FromLastLine(items, lines[..n], lines[n], LineTakes(items, lines[n]));
      FromEither(items, lines, BatchTakes(items, lines[..n]), LineTakes(items, lines[n]));
    }
  }

  lemma LastTakes(items: map<Id, Item>, lines: seq<Line>)
    requires lines != []
    ensures var n := |lines| - 1;
            && lines == lines[..n] + [lines[n]]
            && BatchTakes(items, lines) == BatchTakes(items, lines[..n]) + LineTakes(items, lines[n])
  {
    hide LineTakes;
  }

  lemma FromEither(items: map<Id, Item>, lines: seq<Line>, a: seq<Take>, b: seq<Take>)
    requires AllFromLines(items, lines, a) && AllFromLines(items, lines, b)
    ensures AllFromLines(items, lines, a + b)
  {
    hide FromLine;
  }

  /** No row is touched twice by a batch whose pairs are distinct. */
  lemma {:induction false} BatchTakesDistinct(items: map<Id, Item>, lines: seq<Line>)
    requires UniquePairs(lines)
    ensures DistinctItems(BatchTakes(items, lines))
  {
    if lines == [] {
    } else {
      var n := |lines| - 1;
      var earlier, last := BatchTakes(items, lines[..n]), LineTakes(items, lines[n]);
      BatchTakesDistinct(items, lines[..n]);
      BatchTakesFromLines(items, lines[..n]);
      LineTakesJustified(items, lines[n]);
      forall j, k | 0 <= j < |earlier| && 0 <= k < |last| ensures earlier[j].item != last[k].item {
        assert FromLine(items, lines[..n], earlier[j]);
        var m :| 0 <= m < n && Justified(items, lines[..n][m], earlier[j]);
        assert Justified(items, lines[n], last[k]);
      }
    }
  }

  // ---------------------------------------------------------------- when a batch succeeds

  /** The line's pair has an active row, and its rows together have the quantity. */
  predicate Servable(items: map<Id, Item>, line: Line) {
    var ids := Candidates(items, line.seller, line.sku);
    ids != [] && line.quantity <= Sum(Availabilities(items, ids))
  }

  /** A batch fails exactly when some line has no active row or too little stock in its rows. */
  lemma {:induction false} BatchSucceedsIff(items: map<Id, Item>, lines: seq<Line>)
    ensures BatchError(items, lines).None? <==> forall n :: 0 <= n < |lines| ==> Servable(items, lines[n])
  {
    hide Candidates;
    if lines == [] {
    } else {
      var last := |lines| - 1;
      BatchSucceedsIff(items, lines[..last]);
      assert LineError(items, lines[last]).None? <==> Servable(items, lines[last]);
      if BatchError(items, lines).None? {
        forall n | 0 <= n < |lines| ensures Servable(items, lines[n]) {
          if n < last { assert Servable(items, lines[..last][n]); }
        }
      } else if BatchError(items, lines[..last]).Some? {
        var n :| 0 <= n < last && !Servable(items, lines[..last][n]);
        assert !Servable(items, lines[n]);
      }
    }
  }

  // ---------------------------------------------------------------- the order of the lines

  /** What a list of takes reserves of item i. */
  function TakenOf(takes: seq<Take>, i: Id): int {
    if takes == [] then 0 else
    TakenOf(takes[..|takes| - 1], i) + if takes[|takes| - 1].item == i then takes[|takes| - 1].quantity else 0
  }

  /** How many takes are of item i. */
  function TimesOf(takes: seq<Take>, i: Id): nat {
    if takes == [] then 0 else
    TimesOf(takes[..|takes| - 1], i) + if takes[|takes| - 1].item == i then 1 else 0
  }

  lemma {:induction false} TakenAppend(a: seq<Take>, b: seq<Take>, i: Id)
    ensures TakenOf(a + b, i) == TakenOf(a, i) + TakenOf(b, i)
    ensures TimesOf(a + b, i) == TimesOf(a, i) + TimesOf(b, i)
  {
    if b == [] {
      assert a + b == a;
    } else {
      assert (a + b)[..|a + b| - 1] == a + b[..|b| - 1];
      TakenAppend(a, b[..|b| - 1], i);
    }
  }

  lemma {:induction false} BatchAppend(items: map<Id, Item>, a: seq<Line>, b: seq<Line>)
    ensures BatchTakes(items, a + b) == BatchTakes(items, a) + BatchTakes(items, b)
    ensures BatchError(items, a + b).None? <==> BatchError(items, a).None? && BatchError(items, b).None?
  {
    hide LineTakes, LineError;
    if b == [] {
      assert a + b == a;
    } else {
      assert (a + b)[..|a + b| - 1] == a + b[..|b| - 1];
      assert (a + b)[|a + b| - 1] == b[|b| - 1];
      BatchAppend(items, a, b[..|b| - 1]);
    }
  }

  /** What a batch takes of item i, and of how many lines. */
  function Effect(items: map<Id, Item>, lines: seq<Line>, i: Id): (int, nat) {
    (TakenOf(BatchTakes(items, lines), i), TimesOf(BatchTakes(items, lines), i))
  }

  lemma EffectAppend(items: map<Id, Item>, a: seq<Line>, b: seq<Line>, i: Id)
    ensures Effect(items, a + b, i).0 == Effect(items, a, i).0 + Effect(items, b, i).0
    ensures Effect(items, a + b, i).1 == Effect(items, a, i).1 + Effect(items, b, i).1
    ensures BatchError(items, a + b).None? <==> BatchError(items, a).None? && BatchError(items, b).None?
  {
    BatchAppend(items, a, b);
    TakenAppend(BatchTakes(items, a), BatchTakes(items, b), i);
  }

  /** Permuting the lines of a batch changes neither whether it succeeds nor what each item gives. */
  lemma {:induction false} LineOrderIrrelevant(items: map<Id, Item>, lines: seq<Line>, lines': seq<Line>, i: Id)
    requires multiset(lines) == multiset(lines')
    ensures Effect(items, lines, i) == Effect(items, lines', i)
    ensures BatchError(items, lines).None? <==> BatchError(items, lines').None?
    decreases |lines|
  {
    hide Effect, BatchError, BatchTakes;
    if lines == [] {
      assert |multiset(lines')| == |lines'|;
    } else {
      var last := |lines| - 1;
      var n := PermutationSplit(lines, lines');
      var x, a, b := lines[last], lines'[..n], lines'[n + 1..];
      LineOrderIrrelevant(items, lines[..last], a + b, i);
      assert lines == lines[..last] + [x] && lines' == a + ([x] + b);
      EffectAppend(items, lines[..last], [x], i);
      EffectAppend(items, a, [x] + b, i);
      EffectAppend(items, [x], b, i);
      EffectAppend(items, a, b, i);
    }
  }
}
