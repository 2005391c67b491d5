/** Decimal amounts and the integer cents the payment provider counts in (two-decimal currencies only). */
module Money {
  import opened Common

  /** Round half up, that is, ties away from zero. */
  function RoundHalfUp(x: real): int {
    if x >= 0.0 then (x + 0.5).Floor else -((-x + 0.5).Floor)
  }

  function ToMinorUnits(amount: real): int {
    RoundHalfUp(amount * 100.0)
  }

  function FromMinorUnits(cents: int): real {
    cents as real / 100.0
  }

  predicate WholeCents(amount: real) {
    FromMinorUnits((amount * 100.0).Floor) == amount
  }

  /** Whatever the amount, at most half a cent is lost or gained. */
  lemma RoundingError(amount: real)
    ensures -0.5 <= ToMinorUnits(amount) as real - amount * 100.0 <= 0.5
  {
  }

  /** The rounding, in full: to the nearest whole number, and from halfway away from zero. */
  lemma RoundsTo(x: real, n: int)
    ensures RoundHalfUp(x) == n
            <==> if x >= 0.0 then n as real - 0.5 <= x < n as real + 0.5 else n as real - 0.5 < x <= n as real + 0.5
  {
  }

  lemma RoundsToWhole(n: int)
    ensures RoundHalfUp(n as real) == n
  {
    if n >= 0 {
      assert (n as real + 0.5).Floor == n;
    } else {
      assert (-(n as real) + 0.5).Floor == -n;
    }
  }

  /** The conversions undo each other: always starting from cents, and exactly on whole cents starting from an amount. */
  lemma ConversionsInverse(cents: int, amount: real)
    ensures ToMinorUnits(FromMinorUnits(cents)) == cents
    ensures FromMinorUnits(ToMinorUnits(amount)) == amount <==> WholeCents(amount)
  {
    assert FromMinorUnits(cents) * 100.0 == cents as real;
    RoundsToWhole(cents);
    if FromMinorUnits(ToMinorUnits(amount)) == amount {
      assert amount * 100.0 == ToMinorUnits(amount) as real;
      assert (amount * 100.0).Floor == ToMinorUnits(amount);
    }
    if WholeCents(amount) {
      assert amount * 100.0 == (amount * 100.0).Floor as real;
      RoundsToWhole((amount * 100.0).Floor);
    }
  }

  datatype PricedLine = PricedLine(unitPrice: real, quantity: int)

  function LineTotal(line: PricedLine): real {
    line.unitPrice * line.quantity as real
  }

  /** The cart's subtotal, which becomes the order's grand total. */
  function Subtotal(lines: seq<PricedLine>): real {
    if lines == [] then 0.0 else
    Subtotal(lines[..|lines| - 1]) + LineTotal(lines[|lines| - 1])
  }

  function MinorTotal(lines: seq<PricedLine>): int {
    if lines == [] then 0 else
    MinorTotal(lines[..|lines| - 1]) + lines[|lines| - 1].quantity * ToMinorUnits(lines[|lines| - 1].unitPrice)
  }

  lemma {:induction false} SubtotalIsWhole(lines: seq<PricedLine>)
    requires forall k :: 0 <= k < |lines| ==> WholeCents(lines[k].unitPrice)
    ensures Subtotal(lines) == FromMinorUnits(MinorTotal(lines))
  {
    if lines == [] {
    } else {
      var last := lines[|lines| - 1];
      SubtotalIsWhole(lines[..|lines| - 1]);
      ConversionsInverse(0, last.unitPrice);
      LineIsWhole(ToMinorUnits(last.unitPrice), last.quantity);
    }
  }

  lemma LineIsWhole(cents: int, quantity: int)
    ensures FromMinorUnits(cents) * quantity as real == FromMinorUnits(quantity * cents)
  {
    assert (quantity * cents) as real == quantity as real * cents as real;
  }

  /** With whole-cent prices the amount charged is the sum over the lines of quantity times unit price in cents. */
  lemma ChargeIsExact(lines: seq<PricedLine>)
    requires forall k :: 0 <= k < |lines| ==> WholeCents(lines[k].unitPrice)
    ensures ToMinorUnits(Subtotal(lines)) == MinorTotal(lines)
  {
    SubtotalIsWhole(lines);
    ConversionsInverse(MinorTotal(lines), 0.0);
  }

  /** The line totals of an order, one per cart item. */
  function LineTotals(lines: seq<PricedLine>): seq<real> {
    seq(|lines|, k requires 0 <= k < |lines| => LineTotal(lines[k]))
  }

  function SumReal(xs: seq<real>): real {
    if xs == [] then 0.0 else SumReal(xs[..|xs| - 1]) + xs[|xs| - 1]
  }

  /** An order's grand total, taken over from the cart, is the sum of its line totals. */
  lemma {:induction false} GrandTotalIsLineTotals(lines: seq<PricedLine>)
    ensures SumReal(LineTotals(lines)) == Subtotal(lines)
  {
    if lines == [] {
    } else {
      GrandTotalIsLineTotals(lines[..|lines| - 1]);
      assert LineTotals(lines)[..|lines| - 1] == LineTotals(lines[..|lines| - 1]);
    }
  }
}
