/**
 * The stock ledger as pure arithmetic. `stocks[k]` is the stock of the
 * product whose id is k + 1. Adding stock is plain addition; reducing stock
 * clamps at zero (`Math.max(0, stock - quantity)`); an unknown id changes
 * nothing (the service returns null for it). A sale's lines are applied one
 * after the other, in the order of the sale's details.
 */
module Ledger {

  /** One sale line as far as stock is concerned. */
  datatype Line = Line(productId: int, quantity: int)

  predicate Known(stocks: seq<int>, id: int) { 1 <= id <= |stocks| }

  function Max(a: int, b: int): int { if a >= b then a else b }

  /** `addStock`: the product's stock grows by `q`. */
  function Added(stocks: seq<int>, id: int, q: int): (r: seq<int>)
    ensures |r| == |stocks|
    ensures forall k :: 0 <= k < |stocks| && k != id - 1 ==> r[k] == stocks[k]
    ensures Known(stocks, id) ==> r[id - 1] == stocks[id - 1] + q
  {
    if Known(stocks, id) then stocks[id - 1 := stocks[id - 1] + q] else stocks
  }

  /** `reduceStock`: the product's stock shrinks by `q`, but never below zero. */
  function Reduced(stocks: seq<int>, id: int, q: int): (r: seq<int>)
    ensures |r| == |stocks|
    ensures forall k :: 0 <= k < |stocks| && k != id - 1 ==> r[k] == stocks[k]
    ensures Known(stocks, id) ==> r[id - 1] >= 0 && r[id - 1] >= stocks[id - 1] - q
    ensures Known(stocks, id) && stocks[id - 1] >= q ==> r[id - 1] == stocks[id - 1] - q
    ensures Known(stocks, id) && stocks[id - 1] < q ==> r[id - 1] == 0
  {
    if Known(stocks, id) then stocks[id - 1 := Max(0, stocks[id - 1] - q)] else stocks
  }

  /** `addStock` then `reduceStock` by the same non-negative quantity gives the stock back. */
  lemma AddThenReduce(stocks: seq<int>, id: int, q: int)
    requires q >= 0 && (Known(stocks, id) ==> stocks[id - 1] >= 0)
    ensures Reduced(Added(stocks, id, q), id, q) == stocks
  {
  }

  function AddLines(stocks: seq<int>, lines: seq<Line>): (r: seq<int>)
    ensures |r| == |stocks|
    decreases |lines|
  {
    if lines == [] then stocks
    else AddLines(Added(stocks, lines[0].productId, lines[0].quantity), lines[1..])
  }

  function ReduceLines(stocks: seq<int>, lines: seq<Line>): (r: seq<int>)
    ensures |r| == |stocks|
    decreases |lines|
  {
    if lines == [] then stocks
    else ReduceLines(Reduced(stocks, lines[0].productId, lines[0].quantity), lines[1..])
  }

  /** Applying one more line after the others. */
  lemma {:induction false} AddLinesSnoc(stocks: seq<int>, lines: seq<Line>, l: Line)
    ensures AddLines(stocks, lines + [l]) == Added(AddLines(stocks, lines), l.productId, l.quantity)
    decreases |lines|
  {
    if lines == [] {
      assert lines + [l] == [l];
    } else {
      assert (lines + [l])[1..] == lines[1..] + [l];
      AddLinesSnoc(Added(stocks, lines[0].productId, lines[0].quantity), lines[1..], l);
    }
  }

  lemma {:induction false} ReduceLinesSnoc(stocks: seq<int>, lines: seq<Line>, l: Line)
    ensures ReduceLines(stocks, lines + [l]) == Reduced(ReduceLines(stocks, lines), l.productId, l.quantity)
    decreases |lines|
  {
    if lines == [] {
      assert lines + [l] == [l];
    } else {
      assert (lines + [l])[1..] == lines[1..] + [l];
      ReduceLinesSnoc(Reduced(stocks, lines[0].productId, lines[0].quantity), lines[1..], l);
    }
  }

  /** Total quantity the lines name for product `id`. */
  function QuantityFor(lines: seq<Line>, id: int): int
    decreases |lines|
  {
    if lines == [] then 0
    else (if lines[0].productId == id then lines[0].quantity else 0) + QuantityFor(lines[1..], id)
  }

  predicate NonNegativeQuantities(lines: seq<Line>)
  {
    forall i :: 0 <= i < |lines| ==> lines[i].quantity >= 0
  }

  predicate NonNegativeStocks(stocks: seq<int>)
  {
    forall k :: 0 <= k < |stocks| ==> stocks[k] >= 0
  }

  lemma {:induction false} QuantityForNonNegative(lines: seq<Line>, id: int)
    requires NonNegativeQuantities(lines)
    ensures QuantityFor(lines, id) >= 0
    decreases |lines|
  {
    if lines != [] {
      QuantityForNonNegative(lines[1..], id);
    }
  }

  /** Adding a sale's lines raises each product's stock by the quantity the lines name for it. */
  lemma {:induction false} AddLinesAt(stocks: seq<int>, lines: seq<Line>, k: int)
    requires 0 <= k < |stocks|
    ensures |AddLines(stocks, lines)| == |stocks|
    ensures AddLines(stocks, lines)[k] == stocks[k] + QuantityFor(lines, k + 1)
    decreases |lines|
  {
    if lines != [] {
      AddLinesAt(Added(stocks, lines[0].productId, lines[0].quantity), lines[1..], k);
    }
  }

  /**
   * Reducing by a sale's lines lowers each product's stock by the quantity
   * the lines name for it, as long as the stock covers that quantity.
   */
  lemma {:induction false} ReduceLinesAt(stocks: seq<int>, lines: seq<Line>, k: int)
    requires 0 <= k < |stocks|
    requires NonNegativeQuantities(lines)
    requires stocks[k] >= QuantityFor(lines, k + 1)
    ensures |ReduceLines(stocks, lines)| == |stocks|
    ensures ReduceLines(stocks, lines)[k] == stocks[k] - QuantityFor(lines, k + 1)
    decreases |lines|
  {
    if lines != [] {
      var next := Reduced(stocks, lines[0].productId, lines[0].quantity);
      QuantityForNonNegative(lines[1..], k + 1);
      ReduceLinesAt(next, lines[1..], k);
    }
  }

  /**
   * Whatever the quantities, a product named by some line ends with a stock
   * of at least zero, and a product named by none keeps its stock.
   */
  lemma {:induction false} ReduceLinesClamps(stocks: seq<int>, lines: seq<Line>, k: int)
    requires 0 <= k < |stocks|
    ensures |ReduceLines(stocks, lines)| == |stocks|
    ensures (exists i :: 0 <= i < |lines| && lines[i].productId == k + 1) ==> ReduceLines(stocks, lines)[k] >= 0
    ensures (forall i :: 0 <= i < |lines| ==> lines[i].productId != k + 1) ==> ReduceLines(stocks, lines)[k] == stocks[k]
    decreases |lines|
  {
    if lines != [] {
      var next := Reduced(stocks, lines[0].productId, lines[0].quantity);
      ReduceLinesClamps(next, lines[1..], k);
      if exists i :: 0 <= i < |lines| && lines[i].productId == k + 1 {
        if lines[0].productId != k + 1 {
          var i :| 0 <= i < |lines| && lines[i].productId == k + 1;
          assert lines[1..][i - 1].productId == k + 1;
        } else {
          ReducedStaysNonNegative(next, lines[1..], k);
        }
      }
      if forall i :: 0 <= i < |lines| ==> lines[i].productId != k + 1 {
        assert forall i :: 0 <= i < |lines[1..]| ==> lines[1..][i].productId != k + 1 by {
          forall i | 0 <= i < |lines[1..]| ensures lines[1..][i].productId != k + 1 {
            assert lines[1..][i] == lines[i + 1];
          }
        }
      }
    }
  }

  /** Once a stock is at least zero, further reductions keep it so. */
  lemma {:induction false} ReducedStaysNonNegative(stocks: seq<int>, lines: seq<Line>, k: int)
    requires 0 <= k < |stocks| && stocks[k] >= 0
    ensures |ReduceLines(stocks, lines)| == |stocks| && ReduceLines(stocks, lines)[k] >= 0
    decreases |lines|
  {
    if lines != [] {
      ReducedStaysNonNegative(Reduced(stocks, lines[0].productId, lines[0].quantity), lines[1..], k);
    }
  }

  /**
   * Cancelling a sale (its lines added back) and then restoring it (its lines
   * taken out again) leaves every stock as it was, when stocks and quantities
   * are non-negative.
   */
  lemma CancelThenRestore(stocks: seq<int>, lines: seq<Line>)
    requires NonNegativeStocks(stocks) && NonNegativeQuantities(lines)
    ensures ReduceLines(AddLines(stocks, lines), lines) == stocks
  {
    var added := AddLines(stocks, lines);
    var back := ReduceLines(added, lines);
    forall k | 0 <= k < |stocks|
      ensures |back| == |stocks| && back[k] == stocks[k]
    {
      AddLinesAt(stocks, lines, k);
      ReduceLinesAt(added, lines, k);
    }
  }

  /**
   * Editing a sale puts its old lines back and takes its new lines out; when
   * no product runs short, each stock moves by old quantity minus new quantity.
   */
  lemma UpdateNetEffect(stocks: seq<int>, oldLines: seq<Line>, newLines: seq<Line>, k: int)
    requires 0 <= k < |stocks|
    requires NonNegativeQuantities(newLines)
    requires stocks[k] + QuantityFor(oldLines, k + 1) >= QuantityFor(newLines, k + 1)
    ensures |ReduceLines(AddLines(stocks, oldLines), newLines)| == |stocks|
    ensures ReduceLines(AddLines(stocks, oldLines), newLines)[k]
         == stocks[k] + QuantityFor(oldLines, k + 1) - QuantityFor(newLines, k + 1)
  {
    AddLinesAt(stocks, oldLines, k);
    ReduceLinesAt(AddLines(stocks, oldLines), newLines, k);
  }

  /** Nothing guards against a second cancel: it adds the quantities back once more. */
  lemma CancelTwiceAddsTwice(stocks: seq<int>, lines: seq<Line>, k: int)
    requires 0 <= k < |stocks|
    ensures AddLines(AddLines(stocks, lines), lines)[k] == stocks[k] + 2 * QuantityFor(lines, k + 1)
  {
    AddLinesAt(stocks, lines, k);
    AddLinesAt(AddLines(stocks, lines), lines, k);
  }

  /**
   * Restoring and then cancelling is not an identity: when a restore clamps
   * at zero, the cancel that follows adds back more than was taken.
   */
  lemma RestoreThenCancelCanCreateStock()
    ensures AddLines(ReduceLines([1], [Line(1, 5)]), [Line(1, 5)]) == [5]
  {
    assert ReduceLines([1], [Line(1, 5)]) == [0] by {
      assert [Line(1, 5)][1..] == [];
    }
    assert [Line(1, 5)][1..] == [];
  }
}
