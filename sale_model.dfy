/**
 * The sale entity and its lines. A sale owns an ordered list of details;
 * every detail points back to its sale and names a product, a quantity and
 * a unit price (cents). A detail's subtotal is unit price times quantity; a
 * sale's total is the sum of the subtotals that are present.
 */
module SaleModel {
  import opened Wrappers
  import Ledger

  class SaleDetail {
    var sale: Sale?
    var productId: int
    var quantity: Option<int>
    var unitPrice: Option<int>
    var subtotal: Option<int>

    constructor ()
      ensures sale == null && quantity.None? && unitPrice.None? && subtotal.None?
    {
      sale, productId, quantity, unitPrice, subtotal := null, 0, None, None, None;
    }

    /** Subtotal := unit price times quantity, when both are present; otherwise the subtotal is left alone. */
    method CalculateSubtotal()
      modifies this`subtotal
      ensures quantity.Some? && unitPrice.Some? ==> subtotal == Some(unitPrice.value * quantity.value)
      ensures quantity.None? || unitPrice.None? ==> subtotal == old(subtotal)
    {
      if quantity.Some? && unitPrice.Some? {
        subtotal := Some(unitPrice.value * quantity.value);
      }
    }

    /** Hook run before the detail is first inserted. */
    method OnCreate()
      modifies this`subtotal
      ensures quantity.Some? && unitPrice.Some? ==> subtotal == Some(unitPrice.value * quantity.value)
      ensures quantity.None? || unitPrice.None? ==> subtotal == old(subtotal)
    {
      CalculateSubtotal();
    }

    /** Hook run before the detail is written back; running it again changes nothing. */
    method OnUpdate()
      modifies this`subtotal
      ensures quantity.Some? && unitPrice.Some? ==> subtotal == Some(unitPrice.value * quantity.value)
      ensures quantity.None? || unitPrice.None? ==> subtotal == old(subtotal)
    {
      CalculateSubtotal();
    }
  }

  /** Sum of the subtotals that are present; absent ones are skipped. */
  function SubtotalSum(details: seq<SaleDetail>): int
    reads details
    decreases |details|
  {
    if details == [] then 0
    else SubtotalSum(details[..|details| - 1]) + details[|details| - 1].subtotal.GetOr(0)
  }

  /** The lines of a sale as far as stock is concerned. */
  function LinesOf(details: seq<SaleDetail>): (r: seq<Ledger.Line>)
    reads details
    ensures |r| == |details|
    ensures forall i :: 0 <= i < |details| ==>
      r[i].productId == details[i].productId && r[i].quantity == details[i].quantity.GetOr(0)
  {
    seq(|details|, i reads details requires 0 <= i < |details| =>
      Ledger.Line(details[i].productId, details[i].quantity.GetOr(0)))
  }

  /** Every subtotal is present and equals unit price times quantity. */
  predicate Priced(details: seq<SaleDetail>)
    reads details
  {
    forall i :: 0 <= i < |details| ==>
      details[i].quantity.Some? && details[i].unitPrice.Some?
      && details[i].subtotal == Some(details[i].unitPrice.value * details[i].quantity.value)
  }

  /** Sum of unit price times quantity over the lines. */
  function Amount(details: seq<SaleDetail>): int
    reads details
    decreases |details|
  {
    if details == [] then 0
    else Amount(details[..|details| - 1])
         + details[|details| - 1].unitPrice.GetOr(0) * details[|details| - 1].quantity.GetOr(0)
  }

  /** When every subtotal is computed, the total is the sum of price times quantity. */
  lemma {:induction false} PricedTotalIsAmount(details: seq<SaleDetail>)
    requires Priced(details)
    ensures SubtotalSum(details) == Amount(details)
    decreases |details|
  {
    if details != [] {
      var init := details[..|details| - 1];
      assert Priced(init) by {
        forall i | 0 <= i < |init| ensures init[i] == details[i] { }
      }
      PricedTotalIsAmount(init);
    }
  }

  /** With prices and quantities not negative, the total is not negative. */
  lemma {:induction false} AmountNonNegative(details: seq<SaleDetail>)
    requires forall i :: 0 <= i < |details| ==> details[i].unitPrice.GetOr(0) >= 0 && details[i].quantity.GetOr(0) >= 0
    ensures Amount(details) >= 0
    decreases |details|
  {
    if details != [] {
      var init := details[..|details| - 1];
      assert forall i :: 0 <= i < |init| ==> init[i] == details[i];
      AmountNonNegative(init);
      var last := details[|details| - 1];
      assert last.unitPrice.GetOr(0) * last.quantity.GetOr(0) >= 0;
    }
  }

  /** `List.remove`: drops the first occurrence of `d`, if any. */
  function RemoveFirst(details: seq<SaleDetail>, d: SaleDetail): (r: seq<SaleDetail>)
    ensures d !in details ==> r == details
    ensures d in details ==> |r| == |details| - 1
    ensures multiset(r) == multiset(details) - multiset{d}
    decreases |details|
  {
    if details == [] then []
    else
      assert details == [details[0]] + details[1..];
      if details[0] == d then details[1..] else [details[0]] + RemoveFirst(details[1..], d)
  }

  /** The removal cuts out the first occurrence: everything before it and everything after it keep their order. */
  lemma {:induction false} RemoveFirstCutsFirst(details: seq<SaleDetail>, d: SaleDetail, k: int)
    requires 0 <= k < |details| && details[k] == d && d !in details[..k]
    ensures RemoveFirst(details, d) == details[..k] + details[k + 1..]
    decreases |details|
  {
    if k > 0 {
      assert details[0] != d by { assert details[0] in details[..k]; }
      assert d !in details[1..][..k - 1] by { assert details[1..][..k - 1] == details[1..k]; }
      RemoveFirstCutsFirst(details[1..], d, k - 1);
      assert details[..k] == [details[0]] + details[1..][..k - 1];
      assert details[k + 1..] == details[1..][k..];
    }
  }

  /** Removing a detail that was just appended gives the list back. */
  lemma {:induction false} RemoveAppended(details: seq<SaleDetail>, d: SaleDetail)
    requires d !in details
    ensures RemoveFirst(details + [d], d) == details
    decreases |details|
  {
    if details == [] {
      assert [] + [d] == [d];
    } else {
      assert (details + [d])[1..] == details[1..] + [d];
      RemoveAppended(details[1..], d);
    }
  }

  class Sale {
    var saleCode: string
    var customerId: int
    var employeeId: int
    var saleDate: Option<int>
    var paymentMethod: string
    var status: string
    var total: Option<int>
    var details: seq<SaleDetail>

    /** A new entity: no details, no total yet, status "Completado". */
    constructor ()
      ensures status == "Completado" && details == [] && total.None? && saleDate.None?
    {
      saleCode, customerId, employeeId, saleDate := "", 0, 0, None;
      paymentMethod, status, total, details := "", "Completado", None, [];
    }

    /** Hook run before the first insert: a missing date becomes today. */
    method OnCreate(today: int)
      modifies this`saleDate
      ensures saleDate == if old(saleDate).None? then Some(today) else old(saleDate)
    {
      if saleDate.None? {
        saleDate := Some(today);
      }
    }

    /** Total := sum of the subtotals present, walking the details in order. */
    method CalculateTotal()
      modifies this`total
      ensures total == Some(SubtotalSum(details))
    {
      var calculated := 0;
      var i := 0;
      while i < |details|
        invariant 0 <= i <= |details|
        invariant calculated == SubtotalSum(details[..i])
      {
        assert details[..i + 1][..i] == details[..i];
        if details[i].subtotal.Some? {
          calculated := calculated + details[i].subtotal.value;
        }
        i := i + 1;
      }
      assert details[..i] == details;
      total := Some(calculated);
    }

    /** Appends a detail, links it to this sale and recomputes the total. */
    method AddDetail(detail: SaleDetail)
      modifies this`details, this`total, detail`sale
      ensures details == old(details) + [detail] && detail.sale == this
      ensures total == Some(SubtotalSum(details))
      ensures total.value == SubtotalSum(old(details)) + detail.subtotal.GetOr(0)
    {
      details := details + [detail];
      detail.sale := this;
      assert details[..|details| - 1] == old(details);
      CalculateTotal();
    }

    /** Removes the first occurrence of a detail, unlinks it and recomputes the total. */
    method RemoveDetail(detail: SaleDetail)
      modifies this`details, this`total, detail`sale
      ensures details == RemoveFirst(old(details), detail) && detail.sale == null
      ensures total == Some(SubtotalSum(details))
    {
      details := RemoveFirst(details, detail);
      detail.sale := null;
      CalculateTotal();
    }
  }
}
