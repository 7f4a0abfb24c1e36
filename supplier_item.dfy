/**
 * An item a supplier offers: a quantity, a unit price (in cents) and the
 * subtotal and total derived from them. No tax is added, so the total is
 * the subtotal. The totals are recomputed before every insert and update.
 */
module SupplierItemModel {
  import opened Wrappers

  class SupplierItem {
    var supplierId: int
    var itemName: string
    var quantity: Option<int>
    var unitPrice: Option<int>
    var subtotal: Option<int>
    var total: Option<int>
    var status: string

    /** A new entity: nothing set, status "A". */
    constructor ()
      ensures status == "A" && quantity.None? && unitPrice.None? && subtotal.None? && total.None?
    {
      supplierId, itemName := 0, "";
      quantity, unitPrice, subtotal, total := None, None, None, None;
      status := "A";
    }

    /** Totals that agree with the quantity and unit price: subtotal is their product, total equals subtotal. */
    predicate Consistent()
      reads this
    {
      quantity.Some? && unitPrice.Some? && subtotal == Some(unitPrice.value * quantity.value) && total == subtotal
    }

    /** Recomputes the totals when quantity and unit price are both present; otherwise leaves them alone. */
    method CalculateTotals()
      modifies this`subtotal, this`total
      ensures quantity.Some? && unitPrice.Some? <==> Consistent()
      ensures quantity.None? || unitPrice.None? ==> subtotal == old(subtotal) && total == old(total)
    {
      if quantity.Some? && unitPrice.Some? {
        subtotal := Some(unitPrice.value * quantity.value);
        total := subtotal;
      }
    }

    /** Hook run before the first insert. */
    method OnCreate()
      modifies this`subtotal, this`total
      ensures quantity.Some? && unitPrice.Some? <==> Consistent()
      ensures quantity.None? || unitPrice.None? ==> subtotal == old(subtotal) && total == old(total)
    {
      CalculateTotals();
    }

    /** Hook run before every update: changing the quantity or the price and saving brings the totals back in line. */
    method OnUpdate()
      modifies this`subtotal, this`total
      ensures quantity.Some? && unitPrice.Some? <==> Consistent()
      ensures quantity.None? || unitPrice.None? ==> subtotal == old(subtotal) && total == old(total)
    {
      CalculateTotals();
    }
  }
}
