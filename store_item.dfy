/**
 * The store-item entity: an inventory article of the shop's store room with
 * a current and a minimum stock, a unit price in cents, an optional expiry
 * day and a status label derived from those. Days are day numbers and
 * "today" is a parameter.
 */
module StoreItemModel {
  import opened Wrappers

  const Available := "Disponible"
  const SoldOut := "Agotado"
  const LowStockLabel := "Stock Bajo"
  const NearExpiryLabel := "Pr\U{F3}ximo a Vencer"
  const Inactive := "Inactivo"

  /** Window of the near-expiry test, in days. */
  const ExpiryWindow := 7

  /** No stock: absent or not positive. */
  predicate OutOfStock(stock: Option<int>)
  {
    stock.None? || stock.value <= 0
  }

  /** Stock at or below the minimum, both present. */
  predicate LowStock(stock: Option<int>, minimum: Option<int>)
  {
    minimum.Some? && stock.Some? && stock.value <= minimum.value
  }

  /** Expires strictly before today + 7 (`isBefore` is strict). */
  predicate NearExpiry(expiry: Option<int>, today: int)
  {
    expiry.Some? && expiry.value < today + ExpiryWindow
  }

  /**
   * The status `updateStatus` assigns: the first of sold out, low stock and
   * near expiry that holds, or available when none does.
   */
  function Classify(stock: Option<int>, minimum: Option<int>, expiry: Option<int>, today: int): (r: string)
    ensures r == SoldOut <==> OutOfStock(stock)
    ensures r == LowStockLabel <==> !OutOfStock(stock) && LowStock(stock, minimum)
    ensures r == NearExpiryLabel <==> !OutOfStock(stock) && !LowStock(stock, minimum) && NearExpiry(expiry, today)
    ensures r == Available <==> !OutOfStock(stock) && !LowStock(stock, minimum) && !NearExpiry(expiry, today)
    ensures r != Inactive
  {
    if OutOfStock(stock) then SoldOut
    else if LowStock(stock, minimum) then LowStockLabel
    else if NearExpiry(expiry, today) then NearExpiryLabel
    else Available
  }

  /** The three conditions are independent: one item can satisfy all of them at once. */
  lemma ConditionsOverlap(today: int)
    ensures OutOfStock(Some(0)) && LowStock(Some(0), Some(5)) && NearExpiry(Some(today), today)
    ensures Classify(Some(0), Some(5), Some(today), today) == SoldOut
  {
  }

  /** An item expiring exactly a week from today is not near expiry; one day earlier it is. */
  lemma ExpiryBoundary(today: int)
    ensures !NearExpiry(Some(today + 7), today) && NearExpiry(Some(today + 6), today)
  {
  }

  class StoreItem {
    var itemCode: string
    var productName: string
    var category: string
    var currentStock: Option<int>
    var minimumStock: Option<int>
    var unit: string
    var unitPrice: Option<int>
    var supplierId: Option<int>
    var expiryDate: Option<int>
    var location: string
    var status: string

    /** A new entity: every column empty except the status, which defaults to "Disponible". */
    constructor ()
      ensures status == Available
      ensures currentStock.None? && minimumStock.None? && unitPrice.None? && supplierId.None? && expiryDate.None?
      ensures itemCode == "" && productName == "" && category == "" && unit == "" && location == ""
    {
      itemCode, productName, category, unit, location := "", "", "", "", "";
      currentStock, minimumStock, unitPrice, supplierId, expiryDate := None, None, None, None, None;
      status := Available;
    }

    /** The status the item's current columns call for. */
    function DerivedStatus(today: int): string
      reads this
    {
      Classify(currentStock, minimumStock, expiryDate, today)
    }

    predicate IsNearExpiry(today: int)
      reads this
    {
      NearExpiry(expiryDate, today)
    }

    predicate IsOutOfStock()
      reads this
    {
      OutOfStock(currentStock)
    }

    predicate IsLowStock()
      reads this
    {
      LowStock(currentStock, minimumStock)
    }

    /** Unit price times current stock, or zero when either is absent. */
    function TotalStockValue(): (r: int)
      reads this
      ensures unitPrice.None? || currentStock.None? ==> r == 0
      ensures unitPrice.Some? && currentStock.Some? && unitPrice.value >= 0 && currentStock.value >= 0 ==> r >= 0
    {
      if currentStock.Some? && unitPrice.Some? then unitPrice.value * currentStock.value else 0
    }

    /** `updateStatus`: the status becomes the derived one; nothing else changes. */
    method UpdateStatus(today: int)
      modifies this`status
      ensures status == DerivedStatus(today)
      ensures IsOutOfStock() ==> status == SoldOut
      ensures status == Available <==> !IsOutOfStock() && !IsLowStock() && !IsNearExpiry(today)
    {
      if currentStock.None? || currentStock.value <= 0 {
        status := SoldOut;
      } else if minimumStock.Some? && currentStock.value <= minimumStock.value {
        status := LowStockLabel;
      } else if expiryDate.Some? && expiryDate.value < today + ExpiryWindow {
        status := NearExpiryLabel;
      } else {
        status := Available;
      }
    }

    /** Hook run before the first insert. */
    method OnCreate(today: int)
      modifies this`status
      ensures status == DerivedStatus(today)
    {
      UpdateStatus(today);
    }

    /** Hook run before every update, as written: it re-derives the status unconditionally. */
    method OnUpdate(today: int)
      modifies this`status
      ensures status == DerivedStatus(today)
    {
      UpdateStatus(today);
    }

    /** The update hook that lets a deactivation stand: an inactive item keeps its status. */
    method OnUpdateKeepingInactive(today: int)
      modifies this`status
      ensures old(status) == Inactive ==> status == Inactive
      ensures old(status) != Inactive ==> status == DerivedStatus(today)
    {
      if status != Inactive {
        UpdateStatus(today);
      }
    }
  }
}
