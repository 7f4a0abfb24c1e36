/**
 * The product entity of the back office: a catalogue article with a price
 * (in cents), a current stock, the stock it was created with, and a status
 * "A" (available) or "I" (not available).
 */
module ProductModel {
  import opened Wrappers

  class Product {
    var productCode: string
    var productName: string
    var category: string
    var description: string
    var price: Option<int>
    var stock: Option<int>
    var initialStock: Option<int>
    var imageUrl: string
    var status: string

    /** A new entity: every column empty except the status, which defaults to "A". */
    constructor ()
      ensures status == "A"
      ensures price.None? && stock.None? && initialStock.None?
      ensures productCode == "" && productName == "" && category == "" && description == "" && imageUrl == ""
    {
      productCode, productName, category, description := "", "", "", "";
      price, stock, initialStock, imageUrl := None, None, None, "";
      status := "A";
    }

    /** Hook run before the first insert: an absent initial stock is taken from the stock. */
    method OnCreate()
      modifies this`initialStock
      ensures old(initialStock).None? ==> initialStock == stock
      ensures old(initialStock).Some? ==> initialStock == old(initialStock)
    {
      if initialStock.None? {
        initialStock := stock;
      }
    }

    /** Price times stock, or zero when either is absent. */
    function TotalStockValue(): (r: int)
      reads this
      ensures price.None? || stock.None? ==> r == 0
      ensures price.Some? && stock.Some? && price.value >= 0 && stock.value >= 0 ==> r >= 0
    {
      if price.Some? && stock.Some? then price.value * stock.value else 0
    }

    /**
     * Low stock: the stock is at most 20% of the initial stock. The source
     * compares with `initialStock * 0.2` in floating point; for `int`
     * operands that comparison agrees with the exact rational one used here.
     */
    predicate IsLowStock()
      reads this
    {
      initialStock.Some? && stock.Some? && (stock.value as real) <= (initialStock.value as real) * 0.2
    }

    predicate IsOutOfStock()
      reads this
    {
      stock.None? || stock.value <= 0
    }
  }

  /** Low stock means exactly: five times the stock does not exceed the initial stock. */
  lemma LowStockIsOneFifth(p: Product)
    ensures p.IsLowStock() <==> p.initialStock.Some? && p.stock.Some? && 5 * p.stock.value <= p.initialStock.value
  {
  }

  /** A product with no stock left counts as low on stock too, unless its initial stock is negative. */
  lemma OutOfStockIsLowStock(p: Product)
    requires p.stock.Some? && p.initialStock.Some? && p.initialStock.value >= 0
    ensures p.IsOutOfStock() ==> p.IsLowStock()
  {
  }
}
