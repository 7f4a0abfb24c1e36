/**
 * The customer portal's shopping cart: at most one line per product, each
 * with a quantity and optional notes, plus a flat delivery fee. Prices are
 * in cents; the fee of 5.00 is 500. Persisting the cart to browser storage
 * and publishing it to subscribers are not part of this model.
 */
module Cart {
  import opened Wrappers
  import opened Collections

  datatype CatalogProduct = CatalogProduct(id: string, name: string, price: int, category: string, isAvailable: bool)

  datatype CartItem = CartItem(product: CatalogProduct, quantity: int, notes: Option<string>)

  const DeliveryFee: int := 500

  function QuantityOf(item: CartItem): int { item.quantity }
  function LineAmount(item: CartItem): int { item.product.price * item.quantity }

  /** Notes count only when present and non-empty, as a JavaScript truthiness test. */
  predicate Truthy(notes: Option<string>) { notes.Some? && notes.value != "" }

  /** The position of the line for `id`, or -1 (`findIndex`). */
  function FindLine(items: seq<CartItem>, id: string): (r: int)
    ensures -1 <= r < |items|
    ensures r >= 0 ==> items[r].product.id == id && forall j :: 0 <= j < r ==> items[j].product.id != id
    ensures r == -1 <==> forall j :: 0 <= j < |items| ==> items[j].product.id != id
    decreases |items|
  {
    if items == [] then -1
    else if items[0].product.id == id then 0
    else
      var r := FindLine(items[1..], id);
      if r == -1 then -1 else r + 1
  }

  class CartService {
    var items: seq<CartItem>

    /** No two lines for the same product. */
    predicate Valid()
      reads this
    {
      forall i, j :: 0 <= i < j < |items| ==> items[i].product.id != items[j].product.id
    }

    constructor ()
      ensures Valid() && items == []
    {
      items := [];
    }

    /** The number of units in the cart. */
    function ItemCount(): int
      reads this
    {
      Sum(items, QuantityOf)
    }

    function Subtotal(): int
      reads this
    {
      Sum(items, LineAmount)
    }

    /** The subtotal plus the delivery fee, charged even on an empty cart. */
    function Total(): (t: int)
      reads this
      ensures items == [] ==> t == DeliveryFee
      ensures (forall i :: 0 <= i < |items| ==> LineAmount(items[i]) >= 0) ==> t >= DeliveryFee
    {
      SumNonNegativeIf(items);
      Subtotal() + DeliveryFee
    }

    static lemma SumNonNegativeIf(items: seq<CartItem>)
      ensures (forall i :: 0 <= i < |items| ==> LineAmount(items[i]) >= 0) ==> Sum(items, LineAmount) >= 0
    {
      if forall i :: 0 <= i < |items| ==> LineAmount(items[i]) >= 0 {
        SumNonNegative(items, LineAmount);
      }
    }

    /**
     * Adds units of a product: an existing line for the product gets the
     * units (and the notes, when they are non-empty), keeping its stored
     * product; otherwise a new line is appended.
     */
    method AddProduct(product: CatalogProduct, quantity: int, notes: Option<string>)
      requires Valid()
      modifies this
      ensures Valid()
      ensures ItemCount() == old(ItemCount()) + quantity
      ensures var i := FindLine(old(items), product.id);
        && (i >= 0 ==> items == old(items)[i := CartItem(old(items)[i].product, old(items)[i].quantity + quantity,
                                                          if Truthy(notes) then notes else old(items)[i].notes)])
        && (i == -1 ==> items == old(items) + [CartItem(product, quantity, notes)])
    {
      var i := FindLine(items, product.id);
      if i >= 0 {
        var line := items[i];
        var updated := CartItem(line.product, line.quantity + quantity, if Truthy(notes) then notes else line.notes);
        SumUpdate(items, i, updated, QuantityOf);
        items := items[i := updated];
      } else {
        SumAppend(items, [CartItem(product, quantity, notes)], QuantityOf);
        items := items + [CartItem(product, quantity, notes)];
      }
    }

    /** Drops the line of a product, keeping the other lines in their order. */
    method RemoveProduct(id: string)
      requires Valid()
      modifies this
      ensures Valid()
      ensures items == Filter(old(items), (item: CartItem) => item.product.id != id)
      ensures forall i :: 0 <= i < |items| ==> items[i].product.id != id
      ensures Subsequence(items, old(items))
      ensures FindLine(old(items), id) >= 0 ==> ItemCount() == old(ItemCount()) - old(items)[FindLine(old(items), id)].quantity
      ensures FindLine(old(items), id) == -1 ==> items == old(items)
    {
      var kept := Filter(items, (item: CartItem) => item.product.id != id);
      FilterSubsequence(items, (item: CartItem) => item.product.id != id);
      SubsequenceKeepsDistinct(kept, items);
      RemovedCount(items, id);
      items := kept;
    }

    /** A subsequence of a cart without duplicate products has none either. */
    static lemma {:induction false} SubsequenceKeepsDistinct(r: seq<CartItem>, s: seq<CartItem>)
      requires Subsequence(r, s)
      requires forall i, j :: 0 <= i < j < |s| ==> s[i].product.id != s[j].product.id
      ensures forall i, j :: 0 <= i < j < |r| ==> r[i].product.id != r[j].product.id
      ensures forall i :: 0 <= i < |r| ==> r[i] in s
      decreases |s|
    {
      if r != [] && s != [] {
        if r[0] == s[0] && Subsequence(r[1..], s[1..]) {
          SubsequenceKeepsDistinct(r[1..], s[1..]);
          forall i, j | 0 <= i < j < |r| ensures r[i].product.id != r[j].product.id {
            if i == 0 {
              assert r[j] == r[1..][j - 1];
              var k :| 0 <= k < |s[1..]| && s[1..][k] == r[j];
              assert s[k + 1] == r[j];
            } else {
              assert r[i] == r[1..][i - 1] && r[j] == r[1..][j - 1];
            }
          }
          forall i | 0 <= i < |r| ensures r[i] in s {
            if i > 0 {
              assert r[i] == r[1..][i - 1];
            }
          }
        } else {
          SubsequenceKeepsDistinct(r, s[1..]);
        }
      }
    }

    /** Removing the only line of a product takes away exactly its units; without a line nothing changes. */
    static lemma RemovedCount(s: seq<CartItem>, id: string)
      requires forall i, j :: 0 <= i < j < |s| ==> s[i].product.id != s[j].product.id
      ensures var kept := Filter(s, (item: CartItem) => item.product.id != id);
        && (FindLine(s, id) >= 0 ==> Sum(kept, QuantityOf) == Sum(s, QuantityOf) - s[FindLine(s, id)].quantity)
        && (FindLine(s, id) == -1 ==> kept == s)
    {
      if FindLine(s, id) == -1 {
        FilterAll(s, (item: CartItem) => item.product.id != id);
      } else {
        RemovedUnits(s, id);
      }
    }

    static lemma {:induction false} RemovedUnits(s: seq<CartItem>, id: string)
      requires forall i, j :: 0 <= i < j < |s| ==> s[i].product.id != s[j].product.id
      requires FindLine(s, id) >= 0
      ensures Sum(Filter(s, (item: CartItem) => item.product.id != id), QuantityOf) ==
        Sum(s, QuantityOf) - s[FindLine(s, id)].quantity
      decreases |s|
    {
      var rest := s[1..];
      assert s == [s[0]] + rest;
      if s[0].product.id == id {
        forall i | 0 <= i < |rest| ensures rest[i].product.id != id {
          assert rest[i] == s[i + 1];
        }
        FilterAll(rest, (item: CartItem) => item.product.id != id);
      } else {
        forall i, j | 0 <= i < j < |rest| ensures rest[i].product.id != rest[j].product.id {
          assert rest[i] == s[i + 1] && rest[j] == s[j + 1];
        }
        RemovedUnits(rest, id);
      }
    }

    /**
     * A positive quantity replaces the quantity of the product's line and
     * leaves every other line alone; zero or less removes the line.
     */
    method UpdateQuantity(id: string, quantity: int)
      requires Valid()
      modifies this
      ensures Valid()
      ensures quantity <= 0 ==> items == Filter(old(items), (item: CartItem) => item.product.id != id)
      ensures quantity > 0 ==>
        && |items| == |old(items)|
        && forall i :: 0 <= i < |items| ==>
             items[i] == if old(items)[i].product.id == id then old(items)[i].(quantity := quantity) else old(items)[i]
      ensures quantity > 0 && FindLine(old(items), id) >= 0 ==>
        ItemCount() == old(ItemCount()) - old(items)[FindLine(old(items), id)].quantity + quantity
    {
      if quantity <= 0 {
        RemoveProduct(id);
        return;
      }
      var i := FindLine(items, id);
      if i >= 0 {
        SumUpdate(items, i, items[i].(quantity := quantity), QuantityOf);
        items := items[i := items[i].(quantity := quantity)];
      }
    }

    /** Empties the cart; only the delivery fee remains in the total. */
    method ClearCart()
      modifies this
      ensures Valid() && items == [] && ItemCount() == 0 && Total() == DeliveryFee
    {
      items := [];
    }
  }
}
