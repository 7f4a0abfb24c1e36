/**
 * The products page of the back office: the stock status of each product,
 * the summary counts, the four products with the most stock, and the list
 * narrowed by search term, category and stock status, then sorted. Prices
 * are in cents and stocks are whole units.
 */
module ProductsList {
  import opened Text
  import opened Collections
  import opened Sorting

  datatype ListedProduct = ListedProduct(id: int, code: string, name: string, category: string, price: int, stock: int)

  /** One entry of the top-stock list: its rank from 1, the name and the stock. */
  datatype TopStock = TopStock(id: int, name: string, stock: int)

  function StockOf(p: ListedProduct): int { p.stock }
  function NegatedPrice(p: ListedProduct): int { -p.price }

  predicate Available(p: ListedProduct) { p.stock > 10 }
  predicate LowStock(p: ListedProduct) { p.stock > 0 && p.stock <= 10 }
  predicate OutOfStock(p: ListedProduct) { p.stock == 0 }

  /** `getStatusText`. */
  function StatusText(p: ListedProduct): string
  {
    if p.stock == 0 then "Sin Stock"
    else if p.stock <= 10 then "Stock Bajo"
    else "Disponible"
  }

  /** `getStatusClass`. */
  function StatusClass(p: ListedProduct): string
  {
    if p.stock == 0 then "status-sin-stock"
    else if p.stock <= 10 then "status-stock-bajo"
    else "status-disponible"
  }

  /** The class and the text name the same status, whatever the stock. */
  lemma ClassAgreesWithText(p: ListedProduct)
    ensures StatusClass(p) == "status-sin-stock" <==> StatusText(p) == "Sin Stock"
    ensures StatusClass(p) == "status-stock-bajo" <==> StatusText(p) == "Stock Bajo"
    ensures StatusClass(p) == "status-disponible" <==> StatusText(p) == "Disponible"
  {
    if p.stock == 0 {
      assert StatusClass(p) == "status-sin-stock" && StatusText(p) == "Sin Stock";
    } else if p.stock <= 10 {
      assert StatusClass(p) == "status-stock-bajo" && StatusText(p) == "Stock Bajo";
      assert "Stock Bajo" != "Sin Stock" && "Stock Bajo" != "Disponible";
    } else {
      assert StatusClass(p) == "status-disponible" && StatusText(p) == "Disponible";
    }
  }

  /** The status option of `applyFilters`; an unknown or empty option lets everything through. */
  predicate MatchesStatus(option: string, p: ListedProduct)
  {
    if option == "disponible" then Available(p)
    else if option == "stock-bajo" then LowStock(p)
    else if option == "sin-stock" then OutOfStock(p)
    else true
  }

  /** With a stock that is not negative, each status option selects exactly the products showing the matching text. */
  lemma StatusOptionsMatchText(p: ListedProduct)
    requires p.stock >= 0
    ensures MatchesStatus("disponible", p) <==> StatusText(p) == "Disponible"
    ensures MatchesStatus("stock-bajo", p) <==> StatusText(p) == "Stock Bajo"
    ensures MatchesStatus("sin-stock", p) <==> StatusText(p) == "Sin Stock"
  {
    assert "disponible" != "stock-bajo" && "disponible" != "sin-stock" && "stock-bajo" != "sin-stock";
    assert "Disponible" != "Stock Bajo" && "Disponible" != "Sin Stock" && "Stock Bajo" != "Sin Stock";
  }

  /** The search: an empty term matches everything, else the name or the code contains it, ignoring case. */
  predicate MatchesSearch(term: string, p: ListedProduct)
  {
    term == "" || Contains(Lower(p.name), Lower(term)) || Contains(Lower(p.code), Lower(term))
  }

  /** The category: an empty selection matches everything, else the category is the selected one. */
  predicate MatchesCategory(category: string, p: ListedProduct)
  {
    category == "" || p.category == category
  }

  predicate Kept(term: string, category: string, option: string, p: ListedProduct)
  {
    MatchesSearch(term, p) && MatchesCategory(category, p) && MatchesStatus(option, p)
  }

  /** The products kept by the three filters, in list order. */
  function Filtered(products: seq<ListedProduct>, term: string, category: string, option: string): seq<ListedProduct>
  {
    Filter(products, p => Kept(term, category, option, p))
  }

  /** A product is kept exactly when it is listed and passes the search, the category and the status. */
  lemma FilteredKeepsExactly(products: seq<ListedProduct>, term: string, category: string, option: string, p: ListedProduct)
    ensures p in Filtered(products, term, category, option) <==>
      p in products && MatchesSearch(term, p) && MatchesCategory(category, p) && MatchesStatus(option, p)
  {
    FilterMembership(products, x => Kept(term, category, option, x), p);
  }

  /** No search term, no category and no status option keep the whole list. */
  lemma NoFilterKeepsAll(products: seq<ListedProduct>, option: string)
    requires option != "disponible" && option != "stock-bajo" && option != "sin-stock"
    ensures Filtered(products, "", "", option) == products
  {
    FilterAll(products, x => Kept("", "", option, x));
  }

  /** `getValueTotal`: the stock valued at the product's price. */
  function ValueTotal(p: ListedProduct): int { p.price * p.stock }

  /** With stocks that are not negative, every product is available, low on stock or out of stock, and only one of them. */
  lemma {:induction false} StatsAddUp(products: seq<ListedProduct>)
    requires forall i :: 0 <= i < |products| ==> products[i].stock >= 0
    ensures Count(products, Available) + Count(products, LowStock) + Count(products, OutOfStock) == |products|
  {
    var nonNegative := (p: ListedProduct) => p.stock >= 0;
    var atMostTen := (p: ListedProduct) => p.stock >= 0 && p.stock <= 10;
    CountSplit(products, nonNegative, Available, atMostTen);
    CountSplit(products, atMostTen, LowStock, OutOfStock);
    FilterAll(products, nonNegative);
  }

  /** The summary shown above the list. */
  datatype Stats = Stats(total: int, disponibles: int, stockBajo: int, sinStock: int, valorTotal: int)

  /** The summary of a list: its size, the count in each stock status and the value of the whole stock. */
  function StatsOf(products: seq<ListedProduct>): Stats
  {
    Stats(|products|, Count(products, Available), Count(products, LowStock), Count(products, OutOfStock), Sum(products, ValueTotal))
  }

  /** With stocks that are not negative, the three status counts of the summary add up to its total. */
  lemma StatsBalance(products: seq<ListedProduct>)
    requires forall i :: 0 <= i < |products| ==> products[i].stock >= 0
    ensures StatsOf(products).disponibles + StatsOf(products).stockBajo + StatsOf(products).sinStock == StatsOf(products).total
  {
    StatsAddUp(products);
  }

  /** With prices and stocks that are not negative, no product is worth more than the whole stock. */
  lemma ProductWithinStockValue(products: seq<ListedProduct>, i: int)
    requires forall k :: 0 <= k < |products| ==> products[k].price >= 0 && products[k].stock >= 0
    requires 0 <= i < |products|
    ensures ValueTotal(products[i]) <= Sum(products, ValueTotal)
  {
    forall k | 0 <= k < |products| ensures ValueTotal(products[k]) >= 0 {
      assert products[k].price >= 0 && products[k].stock >= 0;
    }
    SumAtLeastElement(products, ValueTotal, i);
  }

  /**
   * The top list ranks the first four products of the list, or all of them
   * when there are fewer, and none left out has more stock than one ranked.
   */
  ghost predicate Ranked(top: seq<TopStock>, products: seq<ListedProduct>)
  {
    && |top| == (if |products| < 4 then |products| else 4)
    && (forall i :: 0 <= i < |top| ==> top[i] == TopStock(i + 1, products[i].name, products[i].stock))
    && (forall i, j :: 0 <= i < |top| <= j < |products| ==> top[i].stock >= products[j].stock)
  }

  /** The first four products of the list, numbered from 1. */
  function TopOf(products: seq<ListedProduct>): seq<TopStock>
  {
    var top := Take(products, 4);
    seq(|top|, i requires 0 <= i < |top| => TopStock(i + 1, top[i].name, top[i].stock))
  }

  /** In a list sorted by stock, largest first, the top list ranks the four with the most stock. */
  lemma TopOfRanked(sorted: seq<ListedProduct>)
    requires SortedDesc(sorted, StockOf)
    ensures Ranked(TopOf(sorted), sorted)
  {
    var top := TopOf(sorted);
    forall i, j | 0 <= i < |top| <= j < |sorted| ensures top[i].stock >= sorted[j].stock {
      TopKeysDominate(sorted, StockOf, 4, i, j);
    }
  }

  /** Sorting by stock, largest first, keeps the products and ranks the four with the most stock. */
  lemma TopOfSorted(products: seq<ListedProduct>)
    ensures multiset(SortDesc(products, StockOf)) == multiset(products)
    ensures SortedDesc(SortDesc(products, StockOf), StockOf)
    ensures Ranked(TopOf(SortDesc(products, StockOf)), SortDesc(products, StockOf))
  {
    SortDescSorted(products, StockOf);
    TopOfRanked(SortDesc(products, StockOf));
  }

  ghost predicate SortedByPrice(s: seq<ListedProduct>)
  {
    forall i, j :: 0 <= i < j < |s| ==> s[i].price <= s[j].price
  }

  class ProductsPage {
    var products: seq<ListedProduct>
    var filteredProducts: seq<ListedProduct>
    var topProducts: seq<TopStock>
    var searchTerm: string
    var selectedCategory: string
    var selectedStatus: string
    var sortBy: string
    var stats: Stats

    constructor ()
      ensures products == [] && filteredProducts == [] && topProducts == []
      ensures searchTerm == "" && selectedCategory == "" && selectedStatus == "" && sortBy == "nombre"
    {
      products, filteredProducts, topProducts := [], [], [];
      searchTerm, selectedCategory, selectedStatus, sortBy := "", "", "", "nombre";
      stats := Stats(0, 0, 0, 0, 0);
    }

    /** `calculateStats`: the counts by stock status and the value of the whole stock. */
    method CalculateStats()
      modifies this`stats
      ensures stats == StatsOf(products)
    {
      stats := StatsOf(products);
    }

    /**
     * `calculateTopProducts`: sorts the list itself by stock, largest
     * first, and ranks its first four entries.
     */
    method CalculateTopProducts()
      modifies this`products, this`topProducts
      ensures products == SortDesc(old(products), StockOf)
      ensures topProducts == TopOf(products)
      ensures SortedDesc(products, StockOf) && Ranked(topProducts, products)
    {
      products := SortDesc(products, StockOf);
      topProducts := TopOf(products);
      TopOfSorted(old(products));
    }

    /** `applyFilters`: the three filters, then the sort chosen in `sortBy`. */
    method ApplyFilters()
      modifies this`filteredProducts
      ensures multiset(filteredProducts) == multiset(Filtered(products, searchTerm, selectedCategory, selectedStatus))
      ensures sortBy == "stock" ==> SortedDesc(filteredProducts, StockOf)
      ensures sortBy == "precio" ==> SortedByPrice(filteredProducts)
      ensures sortBy != "stock" && sortBy != "precio" && sortBy != "nombre" ==>
        filteredProducts == Filtered(products, searchTerm, selectedCategory, selectedStatus)
    {
      filteredProducts := Filtered(products, searchTerm, selectedCategory, selectedStatus);
      ApplySorting();
    }

    /**
     * `applySorting`: ascending price, or descending stock; the sort is
     * stable, so any other choice keeps the order. The locale-aware order by
     * name is not modelled: for "nombre" only the contents are promised.
     */
    method ApplySorting()
      modifies this`filteredProducts
      ensures multiset(filteredProducts) == multiset(old(filteredProducts))
      ensures sortBy == "stock" ==> SortedDesc(filteredProducts, StockOf)
      ensures sortBy == "precio" ==> SortedByPrice(filteredProducts)
      ensures sortBy != "stock" && sortBy != "precio" && sortBy != "nombre" ==> filteredProducts == old(filteredProducts)
    {
      if sortBy == "precio" {
        SortDescSorted(filteredProducts, NegatedPrice);
        filteredProducts := SortDesc(filteredProducts, NegatedPrice);
        assert SortedDesc(filteredProducts, NegatedPrice);
        forall i, j | 0 <= i < j < |filteredProducts| ensures filteredProducts[i].price <= filteredProducts[j].price {
          assert NegatedPrice(filteredProducts[i]) >= NegatedPrice(filteredProducts[j]);
        }
      } else if sortBy == "stock" {
        SortDescSorted(filteredProducts, StockOf);
        filteredProducts := SortDesc(filteredProducts, StockOf);
      }
    }

    /**
     * The products arrived: the list and the shown list are the same array,
     * so sorting the list for the top four reorders the shown list too.
     */
    method OnProductsLoaded(loaded: seq<ListedProduct>)
      modifies this`products, this`filteredProducts, this`topProducts, this`stats
      ensures products == SortDesc(loaded, StockOf) && filteredProducts == products
      ensures topProducts == TopOf(products)
      ensures stats == StatsOf(loaded)
    {
      products := loaded;
      filteredProducts := products;
      CalculateStats();
      CalculateTopProducts();
      filteredProducts := products;
    }
  }
}
