/**
 * The product service: catalogue maintenance, soft delete, stock movements
 * and the summary and ranking queries. The product table is the sequence
 * `rows`; the product with id k is `rows[k - 1]` (identity ids, rows are only
 * ever soft-deleted). A lookup of an unknown id answers None, as the source
 * answers null.
 */
module ProductServiceImpl {
  import opened Wrappers
  import opened Text
  import opened Collections
  import Codes
  import Ledger
  import Sorting
  import opened ProductModel

  /** The validated request body: code and name present, price and initial stock present. An empty code stands for a missing one. */
  datatype ProductRequest = ProductRequest(
    productCode: string, productName: string, category: string, description: string,
    price: int, initialStock: int, imageUrl: string, status: string)

  /** What the service hands back for a product (`convertToDTO`). */
  datatype ProductDto = ProductDto(
    idProduct: int, productCode: string, productName: string, category: string, description: string,
    price: Option<int>, stock: Option<int>, initialStock: Option<int>, imageUrl: string, status: string,
    totalStockValue: int, lowStock: bool, outOfStock: bool)

  datatype ProductSummary = ProductSummary(
    total: nat, available: nat, lowStock: nat, outOfStock: nat, totalValue: int, averagePrice: int)

  datatype TopProduct = TopProduct(productName: string, stock: int, category: string)

  function ToDto(id: int, p: Product): ProductDto
    reads p
  {
    ProductDto(id, p.productCode, p.productName, p.category, p.description, p.price, p.stock,
               p.initialStock, p.imageUrl, p.status, p.TotalStockValue(), p.IsLowStock(), p.IsOutOfStock())
  }

  /** A product as stored: price, stock and initial stock present, flags computed from them. */
  predicate Stored(d: ProductDto)
  {
    && d.price.Some? && d.stock.Some? && d.initialStock.Some?
    && d.totalStockValue == d.price.value * d.stock.value
    && (d.outOfStock <==> d.stock.value <= 0)
    && (d.lowStock <==> 5 * d.stock.value <= d.initialStock.value)
  }

  predicate Active(d: ProductDto) { d.status == "A" }
  predicate InStock(d: ProductDto) { d.stock.Some? && d.stock.value > 0 }
  predicate AvailableActive(d: ProductDto) { InStock(d) && Active(d) }
  predicate LowStockActive(d: ProductDto) { d.lowStock && Active(d) }
  predicate OutOfStockActive(d: ProductDto) { d.outOfStock && Active(d) }
  function StockValue(d: ProductDto): int { d.totalStockValue }
  function PriceOf(d: ProductDto): int { d.price.GetOr(0) }

  /** Division rounding to the nearest integer, halves away from zero (`RoundingMode.HALF_UP`). */
  function DivHalfUp(a: int, b: int): (r: int)
    requires b > 0
    ensures a >= 0 ==> b * (2 * r - 1) <= 2 * a < b * (2 * r + 1)
    ensures a < 0 ==> b * (2 * r - 1) < 2 * a <= b * (2 * r + 1)
  {
    if a >= 0 then (2 * a + b) / (2 * b) else -((-2 * a + b) / (2 * b))
  }

  function Max(a: int, b: int): int { if a >= b then a else b }

  /** `getSummary` over the listing of every product. */
  function Summarize(all: seq<ProductDto>): (s: ProductSummary)
    ensures s.total == |all|
    ensures s.available <= Count(all, Active) && s.lowStock <= Count(all, Active) && s.outOfStock <= Count(all, Active)
  {
    var active := Filter(all, Active);
    var available := Count(all, AvailableActive);
    CountMonotone(all, AvailableActive, Active);
    CountMonotone(all, LowStockActive, Active);
    CountMonotone(all, OutOfStockActive, Active);
    ProductSummary(|all|, available, Count(all, LowStockActive), Count(all, OutOfStockActive),
                   Sum(active, StockValue), DivHalfUp(Sum(active, PriceOf), Max(1, available)))
  }

  /**
   * For stored products, every active product is either available or out of
   * stock, and every active product out of stock is also low on stock when
   * initial stocks are not negative.
   */
  lemma SummaryPartitionsActive(all: seq<ProductDto>)
    requires forall i :: 0 <= i < |all| ==> Stored(all[i])
    ensures Summarize(all).available + Summarize(all).outOfStock == Count(all, Active)
    ensures (forall i :: 0 <= i < |all| ==> all[i].initialStock.GetOr(0) >= 0)
            ==> Summarize(all).outOfStock <= Summarize(all).lowStock
  {
    CountSplit(all, Active, AvailableActive, OutOfStockActive);
    if forall i :: 0 <= i < |all| ==> all[i].initialStock.GetOr(0) >= 0 {
      CountMonotone(all, OutOfStockActive, LowStockActive);
    }
  }

  /** The stock value of active stored products is never negative when prices and stocks are not. */
  lemma SummaryValueNonNegative(all: seq<ProductDto>)
    requires forall i :: 0 <= i < |all| ==> Stored(all[i]) && all[i].price.value >= 0 && all[i].stock.value >= 0
    ensures Summarize(all).totalValue >= 0
  {
    var active := Filter(all, Active);
    forall i | 0 <= i < |active| ensures active[i].totalStockValue >= 0 {
      assert active[i] in multiset(all);
    }
    SumNonNegative(active, StockValue);
  }

  predicate Matches(d: ProductDto, needle: string)
  {
    Contains(Lower(d.productName), needle) || Contains(Lower(d.productCode), needle) || Contains(Lower(d.category), needle)
  }

  /** `searchProducts`: products of the given status whose name, code or category contains the term, ignoring case. */
  function Search(all: seq<ProductDto>, search: string, status: string): (r: seq<ProductDto>)
    ensures forall d :: d in r <==> d in all && d.status == status && Matches(d, Lower(search))
    ensures Subsequence(r, all)
  {
    var keep := (d: ProductDto) => d.status == status && Matches(d, Lower(search));
    var r := Filter(all, keep);
    forall d ensures d in r <==> d in all && keep(d) {
      FilterMembership(all, keep, d);
    }
    FilterSubsequence(all, keep);
    r
  }

  /** An empty term lists every product of the status, in table order. */
  lemma SearchEmptyTermIsStatusFilter(all: seq<ProductDto>, status: string)
    ensures Search(all, "", status) == Filter(all, (d: ProductDto) => d.status == status)
  {
    forall i | 0 <= i < |all| ensures Matches(all[i], Lower("")) {
      assert Lower("") == "";
      assert StartsWith(Lower(all[i].productName), "");
    }
    FilterCongruent(all, (d: ProductDto) => d.status == status && Matches(d, Lower("")),
      (d: ProductDto) => d.status == status);
  }

  /** The search does not depend on the case of the term. */
  lemma SearchIgnoresTermCase(all: seq<ProductDto>, search: string, status: string)
    ensures Search(all, Upper(search), status) == Search(all, Lower(search), status)
  {
    LowerIgnoresCase(search);
    assert Lower(Lower(search)) == Lower(search);
  }

  function StockKey(d: ProductDto): int { d.stock.GetOr(0) }

  function ToTop(d: ProductDto): TopProduct { TopProduct(d.productName, StockKey(d), d.category) }

  /**
   * `getTopProductsByStock`: active products, most stock first (stable), at
   * most `limit` of them; a negative limit is refused (IllegalArgumentException).
   */
  function TopByStock(all: seq<ProductDto>, limit: int): (r: Option<seq<TopProduct>>)
    ensures r.None? <==> limit < 0
    ensures r.Some? ==> |r.value| == if limit < Count(all, Active) then limit else Count(all, Active)
    ensures r.Some? ==> forall i, j :: 0 <= i < j < |r.value| ==> r.value[i].stock >= r.value[j].stock
  {
    if limit < 0 then None
    else
      var ranked := Sorting.SortDesc(Filter(all, Active), StockKey);
      Sorting.SortDescSorted(Filter(all, Active), StockKey);
      var top := Sorting.Take(ranked, limit);
      Some(seq(|top|, i requires 0 <= i < |top| => ToTop(top[i])))
  }

  /** No active product left out of the ranking has more stock than one that made it. */
  lemma TopByStockDominates(all: seq<ProductDto>, limit: nat, i: int, d: ProductDto)
    requires TopByStock(all, limit).Some?
    requires 0 <= i < |TopByStock(all, limit).value|
    requires d in all && Active(d)
    requires limit < Count(all, Active)
    ensures exists j :: 0 <= j < |Filter(all, Active)| && Sorting.SortDesc(Filter(all, Active), StockKey)[j] == d
    ensures TopByStock(all, limit).value[i].stock >= StockKey(d) || d in Sorting.Take(Sorting.SortDesc(Filter(all, Active), StockKey), limit)
  {
    var active := Filter(all, Active);
    var ranked := Sorting.SortDesc(active, StockKey);
    FilterMembership(all, Active, d);
    RankingKeeps(active, d);
    TopByStockAt(all, limit, i);
    Sorting.SortDescSorted(active, StockKey);
    RankedDominates(ranked, limit, i, d);
  }

  /** In a ranking sorted by stock, an entry among the first `limit` has at least the stock of any entry past them. */
  lemma RankedDominates(ranked: seq<ProductDto>, limit: nat, i: int, d: ProductDto)
    requires Sorting.SortedDesc(ranked, StockKey)
    requires 0 <= i < limit <= |ranked| && d in ranked
    ensures StockKey(ranked[i]) >= StockKey(d) || d in Sorting.Take(ranked, limit)
  {
    var j :| 0 <= j < |ranked| && ranked[j] == d;
    if j < limit {
      assert Sorting.Take(ranked, limit)[j] == d;
    }
  }

  /** The i-th entry of the ranking is the i-th active product in stock order. */
  lemma TopByStockAt(all: seq<ProductDto>, limit: nat, i: int)
    requires 0 <= i < |TopByStock(all, limit).value|
    ensures TopByStock(all, limit).value[i] == ToTop(Sorting.SortDesc(Filter(all, Active), StockKey)[i])
  {
  }

  /** The ranking holds every product it ranks. */
  lemma RankingKeeps(active: seq<ProductDto>, d: ProductDto)
    requires d in active
    ensures d in Sorting.SortDesc(active, StockKey)
  {
    assert d in multiset(active);
  }

  class ProductService {
    var rows: seq<Product>

    ghost predicate Valid()
      reads this, rows
    {
      && (forall i, j :: 0 <= i < j < |rows| ==> rows[i] != rows[j])
      && (forall i :: 0 <= i < |rows| ==> rows[i].stock.Some? && rows[i].price.Some? && rows[i].initialStock.Some?)
    }

    constructor ()
      ensures Valid() && rows == []
    {
      rows := [];
    }

    /** The current stock of every product, by id. */
    function Stocks(): (s: seq<int>)
      reads this, rows
      ensures |s| == |rows|
    {
      seq(|rows|, i reads this, rows requires 0 <= i < |rows| => rows[i].stock.GetOr(0))
    }

    /** Every product, as the service would hand it out, by id (`findAll`). */
    function Listing(): (s: seq<ProductDto>)
      reads this, rows
      ensures |s| == |rows|
    {
      seq(|rows|, i reads this, rows requires 0 <= i < |rows| => ToDto(i + 1, rows[i]))
    }

    lemma ListingStored()
      requires Valid()
      ensures forall i :: 0 <= i < |Listing()| ==> Stored(Listing()[i]) && Listing()[i].idProduct == i + 1
    {
      forall i | 0 <= i < |rows|
        ensures Stored(Listing()[i])
      {
        LowStockIsOneFifth(rows[i]);
      }
    }

    function GetSummary(): (s: ProductSummary)
      reads this, rows
      requires Valid()
      ensures s.available + s.outOfStock == Count(Listing(), Active)
    {
      ListingStored();
      SummaryPartitionsActive(Listing());
      Summarize(Listing())
    }

    /** `searchProducts` over the stored table: the matching products of the status, in id order. */
    function SearchProducts(search: string, status: string): (r: seq<ProductDto>)
      reads this, rows
      ensures forall d :: d in r <==> d in Listing() && d.status == status && Matches(d, Lower(search))
      ensures Subsequence(r, Listing())
      ensures forall i :: 0 <= i < |r| ==> 1 <= r[i].idProduct <= |rows|
    {
      var r := Search(Listing(), search, status);
      forall i | 0 <= i < |r| ensures 1 <= r[i].idProduct <= |rows| {
        assert r[i] in Listing();
        var k :| 0 <= k < |Listing()| && Listing()[k] == r[i];
      }
      r
    }

    /** `getTopProductsByStock` over the stored table: at most `limit` active products, most stock first. */
    function GetTopProductsByStock(limit: int): (r: Option<seq<TopProduct>>)
      reads this, rows
      ensures r.None? <==> limit < 0
      ensures r.Some? ==> |r.value| == if limit < Count(Listing(), Active) then limit else Count(Listing(), Active)
      ensures r.Some? ==> forall i, j :: 0 <= i < j < |r.value| ==> r.value[i].stock >= r.value[j].stock
    {
      TopByStock(Listing(), limit)
    }

    /** The code a new product receives: "P" and the row count plus one, which is the new row's id. */
    function GenerateNextProductCode(): (code: string)
      reads this
      ensures |code| >= 4 && code[0] == 'P' && AllDigits(code[1..]) && DigitsValue(code[1..]) == |rows| + 1
    {
      Codes.CodeForCount('P', |rows|)
    }

    method Save(req: ProductRequest) returns (dto: ProductDto)
      requires Valid()
      modifies this
      ensures Valid()
      ensures |rows| == |old(rows)| + 1 && rows[..|old(rows)|] == old(rows) && fresh(rows[|old(rows)|])
      ensures Stocks() == old(Stocks()) + [req.initialStock]
      ensures var p := rows[|old(rows)|];
        && p.status == "A" && p.initialStock == Some(req.initialStock) && p.price == Some(req.price)
        && p.productCode == (if req.productCode == "" then Codes.CodeForCount('P', |old(rows)|) else req.productCode)
        && p.productName == req.productName && p.category == req.category
        && p.description == req.description && p.imageUrl == req.imageUrl
      ensures dto == ToDto(|rows|, rows[|old(rows)|])
    {
      var p := NewProduct(req, Codes.CodeForCount('P', |rows|));
      assert p !in rows;
      Insert(p);
      assert rows[|old(rows)|] == p;
      dto := ToDto(|rows|, p);
    }

    /** Appends a new row, as the repository stores a new entity. */
    method Insert(p: Product)
      requires Valid() && p !in rows && p.stock.Some? && p.price.Some? && p.initialStock.Some?
      modifies this`rows
      ensures Valid() && rows == old(rows) + [p]
      ensures Stocks() == old(Stocks()) + [p.stock.value]
    {
      rows := rows + [p];
      assert forall i :: 0 <= i < |old(rows)| ==> rows[i] == old(rows)[i];
    }

    /** The entity `save` builds from a request before inserting it; `nextCode` is used when the request has none. */
    static method NewProduct(req: ProductRequest, nextCode: string) returns (p: Product)
      ensures fresh(p)
      ensures p.status == "A" && p.stock == Some(req.initialStock) && p.initialStock == Some(req.initialStock)
      ensures p.price == Some(req.price)
      ensures p.productCode == (if req.productCode == "" then nextCode else req.productCode)
      ensures p.productName == req.productName && p.category == req.category
      ensures p.description == req.description && p.imageUrl == req.imageUrl
    {
      p := new Product();
      p.productCode, p.productName, p.category, p.description := req.productCode, req.productName, req.category, req.description;
      p.price, p.initialStock, p.imageUrl, p.status := Some(req.price), Some(req.initialStock), req.imageUrl, req.status;
      p.status := "A";
      p.stock := Some(req.initialStock);
      if p.productCode == "" {
        p.productCode := nextCode;
      }
      p.OnCreate();
    }

    /** The descriptive fields and status follow the request; stock and initial stock are kept. */
    method Update(id: int, req: ProductRequest) returns (r: Option<ProductDto>)
      requires Valid()
      modifies rows
      ensures Valid()
      ensures r.Some? <==> 1 <= id <= |rows|
      ensures Stocks() == old(Stocks())
      ensures forall i :: 0 <= i < |rows| ==> rows[i].initialStock == old(rows[i].initialStock)
      ensures forall i :: 0 <= i < |rows| && i != id - 1 ==> unchanged(rows[i])
      ensures r.Some? ==> var p := rows[id - 1];
        && p.productCode == req.productCode && p.productName == req.productName && p.category == req.category
        && p.description == req.description && p.price == Some(req.price) && p.imageUrl == req.imageUrl
        && p.status == req.status && r.value == ToDto(id, p)
    {
      if 1 <= id <= |rows| {
        var p := rows[id - 1];
        p.productCode, p.productName, p.category, p.description := req.productCode, req.productName, req.category, req.description;
        p.price, p.imageUrl, p.status := Some(req.price), req.imageUrl, req.status;
        r := Some(ToDto(id, p));
      } else {
        r := None;
      }
    }

    /** Soft delete: the product's status becomes "I"; an unknown id changes nothing. */
    method Delete(id: int)
      requires Valid()
      modifies rows`status
      ensures Valid() && Stocks() == old(Stocks())
      ensures 1 <= id <= |rows| ==> rows[id - 1].status == "I"
      ensures forall i :: 0 <= i < |rows| && i != id - 1 ==> unchanged(rows[i])
    {
      SetStatus(id, "I");
    }

    /** Undo of the soft delete: the product's status becomes "A". */
    method Restore(id: int)
      requires Valid()
      modifies rows`status
      ensures Valid() && Stocks() == old(Stocks())
      ensures 1 <= id <= |rows| ==> rows[id - 1].status == "A"
      ensures forall i :: 0 <= i < |rows| && i != id - 1 ==> unchanged(rows[i])
    {
      SetStatus(id, "A");
    }

    method SetStatus(id: int, status: string)
      requires Valid()
      modifies rows`status
      ensures Valid() && Stocks() == old(Stocks())
      ensures 1 <= id <= |rows| ==> rows[id - 1].status == status
      ensures forall i :: 0 <= i < |rows| && i != id - 1 ==> unchanged(rows[i])
    {
      if 1 <= id <= |rows| {
        rows[id - 1].status := status;
      }
    }

    /** Sets a product's stock; an unknown id changes nothing and answers None. */
    method UpdateStock(id: int, newStock: int) returns (r: Option<ProductDto>)
      requires Valid()
      modifies rows`stock
      ensures Valid()
      ensures r.Some? <==> 1 <= id <= |rows|
      ensures 1 <= id <= |rows| ==> Stocks() == old(Stocks())[id - 1 := newStock] && r.value == ToDto(id, rows[id - 1])
      ensures !(1 <= id <= |rows|) ==> Stocks() == old(Stocks())
      ensures forall i :: 0 <= i < |rows| && i != id - 1 ==> unchanged(rows[i])
    {
      r := SetStock(id, newStock);
    }

    /** `addStock`: the stock moves as `Ledger.Added` says. */
    method AddStock(id: int, quantity: int) returns (r: Option<ProductDto>)
      requires Valid()
      modifies rows`stock
      ensures Valid()
      ensures r.Some? <==> 1 <= id <= |rows|
      ensures Stocks() == Ledger.Added(old(Stocks()), id, quantity)
      ensures r.Some? ==> r.value == ToDto(id, rows[id - 1])
      ensures forall i :: 0 <= i < |rows| && i != id - 1 ==> unchanged(rows[i])
    {
      if 1 <= id <= |rows| {
        r := SetStock(id, rows[id - 1].stock.value + quantity);
      } else {
        r := None;
      }
    }

    /** `reduceStock`: the stock moves as `Ledger.Reduced` says, so it never ends below zero. */
    method ReduceStock(id: int, quantity: int) returns (r: Option<ProductDto>)
      requires Valid()
      modifies rows`stock
      ensures Valid()
      ensures r.Some? <==> 1 <= id <= |rows|
      ensures Stocks() == Ledger.Reduced(old(Stocks()), id, quantity)
      ensures r.Some? ==> r.value == ToDto(id, rows[id - 1]) && r.value.stock.value >= 0
      ensures forall i :: 0 <= i < |rows| && i != id - 1 ==> unchanged(rows[i])
    {
      if 1 <= id <= |rows| {
        r := SetStock(id, Ledger.Max(0, rows[id - 1].stock.value - quantity));
      } else {
        r := None;
      }
    }

    method SetStock(id: int, newStock: int) returns (r: Option<ProductDto>)
      requires Valid()
      modifies rows`stock
      ensures Valid()
      ensures r.Some? <==> 1 <= id <= |rows|
      ensures 1 <= id <= |rows| ==> Stocks() == old(Stocks())[id - 1 := newStock] && r.value == ToDto(id, rows[id - 1])
      ensures 1 <= id <= |rows| ==>
        rows[id - 1].status == old(rows[id - 1].status) && rows[id - 1].initialStock == old(rows[id - 1].initialStock)
      ensures !(1 <= id <= |rows|) ==> Stocks() == old(Stocks())
      ensures forall i :: 0 <= i < |rows| && i != id - 1 ==> unchanged(rows[i])
    {
      if 1 <= id <= |rows| {
        rows[id - 1].stock := Some(newStock);
        r := Some(ToDto(id, rows[id - 1]));
      } else {
        r := None;
      }
    }
  }
}
