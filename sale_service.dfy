/**
 * The sale service: registering, editing, cancelling and restoring sales,
 * each of which moves product stock through the product service. Every
 * operation runs in one transaction: when a lookup fails (customer,
 * employee or product not found, or an unreadable latest code) the whole
 * operation is rolled back. The model performs every lookup before the
 * first write; since no write of these operations affects a later lookup,
 * the outcome is the one the rollback produces.
 */
module SaleServiceImpl {
  import opened Wrappers
  import Codes
  import Ledger
  import opened SaleModel
  import opened ProductServiceImpl

  datatype SaleLineRequest = SaleLineRequest(productId: int, quantity: int, unitPrice: int)

  /** The validated request body; an empty code stands for a missing one. */
  datatype SaleRequest = SaleRequest(
    saleCode: string, customerId: int, employeeId: int, saleDate: Option<int>,
    paymentMethod: string, status: string, details: seq<SaleLineRequest>)

  datatype SaleError =
    | CustomerNotFound
    | EmployeeNotFound
    | ProductNotFound
    | CodeUnreadable(reason: Codes.CodeError)

  datatype SaleDetailDto = SaleDetailDto(productId: int, quantity: Option<int>, unitPrice: Option<int>, subtotal: Option<int>)

  datatype SaleDto = SaleDto(
    idSale: int, saleCode: string, customerId: int, employeeId: int, saleDate: Option<int>,
    paymentMethod: string, status: string, total: Option<int>, details: seq<SaleDetailDto>)

  function RequestLines(lines: seq<SaleLineRequest>): (r: seq<Ledger.Line>)
    ensures |r| == |lines|
    ensures forall i :: 0 <= i < |lines| ==> r[i] == Ledger.Line(lines[i].productId, lines[i].quantity)
  {
    seq(|lines|, i requires 0 <= i < |lines| => Ledger.Line(lines[i].productId, lines[i].quantity))
  }

  /** Sum of unit price times quantity over the request lines. */
  function RequestAmount(lines: seq<SaleLineRequest>): int
    decreases |lines|
  {
    if lines == [] then 0
    else RequestAmount(lines[..|lines| - 1]) + lines[|lines| - 1].unitPrice * lines[|lines| - 1].quantity
  }

  function DetailDto(d: SaleDetail): SaleDetailDto
    reads d
  {
    SaleDetailDto(d.productId, d.quantity, d.unitPrice, d.subtotal)
  }

  function ToSaleDto(id: int, s: Sale): SaleDto
    reads s, s.details
  {
    SaleDto(id, s.saleCode, s.customerId, s.employeeId, s.saleDate, s.paymentMethod, s.status, s.total,
            seq(|s.details|, i reads s, s.details requires 0 <= i < |s.details| => DetailDto(s.details[i])))
  }

  /** The details built from the request lines, in order, each priced. */
  ghost predicate BuiltFrom(details: seq<SaleDetail>, lines: seq<SaleLineRequest>)
    reads details
  {
    && |details| == |lines|
    && forall k :: 0 <= k < |lines| ==>
         && details[k].productId == lines[k].productId
         && details[k].quantity == Some(lines[k].quantity)
         && details[k].unitPrice == Some(lines[k].unitPrice)
         && details[k].subtotal == Some(lines[k].unitPrice * lines[k].quantity)
  }

  lemma {:induction false} BuiltFromAmount(details: seq<SaleDetail>, lines: seq<SaleLineRequest>)
    requires BuiltFrom(details, lines)
    ensures SubtotalSum(details) == RequestAmount(lines)
    ensures LinesOf(details) == RequestLines(lines)
    decreases |lines|
  {
    if lines != [] {
      var n := |lines| - 1;
      assert BuiltFrom(details[..n], lines[..n]);
      BuiltFromAmount(details[..n], lines[..n]);
    }
  }

  lemma BuiltFromSnoc(details: seq<SaleDetail>, lines: seq<SaleLineRequest>, d: SaleDetail, line: SaleLineRequest)
    requires BuiltFrom(details, lines)
    requires d.productId == line.productId && d.quantity == Some(line.quantity)
    requires d.unitPrice == Some(line.unitPrice) && d.subtotal == Some(line.unitPrice * line.quantity)
    ensures BuiltFrom(details + [d], lines + [line])
  {
  }

  class SaleService {
    const products: ProductService
    var sales: seq<Sale>
    /** Ids the customer and employee repositories resolve. */
    var customers: set<int>
    var employees: set<int>

    ghost function DetailObjects(): set<SaleDetail>
      reads this, sales
    {
      set i, k | 0 <= i < |sales| && 0 <= k < |sales[i].details| :: sales[i].details[k]
    }

    ghost predicate Valid()
      reads this, products, products.rows, sales, DetailObjects()
    {
      && products.Valid()
      && (forall i, j :: 0 <= i < j < |sales| ==> sales[i] != sales[j])
      && (forall i, k :: 0 <= i < |sales| && 0 <= k < |sales[i].details| ==> sales[i].details[k].quantity.Some?)
    }

    constructor (products: ProductService, customers: set<int>, employees: set<int>)
      requires products.Valid()
      ensures Valid() && this.products == products && sales == []
      ensures this.customers == customers && this.employees == employees
    {
      this.products := products;
      this.customers := customers;
      this.employees := employees;
      sales := [];
    }

    predicate KnownProducts(lines: seq<SaleLineRequest>)
      reads this, products
    {
      forall i :: 0 <= i < |lines| ==> 1 <= lines[i].productId <= |products.rows|
    }

    /** The sale codes in id order. */
    function SaleCodes(): (r: seq<string>)
      reads this, sales
      ensures |r| == |sales| && forall i :: 0 <= i < |sales| ==> r[i] == sales[i].saleCode
    {
      seq(|sales|, i reads this, sales requires 0 <= i < |sales| => sales[i].saleCode)
    }

    /**
     * The code a new sale receives when its request carries none, read from
     * the latest sale code alone (the corrected latest-code query).
     */
    function GenerateNextSaleCode(): (r: Result<string, Codes.CodeError>)
      reads this, sales
      ensures sales == [] ==> r == Success("V001")
      ensures r.Success? ==> |r.value| >= 4 && r.value[0] == 'V'
    {
      assert ['V'] + "001" == "V001";
      Codes.NextCodeAfter('V', Codes.LatestCode(SaleCodes()))
    }

    /**
     * Code generation as written: the latest-code query returns every code
     * where one is expected, so it fails once two sales exist; with fewer it
     * agrees with the corrected generator.
     */
    function GenerateNextSaleCodeAsWritten(): (r: Result<string, Codes.CodeError>)
      reads this, sales
      ensures |sales| >= 2 <==> r == Failure(Codes.NonUniqueResult)
      ensures |sales| < 2 ==> r == GenerateNextSaleCode()
    {
      Codes.NextCodeAsWritten('V', SaleCodes())
    }

    /** Consecutive sales receive consecutive numbers. */
    lemma NextSaleCodeFollowsLatest(n: int)
      requires sales != [] && Codes.IntMin <= n < Codes.IntMax
      requires |sales[|sales| - 1].saleCode| > 0 && sales[|sales| - 1].saleCode[1..] == Codes.Format03(n)
      ensures GenerateNextSaleCode() == Success("V" + Codes.Format03(n + 1))
    {
      Codes.IssuedCodesContinue('V', SaleCodes(), n);
    }

    /**
     * The lookups `save` performs, in the order it performs them: the
     * customer, the employee, the next code (only when the request carries
     * none) and every line's product. Success carries the sale's code.
     */
    function SaveCheck(req: SaleRequest): (r: Result<string, SaleError>)
      reads this, sales, products
      ensures req.customerId !in customers ==> r == Failure(CustomerNotFound)
      ensures req.customerId in customers && req.employeeId !in employees ==> r == Failure(EmployeeNotFound)
      ensures r.Failure? && r.error.CodeUnreadable? <==>
                req.customerId in customers && req.employeeId in employees && req.saleCode == ""
                && GenerateNextSaleCode().Failure?
      ensures r.Failure? && r.error == ProductNotFound <==>
                req.customerId in customers && req.employeeId in employees
                && (req.saleCode != "" || GenerateNextSaleCode().Success?) && !KnownProducts(req.details)
      ensures r.Success? <==>
                (req.customerId in customers && req.employeeId in employees
                 && (req.saleCode != "" || GenerateNextSaleCode().Success?) && KnownProducts(req.details))
      ensures r.Success? && req.saleCode != "" ==> r.value == req.saleCode
      ensures r.Success? && req.saleCode == "" ==> r.value == GenerateNextSaleCode().value
    {
      if req.customerId !in customers then Failure(CustomerNotFound)
      else if req.employeeId !in employees then Failure(EmployeeNotFound)
      else
        var code := if req.saleCode != "" then Success(req.saleCode) else GenerateNextSaleCode();
        if code.Failure? then Failure(CodeUnreadable(code.error))
        else if !KnownProducts(req.details) then Failure(ProductNotFound)
        else Success(code.value)
    }

    /** Registers a sale: takes every line's quantity out of stock and totals the lines. */
    method Save(req: SaleRequest, today: int) returns (r: Result<SaleDto, SaleError>)
      requires Valid()
      modifies this`sales, products.rows`stock
      ensures Valid()
      ensures r.Failure? <==> old(SaveCheck(req)).Failure?
      ensures r.Failure? ==> r.error == old(SaveCheck(req)).error && sales == old(sales)
      ensures r.Failure? ==> forall i :: 0 <= i < |products.rows| ==> unchanged(products.rows[i])
      ensures r.Success? ==>
        && |sales| == |old(sales)| + 1 && sales[..|sales| - 1] == old(sales) && fresh(sales[|sales| - 1])
        && products.Stocks() == Ledger.ReduceLines(old(products.Stocks()), RequestLines(req.details))
        && r.value == ToSaleDto(|sales|, sales[|sales| - 1])
      ensures r.Success? ==> var s := sales[|sales| - 1];
        && s.saleCode == old(SaveCheck(req)).value
        && s.saleDate == Some(req.saleDate.GetOr(today)) && s.status == req.status
        && s.customerId == req.customerId && s.employeeId == req.employeeId && s.paymentMethod == req.paymentMethod
        && BuiltFrom(s.details, req.details)
        && LinesOf(s.details) == RequestLines(req.details)
        && s.total == Some(RequestAmount(req.details))
    {
      var check := SaveCheck(req);
      if check.Failure? {
        return Failure(check.error);
      }
      var sale := BuildSale(req, check.value, today);
      AddSale(sale);
      r := Success(ToSaleDto(|sales|, sale));
    }

    /** Records a sale that is not yet recorded and whose every line has a quantity. */
    method AddSale(sale: Sale)
      requires Valid() && sale !in sales
      requires forall k :: 0 <= k < |sale.details| ==> sale.details[k].quantity.Some?
      modifies this`sales
      ensures Valid() && sales == old(sales) + [sale]
    {
      sales := sales + [sale];
    }

    /** The sale `save` persists, with its details, once every lookup has succeeded. */
    method BuildSale(req: SaleRequest, code: string, today: int) returns (sale: Sale)
      requires products.Valid() && KnownProducts(req.details)
      modifies products.rows`stock
      ensures products.Valid() && fresh(sale)
      ensures products.Stocks() == Ledger.ReduceLines(old(products.Stocks()), RequestLines(req.details))
      ensures && sale.saleCode == code
              && sale.saleDate == Some(req.saleDate.GetOr(today)) && sale.status == req.status
              && sale.customerId == req.customerId && sale.employeeId == req.employeeId
              && sale.paymentMethod == req.paymentMethod
              && BuiltFrom(sale.details, req.details)
              && LinesOf(sale.details) == RequestLines(req.details)
              && sale.total == Some(RequestAmount(req.details))
    {
      sale := NewSale(req, code, today);
      AppendLines(sale, req.details);
    }

    /** The entity `save` builds from the request (`convertToEntity`), with its creation hook run. */
    static method NewSale(req: SaleRequest, code: string, today: int) returns (sale: Sale)
      ensures fresh(sale) && sale.details == [] && sale.saleCode == code
      ensures sale.saleDate == Some(req.saleDate.GetOr(today)) && sale.status == req.status
      ensures sale.customerId == req.customerId && sale.employeeId == req.employeeId
      ensures sale.paymentMethod == req.paymentMethod
    {
      sale := new Sale();
      sale.saleCode := code;
      sale.saleDate := Some(req.saleDate.GetOr(today));
      sale.paymentMethod, sale.status := req.paymentMethod, req.status;
      sale.customerId, sale.employeeId := req.customerId, req.employeeId;
      sale.OnCreate(today);
    }

    /**
     * The part shared by `save` and `update`: one new priced detail and one
     * stock reduction per request line, then the sale's total.
     */
    method AppendLines(sale: Sale, lines: seq<SaleLineRequest>)
      requires products.Valid() && KnownProducts(lines) && sale.details == []
      modifies sale`details, sale`total, products.rows`stock
      ensures products.Valid()
      ensures products.Stocks() == Ledger.ReduceLines(old(products.Stocks()), RequestLines(lines))
      ensures BuiltFrom(sale.details, lines)
      ensures LinesOf(sale.details) == RequestLines(lines) && sale.total == Some(RequestAmount(lines))
      ensures unchanged(sale`saleCode, sale`saleDate, sale`status, sale`paymentMethod, sale`customerId, sale`employeeId)
    {
      AppendLoop(sale, lines);
      sale.CalculateTotal();
    }

    /** The loop over the request lines. */
    method AppendLoop(sale: Sale, lines: seq<SaleLineRequest>)
      requires products.Valid() && KnownProducts(lines) && sale.details == []
      modifies sale`details, sale`total, products.rows`stock
      ensures products.Valid()
      ensures products.Stocks() == Ledger.ReduceLines(old(products.Stocks()), RequestLines(lines))
      ensures BuiltFrom(sale.details, lines)
      ensures LinesOf(sale.details) == RequestLines(lines) && SubtotalSum(sale.details) == RequestAmount(lines)
    {
      ghost var ledger := RequestLines(lines);
      ghost var start := products.Stocks();
      var i := 0;
      while i < |lines|
        invariant 0 <= i <= |lines|
        invariant products.Valid()
        invariant products.Stocks() == Ledger.ReduceLines(start, ledger[..i])
        invariant BuiltFrom(sale.details, lines[..i])
      {
        AppendNext(sale, lines, i, start);
        i := i + 1;
      }
      assert lines[..i] == lines;
      assert ledger[..i] == ledger;
      BuiltFromAmount(sale.details, lines);
    }

    /** The body of that loop: line `i` joins the sale and leaves the stock. */
    method AppendNext(sale: Sale, lines: seq<SaleLineRequest>, i: int, ghost start: seq<int>)
      requires products.Valid() && KnownProducts(lines) && 0 <= i < |lines|
      requires products.Stocks() == Ledger.ReduceLines(start, RequestLines(lines)[..i])
      requires BuiltFrom(sale.details, lines[..i])
      modifies sale`details, sale`total, products.rows`stock
      ensures products.Valid()
      ensures products.Stocks() == Ledger.ReduceLines(start, RequestLines(lines)[..i + 1])
      ensures BuiltFrom(sale.details, lines[..i + 1])
    {
      ghost var ledger := RequestLines(lines);
      ghost var built := sale.details;
      var detail := AppendLine(sale, lines[i]);
      assert lines[..i + 1] == lines[..i] + [lines[i]];
      BuiltFromSnoc(built, lines[..i], detail, lines[i]);
      assert ledger[..i + 1] == ledger[..i] + [ledger[i]];
      Ledger.ReduceLinesSnoc(start, ledger[..i], ledger[i]);
    }

    /** One iteration of that loop. */
    method AppendLine(sale: Sale, line: SaleLineRequest) returns (detail: SaleDetail)
      requires products.Valid() && 1 <= line.productId <= |products.rows|
      modifies sale`details, sale`total, products.rows`stock
      ensures products.Valid()
      ensures products.Stocks() == Ledger.Reduced(old(products.Stocks()), line.productId, line.quantity)
      ensures sale.details == old(sale.details) + [detail]
      ensures forall k :: 0 <= k < |old(sale.details)| ==> unchanged(old(sale.details)[k])
      ensures && fresh(detail) && detail.productId == line.productId && detail.quantity == Some(line.quantity)
              && detail.unitPrice == Some(line.unitPrice) && detail.subtotal == Some(line.unitPrice * line.quantity)
    {
      detail := AddPricedDetail(sale, line);
      var _ := products.ReduceStock(line.productId, line.quantity);
    }

    /** The detail built from one request line, priced and attached to the sale. */
    static method AddPricedDetail(sale: Sale, line: SaleLineRequest) returns (detail: SaleDetail)
      modifies sale`details, sale`total
      ensures sale.details == old(sale.details) + [detail]
      ensures && fresh(detail) && detail.productId == line.productId && detail.quantity == Some(line.quantity)
              && detail.unitPrice == Some(line.unitPrice) && detail.subtotal == Some(line.unitPrice * line.quantity)
    {
      detail := new SaleDetail();
      detail.sale, detail.productId := sale, line.productId;
      detail.quantity, detail.unitPrice := Some(line.quantity), Some(line.unitPrice);
      detail.CalculateSubtotal();
      sale.AddDetail(detail);
    }

    /** The loop that puts a sale's quantities back into stock (cancel, and the first half of an edit). */
    method PutBack(details: seq<SaleDetail>)
      requires products.Valid()
      requires forall k :: 0 <= k < |details| ==> details[k].quantity.Some?
      modifies products.rows`stock
      ensures products.Valid()
      ensures products.Stocks() == Ledger.AddLines(old(products.Stocks()), LinesOf(details))
      ensures forall k :: 0 <= k < |details| ==> unchanged(details[k])
    {
      ghost var lines := LinesOf(details);
      var i := 0;
      while i < |details|
        invariant 0 <= i <= |details|
        invariant products.Valid()
        invariant products.Stocks() == Ledger.AddLines(old(products.Stocks()), lines[..i])
      {
        var line := Ledger.Line(details[i].productId, details[i].quantity.value);
        assert line == lines[i];
        ghost var before := products.Stocks();
        var _ := products.AddStock(line.productId, line.quantity);
        assert lines[..i + 1] == lines[..i] + [line];
        Ledger.AddLinesSnoc(old(products.Stocks()), lines[..i], line);
        i := i + 1;
      }
      assert lines[..i] == lines;
    }

    /** The loop that takes a sale's quantities out of stock again (restore). */
    method TakeOut(details: seq<SaleDetail>)
      requires products.Valid()
      requires forall k :: 0 <= k < |details| ==> details[k].quantity.Some?
      modifies products.rows`stock
      ensures products.Valid()
      ensures products.Stocks() == Ledger.ReduceLines(old(products.Stocks()), LinesOf(details))
    {
      ghost var lines := LinesOf(details);
      var i := 0;
      while i < |details|
        invariant 0 <= i <= |details|
        invariant products.Valid()
        invariant products.Stocks() == Ledger.ReduceLines(old(products.Stocks()), lines[..i])
      {
        var line := Ledger.Line(details[i].productId, details[i].quantity.value);
        assert line == lines[i];
        var _ := products.ReduceStock(line.productId, line.quantity);
        assert lines[..i + 1] == lines[..i] + [line];
        Ledger.ReduceLinesSnoc(old(products.Stocks()), lines[..i], line);
        i := i + 1;
      }
      assert lines[..i] == lines;
    }

    /** Cancels a sale: its quantities go back into stock and its status becomes "Cancelado". */
    method Delete(id: int)
      requires Valid()
      modifies products.rows`stock, sales`status
      ensures Valid()
      ensures 1 <= id <= |sales| ==>
        && products.Stocks() == Ledger.AddLines(old(products.Stocks()), old(LinesOf(sales[id - 1].details)))
        && sales[id - 1].status == "Cancelado" && sales[id - 1].details == old(sales[id - 1].details)
      ensures !(1 <= id <= |sales|) ==> products.Stocks() == old(products.Stocks())
      ensures forall i :: 0 <= i < |sales| && i != id - 1 ==> unchanged(sales[i])
    {
      if 1 <= id <= |sales| {
        var s := sales[id - 1];
        PutBack(s.details);
        s.status := "Cancelado";
      }
    }

    /** Restores a cancelled sale: its quantities leave stock again and its status becomes "Completado". */
    method Restore(id: int)
      requires Valid()
      modifies products.rows`stock, sales`status
      ensures Valid()
      ensures 1 <= id <= |sales| ==>
        && products.Stocks() == Ledger.ReduceLines(old(products.Stocks()), old(LinesOf(sales[id - 1].details)))
        && sales[id - 1].status == "Completado" && sales[id - 1].details == old(sales[id - 1].details)
      ensures !(1 <= id <= |sales|) ==> products.Stocks() == old(products.Stocks())
      ensures forall i :: 0 <= i < |sales| && i != id - 1 ==> unchanged(sales[i])
    {
      if 1 <= id <= |sales| {
        var s := sales[id - 1];
        TakeOut(s.details);
        s.status := "Completado";
      }
    }

    /** The lookups `update` performs once the sale is found: customer, employee, then every line's product. */
    function UpdateCheck(req: SaleRequest): (r: Option<SaleError>)
      reads this, products
      ensures req.customerId !in customers ==> r == Some(CustomerNotFound)
      ensures req.customerId in customers && req.employeeId !in employees ==> r == Some(EmployeeNotFound)
      ensures r == Some(ProductNotFound) <==>
                req.customerId in customers && req.employeeId in employees && !KnownProducts(req.details)
      ensures r.None? <==> req.customerId in customers && req.employeeId in employees && KnownProducts(req.details)
    {
      if req.customerId !in customers then Some(CustomerNotFound)
      else if req.employeeId !in employees then Some(EmployeeNotFound)
      else if !KnownProducts(req.details) then Some(ProductNotFound)
      else None
    }

    /**
     * Edits a sale: the old quantities go back into stock, the details are
     * replaced by the request's lines, whose quantities leave stock. An
     * unknown id answers Success(None), the source's null.
     */
    method Update(id: int, req: SaleRequest) returns (r: Result<Option<SaleDto>, SaleError>)
      requires Valid()
      modifies products.rows`stock, sales
      ensures Valid()
      ensures r == Success(None) <==> !(1 <= id <= |sales|)
      ensures r.Failure? <==> 1 <= id <= |sales| && old(UpdateCheck(req)).Some?
      ensures r.Failure? ==> r.error == old(UpdateCheck(req)).value && unchanged(sales[id - 1])
      ensures r.Failure? || r.value.None? ==> forall i :: 0 <= i < |products.rows| ==> unchanged(products.rows[i])
      ensures forall i :: 0 <= i < |sales| && i != id - 1 ==> unchanged(sales[i])
      ensures r.Success? && r.value.Some? ==>
        && 1 <= id <= |sales|
        && products.Stocks() == Ledger.ReduceLines(
             Ledger.AddLines(old(products.Stocks()), old(LinesOf(sales[id - 1].details))), RequestLines(req.details))
        && var s := sales[id - 1];
           && s.saleCode == req.saleCode && s.status == req.status && s.paymentMethod == req.paymentMethod
           && s.saleDate == (if req.saleDate.Some? then req.saleDate else old(s.saleDate))
           && s.customerId == req.customerId && s.employeeId == req.employeeId
           && BuiltFrom(s.details, req.details)
           && s.total == Some(RequestAmount(req.details))
           && r.value.value == ToSaleDto(id, s)
    {
      if !(1 <= id <= |sales|) {
        return Success(None);
      }
      var check := UpdateCheck(req);
      if check.Some? {
        return Failure(check.value);
      }
      var s := sales[id - 1];
      Rewrite(s, req);
      forall i, k | 0 <= i < |sales| && 0 <= k < |sales[i].details|
        ensures sales[i].details[k].quantity.Some?
      {
        if i != id - 1 {
          assert sales[i] != s;
          assert sales[i].details == old(sales[i].details);
          assert old(sales[i].details[k].quantity).Some?;
        }
      }
      r := Success(Some(ToSaleDto(id, s)));
    }

    /** The writes of `update` once the lookups have succeeded (`updateSaleFromRequest` and the two loops). */
    method Rewrite(s: Sale, req: SaleRequest)
      requires products.Valid() && KnownProducts(req.details)
      requires forall k :: 0 <= k < |s.details| ==> s.details[k].quantity.Some?
      modifies s, products.rows`stock
      ensures products.Valid()
      ensures products.Stocks() == Ledger.ReduceLines(
                Ledger.AddLines(old(products.Stocks()), old(LinesOf(s.details))), RequestLines(req.details))
      ensures && s.saleCode == req.saleCode && s.status == req.status && s.paymentMethod == req.paymentMethod
              && s.saleDate == (if req.saleDate.Some? then req.saleDate else old(s.saleDate))
              && s.customerId == req.customerId && s.employeeId == req.employeeId
              && BuiltFrom(s.details, req.details)
              && s.total == Some(RequestAmount(req.details))
    {
      ghost var returned := LinesOf(s.details);
      PutBack(s.details);
      assert products.Stocks() == Ledger.AddLines(old(products.Stocks()), returned);
      CopyFields(s, req);
      AppendLines(s, req.details);
    }

    /** Clears the details and copies the request's fields (`updateSaleFromRequest`). */
    static method CopyFields(s: Sale, req: SaleRequest)
      modifies s
      ensures s.details == [] && s.total == old(s.total)
      ensures && s.saleCode == req.saleCode && s.status == req.status && s.paymentMethod == req.paymentMethod
              && s.saleDate == (if req.saleDate.Some? then req.saleDate else old(s.saleDate))
              && s.customerId == req.customerId && s.employeeId == req.employeeId
    {
      s.details := [];
      s.saleCode := req.saleCode;
      s.saleDate := if req.saleDate.Some? then req.saleDate else s.saleDate;
      s.paymentMethod, s.status := req.paymentMethod, req.status;
      s.customerId, s.employeeId := req.customerId, req.employeeId;
    }
  }
}
