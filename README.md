# Small-business back office: a verified model

This project models the business logic of a small shop's back office: a Spring Boot
service layer over JPA entities, and the Angular front end used by staff
and customers. Dafny checks every contract and lemma.

## What is modelled

- **Sales and the stock ledger.** `SaleServiceImpl` registers, edits,
  cancels and restores sales. Each line of a sale moves the stock of one
  product through `ProductServiceImpl.addStock` and `reduceStock`; the
  latter clamps at zero.
  - `Ledger` states these stock movements as pure arithmetic over the
    products' stocks.
  - `SaleServiceImpl` runs the same movements imperatively, one line at a
    time, and proves that its loops agree with `Ledger`.
  - A `Sale` owns its `SaleDetail`s. A detail's subtotal is unit price
    times quantity, and a sale's total is the sum of the subtotals.
- **Products.**
  - The entity's stock predicates.
  - Creation, update, soft delete and restore.
  - The search, the summary and the ranking by stock.
  - The "P%03d" code numbered from the row count.
- **Store items.**
  - The status label derived from stock, minimum stock and expiry date:
    out of stock first, then low stock, then near expiry.
  - The stock movements that re-derive the label.
  - The "A%03d" code.
- **Customers and suppliers.**
  - Soft-delete statuses: A/I for customers, A/I/S for suppliers.
  - The "C%03d" client code continued from the latest code, like the
    "V%03d" sale code.
- **Supplier items.** Their totals are recomputed before every insert and
  update.
- **Front end.**
  - The form validators.
  - The customer cart, with at most one line per product.
  - The time-limited cache.
  - The generic filter service.
  - The sales receipt's amount in Spanish words.
  - The customer's order tabs and the order-tracking steps.
  - The product, customer and employee lists with their filters.
  - The notification bell's unread count.

## Modelling conventions

- **Money** is integer cents.
- **Dates** are day numbers. Clock readings (`LocalDate.now()`,
  `Date.now()`) are parameters: `today`, `now`, `nowMillis`.
- **Repositories** are sequences of rows: the entity with identity id k is
  row k - 1, and rows are never physically removed.
- **Entities** that the source changes in place are classes. Values passed
  around (requests, DTOs, list rows) are datatypes.
- **Null.** A column or argument the source tests for null is an
  `Option`. A lookup that throws, or that answers null, yields a `Result`
  or an `Option`.
- **Transactions.** A `@Transactional` operation whose lookup fails
  leaves everything unchanged. The model performs every lookup before the
  first write. No write of these operations affects a later lookup, so
  this gives the same outcome as the rollback.
- **JPA hooks.** `@PrePersist` and `@PreUpdate` hooks are explicit method
  calls made where the repository's `save` would run them.
- **Integer width.** Java's 32-bit `int` is written out only where it
  changes results: in `Integer.parseInt` and the `+ 1` of the code
  generators. Elsewhere integers are unbounded.

## Model

| member | source | states |
|---|---|---|
| ProductModel.Product.constructor | AS241S3_T19-be-develop/src/main/java/pe/edu/vallegrande/project/model/Product.java:41-42 | A new product has status "A"; its price, stock and initial stock are absent |
| ProductModel.Product.OnCreate | AS241S3_T19-be-develop/src/main/java/pe/edu/vallegrande/project/model/Product.java:44-49 | Before the first insert, an absent initial stock is copied from the stock; a present one is kept |
| ProductModel.Product.TotalStockValue | AS241S3_T19-be-develop/src/main/java/pe/edu/vallegrande/project/model/Product.java:52-57 | The stock value is zero when the price or the stock is absent, and never negative for a non-negative price and stock |
| ProductModel.LowStockIsOneFifth | AS241S3_T19-be-develop/src/main/java/pe/edu/vallegrande/project/model/Product.java:60-65 | Low stock holds exactly when both stocks are present and five times the stock is at most the initial stock |
| ProductModel.OutOfStockIsLowStock | AS241S3_T19-be-develop/src/main/java/pe/edu/vallegrande/project/model/Product.java:60-70 | With both stocks present and a non-negative initial stock, a product out of stock is also low on stock |
| CustomerModel.Customer.constructor | AS241S3_T19-be-develop/src/main/java/pe/edu/vallegrande/project/model/Customer.java:50-51 | A new customer has status "A" and no registration day |
| CustomerModel.Customer.OnCreate | AS241S3_T19-be-develop/src/main/java/pe/edu/vallegrande/project/model/Customer.java:53-58 | Before the first insert, a missing registration day becomes today; a present one is kept |
| SupplierModel.Supplier.constructor | AS241S3_T19-be-develop/src/main/java/pe/edu/vallegrande/project/model/Supplier.java:41-42 | A new supplier has status "A" |
| SupplierItemModel.SupplierItem.constructor | AS241S3_T19-be-develop/src/main/java/pe/edu/vallegrande/project/model/SupplierItem.java:36-37 | A new supplier item has status "A" and no quantity, price or totals |
| SupplierItemModel.SupplierItem.CalculateTotals | AS241S3_T19-be-develop/src/main/java/pe/edu/vallegrande/project/model/SupplierItem.java:49-54 | With quantity and unit price present, subtotal becomes price times quantity and total equals subtotal (no tax); otherwise both are left unchanged |
| SupplierItemModel.SupplierItem.OnCreate | AS241S3_T19-be-develop/src/main/java/pe/edu/vallegrande/project/model/SupplierItem.java:39-42 | The totals are recomputed before the first insert |
| SupplierItemModel.SupplierItem.OnUpdate | AS241S3_T19-be-develop/src/main/java/pe/edu/vallegrande/project/model/SupplierItem.java:44-47 | The totals are recomputed before every update |
| SaleModel.SaleDetail.constructor | AS241S3_T19-be-develop/src/main/java/pe/edu/vallegrande/project/model/SaleDetail.java:26-34 | A new detail has no sale, no quantity, no unit price and no subtotal |
| SaleModel.SaleDetail.CalculateSubtotal | AS241S3_T19-be-develop/src/main/java/pe/edu/vallegrande/project/model/SaleDetail.java:46-50 | With quantity and unit price present, the subtotal becomes their product; otherwise it is left unchanged |
| SaleModel.SaleDetail.OnCreate | AS241S3_T19-be-develop/src/main/java/pe/edu/vallegrande/project/model/SaleDetail.java:36-39 | The subtotal is recomputed before the first insert |
| SaleModel.SaleDetail.OnUpdate | AS241S3_T19-be-develop/src/main/java/pe/edu/vallegrande/project/model/SaleDetail.java:41-44 | The subtotal is recomputed before every update |
| SaleModel.PricedTotalIsAmount | AS241S3_T19-be-develop/src/main/java/pe/edu/vallegrande/project/model/Sale.java:56-64 | When every detail's subtotal is computed, the sum of subtotals is the sum of unit price times quantity |
| SaleModel.AmountNonNegative | AS241S3_T19-be-develop/src/main/java/pe/edu/vallegrande/project/model/Sale.java:56-64 | With no negative prices or quantities, that sum is not negative |
| SaleModel.RemoveFirst | AS241S3_T19-be-develop/src/main/java/pe/edu/vallegrande/project/model/Sale.java:73 | `List.remove` drops exactly one occurrence of the detail when it is present (as multisets), and leaves the list unchanged when it is absent |
| SaleModel.RemoveFirstCutsFirst | AS241S3_T19-be-develop/src/main/java/pe/edu/vallegrande/project/model/Sale.java:73 | `List.remove` cuts out the first occurrence: the details before it and after it keep their order |
| SaleModel.RemoveAppended | AS241S3_T19-be-develop/src/main/java/pe/edu/vallegrande/project/model/Sale.java:66-76 | Removing a detail that was just appended gives the previous list back |
| SaleModel.Sale.constructor | AS241S3_T19-be-develop/src/main/java/pe/edu/vallegrande/project/model/Sale.java:39-47 | A new sale has status "Completado", no details and no total |
| SaleModel.Sale.OnCreate | AS241S3_T19-be-develop/src/main/java/pe/edu/vallegrande/project/model/Sale.java:49-54 | Before the first insert, a missing sale date becomes today; a present one is kept |
| SaleModel.Sale.CalculateTotal | AS241S3_T19-be-develop/src/main/java/pe/edu/vallegrande/project/model/Sale.java:56-64 | The loop sets the total to the sum of the subtotals that are present; it is 0 for no details |
| SaleModel.Sale.AddDetail | AS241S3_T19-be-develop/src/main/java/pe/edu/vallegrande/project/model/Sale.java:66-70 | The detail is appended at the end and linked to this sale; the total grows by its subtotal |
| SaleModel.Sale.RemoveDetail | AS241S3_T19-be-develop/src/main/java/pe/edu/vallegrande/project/model/Sale.java:72-76 | The detail's first occurrence is removed and unlinked; the total is recomputed |
| StoreItemModel.Classify | AS241S3_T19-be-develop/src/main/java/pe/edu/vallegrande/project/model/StoreItem.java:63-73 | Exactly one label, first match wins: "Agotado" iff out of stock; "Stock Bajo" iff in stock and at or below the minimum; "Próximo a Vencer" iff neither and expiring before today + 7; "Disponible" iff none; never "Inactivo" |
| StoreItemModel.ConditionsOverlap | AS241S3_T19-be-develop/src/main/java/pe/edu/vallegrande/project/model/StoreItem.java:76-88 | The three conditions can hold at once; the stored status then says "Agotado" |
| StoreItemModel.ExpiryBoundary | AS241S3_T19-be-develop/src/main/java/pe/edu/vallegrande/project/model/StoreItem.java:68-77 | An item expiring exactly on today + 7 is not near expiry, because the test is strict; one day earlier it is |
| StoreItemModel.StoreItem.constructor | AS241S3_T19-be-develop/src/main/java/pe/edu/vallegrande/project/model/StoreItem.java:49-50 | A new store item has status "Disponible" |
| StoreItemModel.StoreItem.TotalStockValue | AS241S3_T19-be-develop/src/main/java/pe/edu/vallegrande/project/model/StoreItem.java:91-96 | The stock value is zero when the price or the stock is absent, and never negative for a non-negative price and stock |
| StoreItemModel.StoreItem.UpdateStatus | AS241S3_T19-be-develop/src/main/java/pe/edu/vallegrande/project/model/StoreItem.java:63-88 | The status becomes the classified one; out of stock implies "Agotado"; "Disponible" holds iff none of isOutOfStock, isLowStock and isNearExpiry holds |
| StoreItemModel.StoreItem.OnCreate | AS241S3_T19-be-develop/src/main/java/pe/edu/vallegrande/project/model/StoreItem.java:52-55 | The status is re-derived before the first insert |
| StoreItemModel.StoreItem.OnUpdate | AS241S3_T19-be-develop/src/main/java/pe/edu/vallegrande/project/model/StoreItem.java:57-60 | The status is re-derived before every update, whatever it was |
| StoreItemModel.StoreItem.OnUpdateKeepingInactive | AS241S3_T19-be-develop/src/main/java/pe/edu/vallegrande/project/model/StoreItem.java:57-60 | The corrected hook: an "Inactivo" item keeps its status, and every other status is re-derived |
| Ledger.Added | AS241S3_T19-be-develop/src/main/java/pe/edu/vallegrande/project/service/impl/ProductServiceImpl.java:209-218 | `addStock` raises only the named product's stock, by exactly q, with no clamping; an unknown id changes nothing |
| Ledger.Reduced | AS241S3_T19-be-develop/src/main/java/pe/edu/vallegrande/project/service/impl/ProductServiceImpl.java:222-232 | `reduceStock` changes only the named product's stock; it becomes stock − q when that is not negative, and 0 otherwise |
| Ledger.AddThenReduce | AS241S3_T19-be-develop/src/main/java/pe/edu/vallegrande/project/service/impl/ProductServiceImpl.java:209-232 | `addStock` then `reduceStock` by the same q ≥ 0 gives the stock back, when it was not negative |
| Ledger.AddLinesSnoc | AS241S3_T19-be-develop/src/main/java/pe/edu/vallegrande/project/service/impl/SaleServiceImpl.java:192-194 | The loop that puts a sale's lines back into stock applies one more `addStock` per line, in order |
| Ledger.ReduceLinesSnoc | AS241S3_T19-be-develop/src/main/java/pe/edu/vallegrande/project/service/impl/SaleServiceImpl.java:118-133 | The loop that takes a sale's lines out of stock applies one more `reduceStock` per line, in order |
| Ledger.QuantityForNonNegative | AS241S3_T19-be-develop/src/main/java/pe/edu/vallegrande/project/service/impl/SaleServiceImpl.java:118-133 | With non-negative line quantities, the total quantity a sale names for a product is not negative |
| Ledger.AddLinesAt | AS241S3_T19-be-develop/src/main/java/pe/edu/vallegrande/project/service/impl/SaleServiceImpl.java:192-194 | Cancelling raises each product's stock by the total quantity the sale's lines name for it |
| Ledger.ReduceLinesAt | AS241S3_T19-be-develop/src/main/java/pe/edu/vallegrande/project/service/impl/SaleServiceImpl.java:118-133 | When no clamp triggers, selling lowers each product's stock by the total quantity its lines name |
| Ledger.ReduceLinesClamps | AS241S3_T19-be-develop/src/main/java/pe/edu/vallegrande/project/service/impl/SaleServiceImpl.java:118-133 | A product some line names ends with stock ≥ 0; a product no line names keeps its stock |
| Ledger.ReducedStaysNonNegative | AS241S3_T19-be-develop/src/main/java/pe/edu/vallegrande/project/service/impl/ProductServiceImpl.java:226 | Once a stock is at least 0, further reductions keep it at least 0 |
| Ledger.CancelThenRestore | AS241S3_T19-be-develop/src/main/java/pe/edu/vallegrande/project/service/impl/SaleServiceImpl.java:186-212 | With non-negative stocks and quantities, `delete` followed by `restore` leaves every stock as it was |
| Ledger.UpdateNetEffect | AS241S3_T19-be-develop/src/main/java/pe/edu/vallegrande/project/service/impl/SaleServiceImpl.java:149-176 | When no clamp triggers, `update` changes a product's stock by the old quantities minus the new ones |
| Ledger.CancelTwiceAddsTwice | AS241S3_T19-be-develop/src/main/java/pe/edu/vallegrande/project/service/impl/SaleServiceImpl.java:186-198 | `delete` does not check the status, so cancelling twice adds the quantities back twice |
| Ledger.RestoreThenCancelCanCreateStock | AS241S3_T19-be-develop/src/main/java/pe/edu/vallegrande/project/service/impl/SaleServiceImpl.java:186-212 | `restore` then `delete` can create stock: the clamp at 0 loses the part of the reduction that did not fit |
| Codes.WrapInt | AS241S3_T19-be-develop/src/main/java/pe/edu/vallegrande/project/service/impl/SaleServiceImpl.java:240 | Java `int` addition wraps into the 32-bit range and agrees with exact addition inside it |
| Codes.ParseInt | AS241S3_T19-be-develop/src/main/java/pe/edu/vallegrande/project/service/impl/SaleServiceImpl.java:239-240 | `Integer.parseInt` accepts only an optional sign followed by digits whose value fits in an `int` |
| Codes.Format03OfNat | AS241S3_T19-be-develop/src/main/java/pe/edu/vallegrande/project/service/impl/SaleServiceImpl.java:241 | `%03d` of a non-negative number prints at least three digits whose value is that number |
| Codes.Format03RoundTrip | AS241S3_T19-be-develop/src/main/java/pe/edu/vallegrande/project/service/impl/SaleServiceImpl.java:239-241 | Parsing what `%03d` printed gives back every `int` |
| Codes.Format03Injective | AS241S3_T19-be-develop/src/main/java/pe/edu/vallegrande/project/service/impl/SaleServiceImpl.java:241 | Different numbers print as different codes |
| Codes.NextCodeAfter | AS241S3_T19-be-develop/src/main/java/pe/edu/vallegrande/project/service/impl/SaleServiceImpl.java:234-245 | "V001" (the prefix and 001) when there is no code yet; otherwise the prefix and at least three characters; failure exactly for an empty code or a suffix `parseInt` rejects |
| Codes.NextCodeFollowsIssued | AS241S3_T19-be-develop/src/main/java/pe/edu/vallegrande/project/service/impl/SaleServiceImpl.java:236-241 | The code after one numbered n is the code numbered n + 1, whatever its first letter |
| Codes.NextAfterC007 | AS241S3_T19-be-develop/src/main/java/pe/edu/vallegrande/project/service/impl/CustomerServiceImpl.java:182-194 | "C007" is followed by "C008" |
| Codes.LatestCode | AS241S3_T19-be-develop/src/main/java/pe/edu/vallegrande/project/repository/SaleRepository.java:23-24 | The most recent code is absent exactly when no code exists, and is one of the issued codes |
| Codes.NextCodeAsWritten | AS241S3_T19-be-develop/src/main/java/pe/edu/vallegrande/project/repository/SaleRepository.java:23-24 | As written, the latest-code query fails exactly when two or more rows exist; with no rows the generator gives "V001" |
| Codes.IssuedCodesContinue | AS241S3_T19-be-develop/src/main/java/pe/edu/vallegrande/project/service/impl/SaleServiceImpl.java:233-245 | With the query limited to the latest row, the next code is numbered one more than the latest |
| Codes.SecondCodeBreaksGeneration | AS241S3_T19-be-develop/src/main/java/pe/edu/vallegrande/project/repository/SaleRepository.java:23-24 | Two codes "V001" and "V002" already make the written generator fail, where the corrected one gives "V003" |
| Codes.CodeForCount | AS241S3_T19-be-develop/src/main/java/pe/edu/vallegrande/project/service/impl/ProductServiceImpl.java:188-192 | The code has the prefix and then digits whose value is the row count plus one |
| Codes.CodeForCountInjective | AS241S3_T19-be-develop/src/main/java/pe/edu/vallegrande/project/service/impl/ProductServiceImpl.java:188-192 | Different row counts give different codes |
| ProductServiceImpl.DivHalfUp | AS241S3_T19-be-develop/src/main/java/pe/edu/vallegrande/project/service/impl/ProductServiceImpl.java:155-159 | The average is the quotient rounded to the nearest integer, halves away from zero (`HALF_UP`) |
| ProductServiceImpl.Summarize | AS241S3_T19-be-develop/src/main/java/pe/edu/vallegrande/project/service/impl/ProductServiceImpl.java:134-164 | `getSummary`: the total counts every product; the available, low-stock and out-of-stock counts are each at most the number of active products |
| ProductServiceImpl.SummaryPartitionsActive | AS241S3_T19-be-develop/src/main/java/pe/edu/vallegrande/project/service/impl/ProductServiceImpl.java:138-148 | Among active products, available plus out of stock equals the number of active products; with non-negative initial stocks, out of stock is at most low stock |
| ProductServiceImpl.SummaryValueNonNegative | AS241S3_T19-be-develop/src/main/java/pe/edu/vallegrande/project/service/impl/ProductServiceImpl.java:150-153 | The stock value of the active products is not negative when no price or stock is |
| ProductServiceImpl.Search | AS241S3_T19-be-develop/src/main/java/pe/edu/vallegrande/project/service/impl/ProductServiceImpl.java:72-82 | `searchProducts`: a product is listed exactly when it is in the table, has the requested status, and its name, code or category contains the term ignoring case; the result keeps table order |
| ProductServiceImpl.SearchEmptyTermIsStatusFilter | AS241S3_T19-be-develop/src/main/java/pe/edu/vallegrande/project/service/impl/ProductServiceImpl.java:72-82 | An empty term returns every product of the status, in table order |
| ProductServiceImpl.SearchIgnoresTermCase | AS241S3_T19-be-develop/src/main/java/pe/edu/vallegrande/project/service/impl/ProductServiceImpl.java:76-78 | The search does not depend on the case of the term |
| ProductServiceImpl.TopByStock | AS241S3_T19-be-develop/src/main/java/pe/edu/vallegrande/project/service/impl/ProductServiceImpl.java:167-173 | `getTopProductsByStock` fails for a negative limit (`Stream.limit` throws); otherwise it returns min(limit, active count) items in non-increasing stock order |
| ProductServiceImpl.TopByStockDominates | AS241S3_T19-be-develop/src/main/java/pe/edu/vallegrande/project/service/impl/ProductServiceImpl.java:167-173 | Every active product is ranked, and none left out of the top `limit` has more stock than one that made it |
| ProductServiceImpl.RankedDominates | AS241S3_T19-be-develop/src/main/java/pe/edu/vallegrande/project/service/impl/ProductServiceImpl.java:167-173 | In a list sorted by stock, most first, each of the first `limit` entries has at least the stock of every entry that is not among them |
| ProductServiceImpl.ProductService.constructor | AS241S3_T19-be-develop/src/main/java/pe/edu/vallegrande/project/service/impl/ProductServiceImpl.java:86-98 | The product table starts empty |
| ProductServiceImpl.ProductService.ListingStored | AS241S3_T19-be-develop/src/main/java/pe/edu/vallegrande/project/service/impl/ProductServiceImpl.java:246-279 | Every listed product has price, stock and initial stock, derived flags that agree with them, and id equal to its position |
| ProductServiceImpl.ProductService.GetSummary | AS241S3_T19-be-develop/src/main/java/pe/edu/vallegrande/project/service/impl/ProductServiceImpl.java:134-164 | Over the stored table, available plus out-of-stock active products equals the active count |
| ProductServiceImpl.ProductService.SearchProducts | AS241S3_T19-be-develop/src/main/java/pe/edu/vallegrande/project/service/impl/ProductServiceImpl.java:72-82 | Over the stored table: exactly the products of the status whose name, code or category contains the term ignoring case, in id order, each with an id of the table |
| ProductServiceImpl.ProductService.GetTopProductsByStock | AS241S3_T19-be-develop/src/main/java/pe/edu/vallegrande/project/service/impl/ProductServiceImpl.java:167-173 | A negative limit fails; otherwise the smaller of the limit and the number of active products are returned, most stock first |
| ProductServiceImpl.ProductService.GenerateNextProductCode | AS241S3_T19-be-develop/src/main/java/pe/edu/vallegrande/project/service/impl/ProductServiceImpl.java:188-192 | "P", then digits whose value is the row count plus one, which is the id the new row receives |
| ProductServiceImpl.ProductService.Save | AS241S3_T19-be-develop/src/main/java/pe/edu/vallegrande/project/service/impl/ProductServiceImpl.java:84-98 | One row is appended: status "A", stock and initial stock both the request's initial stock, price and names from the request, the code generated only when the request has none; every other stock is unchanged |
| ProductServiceImpl.ProductService.NewProduct | AS241S3_T19-be-develop/src/main/java/pe/edu/vallegrande/project/service/impl/ProductServiceImpl.java:281-292 | The entity built from the request, with status forced to "A" and the stock set to the initial stock |
| ProductServiceImpl.ProductService.Update | AS241S3_T19-be-develop/src/main/java/pe/edu/vallegrande/project/service/impl/ProductServiceImpl.java:100-111 | Unknown id: None and no change. Otherwise the code, names, category, description, price, image and status follow the request; no stock and no initial stock changes, and no other row changes |
| ProductServiceImpl.ProductService.Delete | AS241S3_T19-be-develop/src/main/java/pe/edu/vallegrande/project/service/impl/ProductServiceImpl.java:113-121 | An existing product's status becomes "I"; no other column and no other product changes, and an unknown id changes nothing |
| ProductServiceImpl.ProductService.Restore | AS241S3_T19-be-develop/src/main/java/pe/edu/vallegrande/project/service/impl/ProductServiceImpl.java:123-131 | An existing product's status becomes "A"; no other column and no other product changes, and an unknown id changes nothing |
| ProductServiceImpl.ProductService.UpdateStock | AS241S3_T19-be-develop/src/main/java/pe/edu/vallegrande/project/service/impl/ProductServiceImpl.java:194-205 | Unknown id: None and no change. Otherwise the stock is set to the new value verbatim, even a negative one; no other column (initial stock, status) and no other product changes |
| ProductServiceImpl.ProductService.AddStock | AS241S3_T19-be-develop/src/main/java/pe/edu/vallegrande/project/service/impl/ProductServiceImpl.java:207-218 | The stocks move as `Ledger.Added`; only the stock column is written, so initial stock and status stay; an unknown id gives None and changes nothing |
| ProductServiceImpl.ProductService.ReduceStock | AS241S3_T19-be-develop/src/main/java/pe/edu/vallegrande/project/service/impl/ProductServiceImpl.java:220-232 | The stocks move as `Ledger.Reduced`, so the product ends with stock ≥ 0; only the stock column is written; an unknown id gives None and changes nothing |
| SaleServiceImpl.RequestLines | AS241S3_T19-be-develop/src/main/java/pe/edu/vallegrande/project/service/impl/SaleServiceImpl.java:118-133 | Each request line names one product and quantity for the stock, in request order |
| SaleServiceImpl.BuiltFromAmount | AS241S3_T19-be-develop/src/main/java/pe/edu/vallegrande/project/service/impl/SaleServiceImpl.java:135-136 | Details built from the request lines total the sum of unit price times quantity, and name the same product quantities |
| SaleServiceImpl.BuiltFromSnoc | AS241S3_T19-be-develop/src/main/java/pe/edu/vallegrande/project/service/impl/SaleServiceImpl.java:118-129 | One more priced detail built from one more line keeps the details in step with the lines |
| SaleServiceImpl.SaleService.constructor | AS241S3_T19-be-develop/src/main/java/pe/edu/vallegrande/project/service/impl/SaleServiceImpl.java:104-140 | The service starts with no sales |
| SaleServiceImpl.SaleService.SaleCodes | AS241S3_T19-be-develop/src/main/java/pe/edu/vallegrande/project/repository/SaleRepository.java:23-24 | The sale codes are listed in id order |
| SaleServiceImpl.SaleService.GenerateNextSaleCode | AS241S3_T19-be-develop/src/main/java/pe/edu/vallegrande/project/service/impl/SaleServiceImpl.java:233-245 | Corrected latest-code query (see Findings): "V001" when no sale exists; otherwise a code that starts with "V" and has at least three more characters |
| SaleServiceImpl.SaleService.GenerateNextSaleCodeAsWritten | AS241S3_T19-be-develop/src/main/java/pe/edu/vallegrande/project/service/impl/SaleServiceImpl.java:233-245 | As written: fails (non-unique result) exactly when two or more sales exist; with fewer it gives the corrected generator's code |
| SaleServiceImpl.SaleService.NextSaleCodeFollowsLatest | AS241S3_T19-be-develop/src/main/java/pe/edu/vallegrande/project/service/impl/SaleServiceImpl.java:236-241 | With the corrected latest-code query: after a sale numbered n, the next sale code is "V" and `%03d` of n + 1 |
| SaleServiceImpl.SaleService.SaveCheck | AS241S3_T19-be-develop/src/main/java/pe/edu/vallegrande/project/service/impl/SaleServiceImpl.java:107-123 | With the corrected latest-code query (see Findings): the lookups of `save` in source order: unknown customer, then unknown employee ("Cliente/Empleado no encontrado"), then an unreadable latest code (only when the request has no code), then an unknown product ("Producto no encontrado"); on success the request's code, or the generated one when it is empty |
| SaleServiceImpl.SaleService.Save | AS241S3_T19-be-develop/src/main/java/pe/edu/vallegrande/project/service/impl/SaleServiceImpl.java:104-140 | With the corrected latest-code query (see Findings): a failed lookup leaves every sale and stock unchanged (rollback). Otherwise one sale is appended with the request's fields, the date defaulting to today, one priced detail per line, a total equal to the sum of price times quantity, and stocks reduced line by line as `Ledger.ReduceLines` |
| SaleServiceImpl.SaleService.BuildSale | AS241S3_T19-be-develop/src/main/java/pe/edu/vallegrande/project/service/impl/SaleServiceImpl.java:107-136 | The new sale carries the request's fields and one priced detail per line; stocks are reduced line by line |
| SaleServiceImpl.SaleService.NewSale | AS241S3_T19-be-develop/src/main/java/pe/edu/vallegrande/project/service/impl/SaleServiceImpl.java:320-326 | `convertToEntity`: code, payment method and status from the request, date from the request or today, no details |
| SaleServiceImpl.SaleService.AppendLines | AS241S3_T19-be-develop/src/main/java/pe/edu/vallegrande/project/service/impl/SaleServiceImpl.java:117-136 | The loop and the final `calculateTotal`: details built from the lines, total equal to their amount, stocks reduced line by line, the sale's other fields untouched |
| SaleServiceImpl.SaleService.AppendLoop | AS241S3_T19-be-develop/src/main/java/pe/edu/vallegrande/project/service/impl/SaleServiceImpl.java:118-133 | After the loop, the details are built from every line and the stocks are reduced by every line |
| SaleServiceImpl.SaleService.AppendNext | AS241S3_T19-be-develop/src/main/java/pe/edu/vallegrande/project/service/impl/SaleServiceImpl.java:119-132 | One iteration extends the built details and the stock reductions by line i |
| SaleServiceImpl.SaleService.AppendLine | AS241S3_T19-be-develop/src/main/java/pe/edu/vallegrande/project/service/impl/SaleServiceImpl.java:119-132 | One line: a new priced detail is appended to the sale, and only that product's stock is reduced as `reduceStock` does |
| SaleServiceImpl.SaleService.AddPricedDetail | AS241S3_T19-be-develop/src/main/java/pe/edu/vallegrande/project/service/impl/SaleServiceImpl.java:119-129 | A new detail with the line's product, quantity and price, its subtotal computed, appended to the sale |
| SaleServiceImpl.SaleService.PutBack | AS241S3_T19-be-develop/src/main/java/pe/edu/vallegrande/project/service/impl/SaleServiceImpl.java:150-152 | Each detail's quantity is added back to its product's stock, in order (`Ledger.AddLines`) |
| SaleServiceImpl.SaleService.TakeOut | AS241S3_T19-be-develop/src/main/java/pe/edu/vallegrande/project/service/impl/SaleServiceImpl.java:206-208 | Each detail's quantity is taken out of its product's stock again, in order (`Ledger.ReduceLines`) |
| SaleServiceImpl.SaleService.Delete | AS241S3_T19-be-develop/src/main/java/pe/edu/vallegrande/project/service/impl/SaleServiceImpl.java:186-198 | An existing sale's quantities are added back to stock and its status becomes "Cancelado", whatever it was; only sale statuses and product stocks are written, and an unknown id changes nothing |
| SaleServiceImpl.SaleService.Restore | AS241S3_T19-be-develop/src/main/java/pe/edu/vallegrande/project/service/impl/SaleServiceImpl.java:200-212 | An existing sale's quantities are taken out of stock again and its status becomes "Completado"; only sale statuses and product stocks are written, and an unknown id changes nothing |
| SaleServiceImpl.SaleService.UpdateCheck | AS241S3_T19-be-develop/src/main/java/pe/edu/vallegrande/project/service/impl/SaleServiceImpl.java:158-166 | The lookups of `update` in source order: customer, employee, then every line's product |
| SaleServiceImpl.SaleService.Update | AS241S3_T19-be-develop/src/main/java/pe/edu/vallegrande/project/service/impl/SaleServiceImpl.java:142-184 | Unknown id: null and no change. A failed lookup: no change (rollback). Otherwise old quantities go back, the fields follow the request (date kept when the request has none), the details are rebuilt from the new lines, the total is their amount, and stocks end as `ReduceLines(AddLines(old, old lines), new lines)` |
| SaleServiceImpl.SaleService.Rewrite | AS241S3_T19-be-develop/src/main/java/pe/edu/vallegrande/project/service/impl/SaleServiceImpl.java:149-180 | The writes of `update`: put back, copy the fields, rebuild the details and reduce the stock by the new lines |
| SaleServiceImpl.SaleService.CopyFields | AS241S3_T19-be-develop/src/main/java/pe/edu/vallegrande/project/service/impl/SaleServiceImpl.java:343-348 | `updateSaleFromRequest`: code, status and payment method from the request; date from the request or kept; details cleared |
| StoreItemServiceImpl.StoreItemService.constructor | AS241S3_T19-be-develop/src/main/java/pe/edu/vallegrande/project/service/impl/StoreItemServiceImpl.java:109-121 | The store-item table starts empty |
| StoreItemServiceImpl.StoreItemService.SupplierFor | AS241S3_T19-be-develop/src/main/java/pe/edu/vallegrande/project/service/impl/StoreItemServiceImpl.java:268-271 | A supplier id resolves exactly when the supplier exists; otherwise the item gets no supplier (`orElse(null)`) |
| StoreItemServiceImpl.StoreItemService.GenerateNextItemCode | AS241S3_T19-be-develop/src/main/java/pe/edu/vallegrande/project/service/impl/StoreItemServiceImpl.java:221-226 | "A", then digits whose value is the row count plus one |
| StoreItemServiceImpl.StoreItemService.Save | AS241S3_T19-be-develop/src/main/java/pe/edu/vallegrande/project/service/impl/StoreItemServiceImpl.java:109-121 | One row is appended with the request's columns and the supplier if it resolves; the code is generated only when the request has none; the persist hook replaces the requested status by the derived one; other stocks are unchanged |
| StoreItemServiceImpl.StoreItemService.NewItem | AS241S3_T19-be-develop/src/main/java/pe/edu/vallegrande/project/service/impl/StoreItemServiceImpl.java:254-274 | `convertToEntity` followed by the persist hook: the request's columns, and the derived status |
| StoreItemServiceImpl.StoreItemService.CopyRequest | AS241S3_T19-be-develop/src/main/java/pe/edu/vallegrande/project/service/impl/StoreItemServiceImpl.java:276-287 | `updateItemFromRequest` copies code, names, stocks, unit, price, expiry, location and status verbatim and keeps the supplier |
| StoreItemServiceImpl.StoreItemService.Update | AS241S3_T19-be-develop/src/main/java/pe/edu/vallegrande/project/service/impl/StoreItemServiceImpl.java:123-134 | Corrected (see Findings): unknown id gives None and no change. Otherwise every column follows the request, the supplier changes only when one is named, the stored status is the one the new columns call for (never "Inactivo"), other rows stay, and the answer, converted after the flush, shows exactly the stored status |
| StoreItemServiceImpl.StoreItemService.UpdateAsWritten | AS241S3_T19-be-develop/src/main/java/pe/edu/vallegrande/project/service/impl/StoreItemServiceImpl.java:123-134 | As written: the same stored row as Update, but the answer is converted before the update hook runs at the flush, so it carries the requested status instead of the stored one |
| StoreItemServiceImpl.RequestedStatusCanDisagree | AS241S3_T19-be-develop/src/main/java/pe/edu/vallegrande/project/dto/StoreItemRequest.java:46-48 | A request the status pattern admits, with stock 10, minimum 2, no expiry and status "Agotado", has columns that call for "Disponible"; "Inactivo" is never admitted |
| StoreItemServiceImpl.EveryRequestedStatusCanBeOverridden | AS241S3_T19-be-develop/src/main/java/pe/edu/vallegrande/project/dto/StoreItemRequest.java:46-48 | For every status the pattern admits, some stock and minimum call for a different one, so the requested status never decides what is stored |
| StoreItemServiceImpl.StoreItemService.Edit | AS241S3_T19-be-develop/src/main/java/pe/edu/vallegrande/project/service/impl/StoreItemServiceImpl.java:276-293 | `updateItemFromRequest`: every column is the request's, and the supplier is the resolved one when the request names one, else kept |
| StoreItemServiceImpl.StoreItemService.Delete | AS241S3_T19-be-develop/src/main/java/pe/edu/vallegrande/project/service/impl/StoreItemServiceImpl.java:136-144 | Corrected: an existing item's status becomes "Inactivo" and stays so when saved; only the status is written |
| StoreItemServiceImpl.StoreItemService.DeleteAsWritten | AS241S3_T19-be-develop/src/main/java/pe/edu/vallegrande/project/service/impl/StoreItemServiceImpl.java:136-144 | As written: only the status is written, and the update hook re-derives it from the unchanged stock, minimum and expiry, so a deleted item never ends "Inactivo" |
| StoreItemServiceImpl.StoreItemService.Restore | AS241S3_T19-be-develop/src/main/java/pe/edu/vallegrande/project/service/impl/StoreItemServiceImpl.java:146-154 | The status is derived from the unchanged stock, minimum and expiry, not forced to "Disponible"; only the status is written |
| StoreItemServiceImpl.StoreItemService.UpdateStock | AS241S3_T19-be-develop/src/main/java/pe/edu/vallegrande/project/service/impl/StoreItemServiceImpl.java:156-168 | Unknown id: None and no change. Otherwise the stock is set verbatim and the status matches the derivation; only stock and status are written |
| StoreItemServiceImpl.StoreItemService.AddStock | AS241S3_T19-be-develop/src/main/java/pe/edu/vallegrande/project/service/impl/StoreItemServiceImpl.java:170-182 | The stocks move as `Ledger.Added` and the status matches the derivation; only stock and status are written; an unknown id gives None and changes nothing |
| StoreItemServiceImpl.StoreItemService.ReduceStock | AS241S3_T19-be-develop/src/main/java/pe/edu/vallegrande/project/service/impl/StoreItemServiceImpl.java:184-197 | The stocks move as `Ledger.Reduced`, so the stock ends ≥ 0, and the status matches the derivation; only stock and status are written; an unknown id gives None and changes nothing |
| CustomerServiceImpl.CustomerService.constructor | AS241S3_T19-be-develop/src/main/java/pe/edu/vallegrande/project/service/impl/CustomerServiceImpl.java:104-117 | The customer table starts empty over a given set of known locations |
| CustomerServiceImpl.CustomerService.LocationFor | AS241S3_T19-be-develop/src/main/java/pe/edu/vallegrande/project/service/impl/CustomerServiceImpl.java:266-269 | A location id resolves exactly when the location exists, to that location; otherwise the customer gets none (`orElse(null)`) |
| CustomerServiceImpl.CustomerService.ClientCodes | AS241S3_T19-be-develop/src/main/java/pe/edu/vallegrande/project/service/impl/CustomerServiceImpl.java:182-194 | The stored client codes, one per row, in insertion order |
| CustomerServiceImpl.CustomerService.GenerateNextClientCode | AS241S3_T19-be-develop/src/main/java/pe/edu/vallegrande/project/service/impl/CustomerServiceImpl.java:182-194 | Corrected latest-code query (see Findings): "C001" when no customer exists; every generated code starts with 'C' and has at least three digits; generation can fail only when customers exist |
| CustomerServiceImpl.CustomerService.GenerateNextClientCodeAsWritten | AS241S3_T19-be-develop/src/main/java/pe/edu/vallegrande/project/service/impl/CustomerServiceImpl.java:182-194 | As written: fails (non-unique result) exactly when two or more customers exist; with fewer it gives the corrected generator's code |
| CustomerServiceImpl.CustomerService.NextClientCodeFollowsLatest | AS241S3_T19-be-develop/src/main/java/pe/edu/vallegrande/project/service/impl/CustomerServiceImpl.java:184-190 | With the corrected latest-code query: when the latest code is 'C' followed by the three-digit form of n, the next code is 'C' followed by that of n + 1 |
| CustomerServiceImpl.CustomerService.Save | AS241S3_T19-be-develop/src/main/java/pe/edu/vallegrande/project/service/impl/CustomerServiceImpl.java:104-117 | With the corrected latest-code query (see Findings): fails exactly when the request has no code and generation fails, leaving the table unchanged; otherwise appends one customer with status "A" whatever the request says, registered today, with the request's code or the generated one, the request's fields and the resolved location |
| CustomerServiceImpl.CustomerService.NewCustomer | AS241S3_T19-be-develop/src/main/java/pe/edu/vallegrande/project/service/impl/CustomerServiceImpl.java:233-252 | `convertToEntity`, then status "A", the code and the persist hook: the request's fields, the given code and location, registered today |
| CustomerServiceImpl.CustomerService.CopyRequest | AS241S3_T19-be-develop/src/main/java/pe/edu/vallegrande/project/service/impl/CustomerServiceImpl.java:254-265 | Every request field, status included, is copied verbatim; location and registration date keep their values |
| CustomerServiceImpl.CustomerService.Update | AS241S3_T19-be-develop/src/main/java/pe/edu/vallegrande/project/service/impl/CustomerServiceImpl.java:119-130 | Answers a customer exactly when the id exists; that customer takes the request's fields and status verbatim, keeps its registration date and changes location only when the request names one; every other customer is unchanged |
| CustomerServiceImpl.CustomerService.Delete | AS241S3_T19-be-develop/src/main/java/pe/edu/vallegrande/project/service/impl/CustomerServiceImpl.java:132-140 | An existing customer's status becomes "I" and no other column or customer changes; an unknown id changes nothing |
| CustomerServiceImpl.CustomerService.Restore | AS241S3_T19-be-develop/src/main/java/pe/edu/vallegrande/project/service/impl/CustomerServiceImpl.java:142-150 | An existing customer's status becomes "A" and no other column or customer changes; an unknown id changes nothing |
| SupplierModel.Target | AS241S3_T19-be-develop/src/main/java/pe/edu/vallegrande/project/service/impl/SupplierServiceImpl.java:99-124 | Each status command sets exactly one status: delete "I", restore "A", suspend "S" |
| SupplierModel.LastCommandDecides | AS241S3_T19-be-develop/src/main/java/pe/edu/vallegrande/project/service/impl/SupplierServiceImpl.java:99-124 | After any non-empty series of status commands, the status is the one the last command sets |
| SupplierModel.StartForgotten | AS241S3_T19-be-develop/src/main/java/pe/edu/vallegrande/project/service/impl/SupplierServiceImpl.java:99-124 | After any non-empty series of commands, the status no longer depends on the status the supplier started from |
| SupplierModel.OneCommandReachesAny | AS241S3_T19-be-develop/src/main/java/pe/edu/vallegrande/project/model/Supplier.java:41-42 | Each of the three statuses, "S" included, is reachable from any status in one command |
| SupplierServiceImpl.SupplierService.constructor | AS241S3_T19-be-develop/src/main/java/pe/edu/vallegrande/project/service/impl/SupplierServiceImpl.java:79-85 | The supplier table starts empty over a given set of known locations |
| SupplierServiceImpl.SupplierService.LocationFor | AS241S3_T19-be-develop/src/main/java/pe/edu/vallegrande/project/service/impl/SupplierServiceImpl.java:176-179 | A location id resolves exactly when the location exists, to that location; otherwise none (`orElse(null)`) |
| SupplierServiceImpl.SupplierService.Save | AS241S3_T19-be-develop/src/main/java/pe/edu/vallegrande/project/service/impl/SupplierServiceImpl.java:79-85 | Appends one supplier with status "A" whatever the request says, the request's fields and the resolved location; earlier rows unchanged |
| SupplierServiceImpl.SupplierService.CopyRequest | AS241S3_T19-be-develop/src/main/java/pe/edu/vallegrande/project/service/impl/SupplierServiceImpl.java:164-174 | Every request field, status included, is copied verbatim; the location keeps its value |
| SupplierServiceImpl.SupplierService.Update | AS241S3_T19-be-develop/src/main/java/pe/edu/vallegrande/project/service/impl/SupplierServiceImpl.java:87-97 | Answers a supplier exactly when the id exists; that supplier takes the request's fields and status verbatim and changes location only when the request names one; every other supplier is unchanged |
| SupplierServiceImpl.SupplierService.Delete | AS241S3_T19-be-develop/src/main/java/pe/edu/vallegrande/project/service/impl/SupplierServiceImpl.java:99-106 | An existing supplier's status becomes what the delete command sets ("I") from any status; no other column or supplier changes |
| SupplierServiceImpl.SupplierService.Restore | AS241S3_T19-be-develop/src/main/java/pe/edu/vallegrande/project/service/impl/SupplierServiceImpl.java:108-115 | An existing supplier's status becomes "A" from any status; no other column or supplier changes |
| SupplierServiceImpl.SupplierService.Suspend | AS241S3_T19-be-develop/src/main/java/pe/edu/vallegrande/project/service/impl/SupplierServiceImpl.java:117-124 | An existing supplier's status becomes "S" from any status; no other column or supplier changes |
| Validators.Name | src/app/shared/validators/custom-validators.ts:8-26 | Passes exactly the empty value and values made only of letters (accented ones and ñ included) and whitespace that do not start or end with whitespace; a letters-only value with padding gets the padding message |
| Validators.TrimChangesPadded | src/app/shared/validators/custom-validators.ts:19 | `value.trim() !== value` holds exactly when the value starts or ends with whitespace |
| Validators.NoMultipleSpaces | src/app/shared/validators/custom-validators.ts:30-41 | Rejects exactly the values holding two whitespace characters in a row |
| Validators.Dni | src/app/shared/validators/custom-validators.ts:46-57 | Passes exactly the empty value and strings of exactly eight digits |
| Validators.Ruc | src/app/shared/validators/custom-validators.ts:62-78 | Passes exactly the empty value and eleven digits starting "10" or "20"; the length message comes exactly when the value is not eleven digits, the prefix message exactly when it is but has the wrong prefix |
| Validators.Phone | src/app/shared/validators/custom-validators.ts:83-94 | Passes exactly the empty value and nine digits starting with 9 |
| Validators.PeruvianPhone | src/app/shared/validators/custom-validators.ts:416-427 | Passes exactly the empty value and nine digits starting with 9, under its own error key |
| Validators.Alphanumeric | src/app/shared/validators/custom-validators.ts:263-274 | Passes exactly the values made only of ASCII letters and digits (the empty one included) |
| Validators.NoOnlySpaces | src/app/shared/validators/custom-validators.ts:351-362 | Rejects exactly the non-empty values made only of whitespace |
| Validators.NoSpecialCharactersStart | src/app/shared/validators/custom-validators.ts:367-378 | Rejects exactly the non-empty values whose first character is not an ASCII letter or digit |
| Validators.BusinessName | src/app/shared/validators/custom-validators.ts:383-395 | Passes exactly the values made only of letters, digits, accented letters, whitespace and . - & , |
| Validators.AlphabeticWithSpaces | src/app/shared/validators/custom-validators.ts:400-411 | Passes exactly the values made only of letters, accented letters and whitespace |
| Validators.ValidAddress | src/app/shared/validators/custom-validators.ts:458-473 | Passes exactly the empty value and values holding at least one ASCII letter and at least one digit |
| Validators.Price | src/app/shared/validators/custom-validators.ts:155-176 | Zero passes as falsy; otherwise passes exactly the values that are positive, have at most two decimals and are at most 999999.99; a negative value gets the "mayor a 0" message |
| Validators.Stock | src/app/shared/validators/custom-validators.ts:181-200 | No value passes; otherwise passes exactly the whole numbers from 0 to 999999; a fraction gets the integer message first and a negative whole number the negative message |
| Validators.PositiveNumber | src/app/shared/validators/custom-validators.ts:279-290 | No value passes; otherwise passes exactly the values above zero (zero is rejected) |
| Validators.NumberRange | src/app/shared/validators/custom-validators.ts:295-306 | No value passes; otherwise passes exactly the values between min and max inclusive |
| Validators.PositiveInteger | src/app/shared/validators/custom-validators.ts:478-495 | No value (or the empty string) passes; otherwise passes exactly the non-negative whole numbers, zero included; a fraction gets the integer message |
| Validators.ImageUrl | src/app/shared/validators/custom-validators.ts:205-232 | Passes exactly the empty value, a data:image URI, and a URL of the pattern that mentions an image extension; the "URL inválida" message comes exactly for a value that is neither a data URI nor of the pattern |
| Validators.SchemeIsAscii | src/app/shared/validators/custom-validators.ts:216 | The optional scheme of the URL pattern is plain ASCII |
| Validators.UrlShapeIsAscii | src/app/shared/validators/custom-validators.ts:216-224 | A value that matches the URL pattern is plain ASCII, so its lower-cased form differs only in ASCII letters |
| Validators.IndexOf | src/app/shared/validators/custom-validators.ts:250 | The first position of a character, or none when it does not occur |
| Validators.DomainAfterAt | src/app/shared/validators/custom-validators.ts:242-250 | In an address of the accepted shape, `split('@')[1]` is everything after the single at sign |
| Validators.OnlyAt | src/app/shared/validators/custom-validators.ts:242 | An address of the accepted shape holds exactly one at sign |
| Validators.Email | src/app/shared/validators/custom-validators.ts:237-258 | Passes exactly the empty value and addresses of the accepted shape whose lower-cased domain is not a throw-away service; the "Email inválido" message comes exactly for a non-empty value of the wrong shape |
| Validators.BusinessEmail | src/app/shared/validators/custom-validators.ts:432-453 | Passes exactly the empty value and addresses of the accepted shape whose lower-cased domain is not a free mail provider; the shape message comes exactly for a non-empty value of the wrong shape |
| Validators.FalsyValuesPass | src/app/shared/validators/custom-validators.ts:11 | The empty string passes every string validator and zero passes `price` and `stock`, while `positiveNumber` rejects zero |
| Validators.PhoneValidatorsAgree | src/app/shared/validators/custom-validators.ts:88 | `phone` and `peruvianPhone` accept the same values |
| Validators.MobileWithoutNineIsDni | src/app/shared/validators/custom-validators.ts:51 | A valid mobile number without its leading 9 is a valid eight-digit DNI |
| Validators.NameIsStricter | src/app/shared/validators/custom-validators.ts:14-21 | A value `name` accepts is accepted by `alphabeticWithSpaces`, `noOnlySpaces` and `businessName` |
| Validators.NameRejectsPadding | src/app/shared/validators/custom-validators.ts:14-21 | " Ana" is rejected by `name` with the padding message but accepted by `alphabeticWithSpaces` |
| Validators.AlphanumericStartsPlain | src/app/shared/validators/custom-validators.ts:263-274 | A value `alphanumeric` accepts never starts with a special character |
| Validators.RucIsNoDni | src/app/shared/validators/custom-validators.ts:67-74 | A non-empty valid RUC is never a valid DNI |
| Validators.EmailByDomain | src/app/shared/validators/custom-validators.ts:249-254 | For an address of the accepted shape, both email validators judge only its lower-cased domain, each against its own list |
| Validators.DomainListsDisjoint | src/app/shared/validators/custom-validators.ts:249 | No free-mail domain is on the throw-away list |
| Validators.FreeDomainIsNoBusinessEmail | src/app/shared/validators/custom-validators.ts:444-449 | A well-formed free-mail address passes `email` and gets "Use un email corporativo" from `businessEmail` |
| Validators.TempDomainIsNoEmail | src/app/shared/validators/custom-validators.ts:249-254 | A well-formed throw-away address gets "No se permiten emails temporales" from `email` and passes `businessEmail` |
| Cart.FindLine | src/app/core/services/cart.service.ts:42 | `findIndex`: the first line of the product, or -1 exactly when no line has it |
| Cart.CartService.constructor | src/app/core/services/cart.service.ts:8-14 | A new cart holds no lines |
| Cart.CartService.Total | src/app/core/services/cart.service.ts:32-34 | An empty cart costs exactly the 5.00 delivery fee; with non-negative line amounts the total is never below the fee |
| Cart.CartService.AddProduct | src/app/core/services/cart.service.ts:40-58 | The unit count grows by exactly the added quantity; an existing line of the product gets the units, and the notes only when they are non-empty, nothing else changing; otherwise one line is appended; at most one line per product is kept |
| Cart.CartService.RemoveProduct | src/app/core/services/cart.service.ts:60-63 | The cart becomes the old lines without the product's, in their order; the unit count drops by exactly that line's quantity; a product not in the cart changes nothing |
| Cart.CartService.RemovedCount | src/app/core/services/cart.service.ts:60-63 | Filtering out a product's only line takes away exactly its quantity from the unit count; without a line the filter keeps everything |
| Cart.CartService.UpdateQuantity | src/app/core/services/cart.service.ts:65-78 | Zero or less removes the product's line; a positive quantity replaces that line's quantity, leaves every other line unchanged and moves the unit count by the difference |
| Cart.CartService.ClearCart | src/app/core/services/cart.service.ts:80-82 | The cart is empty, counts no units and costs only the delivery fee |
| Cache.LiveEntries | src/app/core/services/cache.service.ts:83-90 | The entries still live at a time: a sub-map of the cache holding unchanged entries, each of them live |
| Cache.CacheService.constructor | src/app/core/services/cache.service.ts:14-16 | A new cache holds no entries |
| Cache.CacheService.Set | src/app/core/services/cache.service.ts:18-25 | The key's entry is replaced by the data stamped now and expiring at now + ttl; `get` returns the data up to the expiry and null one millisecond later; no other key's answer changes |
| Cache.CacheService.SetDefault | src/app/core/services/cache.service.ts:16-25 | A call without a ttl uses the default of five minutes: the entry reads back until `now` plus 300000 ms and is gone one millisecond later |
| Cache.CacheService.Get | src/app/core/services/cache.service.ts:27-40 | Answers the data of a live entry and null otherwise; exactly an expired entry of that key is deleted, so no answer at that time changes |
| Cache.CacheService.Has | src/app/core/services/cache.service.ts:42-55 | Answers whether a live entry exists; exactly an expired entry of that key is deleted |
| Cache.CacheService.Delete | src/app/core/services/cache.service.ts:57-59 | The key's entry is gone; every other key answers as before |
| Cache.CacheService.Clear | src/app/core/services/cache.service.ts:61-63 | The cache is empty |
| Cache.CacheService.CleanExpired | src/app/core/services/cache.service.ts:83-90 | After the loop over the keys, exactly the entries live at that time remain, unchanged |
| Cache.HasAgreesWithGet | src/app/core/services/cache.service.ts:27-55 | When no stored data is null, `has` is true exactly when `get` returns data |
| Cache.StoredNullIsPresent | src/app/core/services/cache.service.ts:27-55 | A live entry holding null makes `has` true while `get` answers null |
| Cache.CleaningIsUnobservable | src/app/core/services/cache.service.ts:83-90 | Cleaning at a time changes no answer `get` gives at that time or later |
| Cache.CleaningIsIdempotent | src/app/core/services/cache.service.ts:83-90 | Cleaning twice at the same time removes nothing more |
| Filtering.Split | src/app/core/services/filter.service.ts:123 | `split('.')` yields at least one segment and no segment holds a dot |
| Filtering.WalkAppend | src/app/core/services/filter.service.ts:122-124 | Following two paths one after the other reaches what following their concatenation reaches |
| Filtering.MissingSegmentIsUndefined | src/app/core/services/filter.service.ts:123 | Once a prefix of the path reaches null or undefined, the whole path yields undefined (`?.`) |
| Filtering.UndefinedStays | src/app/core/services/filter.service.ts:123 | Any path from undefined yields undefined |
| Filtering.FilterService.constructor | src/app/core/services/filter.service.ts:28-34 | No filters and an empty search term |
| Filtering.FilterService.SetFilter | src/app/core/services/filter.service.ts:37-43 | The key reads back the new value; every other key reads back its old value; the search term is kept |
| Filtering.FilterService.SetFilters | src/app/core/services/filter.service.ts:49-51 | The filters become exactly the given ones; the search term is kept |
| Filtering.FilterService.SetSearchTerm | src/app/core/services/filter.service.ts:69-71 | The search term becomes the given one; the filters are kept |
| Filtering.FilterService.ClearFilters | src/app/core/services/filter.service.ts:57-60 | No filters remain and the search term is empty |
| Filtering.FilterService.ClearFilter | src/app/core/services/filter.service.ts:62-66 | The key reads back undefined; every other key reads back its old value; the search term is kept |
| Filtering.FilterService.ApplyFilters | src/app/core/services/filter.service.ts:78-119 | The result is exactly the records that pass the search and every active filter, and it keeps input records in their order |
| Filtering.FilterService.Search | src/app/core/services/filter.service.ts:84-92 | With a term and search fields, exactly the records with a truthy field whose lower-cased text contains the lower-cased term; otherwise all records |
| Filtering.FilterService.FilterEach | src/app/core/services/filter.service.ts:95-116 | Running the active filters one key at a time, in any order, keeps exactly the records that pass all of them |
| Filtering.FilterStep | src/app/core/services/filter.service.ts:96-115 | One more key narrows by its match when the filter is active and changes nothing when it is null, undefined or "" |
| Filtering.SearchThenFilters | src/app/core/services/filter.service.ts:78-119 | The search followed by all filters keeps exactly the records that survive both |
| Filtering.AppliedIsSubsequence | src/app/core/services/filter.service.ts:78-119 | The records kept are input records in their input order |
| Filtering.NothingToApply | src/app/core/services/filter.service.ts:84-97 | With no search term and no active filter every record is kept |
| Filtering.KeptSatisfiesFilters | src/app/core/services/filter.service.ts:97-114 | Every kept record matches every active filter: membership for an array filter, strict equality otherwise |
| SalesReceipt.TwoDigitWords | src/app/feature/sales/sales-receipt/sales-receipt.ts:157-166 | The tens, teens and units words of a number below one hundred: empty exactly for zero, letters and spaces only, starting and ending with a letter |
| SalesReceipt.SmallWords | src/app/feature/sales/sales-receipt/sales-receipt.ts:153-166 | The words accumulated for a number from 1 to 999: non-empty, letters and spaces only, starting with a letter |
| SalesReceipt.ThousandsWords | src/app/feature/sales/sales-receipt/sales-receipt.ts:141-151 | "MIL " for one thousand, else the thousands' words and " MIL ", then the remainder's words when it is not zero; always starts with a letter |
| SalesReceipt.ConvertNumberToWords | src/app/feature/sales/sales-receipt/sales-receipt.ts:128-170 | The text always starts with a letter; it ends with the "CON 00/100 SOLES" suffix exactly when the amount is neither 0 nor 100 |
| SalesReceipt.ZeroAndHundred | src/app/feature/sales/sales-receipt/sales-receipt.ts:134-135 | 0 reads "CERO" and 100 reads "CIEN", neither with the suffix |
| SalesReceipt.SmallAmount | src/app/feature/sales/sales-receipt/sales-receipt.ts:152-169 | Below one thousand, other than 0 and 100, the text is the trimmed table words followed by the suffix |
| SalesReceipt.UnitsFromTable | src/app/feature/sales/sales-receipt/sales-receipt.ts:164-169 | One to nine read as the units word and the suffix |
| SalesReceipt.WholeThousands | src/app/feature/sales/sales-receipt/sales-receipt.ts:141-151 | A whole number of thousands, two or more, reads as the words of the thousands, the suffix, then " MIL" and the suffix again |
| SalesReceipt.TeensFromTable | src/app/feature/sales/sales-receipt/sales-receipt.ts:162-163 | Ten to nineteen read as the teens word and the suffix |
| SalesReceipt.TensAndUnit | src/app/feature/sales/sales-receipt/sales-receipt.ts:157-161 | Twenty to ninety-nine with a unit read "<tens> Y <unit>" and the suffix |
| SalesReceipt.HundredsFromTable | src/app/feature/sales/sales-receipt/sales-receipt.ts:153-156 | Above one hundred the hundreds word comes first, then the words of the rest when it is not zero |
| SalesReceipt.HundredAndOne | src/app/feature/sales/sales-receipt/sales-receipt.ts:128-170 | 101 reads "CIENTO UNO CON 00/100 SOLES" |
| SalesReceipt.ThousandsAmount | src/app/feature/sales/sales-receipt/sales-receipt.ts:141-151 | From one thousand on, the text is the trimmed thousands words followed by the suffix |
| SalesReceipt.ThousandsRepeatTheFraction | src/app/feature/sales/sales-receipt/sales-receipt.ts:141-151 | From one thousand on, whenever the thousands or the remainder are spelled by a recursive call that adds its suffix, a fraction bar appears among the words before the final suffix |
| SalesReceipt.TwoThousandRepeatsTheFraction | src/app/feature/sales/sales-receipt/sales-receipt.ts:141-151 | 2000 reads exactly "DOS CON 00/100 SOLES MIL CON 00/100 SOLES": the fraction appears twice |
| SalesReceipt.AmountWords | src/app/feature/sales/sales-receipt/sales-receipt.ts:128-167 | The words of an amount, without any fraction or currency: letters and spaces only, starting with a letter |
| SalesReceipt.ConvertNumberToWordsCorrected | src/app/feature/sales/sales-receipt/sales-receipt.ts:128-170 | The suffix is added exactly once, after all the words, for every amount other than 0 and 100; the words in front of it are letters and spaces only |
| SalesReceipt.CorrectedAgreesBelowThousand | src/app/feature/sales/sales-receipt/sales-receipt.ts:152-170 | Below one thousand the corrected and the written forms give the same text |
| SalesReceipt.SubtotalNonNegative | src/app/feature/sales/sales-receipt/sales-receipt.ts:114-117 | Without a sale or its details the subtotal is 0; with no negative quantity or price it is never negative |
| SalesReceipt.SubtotalOfConcatenation | src/app/feature/sales/sales-receipt/sales-receipt.ts:116 | The subtotal of two runs of lines is the sum of their subtotals |
| SalesReceipt.Views | src/app/feature/sales/sales-receipt/sales-receipt.ts:114-117 | The receipt's line for each sale detail carries its quantity and unit price |
| SalesReceipt.ViewsAddUp | src/app/feature/sales/sales-receipt/sales-receipt.ts:116 | Summing quantity times price over the receipt lines gives the sale's stored amount of its details |
| SalesReceipt.ReceiptMatchesSaleTotal | src/app/feature/sales/sales-receipt/sales-receipt.ts:114-117 | Once every line is priced, the receipt's subtotal equals the total the sale stores |
| Orders.MapBackendStatus | src/app/feature/customer-portal/customer-orders/customer-orders.ts:128-138 | A label that is none of the six back-end labels maps to pending; any other result is the status whose label was given |
| Orders.StatusRoundTrip | src/app/feature/customer-portal/customer-orders/customer-orders.ts:128-138 | Every status comes back from its own back-end label |
| Orders.TabsSplitStatuses | src/app/feature/customer-portal/customer-orders/customer-orders.ts:140-148 | Each status is on exactly one of the two tabs; a cancellable status is on the active tab; cancelled is on the completed tab and not cancellable |
| Orders.Order.constructor | src/app/feature/customer-portal/customer-orders/customer-orders.ts:107-126 | A mapped order takes the code, status and total of the back-end order, with subtotal equal to the total, a 5.00 delivery fee and no discount |
| Orders.OrdersIn | src/app/feature/customer-portal/customer-orders/customer-orders.ts:141-147 | `filter` on the status: no longer than the list, and every order kept has a status of the set |
| Orders.OrdersInMembership | src/app/feature/customer-portal/customer-orders/customer-orders.ts:141-147 | An order is kept exactly when it is in the list and its status is in the set |
| Orders.OrdersInSubsequence | src/app/feature/customer-portal/customer-orders/customer-orders.ts:141-147 | The orders kept are in list order |
| Orders.OrdersInSplit | src/app/feature/customer-portal/customer-orders/customer-orders.ts:140-148 | Two complementary, disjoint status sets deal out every order of the list exactly once |
| Orders.CustomerOrders.constructor | src/app/feature/customer-portal/customer-orders/customer-orders.ts:140-148 | The page starts with no orders on any tab |
| Orders.CustomerOrders.MapOrdersFromBackend | src/app/feature/customer-portal/customer-orders/customer-orders.ts:107-126 | One new, distinct order per back-end order, in the same order, each mapped from its back-end order |
| Orders.CustomerOrders.FilterOrders | src/app/feature/customer-portal/customer-orders/customer-orders.ts:140-148 | The active tab holds exactly the listed orders with an active status and the completed tab exactly those with a completed one; each order is on one tab, in list order |
| Orders.CustomerOrders.TabsOf | src/app/feature/customer-portal/customer-orders/customer-orders.ts:140-148 | The two filters of a list give a partition of it: membership by status, multiset union equal to the list, each in list order |
| Orders.CustomerOrders.OnOrdersLoaded | src/app/feature/customer-portal/customer-orders/customer-orders.ts:84-90 | The back-end orders replace the list, one mapped order each, and the tabs partition the new list |
| Orders.CustomerOrders.CanCancelOrder | src/app/feature/customer-portal/customer-orders/customer-orders.ts:194-196 | True exactly for pending and confirmed orders, which are on the active tab |
| Orders.CustomerOrders.CancelOrder | src/app/feature/customer-portal/customer-orders/customer-orders.ts:184-192 | The order becomes cancelled whatever its status and moves to the completed tab; only its status is written, and no other order's status changes |
| Orders.FindIndex | src/app/feature/customer-portal/order-detail/order-detail.ts:199-201 | `findIndex`: the first position holding the status, or -1 exactly when it is absent |
| Orders.GetStepIndex | src/app/feature/customer-portal/order-detail/order-detail.ts:45-50 | The tracking step showing the status, or -1 exactly when no step shows it |
| Orders.StepIndexAt | src/app/feature/customer-portal/order-detail/order-detail.ts:45-50 | Each of the four tracking steps is found at its own position |
| Orders.StepIndices | src/app/feature/customer-portal/order-detail/order-detail.ts:199-201 | Confirmed 0, preparing 1, on the way 2, delivered 3; pending and cancelled -1 |
| Orders.OrderDetail.constructor | src/app/feature/customer-portal/order-detail/order-detail.ts:40 | The detail page holds the given order, or none |
| Orders.OrderDetail.GetCurrentStepIndex | src/app/feature/customer-portal/order-detail/order-detail.ts:203-206 | 0 without an order; otherwise non-negative exactly when the order's status is a tracking step, and then the position of that step |
| Orders.OrderDetail.CancelOrder | src/app/feature/customer-portal/order-detail/order-detail.ts:222-234 | The order becomes cancelled exactly when it may be cancelled and the dialog is confirmed; otherwise its status is unchanged; no other field is written |
| Orders.CompletedSteps | src/app/feature/customer-portal/order-detail/order-detail.ts:208-210 | Step i is completed exactly when the order's status sits at position i or later of the tracking steps |
| Orders.CancelledOrderIsClosed | src/app/feature/customer-portal/order-detail/order-detail.ts:203-220 | A cancelled order is on step -1, completes no step, and may be neither cancelled nor reordered |
| Orders.ReorderAfterDelivery | src/app/feature/customer-portal/order-detail/order-detail.ts:208-220 | An order that may be reordered has completed every step and may not be cancelled |
| ProductsList.ClassAgreesWithText | src/app/feature/products/products-list/products-list.ts:218-228 | `getStatusClass` and `getStatusText` name the same status for every stock: 0, 1 to 10, above 10 |
| ProductsList.StatusOptionsMatchText | src/app/feature/products/products-list/products-list.ts:188-194 | With a non-negative stock, each status option of the filter selects exactly the products whose text is the matching status |
| ProductsList.FilteredKeepsExactly | src/app/feature/products/products-list/products-list.ts:179-197 | A product is kept exactly when it is listed and passes the search (name or code, ignoring case), the category and the status option |
| ProductsList.NoFilterKeepsAll | src/app/feature/products/products-list/products-list.ts:181-194 | No term, no category and no known status option keep the whole list |
| ProductsList.StatsAddUp | src/app/feature/products/products-list/products-list.ts:158-161 | With non-negative stocks, the available, low-stock and out-of-stock counts add up to the number of products |
| ProductsList.StatsBalance | src/app/feature/products/products-list/products-list.ts:157-166 | With non-negative stocks, the summary's three status counts add up to its total |
| ProductsList.ProductWithinStockValue | src/app/feature/products/products-list/products-list.ts:230-232 | With non-negative prices and stocks, no product's price times stock exceeds the value of the whole stock |
| ProductsList.TopOfRanked | src/app/feature/products/products-list/products-list.ts:168-177 | In a list sorted by stock, largest first, the top list has min(4, n) entries numbered 1.., each the name and stock of the product at that place, none with less stock than a product left out |
| ProductsList.TopOfSorted | src/app/feature/products/products-list/products-list.ts:169-171 | Sorting by stock keeps exactly the products, orders them largest first, and its first four are ranked |
| ProductsList.ProductsPage.constructor | src/app/feature/products/products-list/products-list.ts:45-62 | An empty page with no search, category or status and the "nombre" sort |
| ProductsList.ProductsPage.CalculateStats | src/app/feature/products/products-list/products-list.ts:157-166 | The summary is the list's size, its count in each stock status and the value of the whole stock |
| ProductsList.ProductsPage.CalculateTopProducts | src/app/feature/products/products-list/products-list.ts:168-177 | The list itself is sorted by stock, largest first (the sort is in place), and the top list ranks its first four |
| ProductsList.ProductsPage.ApplyFilters | src/app/feature/products/products-list/products-list.ts:179-201 | The shown list holds exactly the products the three filters keep; sorted largest stock first for "stock", cheapest first for "precio", in list order for any other choice but "nombre" |
| ProductsList.ProductsPage.ApplySorting | src/app/feature/products/products-list/products-list.ts:203-216 | The sort keeps the products; "stock" orders largest stock first, "precio" cheapest first, an unknown choice keeps the order |
| ProductsList.ProductsPage.OnProductsLoaded | src/app/feature/products/products-list/products-list.ts:72-80 | The list and the shown list are the loaded products sorted by stock (one shared array); the top list ranks its first four; the summary is that of the loaded products |
| CustomerList.ShownIsSubsequence | src/app/feature/customer/customer-list/customer-list.ts:149-182 | The shown customers are loaded customers in their loaded order |
| CustomerList.ShownKeepsExactly | src/app/feature/customer/customer-list/customer-list.ts:149-182 | A customer is shown exactly when it is loaded, a non-blank search hits one of its five lower-cased fields, and it has the selected value of every non-empty selector |
| CustomerList.NoFilterShowsAll | src/app/feature/customer/customer-list/customer-list.ts:153-179 | A blank search and four empty selectors show the whole list |
| CustomerList.UntrimmedSpaceMisses | src/app/feature/customer/customer-list/customer-list.ts:153-161 | The term is lower-cased but not trimmed: a non-blank term holding a space finds no customer whose five fields hold no space |
| CustomerList.StatusLabel | src/app/feature/customer/customer-list/customer-list.ts:375-377 | "Activo" exactly for status "A", "Inactivo" for every other |
| CustomerList.StatusClass | src/app/feature/customer/customer-list/customer-list.ts:371-373 | "status-active" exactly for status "A", "status-inactive" for every other |
| CustomerList.LabelAgreesWithClass | src/app/feature/customer/customer-list/customer-list.ts:371-377 | The badge's class and label always name the same status |
| CustomerList.CustomerListPage.constructor | src/app/feature/customer/customer-list/customer-list.ts:35-55 | An empty page, a blank search and the status selector on "A" |
| CustomerList.CustomerListPage.ApplyFilters | src/app/feature/customer/customer-list/customer-list.ts:149-182 | After the search and the four selectors, applied one after another, the shown list is exactly the loaded customers each step keeps, in order |
| EmployeesList.ShownIsSubsequence | src/app/feature/employees/employees-list/employees-list.ts:113-128 | The shown employees are loaded employees in their loaded order; a blank box shows them all |
| EmployeesList.ShownKeepsExactly | src/app/feature/employees/employees-list/employees-list.ts:113-128 | An employee is shown exactly when listed and, for a non-blank box, hit by the lower-cased, trimmed term in one of its six fields |
| EmployeesList.SearchIgnoresTermCase | src/app/feature/employees/employees-list/employees-list.ts:117 | Typing the search in capitals shows the same employees |
| EmployeesList.DocumentNumberIsCaseSensitive | src/app/feature/employees/employees-list/employees-list.ts:123 | The document number is matched without lower-casing: a term with a lower-case letter never finds a document number without one |
| EmployeesList.Initial | src/app/feature/employees/employees-list/employees-list.ts:271-272 | `charAt(0).toUpperCase()`: empty for an empty string, else the upper-cased first character |
| EmployeesList.EmployeeInitials | src/app/feature/employees/employees-list/employees-list.ts:270-274 | The upper-cased first character of the name, then that of the surname; no lower-case letter |
| EmployeesList.InitialsIgnoreCase | src/app/feature/employees/employees-list/employees-list.ts:270-274 | The initials do not depend on how the names are capitalised |
| EmployeesList.EmployeesListPage.constructor | src/app/feature/employees/employees-list/employees-list.ts:19-25 | An empty list and a blank search |
| EmployeesList.EmployeesListPage.ApplyFilters | src/app/feature/employees/employees-list/employees-list.ts:106-129 | Nothing without a list; else the listed employees the search keeps, all of them for a blank box |
| NotificationBell.Notification.constructor | src/app/shared/components/notification-bell/notification-bell.component.ts:15-24 | A notification with the given id, read flag and type |
| NotificationBell.ReadFlags | src/app/shared/components/notification-bell/notification-bell.component.ts:82 | The read flag of each notification, in list order |
| NotificationBell.NothingUnreadIffAllRead | src/app/shared/components/notification-bell/notification-bell.component.ts:80-111 | The unread count is zero exactly when every notification is read |
| NotificationBell.NotificationBellComponent.constructor | src/app/shared/components/notification-bell/notification-bell.component.ts:44-45 | No notifications and a zero badge |
| NotificationBell.NotificationBellComponent.OnNotificationsLoaded | src/app/shared/components/notification-bell/notification-bell.component.ts:80-83 | The list is replaced by the loaded one and the badge is the number of its unread notifications |
| NotificationBell.NotificationBellComponent.MarkAsRead | src/app/shared/components/notification-bell/notification-bell.component.ts:93-104 | Once the back end accepts, an unread notification becomes read and the badge drops by one, never below zero; a read one, or a refusal, changes nothing; only the read flag and the badge are written; a badge that counted the unread notifications still does |
| NotificationBell.NotificationBellComponent.MarkAllAsRead | src/app/shared/components/notification-bell/notification-bell.component.ts:106-115 | Once the back end accepts, every listed notification is read and the badge is zero, which is the true unread count; only read flags and the badge are written; a refusal changes nothing |
| NotificationBell.GetNotificationIcon | src/app/shared/components/notification-bell/notification-bell.component.ts:117-125 | The generic "notifications" icon exactly for a type other than the four known ones |
| NotificationBell.IconIdentifiesType | src/app/shared/components/notification-bell/notification-bell.component.ts:117-125 | The icon of a known type is shared with no other type |
| NotificationBell.GetNotificationIconClass | src/app/shared/components/notification-bell/notification-bell.component.ts:127-134 | No style exactly for a type other than new order, cancelled order and low stock |
| NotificationBell.ElapsedSeconds | src/app/shared/components/notification-bell/notification-bell.component.ts:139 | The whole seconds elapsed, rounded down like `Math.floor` |
| NotificationBell.ElapsedOf | src/app/shared/components/notification-bell/notification-bell.component.ts:141-144 | Under 60 s a moment, under an hour whole minutes, under a day whole hours, else whole days, each count rounded down and at least one |
| NotificationBell.TimeAgoReadsBack | src/app/shared/components/notification-bell/notification-bell.component.ts:136-145 | The caption is "Hace un momento" under a minute; otherwise the decimal number it shows is the elapsed seconds divided by the unit, rounded down |

## Left out

- ProductsList.ProductsPage.ApplySorting: the order by name uses the locale-aware `localeCompare`, which is not modelled; for "nombre" only the contents of the list are promised, not their order.
- ProductsList.ProductsPage.ApplyFilters: inherits the same gap for the "nombre" order; only the contents are promised there.
- Filtering.FilterService.ApplyFilters: requires that no date-range filter is set, because the date-range branch compares JavaScript `Date` objects, which are not modelled.
- SaleServiceImpl.SaleService.GenerateNextSaleCode: uses the corrected single-row latest-code query described under Findings; as written the query fails once two sales exist, which SaleServiceImpl.SaleService.GenerateNextSaleCodeAsWritten states.
- SaleServiceImpl.SaleService.NextSaleCodeFollowsLatest: is proved for the corrected generator; the generator as written fails from the second sale on.
- SaleServiceImpl.SaleService.SaveCheck: builds on the corrected generator, so a request without a code succeeds where the code as written fails once two sales exist.
- SaleServiceImpl.SaleService.Save: builds on SaveCheck, so with two or more stored sales a request without a code appends a sale where the code as written rolls back.
- CustomerServiceImpl.CustomerService.GenerateNextClientCode: uses the corrected single-row latest-code query described under Findings; as written the query fails once two customers exist, which CustomerServiceImpl.CustomerService.GenerateNextClientCodeAsWritten states.
- CustomerServiceImpl.CustomerService.NextClientCodeFollowsLatest: is proved for the corrected generator; the generator as written fails from the second customer on.
- CustomerServiceImpl.CustomerService.Save: builds on the corrected generator, so with two or more stored customers a request without a code succeeds where the code as written fails.
- StoreItemServiceImpl.StoreItemService.Update: answers with the stored status, converting after the update hook runs (see Findings); StoreItemServiceImpl.StoreItemService.UpdateAsWritten answers as written. Neither requires the request's status pattern, which the REST layer checks; it is modelled as StoreItemServiceImpl.RequestStatuses.
- Validators.NumberRange: only whole-number bounds print as JavaScript prints them in the out-of-range message; a bound with a fraction is shown by a placeholder built from its integer part, not its decimal text.
- Cart.CartService.AddProduct: the default quantity of 1 is not modelled; every call names the quantity.
- SalesReceipt.ConvertNumberToWords: negative amounts are outside its domain (it takes a natural number); the source's handling of them is not modelled.
- Codes.ParseInt: accepts ASCII digits only, where `Integer.parseInt` also accepts the other Unicode decimal digits.
- Validators.Price: the count of decimals is judged on the exact decimal value, not on the JavaScript `toString` text (exponent notation for very small or large numbers is not modelled).
- JasperReports PDF generation for sales, products and customers is library code and is not modelled.
- The JPA repositories are modelled as sequences indexed by id; their JPQL queries (`existsBy...`, low-stock listings) are written out as functions only where a core operation uses them.
- The summaries of customers (the "new this month" count needs the clock) and of suppliers are not modelled.
- The address parts of a store location in the DTO conversion are not modelled; only the location id is.
- Lombok-generated equality and the database's unique and not-null constraints are not modelled; uniqueness is stated as a model invariant where the service code checks it.
- JPA runs `@PreUpdate` only for a dirty entity; the model calls the hook on every save it models.
- Sale requests: a null customer or employee id skips the lookup in the source; the model always carries both ids.
- Sale requests: a null quantity or unit price in a request line is not modelled; every stored sale detail has a quantity.
- Java `int` overflow in stock and quantity arithmetic is not modelled (integers are unbounded there); only the code generators model the width of `int`.
- Case mapping is ASCII-only, where JavaScript and Java `toLowerCase` cover all of Unicode; `charAt` on surrogate pairs is not modelled.
- The cart's load from and save to `localStorage` and its rxjs publishing are not modelled; the cart's items are the state.
- The cache's `cacheObservable` (an rxjs pipe) is not modelled.
- The filter service compares values by value: object and array identity, prototype properties and non-integer numbers are not modelled.
- The receipt's decimal part of an amount, non-integer amounts, `calculateTax` and `calculateTotal` (floating point), `formatCurrency` and `formatDate` are not modelled.
- Customer orders and order detail: `reorderItems`, the status text, colour and icon helpers, and the order and estimated-delivery dates are not modelled; the `confirm()` dialog becomes a `confirmed` parameter, and snackbar messages are left out.
- Products list: the average price (floating point), the mock data loader and the category list are not modelled.
- Customer list: `onSearch` and the server-side search are not modelled.
- Employees list: the summary and the department list are not modelled.
- Notification bell: the authentication check and the 30-second polling are not modelled; the outcome of each HTTP call becomes an `accepted` parameter, and creation times are given in milliseconds instead of parsed from text.
- The date validators (minimum age, hire date, not in the future, not in the past) need the clock and are not modelled.
- HTTP, the REST controllers and the pass-through services for employees, purchases, expenses and the dashboard are not modelled.

## Findings

| source | as written | input that shows it | evidently intended | confidence | as-written member | corrected member |
|---|---|---|---|---|---|---|
| AS241S3_T19-be-develop/src/main/java/pe/edu/vallegrande/project/repository/SaleRepository.java:23-24 | The latest-code query sorts all codes by id but declares a single `Optional<String>` result with no row limit, so it fails once two rows exist (the same holds for `CustomerRepository.java:23-24`) | codes "V001" and "V002" already stored | Only the newest code is read, and the next code is "V003" | not executed | Codes.NextCodeAsWritten | Codes.IssuedCodesContinue |
| AS241S3_T19-be-develop/src/main/java/pe/edu/vallegrande/project/service/impl/StoreItemServiceImpl.java:136-144 | `delete` sets the status to "Inactivo" and saves; the `@PreUpdate` hook in `StoreItem.java:57-60` derives the status from stock and expiry again, so the item never stays inactive | any stored item, deleted on any day | The deactivated item keeps "Inactivo" | not executed | StoreItemServiceImpl.StoreItemService.DeleteAsWritten | StoreItemServiceImpl.StoreItemService.Delete |
| AS241S3_T19-be-develop/src/main/java/pe/edu/vallegrande/project/service/impl/StoreItemServiceImpl.java:123-134 | `update` copies the request, including its status, and converts the entity to the answer inside the transaction; the `@PreUpdate` hook (`StoreItem.java:57-60`) derives the status only at the flush, so the answer shows the requested status while the derived one is stored | an item updated with stock 10, minimum 2, no expiry and the admitted status "Agotado": the answer shows "Agotado", "Disponible" is stored | The answer shows the status that is stored | not executed | StoreItemServiceImpl.StoreItemService.UpdateAsWritten | StoreItemServiceImpl.StoreItemService.Update |
| src/app/feature/sales/sales-receipt/sales-receipt.ts:141-151 | The thousands and the remainder are spelled by recursive calls that each append " CON 00/100 SOLES" | 2000 gives "DOS CON 00/100 SOLES MIL CON 00/100 SOLES" | "DOS MIL CON 00/100 SOLES", the fraction and currency once at the end | not executed | SalesReceipt.TwoThousandRepeatsTheFraction | SalesReceipt.ConvertNumberToWordsCorrected |
