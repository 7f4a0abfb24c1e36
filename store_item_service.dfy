/**
 * The store-item service: registering, editing and deactivating store
 * items and moving their stock. The repository is the sequence of rows,
 * the item with id k at position k - 1. Every write is followed by the
 * entity's persist or update hook, which is where the status is derived.
 */
module StoreItemServiceImpl {
  import opened Wrappers
  import Codes
  import Ledger
  import Text
  import opened StoreItemModel

  /** The validated request body; an empty code stands for a missing one. */
  datatype StoreItemRequest = StoreItemRequest(
    itemCode: string, productName: string, category: string, currentStock: int, minimumStock: int,
    unit: string, unitPrice: int, supplierId: Option<int>, expiryDate: Option<int>, location: string,
    status: string)

  datatype StoreItemDto = StoreItemDto(
    idStoreItem: int, itemCode: string, productName: string, category: string,
    currentStock: Option<int>, minimumStock: Option<int>, unit: string, unitPrice: Option<int>,
    supplierId: Option<int>, expiryDate: Option<int>, location: string, status: string,
    totalStockValue: int, nearExpiry: bool, outOfStock: bool, lowStock: bool)

  function ToDto(id: int, item: StoreItem, today: int): StoreItemDto
    reads item
  {
    StoreItemDto(id, item.itemCode, item.productName, item.category, item.currentStock, item.minimumStock,
                 item.unit, item.unitPrice, item.supplierId, item.expiryDate, item.location, item.status,
                 item.TotalStockValue(), item.IsNearExpiry(today), item.IsOutOfStock(), item.IsLowStock())
  }

  /** The statuses the request's validation pattern admits; "Inactivo" is not among them. */
  const RequestStatuses: set<string> := {Available, SoldOut, NearExpiryLabel, LowStockLabel}

  /**
   * An edit can answer with a status that is not stored: the request below
   * passes validation with "Agotado", yet its columns call for "Disponible".
   */
  lemma RequestedStatusCanDisagree(req: StoreItemRequest, today: int)
    requires req.currentStock == 10 && req.minimumStock == 2 && req.expiryDate.None? && req.status == SoldOut
    ensures req.status in RequestStatuses && Inactive !in RequestStatuses
    ensures Classify(Some(req.currentStock), Some(req.minimumStock), req.expiryDate, today) == Available
    ensures Available != req.status
  {
  }

  /** Whatever admitted status a request names, some columns call for another one. */
  lemma EveryRequestedStatusCanBeOverridden(status: string, today: int)
    requires status in RequestStatuses
    ensures exists stock: int, minimum: int :: Classify(Some(stock), Some(minimum), None, today) != status
  {
    if status == Available {
      assert Classify(Some(0), Some(0), None, today) != status;
    } else {
      assert Classify(Some(10), Some(2), None, today) != status;
    }
  }

  class StoreItemService {
    var rows: seq<StoreItem>
    /** Ids the supplier repository resolves. */
    var suppliers: set<int>

    ghost predicate Valid()
      reads this, rows
    {
      && (forall i, j :: 0 <= i < j < |rows| ==> rows[i] != rows[j])
      && (forall i :: 0 <= i < |rows| ==> rows[i].currentStock.Some?)
    }

    constructor (suppliers: set<int>)
      ensures Valid() && rows == [] && this.suppliers == suppliers
    {
      rows := [];
      this.suppliers := suppliers;
    }

    /** The current stock of every item, by id. */
    function Stocks(): (s: seq<int>)
      reads this, rows
      ensures |s| == |rows|
    {
      seq(|rows|, i reads this, rows requires 0 <= i < |rows| => rows[i].currentStock.GetOr(0))
    }

    /** The supplier a request names, when it resolves (`findById(..).orElse(null)`). */
    function SupplierFor(id: int): (r: Option<int>)
      reads this
      ensures r.Some? <==> id in suppliers
      ensures r.Some? ==> r.value == id
    {
      if id in suppliers then Some(id) else None
    }

    /** The code a new item receives: "A" and the row count plus one. */
    function GenerateNextItemCode(): (code: string)
      reads this
      ensures |code| >= 4 && code[0] == 'A' && Text.AllDigits(code[1..]) && Text.DigitsValue(code[1..]) == |rows| + 1
    {
      Codes.CodeForCount('A', |rows|)
    }

    /**
     * Registers an item. The code is generated only when the request has
     * none; the persist hook replaces the requested status by the derived one.
     */
    method Save(req: StoreItemRequest, today: int) returns (dto: StoreItemDto)
      requires Valid()
      modifies this`rows
      ensures Valid()
      ensures |rows| == |old(rows)| + 1 && rows[..|old(rows)|] == old(rows) && fresh(rows[|old(rows)|])
      ensures Stocks() == old(Stocks()) + [req.currentStock]
      ensures Created(rows[|old(rows)|], req, if req.supplierId.Some? then SupplierFor(req.supplierId.value) else None,
                      Codes.CodeForCount('A', |old(rows)|), today)
      ensures dto == ToDto(|rows|, rows[|old(rows)|], today)
    {
      var supplier := if req.supplierId.Some? then SupplierFor(req.supplierId.value) else None;
      var item := NewItem(req, supplier, Codes.CodeForCount('A', |rows|), today);
      assert item !in rows;
      Insert(item);
      assert rows[|old(rows)|] == item;
      dto := ToDto(|rows|, item, today);
    }

    /** Appends a new row, as the repository stores a new entity. */
    method Insert(item: StoreItem)
      requires Valid() && item !in rows && item.currentStock.Some?
      modifies this`rows
      ensures Valid() && rows == old(rows) + [item]
      ensures Stocks() == old(Stocks()) + [item.currentStock.value]
    {
      rows := rows + [item];
      assert forall i :: 0 <= i < |old(rows)| ==> rows[i] == old(rows)[i];
    }

    /**
     * The entity `save` inserts: `convertToEntity`, the generated code when
     * the request has none, and the persist hook.
     */
    static method NewItem(req: StoreItemRequest, supplier: Option<int>, nextCode: string, today: int) returns (item: StoreItem)
      ensures fresh(item) && Created(item, req, supplier, nextCode, today)
    {
      item := new StoreItem();
      CopyRequest(item, req);
      item.supplierId := supplier;
      if item.itemCode == "" {
        item.itemCode := nextCode;
      }
      item.OnCreate(today);
    }

    /**
     * A new entity as `save` stores it: the request's columns, `nextCode` when
     * the request has no code, and the status the persist hook derives.
     */
    static predicate Created(item: StoreItem, req: StoreItemRequest, supplier: Option<int>, nextCode: string, today: int)
      reads item
    {
      && Edited(item, req.(itemCode := if req.itemCode == "" then nextCode else req.itemCode), supplier)
      && item.status == Classify(Some(req.currentStock), Some(req.minimumStock), req.expiryDate, today)
    }

    /** The columns `convertToEntity` and `updateItemFromRequest` both copy from the request. */
    static method CopyRequest(item: StoreItem, req: StoreItemRequest)
      modifies item
      ensures item.itemCode == req.itemCode && item.productName == req.productName && item.category == req.category
      ensures item.currentStock == Some(req.currentStock) && item.minimumStock == Some(req.minimumStock)
      ensures item.unit == req.unit && item.unitPrice == Some(req.unitPrice) && item.supplierId == old(item.supplierId)
      ensures item.expiryDate == req.expiryDate && item.location == req.location && item.status == req.status
    {
      item.itemCode, item.productName, item.category := req.itemCode, req.productName, req.category;
      item.currentStock, item.minimumStock := Some(req.currentStock), Some(req.minimumStock);
      item.unit, item.unitPrice := req.unit, Some(req.unitPrice);
      item.expiryDate, item.location, item.status := req.expiryDate, req.location, req.status;
    }

    /**
     * Editing as intended: the request is copied onto the item
     * (`updateItemFromRequest`), the update hook derives the status at the
     * flush, and the answer is converted after it, so it shows the status
     * that is stored. A supplier id that does not resolve clears the
     * supplier; a missing one keeps it.
     */
    method Update(id: int, req: StoreItemRequest, today: int) returns (r: Option<StoreItemDto>)
      requires Valid()
      modifies rows
      ensures Valid()
      ensures r.Some? <==> 1 <= id <= |rows|
      ensures !(1 <= id <= |rows|) ==> Stocks() == old(Stocks())
      ensures 1 <= id <= |rows| ==> Stocks() == old(Stocks())[id - 1 := req.currentStock]
      ensures forall i :: 0 <= i < |rows| && i != id - 1 ==> unchanged(rows[i])
      ensures r.Some? ==> var item := rows[id - 1];
        && Edited(item, req, if req.supplierId.Some? then SupplierFor(req.supplierId.value) else old(item.supplierId))
        && item.status == item.DerivedStatus(today) && item.status != Inactive
        && r.value == ToDto(id, item, today) && r.value.status == item.status
    {
      if 1 <= id <= |rows| {
        var item := rows[id - 1];
        Edit(item, req);
        item.OnUpdate(today);
        r := Some(ToDto(id, item, today));
      } else {
        r := None;
      }
    }

    /**
     * Editing as written: the answer is converted before the flush, so it
     * shows the requested status, while the update hook derives the status
     * that is stored from the new columns.
     */
    method UpdateAsWritten(id: int, req: StoreItemRequest, today: int) returns (r: Option<StoreItemDto>)
      requires Valid()
      modifies rows
      ensures Valid()
      ensures r.Some? <==> 1 <= id <= |rows|
      ensures !(1 <= id <= |rows|) ==> Stocks() == old(Stocks())
      ensures 1 <= id <= |rows| ==> Stocks() == old(Stocks())[id - 1 := req.currentStock]
      ensures forall i :: 0 <= i < |rows| && i != id - 1 ==> unchanged(rows[i])
      ensures r.Some? ==> var item := rows[id - 1];
        && Edited(item, req, if req.supplierId.Some? then SupplierFor(req.supplierId.value) else old(item.supplierId))
        && item.status == item.DerivedStatus(today) && item.status != Inactive
        && r.value == ToDto(id, item, today).(status := req.status)
    {
      if 1 <= id <= |rows| {
        var item := rows[id - 1];
        Edit(item, req);
        r := Some(ToDto(id, item, today));
        item.OnUpdate(today);
      } else {
        r := None;
      }
    }

    /** Every column but the status holds what an edit with `req` writes, the supplier being `supplier`. */
    static predicate Edited(item: StoreItem, req: StoreItemRequest, supplier: Option<int>)
      reads item
    {
      && item.itemCode == req.itemCode && item.productName == req.productName && item.category == req.category
      && item.currentStock == Some(req.currentStock) && item.minimumStock == Some(req.minimumStock)
      && item.unit == req.unit && item.unitPrice == Some(req.unitPrice) && item.supplierId == supplier
      && item.expiryDate == req.expiryDate && item.location == req.location
    }

    /** `updateItemFromRequest`: the request's columns, and the supplier when the request names one. */
    method Edit(item: StoreItem, req: StoreItemRequest)
      modifies item
      ensures Edited(item, req, if req.supplierId.Some? then SupplierFor(req.supplierId.value) else old(item.supplierId))
      ensures item.status == req.status
    {
      CopyRequest(item, req);
      if req.supplierId.Some? {
        item.supplierId := SupplierFor(req.supplierId.value);
      }
    }

    /** Deactivation as intended: the item's status becomes "Inactivo" and stays so once persisted. */
    method Delete(id: int, today: int)
      requires Valid()
      modifies rows`status
      ensures Valid() && Stocks() == old(Stocks())
      ensures 1 <= id <= |rows| ==> rows[id - 1].status == Inactive
      ensures forall i :: 0 <= i < |rows| && i != id - 1 ==> unchanged(rows[i])
    {
      if 1 <= id <= |rows| {
        var item := rows[id - 1];
        item.status := Inactive;
        item.OnUpdateKeepingInactive(today);
      }
    }

    /**
     * Deactivation as written: "Inactivo" is assigned, but the update hook
     * that runs when the item is saved derives the status again, so the
     * stored status is never "Inactivo".
     */
    method DeleteAsWritten(id: int, today: int)
      requires Valid()
      modifies rows`status
      ensures Valid() && Stocks() == old(Stocks())
      ensures 1 <= id <= |rows| ==> rows[id - 1].status == rows[id - 1].DerivedStatus(today)
      ensures 1 <= id <= |rows| ==> rows[id - 1].status != Inactive
      ensures forall i :: 0 <= i < |rows| && i != id - 1 ==> unchanged(rows[i])
    {
      if 1 <= id <= |rows| {
        var item := rows[id - 1];
        item.status := Inactive;
        item.OnUpdate(today);
      }
    }

    /** Reactivation: the status is derived from stock, minimum and expiry, not forced to "Disponible". */
    method Restore(id: int, today: int)
      requires Valid()
      modifies rows`status
      ensures Valid() && Stocks() == old(Stocks())
      ensures 1 <= id <= |rows| ==> rows[id - 1].status == rows[id - 1].DerivedStatus(today)
      ensures forall i :: 0 <= i < |rows| && i != id - 1 ==> unchanged(rows[i])
    {
      if 1 <= id <= |rows| {
        var item := rows[id - 1];
        item.UpdateStatus(today);
        item.OnUpdateKeepingInactive(today);
      }
    }

    /** Sets an item's stock and derives its status; an unknown id changes nothing and answers None. */
    method UpdateStock(id: int, newStock: int, today: int) returns (r: Option<StoreItemDto>)
      requires Valid()
      modifies rows`currentStock, rows`status
      ensures Valid()
      ensures r.Some? <==> 1 <= id <= |rows|
      ensures 1 <= id <= |rows| ==> Stocks() == old(Stocks())[id - 1 := newStock]
      ensures !(1 <= id <= |rows|) ==> Stocks() == old(Stocks())
      ensures r.Some? ==> rows[id - 1].status == rows[id - 1].DerivedStatus(today) && r.value == ToDto(id, rows[id - 1], today)
      ensures forall i :: 0 <= i < |rows| && i != id - 1 ==> unchanged(rows[i])
    {
      r := SetStock(id, newStock, today);
    }

    /** `addStock`: the stock grows as `Ledger.Added` says and the status is derived again. */
    method AddStock(id: int, quantity: int, today: int) returns (r: Option<StoreItemDto>)
      requires Valid()
      modifies rows`currentStock, rows`status
      ensures Valid()
      ensures r.Some? <==> 1 <= id <= |rows|
      ensures Stocks() == Ledger.Added(old(Stocks()), id, quantity)
      ensures r.Some? ==> rows[id - 1].status == rows[id - 1].DerivedStatus(today) && r.value == ToDto(id, rows[id - 1], today)
      ensures forall i :: 0 <= i < |rows| && i != id - 1 ==> unchanged(rows[i])
    {
      if 1 <= id <= |rows| {
        r := SetStock(id, rows[id - 1].currentStock.value + quantity, today);
      } else {
        r := None;
      }
    }

    /** `reduceStock`: the stock shrinks as `Ledger.Reduced` says, never below zero, and the status is derived again. */
    method ReduceStock(id: int, quantity: int, today: int) returns (r: Option<StoreItemDto>)
      requires Valid()
      modifies rows`currentStock, rows`status
      ensures Valid()
      ensures r.Some? <==> 1 <= id <= |rows|
      ensures Stocks() == Ledger.Reduced(old(Stocks()), id, quantity)
      ensures r.Some? ==> rows[id - 1].status == rows[id - 1].DerivedStatus(today) && r.value == ToDto(id, rows[id - 1], today)
      ensures r.Some? ==> r.value.currentStock.value >= 0
      ensures forall i :: 0 <= i < |rows| && i != id - 1 ==> unchanged(rows[i])
    {
      if 1 <= id <= |rows| {
        r := SetStock(id, Ledger.Max(0, rows[id - 1].currentStock.value - quantity), today);
      } else {
        r := None;
      }
    }

    /** The shared step: assign the stock, derive the status, save. */
    method SetStock(id: int, newStock: int, today: int) returns (r: Option<StoreItemDto>)
      requires Valid()
      modifies rows`currentStock, rows`status
      ensures Valid()
      ensures r.Some? <==> 1 <= id <= |rows|
      ensures 1 <= id <= |rows| ==> Stocks() == old(Stocks())[id - 1 := newStock]
      ensures 1 <= id <= |rows| ==> rows[id - 1].currentStock == Some(newStock)
      ensures !(1 <= id <= |rows|) ==> Stocks() == old(Stocks())
      ensures r.Some? ==> rows[id - 1].status == rows[id - 1].DerivedStatus(today) && r.value == ToDto(id, rows[id - 1], today)
      ensures forall i :: 0 <= i < |rows| && i != id - 1 ==> unchanged(rows[i])
    {
      if 1 <= id <= |rows| {
        var item := rows[id - 1];
        item.currentStock := Some(newStock);
        item.UpdateStatus(today);
        item.OnUpdateKeepingInactive(today);
        r := Some(ToDto(id, item, today));
      } else {
        r := None;
      }
    }
  }
}
