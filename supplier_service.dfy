/**
 * The supplier service: registration, update and the three status changes
 * (delete, restore, suspend). The supplier table is the sequence `rows`; the
 * supplier with id k is `rows[k - 1]`. Locations are known by their ids.
 */
module SupplierServiceImpl {
  import opened Wrappers
  import opened SupplierModel

  datatype SupplierRequest = SupplierRequest(
    companyName: string, contactName: string, phone: string, email: string, address: string,
    category: string, paymentTerms: string, locationId: Option<int>, status: string)

  /** What the service hands back for a supplier (`convertToDTO`), without the location's address parts. */
  datatype SupplierDto = SupplierDto(
    idSupplier: int, companyName: string, contactName: string, phone: string, email: string,
    address: string, category: string, paymentTerms: string, status: string, locationId: Option<int>)

  function ToDto(id: int, s: Supplier): SupplierDto
    reads s
  {
    SupplierDto(id, s.companyName, s.contactName, s.phone, s.email, s.address, s.category,
                s.paymentTerms, s.status, s.locationId)
  }

  class SupplierService {
    var rows: seq<Supplier>
    const locations: set<int>

    ghost predicate Valid()
      reads this
    {
      forall i, j :: 0 <= i < j < |rows| ==> rows[i] != rows[j]
    }

    constructor (locations: set<int>)
      ensures Valid() && rows == [] && this.locations == locations
    {
      rows := [];
      this.locations := locations;
    }

    /** The location a request names: the known location with that id, or none (`orElse(null)`). */
    function LocationFor(requested: int): (r: Option<int>)
      ensures r.Some? <==> requested in locations
      ensures r.Some? ==> r.value == requested
    {
      if requested in locations then Some(requested) else None
    }

    /** Registers a supplier with status "A", whatever status the request carries. */
    method Save(req: SupplierRequest) returns (dto: SupplierDto)
      requires Valid()
      modifies this
      ensures Valid()
      ensures |rows| == |old(rows)| + 1 && rows[..|old(rows)|] == old(rows) && fresh(rows[|old(rows)|])
      ensures var s := rows[|old(rows)|];
        && s.status == "A"
        && s.locationId == (if req.locationId.Some? then LocationFor(req.locationId.value) else None)
        && s.companyName == req.companyName && s.contactName == req.contactName && s.phone == req.phone
        && s.email == req.email && s.address == req.address && s.category == req.category
        && s.paymentTerms == req.paymentTerms
        && dto == ToDto(|rows|, s)
    {
      var s := new Supplier();
      CopyRequest(s, req);
      if req.locationId.Some? {
        s.locationId := LocationFor(req.locationId.value);
      }
      s.status := "A";
      rows := rows + [s];
      dto := ToDto(|rows|, s);
    }

    /** The request's fields, status included, copied onto an entity; the location is left to the caller. */
    static method CopyRequest(s: Supplier, req: SupplierRequest)
      modifies s
      ensures s.status == req.status && s.locationId == old(s.locationId)
      ensures s.companyName == req.companyName && s.contactName == req.contactName && s.phone == req.phone
      ensures s.email == req.email && s.address == req.address && s.category == req.category
      ensures s.paymentTerms == req.paymentTerms
    {
      s.companyName, s.contactName, s.phone, s.email := req.companyName, req.contactName, req.phone, req.email;
      s.address, s.category, s.paymentTerms, s.status := req.address, req.category, req.paymentTerms, req.status;
    }

    /**
     * Overwrites a supplier with the request, its status verbatim; the
     * location changes only when the request names one. An unknown id
     * answers None and changes nothing.
     */
    method Update(id: int, req: SupplierRequest) returns (r: Option<SupplierDto>)
      requires Valid()
      modifies rows
      ensures r.Some? <==> 1 <= id <= |rows|
      ensures forall i :: 0 <= i < |rows| && i != id - 1 ==> unchanged(rows[i])
      ensures r.Some? ==> var s := rows[id - 1];
        && s.status == req.status
        && s.locationId == (if req.locationId.Some? then LocationFor(req.locationId.value) else old(s.locationId))
        && s.companyName == req.companyName && s.contactName == req.contactName && s.phone == req.phone
        && s.email == req.email && s.address == req.address && s.category == req.category
        && s.paymentTerms == req.paymentTerms
        && r.value == ToDto(id, s)
    {
      if 1 <= id <= |rows| {
        var s := rows[id - 1];
        CopyRequest(s, req);
        if req.locationId.Some? {
          s.locationId := LocationFor(req.locationId.value);
        }
        r := Some(ToDto(id, s));
      } else {
        r := None;
      }
    }

    /** Status "I", from any status. */
    method Delete(id: int)
      requires Valid()
      modifies rows`status
      ensures Valid()
      ensures 1 <= id <= |rows| ==> rows[id - 1].status == Replay(old(rows[id - 1].status), [DeleteCommand])
      ensures forall i :: 0 <= i < |rows| && i != id - 1 ==> unchanged(rows[i])
    {
      Apply(id, DeleteCommand);
    }

    /** Status "A", from any status. */
    method Restore(id: int)
      requires Valid()
      modifies rows`status
      ensures Valid()
      ensures 1 <= id <= |rows| ==> rows[id - 1].status == Replay(old(rows[id - 1].status), [RestoreCommand])
      ensures forall i :: 0 <= i < |rows| && i != id - 1 ==> unchanged(rows[i])
    {
      Apply(id, RestoreCommand);
    }

    /** Status "S", from any status. */
    method Suspend(id: int)
      requires Valid()
      modifies rows`status
      ensures Valid()
      ensures 1 <= id <= |rows| ==> rows[id - 1].status == Replay(old(rows[id - 1].status), [SuspendCommand])
      ensures forall i :: 0 <= i < |rows| && i != id - 1 ==> unchanged(rows[i])
    {
      Apply(id, SuspendCommand);
    }

    /** Sets the status a command names on an existing supplier; the frame keeps every other column. */
    method Apply(id: int, command: StatusCommand)
      requires Valid()
      modifies rows`status
      ensures Valid()
      ensures 1 <= id <= |rows| ==> rows[id - 1].status == Replay(old(rows[id - 1].status), [command])
      ensures forall i :: 0 <= i < |rows| && i != id - 1 ==> unchanged(rows[i])
    {
      if 1 <= id <= |rows| {
        rows[id - 1].status := Target(command);
        assert Replay(old(rows[id - 1].status), [command]) == Replay(Target(command), []);
      }
    }
  }
}
