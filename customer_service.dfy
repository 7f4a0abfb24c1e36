/**
 * The customer service: registration with a generated client code, update,
 * soft delete and restore. The customer table is the sequence `rows`; the
 * customer with id k is `rows[k - 1]`. Locations are known by their ids.
 */
module CustomerServiceImpl {
  import opened Wrappers
  import Codes
  import opened CustomerModel

  /** The request body. An empty client code stands for a missing one. */
  datatype CustomerRequest = CustomerRequest(
    clientCode: string, documentType: string, documentNumber: string, name: string, surname: string,
    dateBirth: int, phone: string, email: string, locationId: Option<int>, status: string)

  /** What the service hands back for a customer (`convertToDTO`), without the location's address parts. */
  datatype CustomerDto = CustomerDto(
    idCustomer: int, clientCode: string, documentType: string, documentNumber: string, name: string,
    surname: string, dateBirth: int, phone: string, email: string, registerDate: Option<int>,
    status: string, locationId: Option<int>)

  function ToDto(id: int, c: Customer): CustomerDto
    reads c
  {
    CustomerDto(id, c.clientCode, c.documentType, c.documentNumber, c.name, c.surname, c.dateBirth,
                c.phone, c.email, c.registerDate, c.status, c.locationId)
  }

  class CustomerService {
    var rows: seq<Customer>
    const locations: set<int>

    ghost predicate Valid()
      reads this, rows
    {
      && (forall i, j :: 0 <= i < j < |rows| ==> rows[i] != rows[j])
      && (forall i :: 0 <= i < |rows| ==> rows[i].registerDate.Some?)
    }

    constructor (locations: set<int>)
      ensures Valid() && rows == [] && this.locations == locations
    {
      rows := [];
      this.locations := locations;
    }

    /** The location a request names: the known location with that id, or none (`orElse(null)`). */
    function LocationFor(requested: int): (r: Option<int>)
      ensures r.Some? <==> requested in locations
      ensures r.Some? ==> r.value == requested
    {
      if requested in locations then Some(requested) else None
    }

    /** The client codes in insertion order. */
    function ClientCodes(): (s: seq<string>)
      reads this, rows
      ensures |s| == |rows|
      ensures forall i :: 0 <= i < |rows| ==> s[i] == rows[i].clientCode
    {
      seq(|rows|, i reads this, rows requires 0 <= i < |rows| => rows[i].clientCode)
    }

    /**
     * The next client code, continuing from the most recently registered
     * customer's code alone (the corrected latest-code query).
     */
    function GenerateNextClientCode(): (r: Result<string, Codes.CodeError>)
      reads this, rows
      ensures rows == [] ==> r == Success("C001")
      ensures r.Success? ==> |r.value| >= 4 && r.value[0] == 'C'
      ensures r.Failure? ==> rows != []
    {
      assert ['C'] + "001" == "C001";
      Codes.NextCodeAfter('C', Codes.LatestCode(ClientCodes()))
    }

    /**
     * Code generation as written: the latest-code query returns every code
     * where one is expected, so it fails once two customers exist; with
     * fewer it agrees with the corrected generator.
     */
    function GenerateNextClientCodeAsWritten(): (r: Result<string, Codes.CodeError>)
      reads this, rows
      ensures |rows| >= 2 <==> r == Failure(Codes.NonUniqueResult)
      ensures |rows| < 2 ==> r == GenerateNextClientCode()
    {
      Codes.NextCodeAsWritten('C', ClientCodes())
    }

    /** When the latest code carries number n, the next one carries n + 1 ("C007" is followed by "C008"). */
    lemma {:induction false} NextClientCodeFollowsLatest(n: int)
      requires Codes.IntMin <= n < Codes.IntMax && rows != []
      requires |rows[|rows| - 1].clientCode| > 0 && rows[|rows| - 1].clientCode[1..] == Codes.Format03(n)
      ensures GenerateNextClientCode() == Success(['C'] + Codes.Format03(n + 1))
    {
      Codes.IssuedCodesContinue('C', ClientCodes(), n);
    }

    /**
     * Registers a customer. The status is "A" whatever the request says; a
     * missing client code is generated, and a latest code that cannot be read
     * aborts the registration; the registration day is today.
     */
    method Save(req: CustomerRequest, today: int) returns (r: Result<CustomerDto, Codes.CodeError>)
      requires Valid()
      modifies this
      ensures Valid()
      ensures r.Failure? <==> req.clientCode == "" && old(GenerateNextClientCode()).Failure?
      ensures r.Failure? ==> rows == old(rows) && r.error == old(GenerateNextClientCode()).error
      ensures r.Success? ==>
        && |rows| == |old(rows)| + 1 && rows[..|old(rows)|] == old(rows) && fresh(rows[|old(rows)|])
        && var c := rows[|old(rows)|];
        && c.status == "A" && c.registerDate == Some(today)
        && c.clientCode == (if req.clientCode == "" then old(GenerateNextClientCode()).value else req.clientCode)
        && c.locationId == (if req.locationId.Some? then LocationFor(req.locationId.value) else None)
        && c.documentType == req.documentType && c.documentNumber == req.documentNumber
        && c.name == req.name && c.surname == req.surname && c.dateBirth == req.dateBirth
        && c.phone == req.phone && c.email == req.email
        && r.value == ToDto(|rows|, c)
    {
      var code := req.clientCode;
      if code == "" {
        var next := GenerateNextClientCode();
        if next.Failure? {
          return Failure(next.error);
        }
        code := next.value;
      }
      var c := NewCustomer(req, code, if req.locationId.Some? then LocationFor(req.locationId.value) else None, today);
      rows := rows + [c];
      r := Success(ToDto(|rows|, c));
    }

    /** The entity `save` inserts: the request's fields, the given code and location, status "A", registered today. */
    static method NewCustomer(req: CustomerRequest, code: string, location: Option<int>, today: int) returns (c: Customer)
      ensures fresh(c)
      ensures c.status == "A" && c.registerDate == Some(today) && c.clientCode == code && c.locationId == location
      ensures c.documentType == req.documentType && c.documentNumber == req.documentNumber
      ensures c.name == req.name && c.surname == req.surname && c.dateBirth == req.dateBirth
      ensures c.phone == req.phone && c.email == req.email
    {
      c := new Customer();
      CopyRequest(c, req);
      c.locationId := location;
      c.status := "A";
      c.clientCode := code;
      c.OnCreate(today);
    }

    /** The request's fields copied onto an entity; the location is left to the caller. */
    static method CopyRequest(c: Customer, req: CustomerRequest)
      modifies c
      ensures c.clientCode == req.clientCode && c.status == req.status
      ensures c.documentType == req.documentType && c.documentNumber == req.documentNumber
      ensures c.name == req.name && c.surname == req.surname && c.dateBirth == req.dateBirth
      ensures c.phone == req.phone && c.email == req.email
      ensures c.locationId == old(c.locationId) && c.registerDate == old(c.registerDate)
    {
      c.clientCode, c.documentType, c.documentNumber := req.clientCode, req.documentType, req.documentNumber;
      c.name, c.surname, c.dateBirth := req.name, req.surname, req.dateBirth;
      c.phone, c.email, c.status := req.phone, req.email, req.status;
    }

    /**
     * Overwrites a customer with the request, status included, verbatim; the
     * location changes only when the request names one. An unknown id answers
     * None and changes nothing.
     */
    method Update(id: int, req: CustomerRequest) returns (r: Option<CustomerDto>)
      requires Valid()
      modifies rows
      ensures Valid()
      ensures r.Some? <==> 1 <= id <= |rows|
      ensures forall i :: 0 <= i < |rows| && i != id - 1 ==> unchanged(rows[i])
      ensures r.Some? ==> var c := rows[id - 1];
        && c.clientCode == req.clientCode && c.status == req.status
        && c.documentType == req.documentType && c.documentNumber == req.documentNumber
        && c.name == req.name && c.surname == req.surname && c.dateBirth == req.dateBirth
        && c.phone == req.phone && c.email == req.email
        && c.registerDate == old(c.registerDate)
        && c.locationId == (if req.locationId.Some? then LocationFor(req.locationId.value) else old(c.locationId))
        && r.value == ToDto(id, c)
    {
      if 1 <= id <= |rows| {
        var c := rows[id - 1];
        CopyRequest(c, req);
        if req.locationId.Some? {
          c.locationId := LocationFor(req.locationId.value);
        }
        r := Some(ToDto(id, c));
      } else {
        r := None;
      }
    }

    /** Soft delete: the customer's status becomes "I"; an unknown id changes nothing. */
    method Delete(id: int)
      requires Valid()
      modifies rows`status
      ensures Valid()
      ensures 1 <= id <= |rows| ==> rows[id - 1].status == "I"
      ensures forall i :: 0 <= i < |rows| && i != id - 1 ==> unchanged(rows[i])
    {
      SetStatus(id, "I");
    }

    /** Undo of the soft delete: the customer's status becomes "A". */
    method Restore(id: int)
      requires Valid()
      modifies rows`status
      ensures Valid()
      ensures 1 <= id <= |rows| ==> rows[id - 1].status == "A"
      ensures forall i :: 0 <= i < |rows| && i != id - 1 ==> unchanged(rows[i])
    {
      SetStatus(id, "A");
    }

    method SetStatus(id: int, status: string)
      requires Valid()
      modifies rows`status
      ensures Valid()
      ensures 1 <= id <= |rows| ==> rows[id - 1].status == status
      ensures forall i :: 0 <= i < |rows| && i != id - 1 ==> unchanged(rows[i])
    {
      if 1 <= id <= |rows| {
        rows[id - 1].status := status;
      }
    }
  }
}
