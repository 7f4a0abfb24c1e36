/**
 * The customer entity: identity and contact data, a location, the day the
 * customer was registered and a status "A" (active) or "I" (inactive).
 * Dates are day numbers.
 */
module CustomerModel {
  import opened Wrappers

  class Customer {
    var clientCode: string
    var documentType: string
    var documentNumber: string
    var name: string
    var surname: string
    var dateBirth: int
    var phone: string
    var email: string
    var locationId: Option<int>
    var registerDate: Option<int>
    var status: string

    /** A new entity: no location, no registration day, status "A". */
    constructor ()
      ensures status == "A" && registerDate.None? && locationId.None?
      ensures clientCode == "" && documentType == "" && documentNumber == ""
      ensures name == "" && surname == "" && phone == "" && email == ""
    {
      clientCode, documentType, documentNumber := "", "", "";
      name, surname, dateBirth, phone, email := "", "", 0, "", "";
      locationId, registerDate, status := None, None, "A";
    }

    /** Hook run before the first insert: a missing registration day becomes today. */
    method OnCreate(today: int)
      modifies this`registerDate
      ensures registerDate.Some?
      ensures old(registerDate).None? ==> registerDate == Some(today)
      ensures old(registerDate).Some? ==> registerDate == old(registerDate)
    {
      if registerDate.None? {
        registerDate := Some(today);
      }
    }
  }
}
