/**
 * The supplier entity: company and contact data, a location and a status
 * "A" (active), "I" (inactive) or "S" (suspended). The service moves a
 * supplier between those statuses with no guard on the current one.
 */
module SupplierModel {
  import opened Wrappers

  class Supplier {
    var companyName: string
    var contactName: string
    var phone: string
    var email: string
    var address: string
    var category: string
    var paymentTerms: string
    var locationId: Option<int>
    var status: string

    /** A new entity: no location, status "A". */
    constructor ()
      ensures status == "A" && locationId.None?
      ensures companyName == "" && contactName == "" && email == ""
    {
      companyName, contactName, phone, email := "", "", "", "";
      address, category, paymentTerms := "", "", "";
      locationId, status := None, "A";
    }
  }

  /** The three status changes the service offers. */
  datatype StatusCommand = DeleteCommand | RestoreCommand | SuspendCommand

  /** The status a command sets, whatever the status before. */
  function Target(c: StatusCommand): (r: string)
    ensures r == "I" <==> c == DeleteCommand
    ensures r == "A" <==> c == RestoreCommand
    ensures r == "S" <==> c == SuspendCommand
  {
    match c
    case DeleteCommand => "I"
    case RestoreCommand => "A"
    case SuspendCommand => "S"
  }

  /** The status after running the commands one after another from `status`. */
  function Replay(status: string, commands: seq<StatusCommand>): string
    decreases |commands|
  {
    if commands == [] then status else Replay(Target(commands[0]), commands[1..])
  }

  /** The most recent command alone decides the status. */
  lemma {:induction false} LastCommandDecides(status: string, commands: seq<StatusCommand>)
    requires commands != []
    ensures Replay(status, commands) == Target(commands[|commands| - 1])
    decreases |commands|
  {
    if |commands| > 1 {
      LastCommandDecides(Target(commands[0]), commands[1..]);
    }
  }

  /** Once a command has run, the status the supplier started from no longer matters. */
  lemma StartForgotten(s: string, t: string, commands: seq<StatusCommand>)
    requires commands != []
    ensures Replay(s, commands) == Replay(t, commands)
  {
    LastCommandDecides(s, commands);
    LastCommandDecides(t, commands);
  }

  /** Every status, a suspended one included, is reachable from every other in one command. */
  lemma OneCommandReachesAny(from: string, to: string)
    requires to == "A" || to == "I" || to == "S"
    ensures exists c :: Replay(from, [c]) == to
  {
    var c := if to == "A" then RestoreCommand else if to == "I" then DeleteCommand else SuspendCommand;
    assert Replay(from, [c]) == Replay(Target(c), []);
  }
}
