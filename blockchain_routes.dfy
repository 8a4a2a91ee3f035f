/** The one piece of logic in the HTTP routes: turning the status code a
    campaign getter returns into the name shown to callers. */
module BlockchainRoutes {
  import opened CampaignModel

  /** The display names, indexed by status code. */
  const StatusNames: seq<string> := ["Pending", "Approved", "Blocked", "Completed", "Failed"]

  /** The name for a code; any code without an entry reads "Unknown". */
  function StatusString(code: int): (name: string)
    ensures name in StatusNames || name == "Unknown"
    ensures name == "Unknown" <==> !(0 <= code < |StatusNames|)
  {
    if 0 <= code < |StatusNames| then StatusNames[code] else "Unknown"
  }

  /** The name each status of the ledger's enum is meant to display as. */
  function Name(s: Status): string
  {
    match s
    case Pending => "Pending"
    case Approved => "Approved"
    case Blocked => "Blocked"
    case Completed => "Completed"
    case Failed => "Failed"
  }

  /** The lookup agrees with the enum: the code of every status shows as that
      status's name, and the codes 0 .. 4 are exactly the codes of a status. */
  lemma {:induction false} StatusStringMatchesEnum(code: int)
    ensures forall s: Status :: StatusString(Code(s)) == Name(s)
    ensures 0 <= code < 5 <==> exists s: Status :: Code(s) == code
  {
    if 0 <= code < 5 {
      var s := [Pending, Approved, Blocked, Completed, Failed][code];
      assert Code(s) == code;
    }
  }

  /** Different statuses show as different names. */
  lemma NamesDistinct(s: Status, t: Status)
    ensures StatusString(Code(s)) == StatusString(Code(t)) <==> s == t
  {
    StatusStringMatchesEnum(0);
  }
}
