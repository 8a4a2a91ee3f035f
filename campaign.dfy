/** The values of the CharityDonation ledger: accounts, campaign status, campaign
    records, revert reasons and events, and the two sums that its invariants are
    stated with (the donations recorded for a campaign, and the value the ledger
    holds for all its campaigns). */
module CampaignModel {

  /** An account (an EVM address); only compared for equality. */
  type Address = nat

  /** A block timestamp, in seconds. */
  type Timestamp = nat

  /** The campaign status enum, in declaration order. */
  datatype Status = Pending | Approved | Blocked | Completed | Failed

  /** The ordinal of a status, as the contract's getters return it. */
  function Code(s: Status): (code: nat)
    ensures code < 5
    ensures s == Pending <==> code == 0
    ensures s == Approved <==> code == 1
    ensures s == Blocked <==> code == 2
  {
    match s
    case Pending => 0
    case Approved => 1
    case Blocked => 2
    case Completed => 3
    case Failed => 4
  }

  /** One campaign record; `amountRaised` is the total ever donated and is not
      reduced by a withdrawal or a refund. */
  datatype Campaign = Campaign(
    id: nat,
    receiver: Address,
    creator: Address,
    cause: string,
    description: string,
    targetAmount: nat,
    amountRaised: nat,
    deadline: Timestamp,
    status: Status,
    fundsWithdrawn: bool)

  /** The reasons an operation reverts. */
  datatype Error =
    | InvalidDeadline
    | OnlyAdmin
    | NotFound
    | NotApproved
    | CampaignEnded
    | CampaignNotEnded
    | NotCompleted
    | AlreadyWithdrawn
    | OnlyReceiver
    | CampaignSuccessful
    | NothingToRefund

  /** The revert string of each reason. */
  function Message(e: Error): (m: string)
    ensures |m| > 0
  {
    match e
    case InvalidDeadline => "deadline must be in future"
    case OnlyAdmin => "only admin"
    case NotFound => "campaign does not exist"
    case NotApproved => "campaign not approved"
    case CampaignEnded => "campaign ended"
    case CampaignNotEnded => "campaign not ended"
    case NotCompleted => "not completed"
    case AlreadyWithdrawn => "already withdrawn"
    case OnlyReceiver => "only receiver"
    case CampaignSuccessful => "campaign successful"
    case NothingToRefund => "nothing to refund"
  }

  /** The revert strings callers observe for the reasons whose wording is
      fixed: a past deadline, a non-admin caller, an unapproved campaign, a
      campaign past its deadline, a withdrawal below target and a refund of a
      successful campaign. */
  lemma FixedMessages()
    ensures Message(InvalidDeadline) == "deadline must be in future"
    ensures Message(OnlyAdmin) == "only admin"
    ensures Message(NotApproved) == "campaign not approved"
    ensures Message(CampaignEnded) == "campaign ended"
    ensures Message(NotCompleted) == "not completed"
    ensures Message(CampaignSuccessful) == "campaign successful"
  {
  }

  /** Every reason has its own revert string, so a caller can tell them apart. */
  lemma MessagesDistinct(e1: Error, e2: Error)
    ensures Message(e1) == Message(e2) <==> e1 == e2
  {
  }

  /** The outcome of an operation that returns a value (a new id, a payout). */
  datatype Result<T> = Success(value: T) | Failure(error: Error)

  /** The outcome of an operation that returns nothing. */
  datatype Outcome = Pass | Fail(error: Error)

  /** The events the ledger emits. */
  datatype Event =
    | CampaignCreated(id: nat, receiver: Address, cause: string, targetAmount: nat, deadline: Timestamp)
    | CampaignApproved(id: nat)
    | CampaignBlocked(id: nat)
    | DonationReceived(id: nat, donor: Address, amount: nat)
    | FundsWithdrawn(id: nat, receiver: Address, amount: nat)
    | RefundClaimed(id: nat, donor: Address, amount: nat)

  /** The per-(campaign, donor) donation records. */
  type Donations = map<(nat, Address), nat>

  /** The amount recorded for `donor` in campaign `id`; 0 for an account that never donated. */
  function Recorded(m: Donations, id: nat, donor: Address): nat
  {
    if (id, donor) in m then m[(id, donor)] else 0
  }

  /** Some key of a non-empty map, chosen once so that the sum below and the
      lemmas about it agree on it. */
  ghost function Pick(m: Donations): (k: (nat, Address))
    requires m != map[]
    ensures k in m
  {
    var k :| k in m; k
  }

  /** What the record under key `k` contributes to campaign `id`'s total. */
  function Share(m: Donations, k: (nat, Address), id: nat): nat
    requires k in m
  {
    if k.0 == id then m[k] else 0
  }

  /** The sum of all donors' records for campaign `id`. */
  ghost function DonorTotal(m: Donations, id: nat): nat
    decreases |m|
  {
    if m == map[] then 0
    else
      var k := Pick(m);
      assert (m - {k}).Keys == m.Keys - {k};
      Share(m, k, id) + DonorTotal(m - {k}, id)
  }

  /** Any record can be split off the total, not only the one `Pick` chooses. */
  lemma {:induction false} DonorTotalSplit(m: Donations, k: (nat, Address), id: nat)
    requires k in m
    ensures DonorTotal(m, id) == Share(m, k, id) + DonorTotal(m - {k}, id)
    decreases |m|
  {
    var j := Pick(m);
    if j != k {
      var mj, mk := m - {j}, m - {k};
      assert mj.Keys == m.Keys - {j};
      assert mk.Keys == m.Keys - {k};
      DonorTotalSplit(mj, k, id);
      DonorTotalSplit(mk, j, id);
      assert mj - {k} == mk - {j};
      assert Share(mj, k, id) == Share(m, k, id);
      assert Share(mk, j, id) == Share(m, j, id);
    }
  }

  /** Replacing one record by `v` changes only that record's share of the total. */
  lemma DonorTotalUpdate(m: Donations, k: (nat, Address), v: nat, id: nat)
    ensures k in m ==> DonorTotal(m[k := v], id) + Share(m, k, id)
                       == DonorTotal(m, id) + (if k.0 == id then v else 0)
    ensures k !in m ==> DonorTotal(m[k := v], id) == DonorTotal(m, id) + (if k.0 == id then v else 0)
  {
    var m' := m[k := v];
    DonorTotalSplit(m', k, id);
    if k in m {
      DonorTotalSplit(m, k, id);
      assert m' - {k} == m - {k};
    } else {
      assert m' - {k} == m;
    }
  }

  /** One record never exceeds its campaign's total. */
  lemma DonorRecordBound(m: Donations, k: (nat, Address))
    requires k in m
    ensures m[k] <= DonorTotal(m, k.0)
  {
    DonorTotalSplit(m, k, k.0);
  }

  /** A campaign nobody has a record for has total 0. */
  lemma {:induction false} DonorTotalNone(m: Donations, id: nat)
    requires forall k :: k in m ==> k.0 != id
    ensures DonorTotal(m, id) == 0
    decreases |m|
  {
    if m != map[] {
      var k := Pick(m);
      assert (m - {k}).Keys == m.Keys - {k};
      DonorTotalNone(m - {k}, id);
    }
  }

  /** The ids handed out while the next id to hand out is `n`: 1 .. n - 1. */
  function IdsBelow(n: nat): (ids: set<nat>)
    ensures forall i :: i in ids <==> 1 <= i < n
  {
    if n <= 1 then {} else IdsBelow(n - 1) + {n - 1}
  }

  /** Ids are dense: there are `n - 1` of them below `n`. */
  lemma {:induction false} IdsBelowCount(n: nat)
    requires 1 <= n
    ensures |IdsBelow(n)| == n - 1
  {
    if n > 1 {
      IdsBelowCount(n - 1);
    }
  }

  /** The value the ledger still holds for a campaign that donors have been
      refunded `refunded` of: nothing once the receiver has withdrawn. */
  function Held(c: Campaign, refunded: nat): nat
  {
    if c.fundsWithdrawn || c.amountRaised < refunded then 0 else c.amountRaised - refunded
  }

  /** `Held` for campaign `i` of a table, 0 for an id not in it. */
  function HeldAt(cs: map<nat, Campaign>, rf: map<nat, nat>, i: nat): nat
  {
    if i in cs && i in rf then Held(cs[i], rf[i]) else 0
  }

  /** The value held for campaigns 1 .. n - 1 together. */
  function Custody(cs: map<nat, Campaign>, rf: map<nat, nat>, n: nat): nat
  {
    if n <= 1 then 0 else Custody(cs, rf, n - 1) + HeldAt(cs, rf, n - 1)
  }

  /** Changing campaign `i` changes the custody sum by the change in what is held for it. */
  lemma {:induction false} CustodyUpdate(cs: map<nat, Campaign>, rf: map<nat, nat>, n: nat, i: nat, c: Campaign, r: nat)
    requires 1 <= i < n
    ensures Custody(cs[i := c], rf[i := r], n) + HeldAt(cs, rf, i) == Custody(cs, rf, n) + Held(c, r)
  {
    if n - 1 == i {
      CustodyFrame(cs, rf, cs[i := c], rf[i := r], i);
    } else {
      CustodyUpdate(cs, rf, n - 1, i, c, r);
    }
  }

  /** The custody sum below `n` depends only on the entries below `n`. */
  lemma {:induction false} CustodyFrame(cs: map<nat, Campaign>, rf: map<nat, nat>, cs': map<nat, Campaign>, rf': map<nat, nat>, n: nat)
    requires forall i :: 1 <= i < n ==> HeldAt(cs, rf, i) == HeldAt(cs', rf', i)
    ensures Custody(cs, rf, n) == Custody(cs', rf', n)
  {
    if n > 1 {
      CustodyFrame(cs, rf, cs', rf', n - 1);
    }
  }

  /** What is held for one campaign is part of the custody sum. */
  lemma {:induction false} HeldBound(cs: map<nat, Campaign>, rf: map<nat, nat>, n: nat, i: nat)
    requires 1 <= i < n
    ensures HeldAt(cs, rf, i) <= Custody(cs, rf, n)
  {
    if n - 1 != i {
      HeldBound(cs, rf, n - 1, i);
    }
  }
}
