/** The CharityDonation ledger: campaigns proposed by anyone, approved or blocked
    by a fixed administrator, funded by donations before their deadline, and
    settled after it either by one withdrawal of everything raised (target met)
    or by each donor reclaiming their own record (target missed). */
module CharityDonation {
  import opened CampaignModel
  import opened LedgerInvariant

  class Ledger {
    /** The administrator given at deployment; it never changes. */
    const admin: Address
    /** The id the next campaign gets; ids start at 1. */
    var nextCampaignId: nat
    /** The campaign table, by id. */
    var campaigns: map<nat, Campaign>
    /** The cumulative donation of each donor to each campaign. */
    var donated: Donations
    /** The value in the ledger's custody. */
    var balance: nat
    /** The events emitted so far, oldest first. */
    var events: seq<Event>

    /** The most recent block time of a successful call; block times never decrease. */
    ghost var clock: Timestamp
    /** For each campaign, the total refunded to its donors so far. */
    ghost var refunded: map<nat, nat>

    /** The ledger invariant over the current state. */
    ghost predicate Valid()
      reads this
    {
      Inv(nextCampaignId, campaigns, refunded, donated, balance, clock)
    }

    /** Deploys the ledger with administrator `admin`. */
    constructor (admin: Address)
      ensures Valid()
      ensures this.admin == admin && nextCampaignId == 1
      ensures campaigns == map[] && donated == map[] && balance == 0 && events == []
      ensures clock == 0 && refunded == map[]
    {
      this.admin := admin;
      nextCampaignId := 1;
      campaigns := map[];
      donated := map[];
      balance := 0;
      events := [];
      clock := 0;
      refunded := map[];
      InitKeepsInv();
    }

    /** The id the next campaign will get: one more than the number of campaigns. */
    function GetNextCampaignId(): (n: nat)
      reads this
      requires Valid()
      ensures n == |campaigns| + 1
    {
      assert campaigns.Keys == IdsBelow(nextCampaignId);
      IdsBelowCount(nextCampaignId);
      nextCampaignId
    }

    /** Anyone may propose a campaign whose deadline lies in the future; it starts Pending. */
    method CreateCampaign(receiver: Address, cause: string, description: string, targetAmount: nat,
                          deadline: Timestamp, caller: Address, now: Timestamp) returns (r: Result<nat>)
      requires Valid() && clock <= now
      modifies this
      ensures Valid() && old(clock) <= clock <= now
      ensures deadline <= now ==> r == Failure(InvalidDeadline) && unchanged(this)
      ensures now < deadline ==>
        && r == Success(old(nextCampaignId))
        && nextCampaignId == old(nextCampaignId) + 1
        && campaigns == old(campaigns)[old(nextCampaignId) :=
             Campaign(old(nextCampaignId), receiver, caller, cause, description, targetAmount, 0, deadline, Pending, false)]
        && donated == old(donated) && balance == old(balance)
        && events == old(events) + [CampaignCreated(old(nextCampaignId), receiver, cause, targetAmount, deadline)]
        && clock == now && refunded == old(refunded)[old(nextCampaignId) := 0]
    {
      if deadline <= now {
        return Failure(InvalidDeadline);
      }
      var id := nextCampaignId;
      var c := Campaign(id, receiver, caller, cause, description, targetAmount, 0, deadline, Pending, false);
      CreateKeepsInv(id, campaigns, refunded, donated, balance, clock, c);
      ClockKeepsInv(id + 1, campaigns[id := c], refunded[id := 0], donated, balance, clock, now);
      campaigns := campaigns[id := c];
      refunded := refunded[id := 0];
      nextCampaignId := id + 1;
      events := events + [CampaignCreated(id, receiver, cause, targetAmount, deadline)];
      clock := now;
      r := Success(id);
    }

    /** The administrator sets a campaign's status to Approved. */
    method ApproveCampaign(id: nat, caller: Address) returns (r: Outcome)
      requires Valid()
      modifies this
      ensures Valid() && clock == old(clock) && refunded == old(refunded)
      ensures caller != admin ==> r == Fail(OnlyAdmin) && unchanged(this)
      ensures caller == admin && id !in old(campaigns) ==> r == Fail(NotFound) && unchanged(this)
      ensures caller == admin && id in old(campaigns) ==>
        && r == Pass
        && campaigns == old(campaigns)[id := old(campaigns)[id].(status := Approved)]
        && nextCampaignId == old(nextCampaignId) && donated == old(donated) && balance == old(balance)
        && events == old(events) + [CampaignApproved(id)]
    {
      r := SetStatus(id, caller, Approved);
      if r.Pass? {
        events := events + [CampaignApproved(id)];
      }
    }

    /** The administrator sets a campaign's status to Blocked. */
    method BlockCampaign(id: nat, caller: Address) returns (r: Outcome)
      requires Valid()
      modifies this
      ensures Valid() && clock == old(clock) && refunded == old(refunded)
      ensures caller != admin ==> r == Fail(OnlyAdmin) && unchanged(this)
      ensures caller == admin && id !in old(campaigns) ==> r == Fail(NotFound) && unchanged(this)
      ensures caller == admin && id in old(campaigns) ==>
        && r == Pass
        && campaigns == old(campaigns)[id := old(campaigns)[id].(status := Blocked)]
        && nextCampaignId == old(nextCampaignId) && donated == old(donated) && balance == old(balance)
        && events == old(events) + [CampaignBlocked(id)]
    {
      r := SetStatus(id, caller, Blocked);
      if r.Pass? {
        events := events + [CampaignBlocked(id)];
      }
    }

    /** The admin check, then the existence check, then the status update
        shared by approve and block (no event). */
    method SetStatus(id: nat, caller: Address, s: Status) returns (r: Outcome)
      requires Valid() && s in {Approved, Blocked}
      modifies this
      ensures Valid() && clock == old(clock) && refunded == old(refunded)
      ensures caller != admin ==> r == Fail(OnlyAdmin) && unchanged(this)
      ensures caller == admin && id !in old(campaigns) ==> r == Fail(NotFound) && unchanged(this)
      ensures caller == admin && id in old(campaigns) ==>
        && r == Pass
        && campaigns == old(campaigns)[id := old(campaigns)[id].(status := s)]
        && nextCampaignId == old(nextCampaignId) && donated == old(donated) && balance == old(balance)
        && events == old(events)
    {
      if caller != admin {
        return Fail(OnlyAdmin);
      }
      if id !in campaigns {
        return Fail(NotFound);
      }
      var c := campaigns[id].(status := s);
      StatusKeepsInv(nextCampaignId, campaigns, refunded, donated, balance, clock, id, s);
      campaigns := campaigns[id := c];
      r := Pass;
    }

    /** `caller` donates `amount` (the value attached to the call) to an
        approved campaign before its deadline. */
    method Donate(id: nat, amount: nat, caller: Address, now: Timestamp) returns (r: Outcome)
      requires Valid() && clock <= now
      modifies this
      ensures Valid() && old(clock) <= clock <= now
      ensures id !in old(campaigns) ==> r == Fail(NotFound) && unchanged(this)
      ensures id in old(campaigns) && old(campaigns)[id].status != Approved ==>
        r == Fail(NotApproved) && unchanged(this)
      ensures id in old(campaigns) && old(campaigns)[id].status == Approved && old(campaigns)[id].deadline <= now ==>
        r == Fail(CampaignEnded) && unchanged(this)
      ensures id in old(campaigns) && old(campaigns)[id].status == Approved && now < old(campaigns)[id].deadline ==>
        && r == Pass
        && campaigns == old(campaigns)[id := old(campaigns)[id].(amountRaised := old(campaigns)[id].amountRaised + amount)]
        && donated == old(donated)[(id, caller) := Recorded(old(donated), id, caller) + amount]
        && nextCampaignId == old(nextCampaignId) && balance == old(balance) + amount
        && events == old(events) + [DonationReceived(id, caller, amount)]
        && clock == now && refunded == old(refunded)
    {
      if id !in campaigns {
        return Fail(NotFound);
      }
      var c := campaigns[id];
      if c.status != Approved {
        return Fail(NotApproved);
      }
      if c.deadline <= now {
        return Fail(CampaignEnded);
      }
      var c' := c.(amountRaised := c.amountRaised + amount);
      var donated' := donated[(id, caller) := Recorded(donated, id, caller) + amount];
      DonateKeepsInv(nextCampaignId, campaigns, refunded, donated, balance, clock, id, caller, amount, now);
      campaigns := campaigns[id := c'];
      donated := donated';
      balance := balance + amount;
      events := events + [DonationReceived(id, caller, amount)];
      clock := now;
      r := Pass;
    }

    /** After the deadline of a campaign that met its target, its receiver
        withdraws everything raised, once. */
    method WithdrawFunds(id: nat, caller: Address, now: Timestamp) returns (r: Result<nat>)
      requires Valid() && clock <= now
      modifies this
      ensures Valid() && old(clock) <= clock <= now
      ensures id !in old(campaigns) ==> r == Failure(NotFound) && unchanged(this)
      ensures id in old(campaigns) ==>
        var c := old(campaigns)[id];
        && (now < c.deadline ==> r == Failure(CampaignNotEnded) && unchanged(this))
        && (c.deadline <= now && c.amountRaised < c.targetAmount ==> r == Failure(NotCompleted) && unchanged(this))
        && (c.deadline <= now && c.targetAmount <= c.amountRaised && c.fundsWithdrawn ==>
              r == Failure(AlreadyWithdrawn) && unchanged(this))
        && (c.deadline <= now && c.targetAmount <= c.amountRaised && !c.fundsWithdrawn && caller != c.receiver ==>
              r == Failure(OnlyReceiver) && unchanged(this))
        && (c.deadline <= now && c.targetAmount <= c.amountRaised && !c.fundsWithdrawn && caller == c.receiver ==>
              && r == Success(c.amountRaised)
              && old(refunded)[id] == 0
              && campaigns == old(campaigns)[id := c.(fundsWithdrawn := true)]
              && donated == old(donated) && nextCampaignId == old(nextCampaignId)
              && balance == old(balance) - c.amountRaised
              && events == old(events) + [FundsWithdrawn(id, c.receiver, c.amountRaised)]
              && clock == now && refunded == old(refunded))
    {
      if id !in campaigns {
        return Failure(NotFound);
      }
      var c := campaigns[id];
      if now < c.deadline {
        return Failure(CampaignNotEnded);
      }
      if c.amountRaised < c.targetAmount {
        return Failure(NotCompleted);
      }
      if c.fundsWithdrawn {
        return Failure(AlreadyWithdrawn);
      }
      if caller != c.receiver {
        return Failure(OnlyReceiver);
      }
      var c' := c.(fundsWithdrawn := true);
      WithdrawKeepsInv(nextCampaignId, campaigns, refunded, donated, balance, clock, id, now);
      campaigns := campaigns[id := c'];
      balance := balance - c.amountRaised;
      events := events + [FundsWithdrawn(id, c.receiver, c.amountRaised)];
      clock := now;
      r := Success(c.amountRaised);
    }

    /** After the deadline of a campaign that missed its target, a donor
        reclaims their whole record, which is set to 0. */
    method ClaimRefund(id: nat, caller: Address, now: Timestamp) returns (r: Result<nat>)
      requires Valid() && clock <= now
      modifies this
      ensures Valid() && old(clock) <= clock <= now
      ensures id !in old(campaigns) ==> r == Failure(NotFound) && unchanged(this)
      ensures id in old(campaigns) ==>
        var c := old(campaigns)[id];
        var owed := Recorded(old(donated), id, caller);
        && (now < c.deadline ==> r == Failure(CampaignNotEnded) && unchanged(this))
        && (c.deadline <= now && c.targetAmount <= c.amountRaised ==> r == Failure(CampaignSuccessful) && unchanged(this))
        && (c.deadline <= now && c.amountRaised < c.targetAmount && owed == 0 ==>
              r == Failure(NothingToRefund) && unchanged(this))
        && (c.deadline <= now && c.amountRaised < c.targetAmount && owed > 0 ==>
              && r == Success(owed)
              && !c.fundsWithdrawn
              && donated == old(donated)[(id, caller) := 0]
              && campaigns == old(campaigns) && nextCampaignId == old(nextCampaignId)
              && balance == old(balance) - owed
              && events == old(events) + [RefundClaimed(id, caller, owed)]
              && clock == now && refunded == old(refunded)[id := old(refunded)[id] + owed])
    {
      if id !in campaigns {
        return Failure(NotFound);
      }
      var c := campaigns[id];
      if now < c.deadline {
        return Failure(CampaignNotEnded);
      }
      if c.targetAmount <= c.amountRaised {
        return Failure(CampaignSuccessful);
      }
      var owed := Recorded(donated, id, caller);
      if owed == 0 {
        return Failure(NothingToRefund);
      }
      var donated' := donated[(id, caller) := 0];
      RefundKeepsInv(nextCampaignId, campaigns, refunded, donated, balance, clock, id, caller, now);
      donated := donated';
      refunded := refunded[id := refunded[id] + owed];
      balance := balance - owed;
      events := events + [RefundClaimed(id, caller, owed)];
      clock := now;
      r := Success(owed);
    }

    /** One campaign's record; NotFound for an id never handed out. */
    function GetCampaign(id: nat): (r: Result<Campaign>)
      reads this
      requires Valid()
      ensures r.Success? <==> 1 <= id < nextCampaignId
      ensures r.Success? ==> r.value == campaigns[id] && r.value.id == id
      ensures r.Failure? ==> r.error == NotFound
    {
      if id in campaigns then
        assert CampaignOk(campaigns, refunded, donated, clock, id);
        Success(campaigns[id])
      else Failure(NotFound)
    }

    /** Every campaign, in ascending id order. */
    method GetAllCampaigns() returns (all: seq<Campaign>)
      requires Valid()
      ensures |all| == |campaigns|
      ensures forall k :: 0 <= k < |all| ==> k + 1 in campaigns && all[k] == campaigns[k + 1]
      ensures forall k :: 0 <= k < |all| ==> all[k].id == k + 1
    {
      assert campaigns.Keys == IdsBelow(nextCampaignId);
      IdsBelowCount(nextCampaignId);
      all := [];
      var i := 1;
      while i < nextCampaignId
        invariant 1 <= i <= nextCampaignId
        invariant |all| == i - 1
        invariant forall k :: 0 <= k < |all| ==> k + 1 in campaigns && all[k] == campaigns[k + 1]
        invariant forall k :: 0 <= k < |all| ==> all[k].id == k + 1
      {
        assert CampaignOk(campaigns, refunded, donated, clock, i);
        all := all + [campaigns[i]];
        i := i + 1;
      }
    }

    /** What `donor` has on record for campaign `id` (0 for an account that
        never donated or was refunded); it never exceeds what the campaign raised. */
    function GetDonationAmount(id: nat, donor: Address): (r: Result<nat>)
      reads this
      requires Valid()
      ensures id !in campaigns ==> r == Failure(NotFound)
      ensures id in campaigns ==> r == Success(Recorded(donated, id, donor))
      ensures id in campaigns && (id, donor) !in donated ==> r == Success(0)
      ensures r.Success? ==> r.value <= campaigns[id].amountRaised
    {
      if id !in campaigns then Failure(NotFound)
      else
        assert CampaignOk(campaigns, refunded, donated, clock, id);
        if (id, donor) in donated then
        DonorRecordBound(donated, (id, donor));
        Success(donated[(id, donor)])
      else Success(0)
    }

    /** While no donor of a campaign has been refunded, what it raised is the
        sum of its donors' records; and what it owes its donors, until the
        receiver withdraws, is in the ledger's custody. */
    lemma Conservation(id: nat)
      requires Valid() && id in campaigns
      ensures refunded[id] == 0 ==> campaigns[id].amountRaised == DonorTotal(donated, id)
      ensures !campaigns[id].fundsWithdrawn ==> DonorTotal(donated, id) <= balance
      ensures !(campaigns[id].fundsWithdrawn && refunded[id] > 0)
    {
      assert CampaignOk(campaigns, refunded, donated, clock, id);
      HeldBound(campaigns, refunded, nextCampaignId, id);
    }
  }

  /** Two donations by the same donor before the deadline accumulate, in the
      campaign's total and in that donor's record alike, and leave every other
      donor's record as it was. */
  method DonateTwice(l: Ledger, id: nat, donor: Address, first: nat, second: nat, now: Timestamp)
      returns (r1: Outcome, r2: Outcome)
    requires l.Valid() && l.clock <= now
    requires id in l.campaigns && l.campaigns[id].status == Approved && now < l.campaigns[id].deadline
    modifies l
    ensures l.Valid()
    ensures r1 == Pass && r2 == Pass && id in l.campaigns
    ensures l.campaigns[id].amountRaised == old(l.campaigns[id].amountRaised) + first + second
    ensures Recorded(l.donated, id, donor) == Recorded(old(l.donated), id, donor) + first + second
    ensures forall other :: other != donor ==> Recorded(l.donated, id, other) == Recorded(old(l.donated), id, other)
  {
    r1 := l.Donate(id, first, donor, now);
    r2 := l.Donate(id, second, donor, now);
  }

  /** The settlement of a campaign that met its target: created with target 10
      and a deadline an hour ahead, approved, given 6 and 5 by two donors; once
      the deadline has passed the receiver withdraws all 11, a refund is
      refused because the target was met, and a second withdrawal is refused. */
  method WithdrawScenario(admin: Address, creator: Address, receiver: Address,
                          donor1: Address, donor2: Address, t0: Timestamp)
      returns (l: Ledger, paid: Result<nat>, refund: Result<nat>, again: Result<nat>)
    ensures l.Valid() && 1 in l.campaigns
    ensures paid == Success(11) && l.balance == 0
    ensures l.campaigns[1].amountRaised == 11 && l.campaigns[1].fundsWithdrawn
    ensures refund == Failure(CampaignSuccessful) && again == Failure(AlreadyWithdrawn)
  {
    l := new Ledger(admin);
    var created := l.CreateCampaign(receiver, "Education", "Desc", 10, t0 + 3600, creator, t0);
    assert created == Success(1);
    var approved := l.ApproveCampaign(1, admin);
    var d1 := l.Donate(1, 6, donor1, t0);
    var d2 := l.Donate(1, 5, donor2, t0);
    paid := l.WithdrawFunds(1, receiver, t0 + 3601);
    refund := l.ClaimRefund(1, donor1, t0 + 3601);
    again := l.WithdrawFunds(1, receiver, t0 + 3601);
  }

  /** The settlement of a campaign that missed its target: created with target
      100, approved, given 1 by a donor; after the deadline the donor is paid
      back their 1 and their record reads 0, a second claim finds nothing to
      refund, and the receiver cannot withdraw. */
  method RefundScenario(admin: Address, creator: Address, receiver: Address, donor: Address, t0: Timestamp)
      returns (l: Ledger, refund: Result<nat>, again: Result<nat>, paid: Result<nat>)
    ensures l.Valid() && 1 in l.campaigns
    ensures refund == Success(1) && l.GetDonationAmount(1, donor) == Success(0)
    ensures again == Failure(NothingToRefund) && paid == Failure(NotCompleted)
    ensures l.balance == 0 && l.campaigns[1].amountRaised == 1 && !l.campaigns[1].fundsWithdrawn
  {
    l := new Ledger(admin);
    var created := l.CreateCampaign(receiver, "Low Target", "Desc", 100, t0 + 3600, creator, t0);
    assert created == Success(1);
    var approved := l.ApproveCampaign(1, admin);
    var d := l.Donate(1, 1, donor, t0);
    refund := l.ClaimRefund(1, donor, t0 + 3601);
    again := l.ClaimRefund(1, donor, t0 + 3601);
    paid := l.WithdrawFunds(1, receiver, t0 + 3601);
  }
}
