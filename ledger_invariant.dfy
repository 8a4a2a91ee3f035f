/** The ledger's invariant, stated over its state as values, and one lemma per
    successful operation saying that the operation keeps it. */
module LedgerInvariant {
  import opened CampaignModel

  /** What must hold of campaign `i` (record `c`, refunded `refunded` so far,
      latest block time `clock`): its id, a status the operations can reach,
      conservation of what was donated, and the deadline-and-target conditions
      under which it was settled. */
  ghost predicate CampaignInv(c: Campaign, i: nat, donated: Donations, refunded: nat, clock: Timestamp)
  {
    && c.id == i
    && c.status in {Pending, Approved, Blocked}
    && c.amountRaised == DonorTotal(donated, i) + refunded
    && (refunded > 0 ==> clock >= c.deadline && c.amountRaised < c.targetAmount)
    && (c.fundsWithdrawn ==> clock >= c.deadline && c.amountRaised >= c.targetAmount)
  }

  /** `CampaignInv` for campaign `i` of the table; the invariant below
      quantifies over this predicate so that a proof brings in one campaign's
      conditions only when it names that campaign. */
  ghost predicate CampaignOk(cs: map<nat, Campaign>, rf: map<nat, nat>, donated: Donations, clock: Timestamp, i: nat)
  {
    i in cs && i in rf && CampaignInv(cs[i], i, donated, rf[i], clock)
  }

  /** The ledger invariant: ids 1 .. next - 1 are exactly the campaigns, every
      donation record belongs to one of them, every campaign keeps
      `CampaignInv`, and the custody balance is what the campaigns still hold. */
  ghost predicate Inv(next: nat, cs: map<nat, Campaign>, rf: map<nat, nat>, donated: Donations,
                      balance: nat, clock: Timestamp)
  {
    && 1 <= next
    && (forall i :: i in cs <==> 1 <= i < next)
    && rf.Keys == cs.Keys
    && (forall k :: k in donated ==> k.0 in cs)
    && (forall i {:trigger CampaignOk(cs, rf, donated, clock, i)} :: i in cs ==> CampaignOk(cs, rf, donated, clock, i))
    && balance == Custody(cs, rf, next)
  }

  /** The empty ledger keeps the invariant. */
  lemma InitKeepsInv()
    ensures Inv(1, map[], map[], map[], 0, 0)
  {
  }

  /** A later block time keeps every campaign's settlement conditions. */
  lemma ClockKeepsInv(next: nat, cs: map<nat, Campaign>, rf: map<nat, nat>, donated: Donations,
                      balance: nat, clock: Timestamp, now: Timestamp)
    requires Inv(next, cs, rf, donated, balance, clock) && clock <= now
    ensures Inv(next, cs, rf, donated, balance, now)
  {
    forall i | i in cs
      ensures CampaignOk(cs, rf, donated, now, i)
    {
      assert CampaignOk(cs, rf, donated, clock, i);
    }
  }

  /** Adding a fresh Pending campaign under the next id keeps the invariant. */
  lemma CreateKeepsInv(next: nat, cs: map<nat, Campaign>, rf: map<nat, nat>, donated: Donations,
                       balance: nat, clock: Timestamp, c: Campaign)
    requires Inv(next, cs, rf, donated, balance, clock)
    requires c.id == next && c.status == Pending && c.amountRaised == 0 && !c.fundsWithdrawn
    ensures Inv(next + 1, cs[next := c], rf[next := 0], donated, balance, clock)
  {
    var cs', rf' := cs[next := c], rf[next := 0];
    DonorTotalNone(donated, next);
    CustodyFrame(cs, rf, cs', rf', next);
    forall i | i in cs'
      ensures CampaignOk(cs', rf', donated, clock, i)
    {
      if i != next {
        assert CampaignOk(cs, rf, donated, clock, i);
      }
    }
  }

  /** Changing the status of a campaign to Approved or Blocked keeps the invariant. */
  lemma StatusKeepsInv(next: nat, cs: map<nat, Campaign>, rf: map<nat, nat>, donated: Donations,
                       balance: nat, clock: Timestamp, id: nat, s: Status)
    requires Inv(next, cs, rf, donated, balance, clock)
    requires id in cs && s in {Approved, Blocked}
    ensures Inv(next, cs[id := cs[id].(status := s)], rf, donated, balance, clock)
  {
    var c' := cs[id].(status := s);
    CustodyUpdate(cs, rf, next, id, c', rf[id]);
    assert rf[id := rf[id]] == rf;
    var cs' := cs[id := c'];
    forall i | i in cs'
      ensures CampaignOk(cs', rf, donated, clock, i)
    {
      assert CampaignOk(cs, rf, donated, clock, i);
    }
  }

  /** A donation of `amount` by `donor` to an approved campaign before its
      deadline keeps the invariant, with the custody balance grown by `amount`.
      The campaign has then been neither refunded nor withdrawn. */
  lemma DonateKeepsInv(next: nat, cs: map<nat, Campaign>, rf: map<nat, nat>, donated: Donations,
                       balance: nat, clock: Timestamp, id: nat, donor: Address, amount: nat, now: Timestamp)
    requires Inv(next, cs, rf, donated, balance, clock)
    requires id in cs && clock <= now < cs[id].deadline
    ensures rf[id] == 0 && !cs[id].fundsWithdrawn
    ensures Inv(next, cs[id := cs[id].(amountRaised := cs[id].amountRaised + amount)], rf,
                donated[(id, donor) := Recorded(donated, id, donor) + amount], balance + amount, now)
  {
    var c := cs[id];
    assert CampaignOk(cs, rf, donated, clock, id);
    var key := (id, donor);
    var c' := c.(amountRaised := c.amountRaised + amount);
    var cs' := cs[id := c'];
    var donated' := donated[key := Recorded(donated, id, donor) + amount];
    forall i | i in cs'
      ensures CampaignOk(cs', rf, donated', now, i)
    {
      assert CampaignOk(cs, rf, donated, clock, i);
      DonorTotalUpdate(donated, key, Recorded(donated, id, donor) + amount, i);
    }
    CustodyUpdate(cs, rf, next, id, c', rf[id]);
    assert rf[id := rf[id]] == rf;
  }

  /** Paying out a campaign that met its target, after its deadline, keeps the
      invariant: nothing of it was refunded, the custody balance covers all it
      raised, and is reduced by exactly that. */
  lemma WithdrawKeepsInv(next: nat, cs: map<nat, Campaign>, rf: map<nat, nat>, donated: Donations,
                         balance: nat, clock: Timestamp, id: nat, now: Timestamp)
    requires Inv(next, cs, rf, donated, balance, clock)
    requires id in cs && clock <= now && cs[id].deadline <= now
    requires cs[id].targetAmount <= cs[id].amountRaised && !cs[id].fundsWithdrawn
    ensures rf[id] == 0 && cs[id].amountRaised <= balance
    ensures Inv(next, cs[id := cs[id].(fundsWithdrawn := true)], rf, donated, balance - cs[id].amountRaised, now)
  {
    var c := cs[id];
    assert CampaignOk(cs, rf, donated, clock, id);
    var c' := c.(fundsWithdrawn := true);
    HeldBound(cs, rf, next, id);
    CustodyUpdate(cs, rf, next, id, c', rf[id]);
    assert rf[id := rf[id]] == rf;
    var cs' := cs[id := c'];
    forall i | i in cs'
      ensures CampaignOk(cs', rf, donated, now, i)
    {
      assert CampaignOk(cs, rf, donated, clock, i);
    }
  }

  /** Refunding `donor`'s whole record of a campaign that missed its target,
      after its deadline, keeps the invariant: the campaign was not withdrawn,
      the custody balance covers the record, and is reduced by exactly it. */
  lemma RefundKeepsInv(next: nat, cs: map<nat, Campaign>, rf: map<nat, nat>, donated: Donations,
                       balance: nat, clock: Timestamp, id: nat, donor: Address, now: Timestamp)
    requires Inv(next, cs, rf, donated, balance, clock)
    requires id in cs && clock <= now && cs[id].deadline <= now
    requires cs[id].amountRaised < cs[id].targetAmount && Recorded(donated, id, donor) > 0
    ensures !cs[id].fundsWithdrawn && Recorded(donated, id, donor) <= balance
    ensures Inv(next, cs, rf[id := rf[id] + Recorded(donated, id, donor)], donated[(id, donor) := 0],
                balance - Recorded(donated, id, donor), now)
  {
    var c := cs[id];
    assert CampaignOk(cs, rf, donated, clock, id);
    var key := (id, donor);
    var owed := Recorded(donated, id, donor);
    var rf' := rf[id := rf[id] + owed];
    var donated' := donated[key := 0];
    DonorRecordBound(donated, key);
    HeldBound(cs, rf, next, id);
    CustodyUpdate(cs, rf, next, id, c, rf[id] + owed);
    assert cs[id := c] == cs;
    forall i | i in cs
      ensures CampaignOk(cs, rf', donated', now, i)
    {
      assert CampaignOk(cs, rf, donated, clock, i);
      DonorTotalUpdate(donated, key, 0, i);
    }
  }
}
