# CharityDonation ledger and SimpleStorage, modelled in Dafny

This project models the two Hardhat contracts of `charity_backend_hardhat`, as
their test suites pin them down, plus the status-name lookup of the HTTP routes.

- **CharityDonation** is a crowdfunding ledger. Anyone may propose a campaign
  with a receiver, a cause, a description, a target and a deadline in the
  future. A fixed administrator approves or blocks it. The public donates to
  approved campaigns before the deadline. After the deadline, either the
  receiver withdraws everything raised (target met), or each donor reclaims
  their own record (target missed). It is modelled as the class
  `CharityDonation.Ledger` (`charity_donation.dfy`). Its fields are:
  - the admin;
  - the `nextCampaignId` counter, starting at 1;
  - the campaign table, a `map<nat, Campaign>`;
  - the per-(campaign, donor) donation map;
  - the ledger's custody balance;
  - the log of emitted events.

  Each state-changing operation is a method that takes the caller and, where
  the contract reads the block time, the current time `now`. It returns
  `Pass`/`Success(..)`, or the revert reason, and then the state is unchanged.
  Payouts are returned amounts, and the custody balance drops by them. The
  reads (`GetCampaign`, `GetAllCampaigns`, `GetDonationAmount`,
  `GetNextCampaignId`) take no caller and change nothing; all but
  `GetAllCampaigns`, which loops, are functions.
- **The invariant** is `LedgerInvariant.Inv` (`ledger_invariant.dfy`). It holds
  after every operation and says:
  - the campaign ids are exactly 1 .. `nextCampaignId` - 1;
  - every campaign's `amountRaised` equals the sum of its donors' records plus
    what has been refunded from it (so it equals the sum of records until a
    refund happens);
  - a refunded campaign is past its deadline and missed its target;
  - a withdrawn campaign is past its deadline and met it;
  - the custody balance is exactly what the campaigns still hold.

  One lemma per operation proves that the operation keeps `Inv`. From these
  lemmas come that withdrawal and refund exclude each other, and that every
  payout is covered by the balance.
- **SimpleStorage** is a one-integer store with an underflow guard. It is
  modelled as the class `SimpleStorage.Store` (`simple_storage.dfy`).
- **`getCampaignStatusString`** from `routes/blockchain.js` is modelled as
  `BlockchainRoutes.StatusString` (`blockchain_routes.dfy`). The module also
  proves that it agrees with the status enum of `campaign.dfy`.

The contracts' Solidity source is not part of this model. The behaviour
modelled is the one the assertions of `test/CharityDonation.test.js` and
`test/SimpleStorage.test.js` fix, followed over the tests' titles. For example,
the test titled "initialize nextCampaignId to 0" asserts 1, and the model
starts at 1.

Time and identity: block time is the parameter `now`, a `nat` of seconds, and
`msg.sender` is the parameter `caller`. Block times never decrease on the chain.
The ledger therefore keeps the ghost field `clock`, the time of the last
successful call that reads the block time (approve and block leave it alone),
and the time-reading methods require `clock <= now`. The
invariant needs this. Without it, a donation "in the past" could reopen a
campaign that was already settled.

Order of checks, and guards the tests do not show:
- `approveCampaign`/`blockCampaign` check the admin before the campaign's
  existence. The test calls with id 0 and expects "only admin".
- `donate` checks existence, then "campaign not approved", then
  "campaign ended" (`now >= deadline`).
- `withdrawFunds` checks existence, then "campaign not ended"
  (`now < deadline`), then "not completed" (`raised < target`), then
  "already withdrawn", then "only receiver".
- `claimRefund` checks existence, then "campaign not ended", then
  "campaign successful" (`raised >= target`), then "nothing to refund"
  (a zero record).
- The tests pin only the "only admin", "deadline must be in future",
  "campaign not approved", "campaign ended", "not completed" and
  "campaign successful" cases.
- The existence checks (`NotFound`), "campaign not ended" on withdraw and
  refund (no test calls either before the deadline), "already withdrawn",
  "only receiver", "nothing to refund" and the order of the withdraw/refund
  checks are design choices of this model, and their revert strings are the
  model's own wording.
- `withdrawFunds` and `claimRefund` do not read the campaign's status: their
  listed guards are existence, the deadline, the target, the withdrawn flag,
  the receiver and the donor's record. So a campaign approved, funded to its
  target and then blocked can still be withdrawn after its deadline, and a
  never-approved campaign with target 0 can be withdrawn for 0. No test
  settles this either way; it is a modelling choice.
- Zero-value donations are accepted: nothing shown makes the contract reject
  them.
- `getDonationAmount` fails with `NotFound` for a campaign that does not
  exist (a design choice); it reads 0 for an account that never donated.
- `increment` and `decrement` are modelled as emitting no event, since only
  `set` is shown emitting one.

## Model

| member | source | states |
|---|---|---|
| CampaignModel.Code | test/CharityDonation.test.js:52 | the ordinals of the status enum: Pending is 0, Approved 1, Blocked 2, each status has one code below 5 (asserted at lines 52, 94, 131) |
| CampaignModel.Message | test/CharityDonation.test.js:69-422 | every revert reason has a non-empty revert string; the wording of the six reasons the tests assert is in `FixedMessages` |
| CampaignModel.FixedMessages | test/CharityDonation.test.js:69-422 | the revert strings asserted by the tests: "deadline must be in future" (line 69), "only admin" (111), "campaign not approved" (186, 205), "campaign ended" (232), "campaign successful" (394), "not completed" (422) |
| CampaignModel.MessagesDistinct | test/CharityDonation.test.js:167-233 | two revert reasons have the same revert string only if they are the same reason, so "campaign not approved" and "campaign ended" can be told apart |
| CampaignModel.DonorTotalUpdate | test/CharityDonation.test.js:253-272 | replacing one donor's record changes the campaign's donor total by exactly that record's change and leaves every other campaign's total alone |
| CampaignModel.DonorRecordBound | test/CharityDonation.test.js:487-497 | a single donor's record never exceeds the sum of the campaign's records |
| CampaignModel.IdsBelowCount | test/CharityDonation.test.js:24-26 | the ids below `n`, from 1 on, number `n - 1`, so the next id is the campaign count plus one |
| CampaignModel.HeldBound | test/CharityDonation.test.js:311-335 | what is held for one campaign is part of the ledger's whole custody, so a payout of it is covered |
| LedgerInvariant.InitKeepsInv | test/CharityDonation.test.js:20-26 | the empty ledger with next id 1 satisfies the invariant |
| LedgerInvariant.ClockKeepsInv | test/CharityDonation.test.js:223-225 | letting block time advance keeps the invariant |
| LedgerInvariant.CreateKeepsInv | test/CharityDonation.test.js:30-55 | adding a Pending, unfunded campaign under the next id keeps the invariant, the next id then being one more |
| LedgerInvariant.StatusKeepsInv | test/CharityDonation.test.js:72-132 | setting a campaign to Approved or Blocked keeps the invariant and the custody balance |
| LedgerInvariant.DonateKeepsInv | test/CharityDonation.test.js:235-272 | a donation before the deadline finds the campaign neither refunded nor withdrawn, and adding it to `amountRaised`, to the donor's record and to the balance keeps conservation |
| LedgerInvariant.WithdrawKeepsInv | test/CharityDonation.test.js:311-335 | a campaign that met its target after its deadline was never refunded, its whole `amountRaised` is covered by the balance, and paying it out keeps the invariant |
| LedgerInvariant.RefundKeepsInv | test/CharityDonation.test.js:337-388 | a campaign that missed its target was never withdrawn, the donor's record is covered by the balance, and paying it back and zeroing it keeps the invariant |
| CharityDonation.Ledger.constructor | test/CharityDonation.test.js:12-26 | the deployed ledger stores the admin it was given, its next id is 1, it has no campaigns, records, balance or events, and its clock is 0, so any first call may follow |
| CharityDonation.Ledger.GetNextCampaignId | test/CharityDonation.test.js:24-26 | the next id is one more than the number of campaigns created |
| CharityDonation.Ledger.CreateCampaign | test/CharityDonation.test.js:30-70 | with a deadline in the future: returns the current next id, stores receiver, cause, description, target and deadline verbatim with creator = caller, status Pending, nothing raised, not withdrawn, bumps the counter by one and emits CampaignCreated; otherwise reverts "deadline must be in future" and creates nothing |
| CharityDonation.Ledger.ApproveCampaign | test/CharityDonation.test.js:72-112 | a non-admin reverts "only admin" before any existence check; the admin sets the status to Approved, changing nothing else (the ghost clock and refund totals included), and emits CampaignApproved |
| CharityDonation.Ledger.BlockCampaign | test/CharityDonation.test.js:114-132 | as approve, setting the status to Blocked and emitting CampaignBlocked |
| CharityDonation.Ledger.Donate | test/CharityDonation.test.js:152-233 | reverts "campaign not approved" for Pending and Blocked, "campaign ended" at or after the deadline, changing nothing; otherwise adds the value to `amountRaised`, to the caller's own record only, and to the balance, and emits DonationReceived |
| CharityDonation.Ledger.WithdrawFunds | test/CharityDonation.test.js:311-335 | after the deadline with the target met, the receiver is paid exactly `amountRaised`, which stays recorded, `fundsWithdrawn` becomes true and FundsWithdrawn is emitted; with the target missed it reverts "not completed" (lines 397-423) |
| CharityDonation.Ledger.ClaimRefund | test/CharityDonation.test.js:337-395 | after the deadline with the target missed, pays the caller their record, sets it to 0, leaves `amountRaised` and other records alone and emits RefundClaimed; with the target met it reverts "campaign successful" even for a donor with a positive record |
| CharityDonation.Ledger.GetCampaign | test/CharityDonation.test.js:459-469 | returns the stored record of exactly the ids handed out, carrying its own id |
| CharityDonation.Ledger.GetAllCampaigns | test/CharityDonation.test.js:471-485 | returns every campaign, one per id, in ascending id order starting at 1 |
| CharityDonation.Ledger.GetDonationAmount | test/CharityDonation.test.js:487-497 | returns the donor's cumulative record, 0 for a non-donor, never more than the campaign's `amountRaised` |
| CharityDonation.Ledger.Conservation | test/CharityDonation.test.js:235-272 | until a refund, `amountRaised` is the sum of the donors' records; until withdrawal, those records are covered by the balance; a campaign is never both withdrawn and refunded |
| CharityDonation.WithdrawScenario | test/CharityDonation.test.js:281-335 | deploy, create with target 10, approve, donations of 6 and 5, then after the deadline the receiver is paid `Success(11)` and the balance is 0; a refund then reverts "campaign successful" (line 390-395) and a second withdrawal "already withdrawn" |
| CharityDonation.RefundScenario | test/CharityDonation.test.js:336-388 | deploy, create with target 100, approve, a donation of 1, then after the deadline the donor is refunded `Success(1)` and their record reads 0; a second claim reverts "nothing to refund" and the receiver's withdrawal "not completed" (lines 397-423) |
| CharityDonation.DonateTwice | test/CharityDonation.test.js:235-251 | two donations by one donor accumulate in both the campaign total and that donor's record and leave other donors' records alone |
| SimpleStorage.Store.constructor | test/SimpleStorage.test.js:21-23 | a fresh store holds 0 |
| SimpleStorage.Store.Get | test/SimpleStorage.test.js:27-31 | reads the stored value |
| SimpleStorage.Store.Set | test/SimpleStorage.test.js:49-54 | stores the value and emits DataStored(value, caller) |
| SimpleStorage.Store.Increment | test/SimpleStorage.test.js:33-37 | adds exactly 1 |
| SimpleStorage.Store.Decrement | test/SimpleStorage.test.js:39-47 | subtracts exactly 1 from a positive value; at 0 reverts "Cannot decrement below zero" and the value stays 0 |
| SimpleStorage.SetThenGet | test/SimpleStorage.test.js:27-31 | a `get` after `set(v)` returns v |
| SimpleStorage.IncrementThenDecrement | test/SimpleStorage.test.js:33-43 | a decrement after an increment succeeds and restores the value |
| BlockchainRoutes.StatusString | routes/blockchain.js:214-217 | total: the result is one of the five names or "Unknown", and it is "Unknown" exactly for the codes outside 0 .. 4 |
| BlockchainRoutes.StatusStringMatchesEnum | routes/blockchain.js:215 | the code of each status shows as that status's name (0 Pending, 1 Approved, 2 Blocked, 3 Completed, 4 Failed), and 0 .. 4 are exactly the status codes |
| BlockchainRoutes.NamesDistinct | routes/blockchain.js:215 | different statuses show as different names |

## Left out

- The HTTP routes, request parsing, responses, the deploy-before-use
  middleware, the module-level contract handle and the ABI file reading in
  `routes/blockchain.js`: I/O plumbing around the contract.
- Signer selection in the routes (fixed signers 0 and 1): configuration, not
  ledger logic.
- The decimal `parseEther`/`formatEther` conversions: amounts are whole
  numbers of the smallest unit throughout.
- `scripts/deploy.js`: deployment and console output.
- Gas and the approximate balance checks of the tests. The payout is modelled
  exactly, as the returned amount and the drop in the custody balance.
- EVM time manipulation in the tests. It is replaced by the `now` parameter.
- Real value transfers, their possible failure and reentrancy. Execution is
  serial, and a payout is a returned amount, so no transfer-failure error
  exists in the model.
- `getDonations` and the per-donation timestamp. The tests do not exercise
  them. `routes/blockchain.js:249-253` shows that each entry carries a donor,
  an amount and a timestamp, but not whether the list holds one entry per
  donation or one per donor, so its contents are not modelled.
- The Completed and Failed statuses are declared but never set. The invariant
  proves that no operation reaches them.
- 256-bit integer bounds: ledger amounts, ids and SimpleStorage's value are
  unbounded naturals, so neither an overflow revert in `increment` nor one in
  a donation total is modelled.
- CharityDonation.Ledger.Donate: the requirement `clock <= now` is not a check
  of the contract. It states the chain's guarantee that block times do not
  decrease, and the same holds for CreateCampaign, WithdrawFunds and
  ClaimRefund.
