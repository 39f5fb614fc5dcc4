/** The bounty contract as it runs, its methods in the code's own order. */
module BountyContract {
  import opened Results
  import opened Bounty

  class Escrow {
    const sha: nat -> nat
    var governance: nat
    var balance: i128
    var reserved: i128
    var nextPayoutId: u64
    var awards: map<nat, Award>
    var payouts: map<nat, Payout>
    var bindings: map<nat, Binding>
    var disclosures: map<nat, nat>
    var commitmentAwards: map<nat, CommitmentAward>
    var used: set<nat>
    var frozen: set<nat>
    var allowed: set<nat>

    constructor (sha: nat -> nat, governance: nat)
      ensures this.sha == sha && View() == Initial(governance)
    {
      this.sha, this.governance := sha, governance;
      balance, reserved, nextPayoutId := 0, 0, 0;
      awards, payouts, bindings, disclosures, commitmentAwards := map[], map[], map[], map[], map[];
      used, frozen, allowed := {}, {}, {};
    }

    function View(): State
      reads this
    {
      State(governance, balance, reserved, nextPayoutId, awards, payouts, bindings, disclosures, commitmentAwards,
            used, frozen, allowed)
    }

    method RotateGovernance(caller: nat, newGovernance: nat) returns (r: Result<int, BountyError>)
      modifies this
      ensures (View(), r) == Step(sha, old(View()), Call(SetGovernance(caller, newGovernance), 0))
    {
      if caller != governance {
        return Err(Unauthorized);
      }
      governance := newGovernance;
      return Ok(0);
    }

    method FundPool(amount: i128, transferOk: bool) returns (r: Result<int, BountyError>)
      modifies this
      ensures (View(), r) == DoFund(old(View()), amount, transferOk)
    {
      if amount <= 0 {
        return Err(InvalidAmount);
      }
      if AddRefused(balance, amount) {
        return Err(InvalidAmount);
      }
      var newBalance := balance + amount;
      if !transferOk {
        return Err(Trapped);
      }
      balance := newBalance;
      return Ok(0);
    }

    method PushAward(caller: nat, researcher: nat, amount: i128, reportHash: nat, transferOk: bool, now: u64)
      returns (r: Result<int, BountyError>)
      modifies this
      ensures (View(), r) == DoAward(old(View()), caller, researcher, amount, reportHash, transferOk, now)
    {
      if caller != governance {
        return Err(Unauthorized);
      }
      if amount <= 0 {
        return Err(InvalidAmount);
      }
      if reportHash in awards {
        return Err(DuplicateReport);
      }
      if researcher !in allowed {
        return Err(RecipientNotAllowed);
      }
      if amount > balance - reserved {
        return Err(InsufficientBalance);
      }
      if SubRefused(balance, amount) {
        return Err(InsufficientBalance);
      }
      if !transferOk {
        return Err(Trapped);
      }
      balance := balance - amount;
      awards := awards[reportHash := Award(researcher, amount, reportHash, now)];
      return Ok(0);
    }

    method ReservePayout(caller: nat, recipient: nat, amount: i128, deadline: u64, now: u64)
      returns (r: Result<int, BountyError>)
      modifies this
      ensures (View(), r) == DoCreatePayout(old(View()), caller, recipient, amount, deadline, now)
    {
      if caller != governance {
        return Err(Unauthorized);
      }
      if amount <= 0 {
        return Err(InvalidAmount);
      }
      if deadline <= now {
        return Err(InvalidDeadline);
      }
      if recipient !in allowed {
        return Err(RecipientNotAllowed);
      }
      if amount > balance - reserved {
        return Err(InsufficientBalance);
      }
      if AddRefused(reserved, amount) {
        return Err(InvalidAmount);
      }
      var id := nextPayoutId;
      if id == U64_MAX {
        return Err(Trapped);
      }
      reserved := reserved + amount;
      nextPayoutId := id + 1;
      payouts := payouts[id := Payout(recipient, amount, deadline, Pending)];
      return Ok(id);
    }

    /** Status, reservation and pool are written before the transfer; a failed transfer takes them all back. */
    method SettlePayout(id: u64, status: PayoutStatus, transferOk: bool) returns (r: Result<int, BountyError>)
      requires id in payouts
      modifies this
      ensures (View(), r) == Settle(old(View()), id, status, transferOk)
    {
      var payouts0, reserved0, balance0 := payouts, reserved, balance;
      var amount := payouts[id].amount;
      payouts := payouts[id := payouts[id].(status := status)];
      if SubRefused(reserved, amount) {
        payouts := payouts0;
        return Err(InsufficientBalance);
      }
      reserved := reserved - amount;
      if SubRefused(balance, amount) {
        payouts, reserved := payouts0, reserved0;
        return Err(InsufficientBalance);
      }
      balance := balance - amount;
      if !transferOk {
        payouts, reserved, balance := payouts0, reserved0, balance0;
        return Err(Trapped);
      }
      return Ok(amount);
    }

    method ClaimPayout(recipient: nat, id: u64, transferOk: bool) returns (r: Result<int, BountyError>)
      modifies this
      ensures (View(), r) == DoClaim(old(View()), recipient, id, transferOk)
    {
      if id !in payouts {
        return Err(PayoutNotFound);
      }
      if payouts[id].recipient != recipient {
        return Err(NotRecipient);
      }
      if payouts[id].status != Pending {
        return Err(PayoutAlreadySettled);
      }
      r := SettlePayout(id, Claimed, transferOk);
    }

    method SweepExpired(id: u64, transferOk: bool, now: u64) returns (r: Result<int, BountyError>)
      modifies this
      ensures (View(), r) == DoSweep(old(View()), id, transferOk, now)
    {
      if id !in payouts {
        return Err(PayoutNotFound);
      }
      if now < payouts[id].deadline {
        return Err(DeadlineNotReached);
      }
      if payouts[id].status != Pending {
        return Err(PayoutAlreadySettled);
      }
      r := SettlePayout(id, Swept, transferOk);
    }

    method SubmitDisclosure(reportHash: nat, commitment: nat) returns (r: Result<int, BountyError>)
      modifies this
      ensures (View(), r) == DoDisclose(old(View()), reportHash, commitment)
    {
      if reportHash in disclosures || reportHash in awards {
        return Err(DuplicateReport);
      }
      if commitment in used {
        return Err(CommitmentAlreadyUsed);
      }
      disclosures := disclosures[reportHash := commitment];
      used := used + {commitment};
      return Ok(0);
    }

    method RegisterAddress(owner: nat, preimage: nat, payoutAddress: nat, now: u64)
      returns (r: Result<int, BountyError>)
      modifies this
      ensures (View(), r) == DoRegister(old(View()), owner, sha(preimage), payoutAddress, now)
    {
      if payoutAddress in frozen {
        return Err(AddressFrozen);
      }
      var commitment := sha(preimage);
      if commitment in bindings {
        return Err(CommitmentAlreadyUsed);
      }
      bindings := bindings[commitment :=
        Binding(owner, payoutAddress, now, SaturatingAddU64(now, DEFAULT_BINDING_TTL_SECS))];
      return Ok(commitment);
    }

    method RotateAddress(owner: nat, preimage: nat, payoutAddress: nat, now: u64)
      returns (r: Result<int, BountyError>)
      modifies this
      ensures (View(), r) == DoRotate(old(View()), owner, sha(preimage), payoutAddress, now)
    {
      if payoutAddress in frozen {
        return Err(AddressFrozen);
      }
      var commitment := sha(preimage);
      if commitment !in bindings {
        return Err(BindingNotFound);
      }
      var binding := bindings[commitment];
      if now > binding.expiresAt {
        return Err(BindingExpired);
      }
      if binding.owner != owner {
        return Err(NotBindingOwner);
      }
      if commitment in commitmentAwards {
        if !commitmentAwards[commitment].open {
          return Err(PayoutAlreadySettled);
        }
      }
      binding := binding.(payoutAddress := payoutAddress);
      binding := binding.(registeredAt := now);
      binding := binding.(expiresAt := SaturatingAddU64(now, DEFAULT_BINDING_TTL_SECS));
      bindings := bindings[commitment := binding];
      return Ok(0);
    }

    /**
     * The commitment is recorded before the balance is checked; a refusal takes
     * that back. The unchecked addition fits, as the pool covers it.
     */
    method AwardToCommitment(caller: nat, reportHash: nat, commitment: nat, amount: i128, now: u64)
      returns (r: Result<int, BountyError>)
      modifies this
      ensures (View(), r) == DoAwardCommitment(old(View()), caller, reportHash, commitment, amount, now)
    {
      var disclosures0, used0 := disclosures, used;
      if caller != governance {
        return Err(Unauthorized);
      }
      if amount <= 0 {
        return Err(InvalidAmount);
      }
      if reportHash in awards {
        return Err(DuplicateReport);
      }
      if commitment in commitmentAwards {
        return Err(DuplicateReport);
      }
      if reportHash in disclosures {
        if disclosures[reportHash] != commitment {
          return Err(CommitmentMismatch);
        }
      } else {
        if commitment in used {
          return Err(CommitmentAlreadyUsed);
        }
        disclosures := disclosures[reportHash := commitment];
        used := used + {commitment};
      }
      if amount > balance - reserved {
        disclosures, used := disclosures0, used0;
        return Err(InsufficientBalance);
      }
      reserved := reserved + amount;
      commitmentAwards := commitmentAwards[commitment := CommitmentAward(reportHash, commitment, amount, now, true)];
      return Ok(0);
    }

    method ClaimAward(caller: nat, preimage: nat, transferOk: bool, now: u64) returns (r: Result<int, BountyError>)
      modifies this
      ensures (View(), r) == DoClaimByCommitment(old(View()), caller, sha(preimage), transferOk, now)
    {
      var commitment := sha(preimage);
      if commitment !in commitmentAwards {
        return Err(InvalidPreimage);
      }
      var award := commitmentAwards[commitment];
      if !award.open {
        return Err(PayoutAlreadySettled);
      }
      if commitment !in bindings {
        return Err(BindingNotFound);
      }
      var binding := bindings[commitment];
      if now > binding.expiresAt {
        return Err(BindingExpired);
      }
      if caller != binding.owner && caller != binding.payoutAddress {
        return Err(Unauthorized);
      }
      if binding.payoutAddress in frozen {
        return Err(AddressFrozen);
      }
      var amount := award.amount;
      if !FitsI128(reserved - amount) || !FitsI128(balance - amount) {
        return Err(Trapped);
      }
      var before := (commitmentAwards, awards, reserved, balance);
      commitmentAwards := commitmentAwards[commitment := award.(open := false)];
      reserved := reserved - amount;
      balance := balance - amount;
      awards := awards[award.reportHash := Award(binding.payoutAddress, amount, award.reportHash, now)];
      if !transferOk {
        commitmentAwards, awards, reserved, balance := before.0, before.1, before.2, before.3;
        return Err(Trapped);
      }
      return Ok(amount);
    }

    method FreezeAddress(caller: nat, address: nat, freeze: bool) returns (r: Result<int, BountyError>)
      modifies this
      ensures (View(), r) == DoFreeze(old(View()), caller, address, freeze)
    {
      if caller != governance {
        return Err(Unauthorized);
      }
      frozen := if freeze then frozen + {address} else frozen - {address};
      return Ok(0);
    }
  }
}
