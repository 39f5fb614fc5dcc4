/**
 * The bug-bounty escrow: a reward pool, pull payouts, and awards against
 * commitments whose payout address stays hidden until they are claimed.
 * SHA-256 is the function `sha`; a token transfer that fails makes the host
 * undo the whole call.
 */
module Bounty {
  import opened Results

  const DEFAULT_BINDING_TTL_SECS: u64 := 30 * 24 * 60 * 60

  datatype Award = Award(researcher: nat, amount: i128, reportHash: nat, timestamp: u64)

  datatype PayoutStatus = Pending | Claimed | Swept

  datatype Payout = Payout(recipient: nat, amount: i128, deadline: u64, status: PayoutStatus)

  datatype Binding = Binding(owner: nat, payoutAddress: nat, registeredAt: u64, expiresAt: u64)

  datatype CommitmentAward = CommitmentAward(reportHash: nat, commitment: nat, amount: i128, awardedAt: u64, open: bool)

  datatype BountyError =
    | InvalidAmount
    | InsufficientBalance
    | Unauthorized
    | DuplicateReport
    | PayoutNotFound
    | NotRecipient
    | PayoutAlreadySettled
    | DeadlineNotReached
    | InvalidDeadline
    | RecipientNotAllowed
    | CommitmentAlreadyUsed
    | BindingNotFound
    | BindingExpired
    | NotBindingOwner
    | InvalidPreimage
    | AddressFrozen
    | CommitmentMismatch
    | Trapped

  datatype State = State(
    governance: nat,
    balance: i128,
    reserved: i128,
    nextPayoutId: u64,
    awards: map<nat, Award>,
    payouts: map<nat, Payout>,
    bindings: map<nat, Binding>,
    disclosures: map<nat, nat>,
    commitmentAwards: map<nat, CommitmentAward>,
    used: set<nat>,
    frozen: set<nat>,
    allowed: set<nat>)

  datatype Op =
    | SetGovernance(caller: nat, governance: nat)
    | Fund(amount: i128, transferOk: bool)
    | AwardNow(caller: nat, researcher: nat, amount: i128, reportHash: nat, transferOk: bool)
    | CreatePayout(caller: nat, recipient: nat, amount: i128, deadline: u64)
    | Claim(recipient: nat, id: u64, transferOk: bool)
    | Sweep(id: u64, transferOk: bool)
    | Disclose(reportHash: nat, commitment: nat)
    | Register(owner: nat, preimage: nat, payoutAddress: nat)
    | Rotate(owner: nat, preimage: nat, payoutAddress: nat)
    | AwardCommitment(caller: nat, reportHash: nat, commitment: nat, amount: i128)
    | ClaimByCommitment(caller: nat, preimage: nat, transferOk: bool)
    | Freeze(caller: nat, address: nat, freeze: bool)
    | Screen(recipient: nat, allow: bool)

  datatype Call = Call(op: Op, now: u64)

  type Outcome = (State, Result<int, BountyError>)

  // ---------------------------------------------------------------------
  // Transitions
  // ---------------------------------------------------------------------

  function Fail(s: State, e: BountyError): Outcome {
    (s, Err(e))
  }

  function Available(s: State): int {
    s.balance - s.reserved
  }

  function DoFund(s: State, amount: i128, transferOk: bool): Outcome {
    if amount <= 0 || AddRefused(s.balance, amount) then Fail(s, InvalidAmount)
    else if !transferOk then Fail(s, Trapped)
    else (s.(balance := s.balance + amount), Ok(0))
  }

  function DoAward(s: State, caller: nat, researcher: nat, amount: i128, reportHash: nat, transferOk: bool, now: u64)
    : Outcome
  {
    if caller != s.governance then Fail(s, Unauthorized)
    else if amount <= 0 then Fail(s, InvalidAmount)
    else if reportHash in s.awards then Fail(s, DuplicateReport)
    else if researcher !in s.allowed then Fail(s, RecipientNotAllowed)
    else if amount > Available(s) || SubRefused(s.balance, amount) then Fail(s, InsufficientBalance)
    else if !transferOk then Fail(s, Trapped)
    else
      (s.(balance := s.balance - amount,
          awards := s.awards[reportHash := Award(researcher, amount, reportHash, now)]), Ok(0))
  }

  function DoCreatePayout(s: State, caller: nat, recipient: nat, amount: i128, deadline: u64, now: u64): Outcome {
    if caller != s.governance then Fail(s, Unauthorized)
    else if amount <= 0 then Fail(s, InvalidAmount)
    else if deadline <= now then Fail(s, InvalidDeadline)
    else if recipient !in s.allowed then Fail(s, RecipientNotAllowed)
    else if amount > Available(s) then Fail(s, InsufficientBalance)
    else if AddRefused(s.reserved, amount) then Fail(s, InvalidAmount)
    else if s.nextPayoutId == U64_MAX then Fail(s, Trapped)
    else
      (s.(reserved := s.reserved + amount, nextPayoutId := s.nextPayoutId + 1,
          payouts := s.payouts[s.nextPayoutId := Payout(recipient, amount, deadline, Pending)]), Ok(s.nextPayoutId))
  }

  /** Releases a reservation and takes it out of the pool; the transfer comes last. */
  function Settle(s: State, id: u64, status: PayoutStatus, transferOk: bool): Outcome
    requires id in s.payouts
  {
    var p := s.payouts[id];
    if SubRefused(s.reserved, p.amount) || SubRefused(s.balance, p.amount) then Fail(s, InsufficientBalance)
    else if !transferOk then Fail(s, Trapped)
    else
      (s.(payouts := s.payouts[id := p.(status := status)],
          reserved := s.reserved - p.amount, balance := s.balance - p.amount), Ok(p.amount))
  }

  function DoClaim(s: State, recipient: nat, id: u64, transferOk: bool): Outcome {
    if id !in s.payouts then Fail(s, PayoutNotFound)
    else if s.payouts[id].recipient != recipient then Fail(s, NotRecipient)
    else if !s.payouts[id].status.Pending? then Fail(s, PayoutAlreadySettled)
    else Settle(s, id, Claimed, transferOk)
  }

  function DoSweep(s: State, id: u64, transferOk: bool, now: u64): Outcome {
    if id !in s.payouts then Fail(s, PayoutNotFound)
    else if now < s.payouts[id].deadline then Fail(s, DeadlineNotReached)
    else if !s.payouts[id].status.Pending? then Fail(s, PayoutAlreadySettled)
    else Settle(s, id, Swept, transferOk)
  }

  function DoDisclose(s: State, reportHash: nat, commitment: nat): Outcome {
    if reportHash in s.disclosures || reportHash in s.awards then Fail(s, DuplicateReport)
    else if commitment in s.used then Fail(s, CommitmentAlreadyUsed)
    else
      (s.(disclosures := s.disclosures[reportHash := commitment], used := s.used + {commitment}), Ok(0))
  }

  function NewBinding(owner: nat, payoutAddress: nat, now: u64): Binding {
    Binding(owner, payoutAddress, now, SaturatingAddU64(now, DEFAULT_BINDING_TTL_SECS))
  }

  function DoRegister(s: State, owner: nat, commitment: nat, payoutAddress: nat, now: u64): Outcome {
    if payoutAddress in s.frozen then Fail(s, AddressFrozen)
    else if commitment in s.bindings then Fail(s, CommitmentAlreadyUsed)
    else
      (s.(bindings := s.bindings[commitment := NewBinding(owner, payoutAddress, now)]), Ok(commitment))
  }

  function DoRotate(s: State, owner: nat, commitment: nat, payoutAddress: nat, now: u64): Outcome {
    if payoutAddress in s.frozen then Fail(s, AddressFrozen)
    else if commitment !in s.bindings then Fail(s, BindingNotFound)
    else if now > s.bindings[commitment].expiresAt then Fail(s, BindingExpired)
    else if s.bindings[commitment].owner != owner then Fail(s, NotBindingOwner)
    else if commitment in s.commitmentAwards && !s.commitmentAwards[commitment].open then Fail(s, PayoutAlreadySettled)
    else
      (s.(bindings := s.bindings[commitment := NewBinding(owner, payoutAddress, now)]), Ok(0))
  }

  function DoAwardCommitment(s: State, caller: nat, reportHash: nat, commitment: nat, amount: i128, now: u64): Outcome {
    if caller != s.governance then Fail(s, Unauthorized)
    else if amount <= 0 then Fail(s, InvalidAmount)
    else if reportHash in s.awards then Fail(s, DuplicateReport)
    else if commitment in s.commitmentAwards then Fail(s, DuplicateReport)
    else if reportHash in s.disclosures && s.disclosures[reportHash] != commitment then Fail(s, CommitmentMismatch)
    else if reportHash !in s.disclosures && commitment in s.used then Fail(s, CommitmentAlreadyUsed)
    else if amount > Available(s) then Fail(s, InsufficientBalance)
    else
      var award := CommitmentAward(reportHash, commitment, amount, now, true);
      var t := if reportHash in s.disclosures then s
               else s.(disclosures := s.disclosures[reportHash := commitment], used := s.used + {commitment});
      (t.(reserved := s.reserved + amount,
          commitmentAwards := s.commitmentAwards[commitment := award]), Ok(0))
  }

  function DoClaimByCommitment(s: State, caller: nat, commitment: nat, transferOk: bool, now: u64): Outcome {
    if commitment !in s.commitmentAwards then Fail(s, InvalidPreimage)
    else if !s.commitmentAwards[commitment].open then Fail(s, PayoutAlreadySettled)
    else if commitment !in s.bindings then Fail(s, BindingNotFound)
    else
      var award := s.commitmentAwards[commitment];
      var binding := s.bindings[commitment];
      if now > binding.expiresAt then Fail(s, BindingExpired)
      else if caller != binding.owner && caller != binding.payoutAddress then Fail(s, Unauthorized)
      else if binding.payoutAddress in s.frozen then Fail(s, AddressFrozen)
      else if !FitsI128(s.reserved - award.amount) || !FitsI128(s.balance - award.amount) then Fail(s, Trapped)
      else if !transferOk then Fail(s, Trapped)
      else
        (s.(commitmentAwards := s.commitmentAwards[commitment := award.(open := false)],
            reserved := s.reserved - award.amount, balance := s.balance - award.amount,
            awards := s.awards[award.reportHash :=
                        Award(binding.payoutAddress, award.amount, award.reportHash, now)]), Ok(award.amount))
  }

  function DoFreeze(s: State, caller: nat, address: nat, freeze: bool): Outcome {
    if caller != s.governance then Fail(s, Unauthorized)
    else (s.(frozen := if freeze then s.frozen + {address} else s.frozen - {address}), Ok(0))
  }

  function DoScreen(s: State, recipient: nat, allow: bool): Outcome {
    (s.(allowed := if allow then s.allowed + {recipient} else s.allowed - {recipient}), Ok(0))
  }

  function Step(sha: nat -> nat, s: State, call: Call): Outcome {
    match call.op
    case SetGovernance(caller, governance) =>
      if caller != s.governance then Fail(s, Unauthorized) else (s.(governance := governance), Ok(0))
    case Fund(amount, transferOk) => DoFund(s, amount, transferOk)
    case AwardNow(caller, researcher, amount, reportHash, transferOk) =>
      DoAward(s, caller, researcher, amount, reportHash, transferOk, call.now)
    case CreatePayout(caller, recipient, amount, deadline) =>
      DoCreatePayout(s, caller, recipient, amount, deadline, call.now)
    case Claim(recipient, id, transferOk) => DoClaim(s, recipient, id, transferOk)
    case Sweep(id, transferOk) => DoSweep(s, id, transferOk, call.now)
    case Disclose(reportHash, commitment) => DoDisclose(s, reportHash, commitment)
    case Register(owner, preimage, payoutAddress) => DoRegister(s, owner, sha(preimage), payoutAddress, call.now)
    case Rotate(owner, preimage, payoutAddress) => DoRotate(s, owner, sha(preimage), payoutAddress, call.now)
    case AwardCommitment(caller, reportHash, commitment, amount) =>
      DoAwardCommitment(s, caller, reportHash, commitment, amount, call.now)
    case ClaimByCommitment(caller, preimage, transferOk) =>
      DoClaimByCommitment(s, caller, sha(preimage), transferOk, call.now)
    case Freeze(caller, address, freeze) => DoFreeze(s, caller, address, freeze)
    case Screen(recipient, allow) => DoScreen(s, recipient, allow)
  }

  function Run(sha: nat -> nat, s: State, calls: seq<Call>): State {
    if calls == [] then s
    else Step(sha, Run(sha, s, calls[..|calls| - 1]), calls[|calls| - 1]).0
  }

  function Initial(governance: nat): State {
    State(governance, 0, 0, 0, map[], map[], map[], map[], map[], {}, {}, {})
  }
}
