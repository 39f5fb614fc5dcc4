# Refract: a Dafny model of the money, proof and decision protocols

Refract is an insurance protocol on Soroban with Rust contracts and Python
tooling. This project models the parts of it whose promises span more than one
function, and proves them: exact money arithmetic, the codecs and
authenticated structures of the scripts, the state machines that hold funds,
and the protocols that decide appeals, feeds and reviews.

`dafny verify dfyconfig.toml` checks everything (Dafny 4.11).

## How the model is laid out

| modules | model |
|---|---|
| `Bits`, `Results`, `Sums`, `ByteStrings` | machine words, outcomes and saturating amounts, sums over sequences and maps, byte strings |
| `WideMath`, `Allocation` | `math/src/lib.rs` |
| `Normalization`, `Amounts`, `Fee` | `backstop/src/normalization.rs`, `grants/src/amounts.rs`, `shared/fee.rs` |
| `Strkey`, `Merkle`, `Xdr`, `Encodings` | `scripts/merkle_batch.py`, `scripts/contract_state.py` |
| `Audit`, `RateLimit` | `grants/src/audit.rs`, `grants/src/rate_limit.rs` |
| `GrantRecords`, `Consistency`, `GrantsModel`, `GrantsHistory`, `OnchainGrants`, `OnchainHistory` | `grants/src/lib.rs`, `grants/src/consistency.rs`, `grants/src/contract.rs` |
| `Payout`, `PayoutHistory` | `common/src/payout.rs` |
| `Bounty` (transitions), `BountyReserves`, `BountyRuns`, `BountyHistory`, `BountyContract` | `bounty/src/lib.rs` |
| `Appeals`, `AppealsHistory`, `Oracle`, `OracleHistory` | `grants/src/appeals.rs`, `oracle/src/lib.rs` |
| `GrantTerms`, `GrantChanges`, `Lifecycle` (transitions), `LifecycleInvariant`, `LifecycleRuns`, `LifecycleLingering`, `LifecycleHistory`, `LifecycleContract` | `grants/src/lifecycle.rs` |
| `Review`, `ReviewHistory` | `grants/src/review.rs` |
| `History` | the last entry of a log that bears on a question |

Each module is the file of its name.

A contract is modelled twice. A `State` value with one pure transition per
entrypoint is the specification; invariants and whole-run theorems are lemmas
about it, over every sequence of calls. A class with the contract's own fields
then does what the code does, step by step and in the code's order, and each of
its methods ensures that the new state and the answer are the transition's.
Where the host undoes a failing call, the class puts back what it had already
written; where there is no host (`lifecycle.rs`, `review.rs`, `rate_limit.rs`,
`grants/src/lib.rs`), that a refusal leaves everything as it was follows from
the code order.

The `History` modules say what the transitions cannot be wrong about: over every
run from an empty contract, each stored field is traced to the accepted call it
comes from, the one that created the record or the last one about it, and
whether the next call is accepted, and what it returns, is decided by the
accepted calls so far. They are stated over the log of accepted calls, never over
the transitions; the on-chain contract is compared with the plain model.

Addresses, hashes of documents and feed names are numbers; the caller is an
argument that is already authenticated; ledger times, the answers of token
contracts and of the treasury, and hash functions are parameters. Nothing is
assumed of a hash beyond its digest length: where a promise needs collision
resistance, the lemma asks for it on exactly the strings that were hashed, those
of the check against those of the tree, or the records of the two chains.

## Where the code does not do what it says

Each of these is a theorem with the exact condition, and where it matters a
concrete run.

* The earmark of failed payouts is exact if and only if no recorded failure
  takes a token's liability past the largest i128, because the addition
  saturates (`Payout.LiabilityExact`, `Payout.SaturationLosesEarmark`).
* Reading failed payouts page by page, as documented, finds all of them if and
  only if no gap between them reaches four pages' worth of ids
  (`Payout.PagingComplete`, and for every page size a run in `Payout.GapHidesRecord`).
* An expired payout-address binding cannot be refreshed, although its field is
  described so: the award behind it can still be claimed if and only if the
  binding has not expired (`BountyRuns.ClaimableUnlessExpired`, with a run in
  `BountyRuns.StrandedAward`).
* A report can be paid twice, and its immutable award record overwritten,
  exactly when it is pushed while a commitment award for it is open and its
  binding lives (`BountyRuns.PaidAgainExactly`, `BountyRuns.PaysTwice`); with the check
  that `award` does not make, it is paid once (`BountyRuns.PaidOnce`).
* Activating a relayer again after a removal resets its reputation, although
  the comment says only the first registration does: all adjustments count if
  and only if none is followed by an activation (`Oracle.ReputationSinceActivation`,
  with a run in `Oracle.PenaltyForgotten`).
* A grant that is settled while a request is open, and whose request is then
  closed, is never closed (`LifecycleLingering.LingersExactly`,
  `LifecycleLingering.SettledButFunded`, `LifecycleLingering.LingersForever`).
* The XDR writer accepts 128-bit integers that do not fit and wraps them; a
  value survives the trip if and only if none of its parts is out of range
  (`Xdr.RoundTripExactly`, `Xdr.WordsRoundTrip`).
* The two decimal converters differ on one family of inputs: a zero amount of a
  token with more than 18 decimals (`Amounts.ConvertersAgree`).

## Model

| member | source | states |
|---|---|---|
| WideMath.MulWide | math/src/lib.rs:322-336 | on all words, the two result words are exactly the 256-bit product; no half-word sum overflows |
| WideMath.DivWide | math/src/lib.rs:340-352 | for hi < d, quotient and remainder satisfy q*d + r = hi*2^128 + lo with r < d, although the shift drops the top bit and the subtraction wraps |
| WideMath.MulDivRem | math/src/lib.rs:306-317 | exact quotient and remainder of a*b by c; refused exactly when c is zero or the quotient needs more than one word |
| WideMath.MulDiv | math/src/lib.rs:187-206 | the exact floor or ceiling of a*b/c; Overflow exactly when that exceeds the largest i128, and the other errors exactly for their inputs |
| WideMath.RoundedMeaning | math/src/lib.rs:40-52 | floor is the greatest multiple below and ceiling the least above, as an order property |
| WideMath.SplitRatio | math/src/lib.rs:153-166 | cut and rest add up to the amount and the cut is the floored share; never overflows |
| WideMath.SplitBps | math/src/lib.rs:144-149 | the same for basis points |
| WideMath.ApplyBps | math/src/lib.rs:210-225 | exactly the rounded share, refused only above 100% or for a negative amount |
| WideMath.RatioBps | math/src/lib.rs:229-241 | the rounded rate, always within 0..10000, so the narrowing never fails |
| WideMath.RatioThenApply | math/src/lib.rs:210-241 | measuring a part and applying the rate again never overshoots when both floor, never undershoots when both round up |
| Allocation.Allocate | math/src/lib.rs:93-139 | the result is a fair exact split; it errs exactly for a negative input, a weight sum over 128 bits, or no recipients |
| Allocation.AllocationUnique | math/src/lib.rs:78-92 | largest remainder first, lowest index on ties, leaves no freedom: any two fair splits are equal |
| Allocation.AllocationFair | math/src/lib.rs:78-92 | every output is less than one unit from its exact share, and zero weights get nothing |
| Allocation.AllocationMonotone | math/src/lib.rs:78-92 | a heavier recipient never gets less |
| Allocation.LeftoverBound | math/src/lib.rs:118-137 | the leftover is none, or fewer than the positive remainders |
| Normalization.InflowOutflowGalois | backstop/src/normalization.rs:79-163 | for 0..18 decimals, an inflow is worth at most p exactly when it is at most what p pays out, overflow read as infinity |
| Normalization.ConversionsMonotone | backstop/src/normalization.rs:79-163 | both conversions are monotone |
| Normalization.DepositRoundTrip | backstop/src/normalization.rs:156-163 | depositing and paying back is exact up to 7 decimals and otherwise off by less than one protocol unit, never in the pool's disfavour |
| Normalization.PayoutRoundTrip | backstop/src/normalization.rs:156-163 | paying out and depositing never credits more than was paid for |
| Normalization.ConversionMeaning | backstop/src/normalization.rs:79-151 | what each direction computes over unbounded integers, and exactly when it overflows |
| Amounts.ConvertersAgree | grants/src/amounts.rs:28-51 | on non-negative amounts the two converters agree if and only if it is not a zero amount with more than 18 decimals |
| Amounts.ConvertRoundTrip | grants/src/amounts.rs:28-41 | scaling up and back is exact; scaling down and back never grows the magnitude and loses less than one unit |
| Fee.AssessFeeExact | shared/fee.rs:4-14 | the split computation is floor(gross*bps/10000), at most a tenth, and never overflows |
| Strkey.DecodeEncode | scripts/contract_state.py:77-97 | decoding an encoded key gives the version and payload back |
| Strkey.EncodeDecode | scripts/contract_state.py:77-97 | every accepted key is the encoding of what it decodes to |
| Strkey.CrcDetectsByte | scripts/contract_state.py:67-74 | changing any one byte changes the CRC, at any length |
| Strkey.CorruptionRejected | scripts/contract_state.py:83-97 | a valid key with any one byte changed is refused |
| Strkey.CrcOfOne | scripts/contract_state.py:67-74 | the register of a single one is 0x1021, the polynomial of CRC-16/XMODEM |
| Merkle.BuildTree | scripts/merkle_batch.py:122-133 | refused exactly for no leaves; otherwise the levels over the sorted leaves, with depth the rounded-up logarithm |
| Merkle.ProofFor | scripts/merkle_batch.py:136-144 | finds the leaf's path exactly when the leaf is there |
| Merkle.VerifyProof | scripts/merkle_batch.py:147-151 | accepts exactly when hashing up the proof ends at the root |
| Merkle.ProofReachesTop | scripts/merkle_batch.py:122-151 | completeness: every leaf's proof reaches the root and is no longer than the depth |
| Merkle.RootOrderIndependent | scripts/merkle_batch.py:122-133 | the root depends on the leaves as a multiset only |
| Merkle.DepthIsLogarithmic | scripts/merkle_batch.py:122-133 | depth is at most ceil(log2 n), carried-up odd nodes included |
| Merkle.AcceptedExactlyTreeNodes | scripts/merkle_batch.py:102-151 | for any proof length, a digest is accepted exactly if it is a node of the tree, as long as no string hashed by the check collides with a different one hashed for the tree |
| Merkle.MerkleSoundness | scripts/merkle_batch.py:102-151 | under the same condition on the strings actually hashed, an accepted leaf preimage is one of those the root was built from |
| Merkle.LeafPreimageInjective | scripts/merkle_batch.py:102-114 | the leaf preimage determines asset, recipient, amount and salt |
| Merkle.LeafPreimageLayout | scripts/merkle_batch.py:102-114 | tag 0, recipient, asset, signed big-endian amount, salt, in this order |
| Merkle.NodePreimageSorted | scripts/merkle_batch.py:117-119 | tag 1, the smaller digest, the larger digest |
| ByteStrings.LexMeaning | scripts/merkle_batch.py:117-133 | byte strings are compared by their first difference, a proper prefix first |
| Encodings.AddressesAgree | scripts/merkle_batch.py:84-99 | the leaf encoding of an address is what the snapshot tool writes for the address value |
| Merkle.BuildBatch | scripts/merkle_batch.py:158-186 | succeeds exactly on distinct, positive, well-formed entries, and the batch passes verification for their sum |
| Merkle.VerifyBatch | scripts/merkle_batch.py:189-216 | reports no errors exactly when every leaf, proof, total and the rebuilt root agree |
| Merkle.ClaimIsEntry | scripts/merkle_batch.py:147-216 | under the same condition, a claim accepted against a verified batch is, field for field, one of its entries |
| Merkle.RootBindsBatch | scripts/merkle_batch.py:158-216 | under the same condition, two verified batches with one root have the same asset, and each entry of one is an entry of the other |
| Xdr.WordsRoundTrip | scripts/contract_state.py:246-307 | the hi/lo split and its inverse reduce modulo 2^128; negative values survive |
| Xdr.RoundTrip | scripts/contract_state.py:250-357 | for every writable canonical value, at any depth, reading what was written followed by anything returns the value and stops at the suffix; lengths are multiples of four |
| Xdr.RoundTripExactly | scripts/contract_state.py:250-357 | the trip succeeds if and only if the value is canonical |
| Xdr.ReadIsCanonical | scripts/contract_state.py:309-357 | whatever bytes it is given, the reader returns canonical values only |
| Xdr.WritePrefixFree | scripts/contract_state.py:250-307 | no encoding is a proper prefix of another |
| Xdr.ContractDataRoundTrip | scripts/contract_state.py:372-400 | decoding an encoded entry returns contract, key, durability and value |
| Xdr.LedgerKeyInjective | scripts/contract_state.py:363-369 | different storage keys have different ledger keys |
| Encodings.UnsignedEncodings | scripts/contract_state.py:158-219 | unsigned values byte by byte: type code, then big-endian (RFC 4506, sections 4.2 and 4.5) |
| Encodings.SignedEncodings | scripts/contract_state.py:158-219 | minus one is all ones after its type code |
| Encodings.WideEncodings | scripts/contract_state.py:246-275 | 128-bit values: high word first |
| Encodings.OpaqueEncodings | scripts/contract_state.py:158-182 | length, data, zero padding to a multiple of four (RFC 4506, section 4.10) |
| Encodings.VecEncoding | scripts/contract_state.py:278-287 | presence flag, count, elements (RFC 4506, section 4.13) |
| Xdr.WriteScval | scripts/contract_state.py:250-307 | the stepwise writer appends exactly the specified encoding, or raises when there is none |
| Xdr.ReadScval | scripts/contract_state.py:309-357 | the stepwise reader returns exactly the specified value and position |
| Audit.PreimageInjective | grants/src/audit.rs:107-123 | the fixed-width preimage determines every field |
| Audit.PreimageLayout | grants/src/audit.rs:107-123 | where each field stands in the 92 bytes, integers big-endian |
| Audit.VerifyChain | grants/src/audit.rs:88-104 | accepts exactly the chains that link up, and otherwise reports the first broken record |
| Audit.AuditLog.Append | grants/src/audit.rs:67-84 | earlier records stay, the new one links to the head, and the log still verifies |
| Audit.HeadDeterminesChain | grants/src/audit.rs:88-123 | verified chains with the same head are equal record for record, if the hash keeps the preimages of their records apart and gives none of them the genesis digest |
| Audit.TruncationMovesHead | grants/src/audit.rs:50-52 | under the same condition, dropping the newest records changes the head |
| RateLimit.RateLimiter.Check | grants/src/rate_limit.rs:67-97 | decides and counts as specified; a refusal leaves the counters alone |
| RateLimit.RunRefinesLog | grants/src/rate_limit.rs:67-90 | with non-decreasing ledgers, a call is accepted exactly when the log shows fewer than the maximum in its window |
| RateLimit.SpanBound | grants/src/rate_limit.rs:67-90 | any span of one window's length has at most twice the maximum accepted |
| GrantRecords.ClaimSettles | grants/src/lib.rs:295-318 | claiming settles exactly the confirmed-unclaimed sum and changes no amount |
| Consistency.CheckGrant | grants/src/consistency.rs:29-59 | passes exactly the consistent grants, and each error means its own violation |
| Consistency.SaturationIdle | grants/src/consistency.rs:29-59 | with amounts that add up to the total, the check's saturating sum never saturates |
| GrantsModel.GrantOkPassesCheck | grants/src/consistency.rs:29-59 | the inductive invariant implies the executable check |
| GrantsModel.ConfirmKeeps | grants/src/lib.rs:253-290 | confirming keeps the invariant; the overflow branch, which has already set the flag, is never taken |
| GrantsModel.BatchIsAtomic | grants/src/lib.rs:323-354 | only governance, at most sixteen operations; it leads where its operations made as calls of their own lead, all accepted in turn, or nothing changes and the error is the refusal of the first call not accepted |
| GrantsModel.RunConserves | grants/src/lib.rs:195-354 | on every run each grant passes the check, and approved = paid + owed |
| GrantsHistory.RunIsTraced | grants/src/lib.rs:195-354 | on every run, batches included, a grant has the recipient, award and amounts of the one creation that returned its id; a milestone is confirmed exactly if it was, once, and claimed exactly if a claim followed |
| GrantsHistory.AcceptedByHistory | grants/src/lib.rs:195-318 | the accepted calls so far decide whether a creation, confirmation or claim is accepted |
| GrantsModel.Model.CreateGrant | grants/src/lib.rs:195-249 | the stepwise creation is the specified one |
| GrantsModel.Model.ConfirmMilestone | grants/src/lib.rs:253-290 | the stepwise confirmation is the specified one |
| GrantsModel.Model.ClaimGrant | grants/src/lib.rs:295-318 | the stepwise claim is the specified one |
| GrantsModel.Model.ApplyBatch | grants/src/lib.rs:323-354 | works on a clone and installs it only at the end |
| GrantsModel.Model.AccountedLiabilities | grants/src/lib.rs:176-190 | the saturating fold is the true sum, capped |
| GrantsModel.Model.Rescue | grants/src/lib.rs:359-379 | allowed exactly to governance within the live excess, so what is owed stays covered |
| OnchainGrants.FeesConserved | grants/src/contract.rs:138-391 | on every run, calls made from inside transfers included: claimed = paid out + accrued + swept, and approved = claimed + owed |
| OnchainGrants.LockedMovesNothing | grants/src/contract.rs:234-391 | while a transfer is in flight, nothing nested in it moves money, however deep |
| OnchainGrants.ClaimPaysOnce | grants/src/contract.rs:234-325 | a claim pays the confirmed amount less the floored fee, and cannot be repeated |
| OnchainGrants.ConfirmAsModel | grants/src/contract.rs:193-232 | the contract confirms exactly when the plain model does, and never overflows |
| OnchainHistory.RefinesModel | grants/src/contract.rs:121-391 | over every run, calls from inside transfers included, the grants are those of the plain model after the same creations, confirmations and claims; fee configuration and screening are what the last call said |
| OnchainHistory.AcceptedByHistory | grants/src/contract.rs:121-391 | between transfers, exactly which calls are accepted; a claim returns the claimable amount less the floored fee, a sweep all fees collected, a creation the next id |
| OnchainGrants.Contract.ClaimGrant | grants/src/contract.rs:234-316 | effects before the transfer, lock held across it, everything undone if it fails |
| OnchainGrants.Contract.SweepFees | grants/src/contract.rs:353-391 | likewise for the accrued fees |
| OnchainGrants.Contract.QuotePayout | grants/src/contract.rs:318-351 | net and fee add up to gross and neither is negative |
| Payout.LiabilityExact | common/src/payout.rs:211-424 | at every moment of a run the liability is the sum of the Failed records, if and only if every call had headroom |
| Payout.ClampIdle | common/src/payout.rs:419-424 | while it is exact, the clamp at zero never acts |
| Payout.SaturationLosesEarmark | common/src/payout.rs:408-424 | two refusals of the largest amount, then one payment, leave a Failed record with nothing earmarked |
| Payout.RunEvolves | common/src/payout.rs:274-354 | a record outlives every run, leaves Failed at most once, keeps amount, token and first failure time, and changes recipient only by redirection |
| PayoutHistory.RecordsAreTraced | common/src/payout.rs:211-354 | on every run, a record comes from exactly one refused payment and keeps its token, amount, context and time; it is owed to the last redirection's recipient, or else that payment's; status, reason, attempts and last attempt are those of the retries and reclaims made |
| PayoutHistory.AnsweredByHistory | common/src/payout.rs:211-354 | the accepted calls so far decide every answer: a redirection is accepted exactly for an owed payout and another payee, and hands back the record with the new recipient |
| Payout.AttemptsCounted | common/src/payout.rs:287-305 | over any run the attempt count is the attempts made, saturating |
| Payout.ReclaimWaits | common/src/payout.rs:211-354 | a payout can be reclaimed exactly from thirty days after it first failed, retried or not |
| Payout.RunConserves | common/src/payout.rs:211-354 | per token, what was asked for was sent once, is still owed, or was released |
| Payout.ScanIsFront | common/src/payout.rs:380-398 | a page is the front of the Failed records from its start, in order, and empty only when the ids it may visit hold none |
| Payout.PagingComplete | common/src/payout.rs:377-398 | paging as documented returns every Failed record if and only if no gap is too long |
| Payout.GapHidesRecord | common/src/payout.rs:377-398 | for every page size, a run after which paging from the start never shows the one payout still owed |
| Payout.Ledger.ListFailed | common/src/payout.rs:380-398 | the loop returns exactly that page |
| Payout.Ledger.PayOut | common/src/payout.rs:211-266 | the stepwise payment is the specified one |
| Payout.Ledger.RetryPayout | common/src/payout.rs:274-307 | the stepwise retry is the specified one |
| BountyRuns.RunConserves | bounty/src/lib.rs:302-562 | on every run, funded = paid + swept + balance, and 0 <= reserved <= balance with reserved the sum of pending payouts and open awards |
| BountyReserves.PullsSucceed | bounty/src/lib.rs:452-562 | a claim or sweep is refused for the documented reasons only: neither checked subtraction can refuse, because the reserve covers every pending payout |
| BountyReserves.CommitmentClaimSucceeds | bounty/src/lib.rs:780-855 | likewise for a claim by commitment, whose unchecked subtractions leave 0 <= reserved <= balance |
| BountyReserves.RunKeeps | bounty/src/lib.rs:576-606 | reports and commitments stay one to one, and awards stay linked to them |
| BountyHistory.RunIsTraced | bounty/src/lib.rs:283-875 | on every run, a payout comes from exactly one creation, which returned its id, and has its recipient, amount and deadline; bindings, commitment awards, rewards, screening, freezing and governance are those of the last call about them |
| BountyHistory.AcceptedByHistory | bounty/src/lib.rs:283-875 | the accepted calls so far and the unreserved funds decide whether a call is accepted; so only the recipient governance named can claim a payout, once, and no arithmetic refuses a call they allow |
| BountyRuns.PayoutSettledOnce | bounty/src/lib.rs:452-562 | a payout's money moves once, exactly when it stops being pending, and nothing else in it ever changes |
| BountyRuns.AwardSettledOnce | bounty/src/lib.rs:708-855 | likewise for a commitment award |
| BountyRuns.ExpiredForever | bounty/src/lib.rs:613-704 | an expired binding is never rotated or replaced, and its award never claimed |
| BountyRuns.ClaimableUnlessExpired | bounty/src/lib.rs:198-199 | an open award can still be claimed if and only if its binding has not expired |
| BountyRuns.StrandedAward | bounty/src/lib.rs:613-704 | fund, award, bind, let the binding expire: whatever is called later, the award stays open and its amount reserved |
| BountyRuns.PaidOnce | bounty/src/lib.rs:321-373 | with the missing check, each report is paid at most once, exactly when it has a record |
| BountyRuns.AwardImmutable | bounty/src/lib.rs:136-146 | a record without an open commitment award behind it never changes |
| BountyRuns.PaidAgainExactly | bounty/src/lib.rs:780-855 | an awarded report is paid again by some calls if and only if such an award is open and its binding lives |
| BountyRuns.PaysTwice | bounty/src/lib.rs:321-373 | four concrete calls after which a report already paid is paid again |
| BountyContract.Escrow.PushAward | bounty/src/lib.rs:321-373 | the stepwise award is the specified one |
| BountyContract.Escrow.SettlePayout | bounty/src/lib.rs:469-502 | state is written before the transfer and taken back if it fails |
| BountyContract.Escrow.AwardToCommitment | bounty/src/lib.rs:708-775 | the stepwise adjudication is the specified one |
| BountyContract.Escrow.ClaimAward | bounty/src/lib.rs:780-855 | the stepwise claim is the specified one |
| Appeals.OutcomeIsMajority | grants/src/appeals.rs:119-278 | after any calls, the appeal under way was filed within its window; an outcome the timelock did not decide is the one strict majority of the stored votes of the current panel, all of which are in; an escalated case is a full vote without one, or timed out; the stored verdict matches the status |
| Appeals.RunKeeps | grants/src/appeals.rs:119-361 | counters equal the stored votes of the current panel version, sum to less than the panel while it deliberates, and panels are independent and duplicate-free |
| AppealsHistory.RunIsTraced | grants/src/appeals.rs:119-361 | on every run, a case is finalized exactly if the timelock decided it and has not reopened it since, with the status, verdict, reason and time of the last decision; the round under way is the last appeal filed, its panel the last assigned, its votes the ballots cast since |
| AppealsHistory.AcceptedByHistory | grants/src/appeals.rs:119-361 | status and accepted calls decide which call is accepted, timeouts and panels included |
| Appeals.PanelDecides | grants/src/appeals.rs:208-278 | a fresh panel decides with the last ballot, whatever the order, by the counts alone |
| Appeals.ReplacingDiscards | grants/src/appeals.rs:167-205 | a new panel starts with zero counters and no votes, and the old votes stay on record |
| Appeals.AuditTrailKept | grants/src/appeals.rs:37-39 | votes are only added, and finished rounds never change |
| Appeals.AppealsAreRationed | grants/src/appeals.rs:119-361 | appeals used are at most one plus the timelock's reopenings, and only the timelock finalizes |
| Appeals.Case.AssignPanel | grants/src/appeals.rs:167-205 | the loop over the panel refuses exactly a member who is not independent |
| Appeals.Case.SubmitReview | grants/src/appeals.rs:208-278 | the stepwise vote is the specified one |
| Oracle.FeedNeverGoesBack | oracle/src/lib.rs:684-768 | on every run a feed's reading is the last accepted submission and has the largest timestamp ever accepted |
| Oracle.SubmitRefinesLog | oracle/src/lib.rs:684-768 | a submission is accepted exactly when the log of accepted ones allows it |
| Oracle.CooldownHolds | oracle/src/lib.rs:713-735 | accepted submissions of a relayer to a feed are at least a minute apart |
| Oracle.ReadingIsFresh | oracle/src/lib.rs:773-787 | a reading handed out is the newest, at most half an hour old and not in the future |
| Oracle.NoticeServed | oracle/src/lib.rs:408-499 | every active relayer waited two days from a queueing that was not cancelled since |
| Oracle.RunKeeps | oracle/src/lib.rs:408-666 | the active list has no duplicates and reputations stay within 1 and 1000 |
| OracleHistory.RunIsTraced | oracle/src/lib.rs:395-499 | on every run, a relayer is active exactly if it was activated and not removed since, queued since the last queueing that neither followed, and the admin is the last one to accept a proposal |
| OracleHistory.AcceptedByHistory | oracle/src/lib.rs:395-768 | the accepted calls so far decide whether a call is accepted |
| Oracle.ReputationSinceActivation | oracle/src/lib.rs:449-457 | on every run, a reputation is the initial score adjusted and clamped step by step since the last activation; all adjustments count if and only if no activation follows one |
| Oracle.PenaltyForgotten | oracle/src/lib.rs:471-499 | a run whose penalty outlives the removal and is wiped out by the second registration |
| Oracle.RefractOracle.SubmitReading | oracle/src/lib.rs:684-768 | the cooldown written before the order check is taken back on refusal |
| Oracle.RefractOracle.Remove | oracle/src/lib.rs:471-499 | the rebuilt list is the old one without the relayer, and a pending entry is cancelled |
| GrantTerms.ExecutedKeeps | grants/src/lifecycle.rs:349-435 | any valid change keeps total = milestones + pending refund + refunded, claimable = confirmed-unclaimed, and refunds nothing negative |
| GrantTerms.AmendmentMeaning | grants/src/lifecycle.rs:356-379 | an amendment replaces only what is unconfirmed, and the difference becomes refundable |
| GrantTerms.ExtensionMeaning | grants/src/lifecycle.rs:380-396 | an extension gives each pending milestone exactly the date filed for it, never an earlier one, and changes nothing else |
| GrantTerms.TerminationMeaning | grants/src/lifecycle.rs:397-432 | the floored share of the next milestone becomes claimable, all else unconfirmed refundable |
| GrantChanges.RefusedExactly | grants/src/lifecycle.rs:531-607 | a change is refused exactly if it is not proper, said milestone by milestone: pending work, amendment limit, amounts within the award, dates in order, none earlier and one later |
| GrantChanges.ExecutedChanges | grants/src/lifecycle.rs:349-455 | what each executed change makes of every milestone, of the money and of the status |
| GrantTerms.RescheduledOrdered | grants/src/lifecycle.rs:530-606 | ordered deadlines stay ordered under every valid change |
| GrantTerms.DatesOrderedMeaning | grants/src/lifecycle.rs:632-641 | the running-maximum check means pairwise order above the floor, zeros aside |
| GrantTerms.AreDatesOrdered | grants/src/lifecycle.rs:632-641 | the loop decides exactly that |
| GrantTerms.EscrowGuardImplied | grants/src/lifecycle.rs:597-604 | the guard on escrowed funds never refuses by itself |
| GrantTerms.AmountsFit | grants/src/lifecycle.rs:349-435 | every amount the lifecycle computes lies between 0 and the award, so no addition overflows |
| ReviewHistory.RunIsTraced | grants/src/review.rs:90-269 | on every run, a review has the score and verdict of the last one its reviewer submitted and is valid exactly if no conflict came after; roles, activity, conflicts, assignments and quorum are what the last call said |
| ReviewHistory.ApprovalsByHistory | grants/src/review.rs:310-319 | the quorum counts exactly the active reviewers whose last submission approves and was not followed by a conflict |
| ReviewHistory.QuorumByHistory | grants/src/review.rs:323-325 | the quorum is met exactly when that many count |
| ReviewHistory.EligibleByHistory | grants/src/review.rs:332-368 | the check lets a reviewer through exactly if an assignment was not followed by a conflict and an activation not by a deactivation; the other checks are implied |
| ReviewHistory.AcceptedByHistory | grants/src/review.rs:90-269 | the accepted calls so far decide whether a call is accepted |
| Review.StepKeeps | grants/src/review.rs:90-269 | assigned reviewers and those with valid reviews are never in conflict nor the grantee |
| Review.ConflictExcludes | grants/src/review.rs:199-269 | until governance waives it, through any calls, a conflict keeps its reviewer out of every review, approval and quorum |
| Review.ApprovalsAreValid | grants/src/review.rs:310-325 | the quorum counts exactly the valid approvals of active reviewers |
| Review.Board.ApprovalCount | grants/src/review.rs:310-319 | the iteration counts them exactly |
| LifecycleInvariant.RunKeeps | grants/src/lifecycle.rs:196-502 | on every run: each grant conserved, confirmed milestones a prefix, requests, grants and history linked |
| LifecycleRuns.RunConserves | grants/src/lifecycle.rs:328-502 | a grant's award was paid, was refunded, or is still held, over every run and whatever the treasury answers |
| LifecycleRuns.RunGrant | grants/src/lifecycle.rs:196-502 | confirmed milestones stay untouched in front, ordered deadlines stay ordered, award and recipient stay |
| LifecycleRuns.ClosedIsFinal | grants/src/lifecycle.rs:63-64 | a closed grant never changes |
| LifecycleRuns.OneOpenRequest | grants/src/lifecycle.rs:5-12 | a grant has at most one open request, and it is the one the grant names |
| LifecycleRuns.RequestedExactly | grants/src/lifecycle.rs:196-321 | a grant is in a requested state exactly when it has an open request |
| LifecycleRuns.RunRequest | grants/src/lifecycle.rs:112-132 | a request never changes what it asks; it is approved once and closed once |
| LifecycleRuns.ApproverWasAllowed | grants/src/lifecycle.rs:268-297 | whoever approved was governance, or an eligible reviewer who neither asked nor is paid, and then not for a termination |
| LifecycleRuns.ExecutedAsFiled | grants/src/lifecycle.rs:328-455 | however many calls lie between, an executed change is the one filed, on exactly the schedule and confirmed count it was filed against; every milestone ends as filed, and one record is added that lists the old and the new schedule |
| LifecycleHistory.RunIsTraced | grants/src/lifecycle.rs:196-321 | on every run, a request is what its one filing asked, by the recipient or governance, approved by whoever did, and open until it was ended; a grant is what its one creation awarded |
| LifecycleHistory.AcceptedByHistory | grants/src/lifecycle.rs:196-502 | exactly which calls are accepted after any run |
| LifecycleHistory.StepEffect | grants/src/lifecycle.rs:196-502 | what each accepted call changes, and that it changes nothing else |
| LifecycleHistory.ClosingUndoesFiling | grants/src/lifecycle.rs:299-321 | closing a request gives the grant back the status it had before the filing, whatever happened between, and changes nothing else |
| LifecycleRuns.HistoryKept | grants/src/lifecycle.rs:134-146 | history is only appended to |
| LifecycleLingering.LingersExactly | grants/src/lifecycle.rs:301-321 | a settled grant is left unclosed by exactly one kind of call |
| LifecycleLingering.LingersForever | grants/src/lifecycle.rs:610-627 | and then no call ever closes or changes it |
| LifecycleLingering.SettledButFunded | grants/src/lifecycle.rs:301-321 | a concrete run that ends so |
| LifecycleContract.ValidateChange | grants/src/lifecycle.rs:531-607 | the stepwise validation gives exactly the specified refusal |
| LifecycleContract.Terminate | grants/src/lifecycle.rs:397-432 | the loop credits and refunds exactly the specified amounts |
| LifecycleContract.RefractGrants.FileRequest | grants/src/lifecycle.rs:196-257 | the stepwise filing is the specified one; a refusal changes nothing |
| LifecycleContract.RefractGrants.ApproveRequest | grants/src/lifecycle.rs:268-297 | the stepwise approval is the specified one; a refusal changes nothing |
| LifecycleContract.RefractGrants.CloseOpenRequest | grants/src/lifecycle.rs:301-321 | the stepwise closing is the specified one |
| LifecycleContract.RefractGrants.ExecuteRequest | grants/src/lifecycle.rs:328-455 | the stepwise execution is the specified one; a refusal changes nothing |
| LifecycleContract.RefractGrants.ExecuteRefund | grants/src/lifecycle.rs:463-502 | the books written before the treasury is called are put back if it refuses |
| LifecycleContract.RefractGrants.CloseSettled | grants/src/lifecycle.rs:610-628 | closes exactly the grants whose status, claimable and refund allow it |

## Left out

- Authorization, storage lifetimes, events and initialization: callers are arguments, and nothing is read before it is set up.
- Token contracts: a transfer succeeds or fails by a parameter. The classification of token error codes in `common/src/payout.rs` is not part of this model.
- SHA-256, base32, base64 and UTF-8: hashes are parameters, keys are their raw 35 bytes, strings and symbols are byte strings.
- LifecycleContract.RefractGrants.CreateGrant: the lifecycle's own creation, confirmation and claim appear in the repository only through their uses; they are defined from those. Creation does not check due dates, so order is stated as preserved.
- LifecycleContract.RefractGrants.ConfirmMilestone: the order of its checks among themselves is the model's choice.
- LifecycleContract.RefractGrants.FileRequest: request and grant identifiers are unbounded, so the counter's own overflow is not modelled.
- Review.Board.RegisterReviewer: the board sees of the grants only who receives them, passed in by the caller.
- Appeals.Case.AssignPanel: the panel check `validate_panel` appears only through its use; it is taken from the documentation as one to seven members without duplicates.
- Appeals.Case.SubmitAppeal: every appeal step answers with the new status; the source's submission returns the round number, and its assignment, escalation and reopening return nothing. The round is the state's `appealsUsed`.
- Bounty.DoScreen: the screening entries are set by functions after the visible part of the file; the model lets them change at any moment.
- OnchainGrants.Contract.QuotePayout: the fee rate that the parameter registry answers with is a parameter; the registry does not call back.
- RateLimit.RunRefinesLog: limits stay fixed during the run.
- Payout.Ledger.PayOut: the token does not call back into the ledger.
- The oracle's triggers, thresholds, feed metadata and guardian helpers, and the appeal and application steps outside `appeals.rs`: each is one guard.
- `backstop/src/lib.rs`, multisig, governance and the one-step ledgers (bond, budget, programs, licensing and the like): they would add easy members, or are not fully visible.
