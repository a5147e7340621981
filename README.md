# NFT challenge claim state machine

A model of the NEAR smart contract `Contract` in `src/lib.rs` of the
nft-challenge repository. A challenge offers a limited number of winner slots.
An account wins by proving that it holds a token of every required NFT
contract. Each claim runs in two steps:

1. `initiate_claim` checks the challenge state, reserves a slot
   (`potential_winners_left -= 1`), and sends one `nft_tokens_for_owner`
   lookup to each required NFT contract. The lookups are joined, and the
   callback `on_claim` is chained after them.
2. `on_claim` reads the lookup results in index order. If every lookup proves
   ownership, it commits the winner (`winner_count += 1`,
   `winners[account] = 1`). Otherwise it gives the slot back.

Other claims may run between the two steps.

Files:

- `challenge_types.dfy` (module `ChallengeTypes`): identities, lookup results,
  and the outcome of each step. Each rejection of `initiate_claim` that can
  fire and each failure reason of `on_claim` has its own constructor. The
  panics listed under "## Left out" have none.
- `claim_rules.dfy` (module `ClaimRules`): pure rules.
  - The order of the checks before reservation (`StateRejection`,
    `ClaimGate`).
  - How one lookup result is read (`Classify`).
  - The verdict of the walk over all results (`Judge`), with lemmas about it.
- `contract.dfy` (module `NftChallenge`): the class `Contract` with the
  source's fields. Its methods update the fields in place.
  - A ghost multiset `pending` holds the claims whose callback has not run
    yet.
  - `Valid()` states the slot accounting at every step:
    `winnerCount + potentialWinnersLeft + |pending| == winnerLimit`.
  - `Valid()` also states that `winners` never has more keys than
    `winnerCount`.
- `scenarios.dfy` (module `Scenarios`): client runs of the contract, proved
  from the method contracts. They cover the unit test of the slot counter,
  claims that fail or succeed, one slot contested by two claimants, an ended
  challenge, and the quirks of the code.

Semantics adopted:

- A panic is an error result. The host discards every write of a call that
  panics, so a rejected `initiate_claim` leaves the state unchanged. This
  includes the expiry flag written by `ensure_expiration_status_is_correct`
  before the "already won" check panics.
- `on_claim` as written gives the slot back and then panics, so the host
  discards the release. `OnClaimReverting` models that behaviour. `OnClaim`
  keeps the release, which is what the code evidently intends (see
  Findings). The rest of the model uses `OnClaim`.
- The block timestamp (`now`) and the calling account are method parameters.
  The joined promise results are a `seq<LookupResult>`: `Failed`,
  `Undecodable` (the bytes are not a JSON token list), or `Decoded(count)`.

Behaviour of the code that a reader might not expect, kept as written:

- The expiry check never rejects, because
  `ensure_expiration_status_is_correct` always returns false. An expired
  challenge therefore admits the claim that first notices the expiry. Only
  the next claim is refused, with "Challenge is over".
- When one slot is contested, the losing claimant's retry is refused with
  "at max potential winners", not "not accepting any more winners". The slot
  check at src/lib.rs:175 runs before the winner-limit check at
  src/lib.rs:179. While no more slots are in use than the limit allows, the
  winner-limit check can never fire (`NotAcceptingIsUnreachable`).
- `winners.size == winner_count` is not an invariant. One account can have
  two claims in flight, and both can commit (`SameAccountWinsTwice`).
- `end_challenge` checks only that the caller is the owner
  (src/lib.rs:295-300).

## Model

| member | source | states |
|---|---|---|
| ClaimRules.StateRejection | src/lib.rs:175-185 | the counter checks in source order: no slot left gives "at max potential winners"; otherwise a full limit gives "not accepting"; otherwise a completed challenge gives "Challenge is over"; no rejection exactly when all three pass |
| ClaimRules.ClaimGate | src/lib.rs:175-193 | all pre-reservation checks: the counter checks, then "already won"; the claim passes exactly when a slot is left, the limit is not reached, the challenge is not completed and the caller has not won; a completed challenge always rejects |
| ClaimRules.NotAcceptingIsUnreachable | src/lib.rs:175-181 | while winners, free slots and in-flight claims add up to no more than the limit (so also when releases are lost), the "not accepting any more winners" rejection never occurs |
| ClaimRules.Classify | src/lib.rs:230-248 | one result proves ownership exactly when it succeeded and decoded to a non-empty list; a failed promise and an undecodable result each get their own reason |
| ClaimRules.Judge | src/lib.rs:225-251 | the walk over all results: all owned exactly when every result proves ownership; otherwise the lowest failing index, with that index's reason |
| ClaimRules.FirstFailureDecides | src/lib.rs:225-251 | the lowest index that does not prove ownership decides the verdict |
| ClaimRules.JudgeStopsAtFirstFailure | src/lib.rs:225-251 | results after the first failing one never change the verdict |
| ClaimRules.JudgeAfterOwnedPrefix | src/lib.rs:225-251 | after an all-owned prefix, the verdict is that of the remaining results, with the index shifted past the prefix |
| NftChallenge.Contract.constructor | src/lib.rs:80-105 | the challenge NFT ids are stored in the given order; the winner count is 0, every slot is free, the challenge is not completed, no account has won; the contract invariant holds |
| NftChallenge.Contract.New | src/lib.rs:69-106 | creation fails exactly when the list of challenge NFTs is empty; otherwise a fresh valid contract in its initial state |
| NftChallenge.Contract.CheckAccountIsWinner | src/lib.rs:169-171 | an account is a winner exactly when it is a key of `winners`; its entry is then 1 and the winner count is positive |
| NftChallenge.Contract.IsChallengeExpired | src/lib.rs:157-163 | expired exactly when the challenge is completed and the block time is past the deadline |
| NftChallenge.Contract.MintNft | src/lib.rs:109-123 | minting is allowed exactly for a winner, and then mints one reward token to the caller on the reward NFT contract |
| NftChallenge.Contract.DecrementWinners | src/lib.rs:287-289 | takes exactly one slot |
| NftChallenge.Contract.IncrementWinners | src/lib.rs:291-293 | gives back exactly one slot |
| NftChallenge.Contract.EnsureExpirationStatusIsCorrect | src/lib.rs:258-265 | always answers false; the challenge is completed afterwards exactly when it was before or the deadline has passed, so the flag is never reset |
| NftChallenge.Contract.EndChallenge | src/lib.rs:267-272 | only the owner may end the challenge, and it is completed afterwards; anyone else is refused with no change; calling it again changes nothing |
| NftChallenge.Contract.InitiateClaim | src/lib.rs:174-221 | rejects exactly when `ClaimGate` does, with its reason and no state change; otherwise takes exactly one slot, records the claim as in flight, marks an expired challenge completed, issues one ownership lookup per required NFT in list order, and chains `on_claim` with the list length; keeps the slot accounting |
| NftChallenge.Contract.ReadPromiseResults | src/lib.rs:225-251 | the loop over the results computes `Judge` |
| NftChallenge.Contract.OnClaim | src/lib.rs:224-256 | if every result proves ownership: won, the winner count rises by one, and the winner is mapped to 1, with slots unchanged; otherwise the first failing index and its reason, with the slot given back exactly once and winners unchanged; the claim leaves the in-flight set and the slot accounting is kept |
| NftChallenge.Contract.Commit | src/lib.rs:253-254 | one more winner; the account is mapped to 1; the key count grows by at most one |
| NftChallenge.Contract.OnClaimReverting | src/lib.rs:224-256 | `on_claim` as the host runs it: a failed claim leaves counters and winners unchanged, so one slot of the limit is no longer accounted for |
| Scenarios.SlotReturnedAfterRelease | src/lib.rs:424-452 | taking a slot and giving it back restores `potential_winners_left` |
| Scenarios.PartialOwnershipFails | src/lib.rs:195-247 | with required NFTs [x, y] and only x owned: lookups go to x then y, the claim fails at index 1, the slot comes back, nobody wins |
| Scenarios.FullOwnershipWins | src/lib.rs:195-255 | with one owned required NFT, the claim wins, the slot stays used, and the winner may mint one reward token |
| Scenarios.OneSlotTwoClaimants | src/lib.rs:175-195 | with one slot, the second claimant is refused while the first is in flight; the first wins; the second's retry is refused with "at max potential winners" |
| Scenarios.EndedChallengeRefusesClaims | src/lib.rs:267-272 | a non-owner cannot end the challenge; after the owner ends it, a new claim is refused with "Challenge is over" and no counter moves; ended before its deadline, it is not reported expired |
| Scenarios.ExpiredChallengeAdmitsOneMoreClaim | src/lib.rs:258-265 | past the deadline the first claim still goes ahead and the challenge becomes expired; the next claim is refused with "Challenge is over" |
| Scenarios.WinnerCannotClaimAgain | src/lib.rs:191-193 | a winner's new claim is refused with "already won" and no counter moves |
| Scenarios.SameAccountWinsTwice | src/lib.rs:191-254 | one account with two claims in flight wins both: the winner count is 2 while `winners` has one key |
| Scenarios.ReleasedSlotIsReused | src/lib.rs:229-247 | with the release kept, a failed claim hands its only slot to the next claimant |
| Scenarios.RevertedFailureLeaksSlot | src/lib.rs:231-233 | as the host runs the code: with one slot, one failed lookup leaves no winner and no free slot, so every later claim is refused at the first check |

## Findings

| source | as written | input that shows it | evidently intended | confidence | as-written member | corrected member |
|---|---|---|---|---|---|---|
| src/lib.rs:231-246 | `on_claim` calls `increment_winners()` and then panics; the host discards all writes of a panicking call, including the increment | `winner_limit = 1`; one claim whose only lookup returns `Failed` | the reserved slot is given back when a claim fails | not executed; relies on the host rule that a panicking call's state changes are discarded | NftChallenge.Contract.OnClaimReverting, Scenarios.RevertedFailureLeaksSlot | NftChallenge.Contract.OnClaim |

## Left out

- The descriptive fields `name`, `description`, `image_link` and `token_metadata`, and the accessors `get_challenge_metadata`, `get_owner_id` and `potential_winners_left`. They only store or copy values.
- Promise construction and chaining (`and`, `then`), gas and deposits. The joined lookups are a list of `Lookup` values and a `Callback` value.
- JSON decoding of the token lists. It is abstracted into `LookupResult`; only the length of a decoded list matters to the source.
- NftChallenge.Contract.InitiateClaim: the model treats every challenge NFT id as a valid account id. `new` stores any string (src/lib.rs:75, 81-83), and `x.parse().unwrap()` at src/lib.rs:201 panics on an id that is not a valid NEAR account id. Such a claim is rejected with no state change, where the model takes a slot and returns the lookups.
- NftChallenge.Contract.MintNft: the model treats the reward NFT id as a valid account id. `self.reward_nft.parse().unwrap()` at src/lib.rs:114 panics on a malformed id, so even a winner's mint fails, where the model returns the mint request.
- `mint_nft_callback` (including its "There was an error minting the NFT" panic at src/lib.rs:282) and the mint call itself. They are cross-contract plumbing with no state change; only the winner guard and the request are modelled (`MintNft`).
- The "Challenge is expired" panic (src/lib.rs:187-189) and the "Error in the promises" panic (src/lib.rs:219) have no branch. The first check always answers false, and the list of NFTs is never empty.
- NftChallenge.Contract.OnClaim: `results` stands for `env::promise_result(0..number_promises)`. A callback whose count differs from the number of joined promises is not modelled; only the contract itself can issue this callback.
- The `u64` counters are `nat`. `Valid()` bounds them by the limit, which is at most `2^64 - 1`, so the decrement never underflows and the increments never overflow.
- The unit test at src/lib.rs:491-518 decrements the slot counter directly and then claims. That breaks the slot accounting, so it is not replayed. `Scenarios.OneSlotTwoClaimants` reaches the same "at max potential winners" refusal through a real claim.
- `src/external.rs` holds only data types and an interface declaration. `tests/tests.rs` targets a different version of the contract's interface. Neither is part of this model.
