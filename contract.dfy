/** The NFT challenge contract's state and the methods that read and change it.

    Panics. Each `panic!`/`assert!` of the source is an error result here. The
    host discards every write made by a call that panics, so a rejected call
    leaves the state exactly as it was. The one exception is `OnClaim`, which
    keeps the slot release written just before its panics (see the comment
    there and `OnClaimReverting` for the code as the host runs it).

    Asynchrony. A claim runs in two calls: `InitiateClaim` reserves a slot and
    issues the lookups; `OnClaim` runs once all lookups have answered. Any
    other call may run in between. The ghost multiset `pending` holds one
    entry per reservation whose callback has not yet run, so that the slot
    accounting can be stated at every step. */
module NftChallenge {
  import opened ChallengeTypes
  import opened ClaimRules

  class Contract {
    const ownerId: AccountId
    const creatorId: AccountId
    const rewardNft: NftContractId
    const challengeNftIds: seq<NftContractId>
    const terminationDateInNs: nat
    const winnerLimit: nat
    var challengeCompleted: bool
    var winnerCount: nat
    var potentialWinnersLeft: nat
    var winners: map<AccountId, nat>
    /** Claimants whose slot is reserved and whose `on_claim` has not run. */
    ghost var pending: multiset<AccountId>

    /** The contract invariant. Every slot of the limit is free, reserved by a
        claim in flight, or used by a committed win. Two claims of one account
        can be in flight together and both commit, so `winners` can have
        fewer keys than `winnerCount`, never more. */
    ghost predicate Valid()
      reads this
    {
      && |challengeNftIds| > 0
      && winnerLimit <= U64_MAX
      && terminationDateInNs <= U64_MAX
      && winnerCount + potentialWinnersLeft + |pending| == winnerLimit
      && |winners.Keys| <= winnerCount
      && (forall a :: a in winners ==> winners[a] == 1)
    }

    /** The state-building part of `new`: the challenge NFT ids are pushed into
        the contract's vector one by one, in the given order. */
    constructor (ownerId: AccountId, predecessor: AccountId, rewardNft: NftContractId,
                 nftIds: seq<NftContractId>, terminationDateInNs: nat, winnerLimit: nat)
      requires |nftIds| > 0
      requires terminationDateInNs <= U64_MAX && winnerLimit <= U64_MAX
      ensures Valid()
      ensures this.ownerId == ownerId && creatorId == predecessor && this.rewardNft == rewardNft
      ensures challengeNftIds == nftIds
      ensures this.terminationDateInNs == terminationDateInNs && this.winnerLimit == winnerLimit
      ensures !challengeCompleted && winnerCount == 0 && potentialWinnersLeft == winnerLimit
      ensures winners == map[] && pending == multiset{}
    {
      var ids: seq<NftContractId> := [];
      for i := 0 to |nftIds|
        invariant ids == nftIds[..i]
      {
        ids := ids + [nftIds[i]];
      }
      this.ownerId := ownerId;
      creatorId := predecessor;
      this.rewardNft := rewardNft;
      challengeNftIds := ids;
      this.terminationDateInNs := terminationDateInNs;
      this.winnerLimit := winnerLimit;
      challengeCompleted := false;
      winnerCount := 0;
      potentialWinnersLeft := winnerLimit;
      winners := map[];
      pending := multiset{};
    }

    /** `new`: creates the contract, or fails on an empty list of challenge
        NFTs. `predecessor` is the account deploying it. */
    static method New(ownerId: AccountId, predecessor: AccountId, rewardNft: NftContractId,
                      nftIds: seq<NftContractId>, terminationDateInNs: nat, winnerLimit: nat)
      returns (r: Result<Contract, InitError>)
      requires terminationDateInNs <= U64_MAX && winnerLimit <= U64_MAX
      ensures r.Failure? <==> |nftIds| == 0
      ensures r.Success? ==>
                && fresh(r.value) && r.value.Valid()
                && r.value.ownerId == ownerId && r.value.creatorId == predecessor
                && r.value.rewardNft == rewardNft && r.value.challengeNftIds == nftIds
                && r.value.terminationDateInNs == terminationDateInNs
                && r.value.winnerLimit == winnerLimit
                && !r.value.challengeCompleted && r.value.winnerCount == 0
                && r.value.potentialWinnersLeft == winnerLimit
                && r.value.winners == map[] && r.value.pending == multiset{}
    {
      if |nftIds| == 0 {
        return Failure(NoChallengeNfts);
      }
      var c := new Contract(ownerId, predecessor, rewardNft, nftIds, terminationDateInNs, winnerLimit);
      return Success(c);
    }

    // ------------------------------- views -------------------------------

    /** `check_account_is_winner`: whether the account has a committed win. */
    function CheckAccountIsWinner(accountId: AccountId): (r: bool)
      reads this
      requires Valid()
      ensures r <==> accountId in winners
      ensures r ==> winners[accountId] == 1 && winnerCount > 0
    {
      accountId in winners
    }

    /** `is_challenge_expired`: true only when the challenge is marked over
        AND the deadline has passed; a challenge ended early by its owner is
        over but not expired. */
    function IsChallengeExpired(now: nat): (r: bool)
      reads this
      ensures r <==> challengeCompleted && now > terminationDateInNs
    {
      challengeCompleted && now > terminationDateInNs
    }

    /** The guard of `mint_nft` and the mint call it then issues: one reward
        token for the caller, who must have won. */
    function MintNft(caller: AccountId): (r: Result<MintRequest, MintError>)
      reads this
      requires Valid()
      ensures r.Success? <==> CheckAccountIsWinner(caller)
      ensures r.Success? ==> r.value == NftBatchMint(rewardNft, caller, 1)
    {
      if !CheckAccountIsWinner(caller) then Failure(NotAWinner)
      else Success(NftBatchMint(rewardNft, caller, 1))
    }

    // ------------------------------ helpers ------------------------------

    /** `decrement_winners`: takes one slot. Its only caller has checked that
        one is left, so the `u64` subtraction never underflows. */
    method DecrementWinners()
      requires potentialWinnersLeft > 0
      modifies this`potentialWinnersLeft
      ensures potentialWinnersLeft == old(potentialWinnersLeft) - 1
    {
      potentialWinnersLeft := potentialWinnersLeft - 1;
    }

    /** `increment_winners`: gives one slot back. Its callers give back a slot
        they took, so the `u64` addition never overflows. */
    method IncrementWinners()
      requires potentialWinnersLeft < U64_MAX
      modifies this`potentialWinnersLeft
      ensures potentialWinnersLeft == old(potentialWinnersLeft) + 1
    {
      potentialWinnersLeft := potentialWinnersLeft + 1;
    }

    /** `ensure_expiration_status_is_correct`: marks the challenge over once
        the deadline has passed, never un-marks it, and always answers false. */
    method EnsureExpirationStatusIsCorrect(now: nat) returns (r: bool)
      modifies this`challengeCompleted
      ensures !r
      ensures challengeCompleted == (old(challengeCompleted) || now > terminationDateInNs)
      ensures now > terminationDateInNs ==> IsChallengeExpired(now)
    {
      if now > terminationDateInNs {
        challengeCompleted := true;
      }
      r := false;
    }

    // --------------------------- change methods ---------------------------

    /** `end_challenge`: the owner marks the challenge over; anyone else is
        refused. Calling it again changes nothing. */
    method EndChallenge(caller: AccountId) returns (r: Outcome<OwnerError>)
      requires Valid()
      modifies this`challengeCompleted
      ensures Valid()
      ensures r == if caller == ownerId then Pass else Fail(NotChallengeOwner)
      ensures challengeCompleted == (old(challengeCompleted) || caller == ownerId)
    {
      if caller != ownerId {
        return Fail(NotChallengeOwner);
      }
      if !challengeCompleted {
        challengeCompleted := true;
      }
      return Pass;
    }

    /** `initiate_claim`, called by `caller` at block time `now`. Rejects, in
        the order of `ClaimGate`, with no change to the state; otherwise takes
        one slot and asks every challenge NFT contract, in list order, for the
        caller's tokens, with `on_claim` chained after all of them.

        The expiry check sits between the "Challenge is over" check and the
        "already won" check. It never rejects, but it marks an expired
        challenge over, so the claim that finds it expired still goes ahead
        and only the next claim is refused. */
    method InitiateClaim(caller: AccountId, now: nat) returns (r: ClaimStart)
      requires Valid()
      modifies this`challengeCompleted, this`potentialWinnersLeft, this`pending
      ensures Valid()
      ensures var gate := ClaimGate(old(potentialWinnersLeft), winnerCount, winnerLimit,
                                    old(challengeCompleted), caller in winners);
              r.Rejected? <==> gate.Some?
      ensures r.Rejected? ==>
                && Some(r.reason) == ClaimGate(old(potentialWinnersLeft), winnerCount, winnerLimit,
                                               old(challengeCompleted), caller in winners)
                && potentialWinnersLeft == old(potentialWinnersLeft)
                && challengeCompleted == old(challengeCompleted)
                && pending == old(pending)
      ensures r.Fanout? ==>
                && potentialWinnersLeft == old(potentialWinnersLeft) - 1
                && pending == old(pending) + multiset{caller}
                && challengeCompleted == (now > terminationDateInNs)
                && |r.lookups| == |challengeNftIds|
                && (forall i :: 0 <= i < |challengeNftIds| ==>
                      r.lookups[i] == NftTokensForOwner(challengeNftIds[i], caller))
                && r.callback == OnClaimCall(caller, |challengeNftIds|)
    {
      var early := StateRejection(potentialWinnersLeft, winnerCount, winnerLimit, challengeCompleted);
      if early.Some? {
        return Rejected(early.value);
      }
      // Always false, so the "Challenge is expired" panic never fires.
      var _ := EnsureExpirationStatusIsCorrect(now);
      if CheckAccountIsWinner(caller) {
        // The panic discards the expiry check's write; the flag was false
        // before it, or the "Challenge is over" check would have fired.
        challengeCompleted := false;
        return Rejected(AlreadyWon);
      }
      DecrementWinners();
      pending := pending + multiset{caller};
      var lookups := seq(|challengeNftIds|, i requires 0 <= i < |challengeNftIds| =>
                           NftTokensForOwner(challengeNftIds[i], caller));
      // The lookups are joined with `and`; the list is never empty, so the
      // "Error in the promises" panic never fires.
      return Fanout(lookups, OnClaimCall(caller, |challengeNftIds|));
    }

    /** The walk of `on_claim` over the promise results `0..number_promises`,
        in index order, stopping at the first one that does not prove
        ownership. `results` holds exactly `number_promises` results. */
    static method ReadPromiseResults(results: seq<LookupResult>) returns (v: Verdict)
      ensures v == Judge(results)
    {
      var index := 0;
      while index < |results|
        invariant 0 <= index <= |results|
        invariant forall j :: 0 <= j < index ==> Owned(results[j])
      {
        var failure := Classify(results[index]);
        if failure.Some? {
          FirstFailureDecides(results, index);
          return FailsAt(index, failure.value);
        }
        index := index + 1;
      }
      return AllOwned;
    }

    /** `on_claim`, the callback of a claim by `winnerId`, with the results of
        its lookups. If every lookup proves ownership, the claimant wins: one
        more winner, and `winnerId` is recorded. Otherwise the reserved slot is
        given back and the first failing index is reported.

        As written, the source gives the slot back and then panics; the host
        would discard that write (see `OnClaimReverting`). This model keeps
        the release, the evident intent of the code. */
    method OnClaim(winnerId: AccountId, results: seq<LookupResult>) returns (r: ClaimEnd)
      requires Valid()
      requires winnerId in pending
      modifies this`winnerCount, this`potentialWinnersLeft, this`winners, this`pending
      ensures Valid()
      ensures pending == old(pending) - multiset{winnerId}
      ensures Judge(results).AllOwned? ==>
                && r == Won
                && winnerCount == old(winnerCount) + 1
                && winners == old(winners)[winnerId := 1]
                && potentialWinnersLeft == old(potentialWinnersLeft)
      ensures Judge(results).FailsAt? ==>
                && r == NotOwned(Judge(results).index, Judge(results).failure)
                && winnerCount == old(winnerCount)
                && winners == old(winners)
                && potentialWinnersLeft == old(potentialWinnersLeft) + 1
    {
      var verdict := ReadPromiseResults(results);
      pending := pending - multiset{winnerId};
      if verdict.FailsAt? {
        IncrementWinners();
        return NotOwned(verdict.index, verdict.failure);
      }
      Commit(winnerId);
      return Won;
    }

    /** The commit of `on_claim`: one more winner, and the account mapped to 1. */
    method Commit(winnerId: AccountId)
      modifies this`winnerCount, this`winners
      ensures winnerCount == old(winnerCount) + 1
      ensures winners == old(winners)[winnerId := 1]
      ensures |winners.Keys| <= |old(winners).Keys| + 1
    {
      winnerCount := winnerCount + 1;
      winners := winners[winnerId := 1];
      assert winners.Keys == old(winners).Keys + {winnerId};
    }

    /** `on_claim` as the host runs it: the panic on a failed lookup discards
        the slot release written before it, so the claim ends, nobody wins,
        and the slot it reserved is lost for good. */
    method OnClaimReverting(winnerId: AccountId, results: seq<LookupResult>) returns (r: ClaimEnd)
      requires Valid()
      requires winnerId in pending
      modifies this`winnerCount, this`winners, this`pending
      ensures pending == old(pending) - multiset{winnerId}
      ensures Judge(results).AllOwned? ==>
                && Valid() && r == Won
                && winnerCount == old(winnerCount) + 1
                && winners == old(winners)[winnerId := 1]
      ensures Judge(results).FailsAt? ==>
                && r == NotOwned(Judge(results).index, Judge(results).failure)
                && winnerCount == old(winnerCount)
                && winners == old(winners)
                && winnerCount + potentialWinnersLeft + |pending| + 1 == winnerLimit
    {
      var verdict := ReadPromiseResults(results);
      pending := pending - multiset{winnerId};
      if verdict.FailsAt? {
        return NotOwned(verdict.index, verdict.failure);
      }
      Commit(winnerId);
      return Won;
    }
  }
}
