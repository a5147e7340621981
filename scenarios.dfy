/** Client runs of the contract, proved from the method contracts alone: the
    unit test of the slot counter, failed and successful claims, one slot
    contested by two claimants, an ended challenge, and the quirks of the code (an expired challenge still admits one claim,
    two claims of one account in flight both win, the slot lost when the
    host discards a release). */
module Scenarios {
  import opened ChallengeTypes
  import opened ClaimRules
  import opened NftChallenge

  /** Taking a slot and giving it back restores the count. */
  method SlotReturnedAfterRelease(owner: AccountId, nft: NftContractId, deadline: nat, limit: nat)
    returns (before: nat, taken: nat, after: nat)
    requires 0 < limit <= U64_MAX && deadline <= U64_MAX
    ensures before == limit && taken == limit - 1 && after == limit
  {
    var created := Contract.New(owner, owner, nft, [nft], deadline, limit);
    var c := created.value;
    before := c.potentialWinnersLeft;
    c.DecrementWinners();
    taken := c.potentialWinnersLeft;
    c.IncrementWinners();
    after := c.potentialWinnersLeft;
  }

  /** Required NFTs [x, y], the claimant owns only x: the claim fails at
      index 1, the slot comes back, nobody wins. */
  method PartialOwnershipFails(owner: AccountId, claimant: AccountId, reward: NftContractId,
                               x: NftContractId, y: NftContractId, deadline: nat, now: nat, limit: nat)
    returns (start: ClaimStart, end: ClaimEnd, slotsLeft: nat, winnerCount: nat, isWinner: bool)
    requires 0 < limit <= U64_MAX && deadline <= U64_MAX
    ensures start.Fanout?
    ensures start.lookups == [NftTokensForOwner(x, claimant), NftTokensForOwner(y, claimant)]
    ensures start.callback == OnClaimCall(claimant, 2)
    ensures end == NotOwned(1, NoTokens)
    ensures slotsLeft == limit && winnerCount == 0 && !isWinner
  {
    var created := Contract.New(owner, owner, reward, [x, y], deadline, limit);
    var c := created.value;
    start := c.InitiateClaim(claimant, now);
    assert start.lookups[0] == NftTokensForOwner(x, claimant);
    assert start.lookups[1] == NftTokensForOwner(y, claimant);
    var results := [Decoded(1), Decoded(0)];
    FirstFailureDecides(results, 1);
    end := c.OnClaim(claimant, results);
    slotsLeft, winnerCount := c.potentialWinnersLeft, c.winnerCount;
    isWinner := c.CheckAccountIsWinner(claimant);
  }

  /** One required NFT, owned: the claim wins, the slot stays used, and the
      winner may then mint one reward token. */
  method FullOwnershipWins(owner: AccountId, claimant: AccountId, reward: NftContractId,
                           x: NftContractId, deadline: nat, now: nat, limit: nat)
    returns (end: ClaimEnd, slotsLeft: nat, winnerCount: nat, isWinner: bool,
             mint: Result<MintRequest, MintError>)
    requires 0 < limit <= U64_MAX && deadline <= U64_MAX
    ensures end == Won
    ensures slotsLeft == limit - 1 && winnerCount == 1 && isWinner
    ensures mint == Success(NftBatchMint(reward, claimant, 1))
  {
    var created := Contract.New(owner, owner, reward, [x], deadline, limit);
    var c := created.value;
    var start := c.InitiateClaim(claimant, now);
    end := c.OnClaim(claimant, [Decoded(1)]);
    slotsLeft, winnerCount := c.potentialWinnersLeft, c.winnerCount;
    isWinner := c.CheckAccountIsWinner(claimant);
    mint := c.MintNft(claimant);
  }

  /** One slot, two qualified claimants: the first takes the slot, the second
      is turned away while the first is in flight, the first wins, and the
      second's retry is turned away too. Both refusals come from the slot
      check, which the source makes before the winner-limit check. */
  method OneSlotTwoClaimants(owner: AccountId, a: AccountId, b: AccountId, reward: NftContractId,
                             x: NftContractId, deadline: nat, now: nat)
    returns (first: ClaimStart, second: ClaimStart, end: ClaimEnd, retry: ClaimStart,
             winnerCount: nat, slotsLeft: nat, aWon: bool, bWon: bool)
    requires a != b && deadline <= U64_MAX
    ensures first.Fanout?
    ensures second == Rejected(AtMaxPotentialWinners)
    ensures end == Won
    ensures retry == Rejected(AtMaxPotentialWinners)
    ensures winnerCount == 1 && slotsLeft == 0
    ensures aWon && !bWon
  {
    var created := Contract.New(owner, owner, reward, [x], deadline, 1);
    var c := created.value;
    first := c.InitiateClaim(a, now);
    second := c.InitiateClaim(b, now);
    end := c.OnClaim(a, [Decoded(1)]);
    retry := c.InitiateClaim(b, now);
    winnerCount, slotsLeft := c.winnerCount, c.potentialWinnersLeft;
    aWon := c.CheckAccountIsWinner(a);
    bWon := c.CheckAccountIsWinner(b);
  }

  /** After the owner ends the challenge, a fresh claimant is refused with
      "Challenge is over" and no counter moves; a non-owner cannot end it.
      Ended before its deadline, the challenge is not reported expired. */
  method EndedChallengeRefusesClaims(owner: AccountId, other: AccountId, claimant: AccountId,
                                     reward: NftContractId, x: NftContractId,
                                     deadline: nat, now: nat, limit: nat)
    returns (refused: Outcome<OwnerError>, ended: Outcome<OwnerError>, start: ClaimStart,
             slotsLeft: nat, winnerCount: nat, expired: bool)
    requires other != owner
    requires 0 < limit <= U64_MAX && deadline <= U64_MAX && now <= deadline
    ensures refused == Fail(NotChallengeOwner)
    ensures ended == Pass
    ensures start == Rejected(ChallengeOver)
    ensures slotsLeft == limit && winnerCount == 0
    ensures !expired
  {
    var created := Contract.New(owner, owner, reward, [x], deadline, limit);
    var c := created.value;
    refused := c.EndChallenge(other);
    ended := c.EndChallenge(owner);
    start := c.InitiateClaim(claimant, now);
    slotsLeft, winnerCount := c.potentialWinnersLeft, c.winnerCount;
    expired := c.IsChallengeExpired(now);
  }

  /** Past the deadline the first claim still goes ahead (the expiry check
      never rejects) and marks the challenge over; the next claim is refused
      with "Challenge is over". */
  method ExpiredChallengeAdmitsOneMoreClaim(owner: AccountId, a: AccountId, b: AccountId,
                                            reward: NftContractId, x: NftContractId,
                                            deadline: nat, now: nat, limit: nat)
    returns (first: ClaimStart, expired: bool, second: ClaimStart)
    requires 2 <= limit <= U64_MAX && deadline <= U64_MAX && now > deadline
    ensures first.Fanout?
    ensures expired
    ensures second == Rejected(ChallengeOver)
  {
    var created := Contract.New(owner, owner, reward, [x], deadline, limit);
    var c := created.value;
    first := c.InitiateClaim(a, now);
    expired := c.IsChallengeExpired(now);
    second := c.InitiateClaim(b, now);
  }

  /** A winner who claims again is refused with "already won" and no counter
      moves. */
  method WinnerCannotClaimAgain(owner: AccountId, a: AccountId, reward: NftContractId,
                                x: NftContractId, deadline: nat, now: nat, limit: nat)
    returns (again: ClaimStart, slotsLeft: nat, winnerCount: nat)
    requires 2 <= limit <= U64_MAX && deadline <= U64_MAX && now <= deadline
    ensures again == Rejected(AlreadyWon)
    ensures slotsLeft == limit - 1 && winnerCount == 1
  {
    var created := Contract.New(owner, owner, reward, [x], deadline, limit);
    var c := created.value;
    var first := c.InitiateClaim(a, now);
    var end := c.OnClaim(a, [Decoded(3)]);
    again := c.InitiateClaim(a, now);
    slotsLeft, winnerCount := c.potentialWinnersLeft, c.winnerCount;
  }

  /** The winner check comes before the reservation and the record comes in
      the callback, so one account can have two claims in flight; both win,
      and the winner count runs ahead of the number of recorded winners. */
  method SameAccountWinsTwice(owner: AccountId, a: AccountId, reward: NftContractId,
                              x: NftContractId, deadline: nat, now: nat)
    returns (first: ClaimStart, second: ClaimStart, end1: ClaimEnd, end2: ClaimEnd,
             winnerCount: nat, recorded: nat)
    requires deadline <= U64_MAX && now <= deadline
    ensures first.Fanout? && second.Fanout?
    ensures end1 == Won && end2 == Won
    ensures winnerCount == 2 && recorded == 1
  {
    var created := Contract.New(owner, owner, reward, [x], deadline, 2);
    var c := created.value;
    first := c.InitiateClaim(a, now);
    second := c.InitiateClaim(a, now);
    end1 := c.OnClaim(a, [Decoded(1)]);
    end2 := c.OnClaim(a, [Decoded(1)]);
    winnerCount := c.winnerCount;
    assert c.winners == map[a := 1];
    recorded := |c.winners.Keys|;
  }

  /** With the release kept, a failed claim hands its slot to the next
      claimant. */
  method ReleasedSlotIsReused(owner: AccountId, a: AccountId, b: AccountId, reward: NftContractId,
                              x: NftContractId, deadline: nat, now: nat)
    returns (end: ClaimEnd, slotsLeft: nat, next: ClaimStart)
    requires deadline <= U64_MAX && now <= deadline
    ensures end == NotOwned(0, PromiseFailed)
    ensures slotsLeft == 1
    ensures next.Fanout?
  {
    var created := Contract.New(owner, owner, reward, [x], deadline, 1);
    var c := created.value;
    var first := c.InitiateClaim(a, now);
    FirstFailureDecides([Failed], 0);
    end := c.OnClaim(a, [Failed]);
    slotsLeft := c.potentialWinnersLeft;
    next := c.InitiateClaim(b, now);
  }

  /** As the host runs the code, the release before the panic is discarded:
      with one slot, one failed lookup leaves no winner and no slot, so every
      later claim is refused at the first check. */
  method RevertedFailureLeaksSlot(owner: AccountId, a: AccountId, reward: NftContractId,
                                  x: NftContractId, deadline: nat, now: nat)
    returns (end: ClaimEnd, slotsLeft: nat, winnerCount: nat, gate: Option<Rejection>)
    requires deadline <= U64_MAX
    ensures end == NotOwned(0, PromiseFailed)
    ensures slotsLeft == 0 && winnerCount == 0
    ensures gate == Some(AtMaxPotentialWinners)
  {
    var created := Contract.New(owner, owner, reward, [x], deadline, 1);
    var c := created.value;
    var first := c.InitiateClaim(a, now);
    FirstFailureDecides([Failed], 0);
    end := c.OnClaimReverting(a, [Failed]);
    slotsLeft, winnerCount := c.potentialWinnersLeft, c.winnerCount;
    assert c.pending == multiset{};
    gate := StateRejection(slotsLeft, winnerCount, c.winnerLimit, c.challengeCompleted);
  }
}
