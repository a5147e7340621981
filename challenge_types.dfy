/** Values exchanged by the NFT challenge contract: identities, the outcome of
    each claim stage, and the promise results its callback reads. */
module ChallengeTypes {

  /** NEAR account ids and NFT contract ids are strings. */
  type AccountId = string
  type NftContractId = string

  /** Largest value of the source's `u64` counters and timestamps. */
  const U64_MAX: nat := 0xFFFF_FFFF_FFFF_FFFF

  datatype Option<+T> = None | Some(value: T)

  datatype Result<+T, +E> = Success(value: T) | Failure(error: E)

  datatype Outcome<+E> = Pass | Fail(error: E)

  /** One promise result as `on_claim` sees it: the lookup call failed, it
      succeeded but its bytes are not a JSON list of tokens, or it decoded to
      a list of `count` tokens. */
  datatype LookupResult = Failed | Undecodable | Decoded(count: nat)

  /** The three ways one lookup can fail to prove ownership, one per panic
      message of `on_claim`. */
  datatype LookupFailure = PromiseFailed | NoTokens | DeserializeError

  /** The rejections of `initiate_claim` by its state checks, one per panic
      message. The "Challenge is expired" panic has no constructor: the check
      guarding it always answers false. Neither do the "Error in the promises"
      panic, unreachable for a non-empty id list, nor the panic of parsing an
      id that is not an account id. */
  datatype Rejection =
    | AtMaxPotentialWinners
    | NotAcceptingWinners
    | ChallengeOver
    | AlreadyWon

  /** `nft_tokens_for_owner(account_id, None, None)` sent to one challenge NFT contract. */
  datatype Lookup = NftTokensForOwner(nftContract: NftContractId, accountId: AccountId)

  /** The callback chained after the joined lookups. */
  datatype Callback = OnClaimCall(winnerId: AccountId, numberPromises: nat)

  /** What `initiate_claim` leaves behind: a rejection, or the lookups it
      issued (joined with `and`) and the callback run when all have answered. */
  datatype ClaimStart =
    | Rejected(reason: Rejection)
    | Fanout(lookups: seq<Lookup>, callback: Callback)

  /** What `on_claim` ends with: the claimant won, or the lookup at `index`
      did not prove ownership. */
  datatype ClaimEnd = Won | NotOwned(index: nat, failure: LookupFailure)

  /** The panic of `new` on an empty list of challenge NFTs. */
  datatype InitError = NoChallengeNfts

  /** The panic of `assert_challenge_owner`. */
  datatype OwnerError = NotChallengeOwner

  /** The panic of `mint_nft` for a caller who has not won. */
  datatype MintError = NotAWinner

  /** `nft_batch_mint(owner_id, metadata, num_to_mint, None, None)` sent to the
      reward NFT contract (the metadata is not modelled). */
  datatype MintRequest = NftBatchMint(nftContract: NftContractId, ownerId: AccountId, numToMint: nat)
}
