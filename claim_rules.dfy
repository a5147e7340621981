/** The decisions of a claim, as pure functions: which rejection
    `initiate_claim` raises before it reserves a slot, and how `on_claim`
    reads the results of the ownership lookups. */
module ClaimRules {
  import opened ChallengeTypes

  // ---------------------------------------------------------------------------
  // Stage 1: the checks made before a slot is reserved
  // ---------------------------------------------------------------------------

  /** The first three checks of `initiate_claim`, on the counters alone, in
      the source's order: no slot left, winner limit reached, challenge over. */
  function StateRejection(potentialWinnersLeft: nat, winnerCount: nat, winnerLimit: nat,
                          challengeCompleted: bool): (r: Option<Rejection>)
    ensures r.None? <==> potentialWinnersLeft > 0 && winnerCount < winnerLimit && !challengeCompleted
    ensures r == Some(AtMaxPotentialWinners) <==> potentialWinnersLeft == 0
    ensures r == Some(NotAcceptingWinners) <==> potentialWinnersLeft > 0 && winnerCount >= winnerLimit
    ensures r == Some(ChallengeOver) <==>
              potentialWinnersLeft > 0 && winnerCount < winnerLimit && challengeCompleted
    ensures r != Some(AlreadyWon)
  {
    if potentialWinnersLeft == 0 then Some(AtMaxPotentialWinners)
    else if winnerCount >= winnerLimit then Some(NotAcceptingWinners)
    else if challengeCompleted then Some(ChallengeOver)
    else None
  }

  /** Every check `initiate_claim` makes before reserving: the counter checks,
      then whether the caller has already won. */
  function ClaimGate(potentialWinnersLeft: nat, winnerCount: nat, winnerLimit: nat,
                     challengeCompleted: bool, alreadyWon: bool): (r: Option<Rejection>)
    ensures r.None? <==>
              potentialWinnersLeft > 0 && winnerCount < winnerLimit && !challengeCompleted && !alreadyWon
    ensures r == Some(AlreadyWon) <==>
              potentialWinnersLeft > 0 && winnerCount < winnerLimit && !challengeCompleted && alreadyWon
    ensures challengeCompleted ==> r.Some?
  {
    var early := StateRejection(potentialWinnersLeft, winnerCount, winnerLimit, challengeCompleted);
    if early.Some? then early
    else if alreadyWon then Some(AlreadyWon)
    else None
  }

  /** While free slots, slots held by claims in flight and slots used by
      winners do not exceed the limit, the winner-limit check never fires: a
      full limit leaves no slot, and the slot check comes first. This also
      holds when releases are lost (see `OnClaimReverting`). */
  lemma NotAcceptingIsUnreachable(potentialWinnersLeft: nat, winnerCount: nat, winnerLimit: nat,
                                  inflight: nat, challengeCompleted: bool, alreadyWon: bool)
    requires winnerCount + potentialWinnersLeft + inflight <= winnerLimit
    ensures ClaimGate(potentialWinnersLeft, winnerCount, winnerLimit, challengeCompleted, alreadyWon)
              != Some(NotAcceptingWinners)
  {
  }

  // ---------------------------------------------------------------------------
  // Stage 2: reading the lookup results
  // ---------------------------------------------------------------------------

  /** A lookup proves ownership when it succeeded and decoded to a non-empty
      token list. */
  predicate Owned(r: LookupResult)
  {
    r.Decoded? && r.count > 0
  }

  /** The panic `on_claim` raises for one result, if any. */
  function Classify(r: LookupResult): (f: Option<LookupFailure>)
    ensures f.None? <==> Owned(r)
    ensures f == Some(PromiseFailed) <==> r.Failed?
    ensures f == Some(DeserializeError) <==> r.Undecodable?
  {
    match r
    case Failed => Some(PromiseFailed)
    case Undecodable => Some(DeserializeError)
    case Decoded(n) => if n == 0 then Some(NoTokens) else None
  }

  /** The outcome of walking all results in index order. */
  datatype Verdict = AllOwned | FailsAt(index: nat, failure: LookupFailure)

  /** `k` is the lowest index whose result does not prove ownership. */
  ghost predicate IsFirstFailure(results: seq<LookupResult>, k: nat)
  {
    && k < |results|
    && !Owned(results[k])
    && forall j :: 0 <= j < k ==> Owned(results[j])
  }

  /** The verdict of `on_claim`'s walk: all owned, or the first index that is
      not, with the reason for that index. */
  function Judge(results: seq<LookupResult>): (v: Verdict)
    ensures v.AllOwned? <==> forall i :: 0 <= i < |results| ==> Owned(results[i])
    ensures v.FailsAt? ==> IsFirstFailure(results, v.index) && Classify(results[v.index]) == Some(v.failure)
  {
    if results == [] then AllOwned
    else
      match Classify(results[0])
      case Some(f) => FailsAt(0, f)
      case None =>
        match Judge(results[1..])
        case AllOwned => AllOwned
        case FailsAt(k, f) => FailsAt(k + 1, f)
  }

  /** The first failure determines the verdict. */
  lemma FirstFailureDecides(results: seq<LookupResult>, k: nat)
    requires IsFirstFailure(results, k)
    ensures Judge(results) == FailsAt(k, Classify(results[k]).value)
  {
  }

  /** Results after the first failing one are never looked at: appending any
      further results leaves the verdict unchanged. */
  lemma JudgeStopsAtFirstFailure(results: seq<LookupResult>, later: seq<LookupResult>)
    requires Judge(results).FailsAt?
    ensures Judge(results + later) == Judge(results)
  {
    var k := Judge(results).index;
    var all := results + later;
    assert all[k] == results[k];
    forall j | 0 <= j < k
      ensures Owned(all[j])
    {
      assert all[j] == results[j];
    }
    FirstFailureDecides(all, k);
  }

  /** When every result before the appended ones proves ownership, the
      verdict is decided by the appended ones alone, shifted past them. */
  lemma {:induction false} JudgeAfterOwnedPrefix(results: seq<LookupResult>, later: seq<LookupResult>)
    requires Judge(results).AllOwned?
    ensures Judge(later).AllOwned? ==> Judge(results + later).AllOwned?
    ensures Judge(later).FailsAt? ==>
              Judge(results + later) == FailsAt(|results| + Judge(later).index, Judge(later).failure)
  {
    if results != [] {
      assert (results + later)[0] == results[0];
      assert (results + later)[1..] == results[1..] + later;
      assert Owned(results[0]);
      assert Judge(results[1..]).AllOwned? by {
        forall i | 0 <= i < |results[1..]|
          ensures Owned(results[1..][i])
        {
          assert results[1..][i] == results[i + 1];
        }
      }
      JudgeAfterOwnedPrefix(results[1..], later);
    } else {
      assert results + later == later;
    }
  }
}
