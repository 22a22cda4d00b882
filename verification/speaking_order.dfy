/** What every minigame checks about the players and the assignments it is started with. */
module SpeakingOrder {
  import opened Collections

  type PlayerId = nat

  /** The order lists every participant exactly once. */
  predicate OrderFits(participantIds: seq<PlayerId>, speakerOrder: seq<PlayerId>) {
    && |speakerOrder| == |participantIds| && Distinct(speakerOrder)
    && forall id :: id in speakerOrder ==> id in participantIds
  }

  /** Exactly one assignment for each of the players. */
  predicate AssignmentsFit(playerIds: seq<PlayerId>, assignedIds: set<PlayerId>) {
    |assignedIds| == |playerIds| && forall id :: id in playerIds ==> id in assignedIds
  }

  /** A rearrangement of distinct participants and assignments made for each of them pass the checks. */
  lemma OrderCovers(participantIds: seq<PlayerId>, speakerOrder: seq<PlayerId>, assignedIds: set<PlayerId>)
    requires Distinct(participantIds) && Permutation(speakerOrder, participantIds)
    requires assignedIds == Elements(participantIds)
    ensures OrderFits(participantIds, speakerOrder) && |speakerOrder| == |participantIds|
    ensures AssignmentsFit(participantIds, assignedIds)
  {
    PermutationMembers(speakerOrder, participantIds);
    PermutationDistinct(speakerOrder, participantIds);
    DistinctCounts(participantIds);
  }
}
