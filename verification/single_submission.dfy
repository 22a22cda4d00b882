/**
  RANK_IT, COMPLETE_IT and DRAW_IT: every participant submits one answer. What the answer holds is
  not modelled; whether the game's own checks accept it is a property of the submission.
 */
module SingleSubmission {
  import opened Collections
  import opened SpeakingOrder

  datatype State = State(participantIds: seq<PlayerId>, submitted: set<PlayerId>, completed: bool)

  /** `None` when the source throws; `most` is absent for the game without an upper bound. */
  function Start(participantIds: seq<PlayerId>, least: nat, most: Option<nat>,
                 assignedIds: set<PlayerId>): Option<State> {
    if |participantIds| < least || (most.Some? && |participantIds| > most.value) || !Distinct(participantIds) then None
    else if !AssignmentsFit(participantIds, assignedIds) then None
    else Some(State(participantIds, {}, false))
  }

  predicate ValidateAction(s: State, playerId: PlayerId, answerAccepted: bool) {
    !s.completed && playerId in s.participantIds && playerId !in s.submitted && answerAccepted
  }

  function HandleAction(s: State, playerId: PlayerId): State {
    var submitted := s.submitted + {playerId};
    s.(submitted := submitted, completed := forall id :: id in s.participantIds ==> id in submitted)
  }

  ghost predicate Valid(s: State) {
    && s.participantIds != []
    && s.submitted <= Elements(s.participantIds)
    && (s.completed <==> s.submitted == Elements(s.participantIds))
  }

  lemma StartAccepts(participantIds: seq<PlayerId>, least: nat, most: Option<nat>, assignedIds: set<PlayerId>)
    requires Distinct(participantIds) && participantIds != [] && least <= |participantIds|
    requires most.Some? ==> |participantIds| <= most.value
    requires assignedIds == Elements(participantIds)
    ensures Start(participantIds, least, most, assignedIds) == Some(State(participantIds, {}, false))
    ensures Valid(State(participantIds, {}, false))
  {
    DistinctCounts(participantIds);
    assert participantIds[0] in Elements(participantIds);
  }

  /** Every participant may submit one acceptable answer, and nobody else any. */
  lemma MaySubmit(s: State, playerId: PlayerId, answerAccepted: bool)
    requires Valid(s)
    ensures ValidateAction(s, playerId, answerAccepted) <==>
              playerId in s.participantIds && playerId !in s.submitted && answerAccepted
  {
    if playerId in s.participantIds && playerId !in s.submitted {
      assert playerId in Elements(s.participantIds);
    }
  }

  /** A submission is counted once, and the game is complete exactly when everybody has submitted. */
  lemma HandleKeepsValid(s: State, playerId: PlayerId, answerAccepted: bool)
    requires Valid(s) && ValidateAction(s, playerId, answerAccepted)
    ensures Valid(HandleAction(s, playerId))
    ensures HandleAction(s, playerId).submitted == s.submitted + {playerId}
    ensures HandleAction(s, playerId).participantIds == s.participantIds
    ensures |HandleAction(s, playerId).submitted| == |s.submitted| + 1
    ensures !ValidateAction(HandleAction(s, playerId), playerId, answerAccepted)
  {
    var t := HandleAction(s, playerId);
    assert t.completed <==> Elements(s.participantIds) <= t.submitted by {
      if t.completed {
        assert forall id :: id in Elements(s.participantIds) ==> id in s.participantIds;
      } else {
        var id :| id in s.participantIds && id !in t.submitted;
        assert id in Elements(s.participantIds);
      }
    }
  }
}
