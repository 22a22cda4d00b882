/** What the room assembles for a module's `start` is what that module accepts. */
module StartProofs {
  import opened Collections
  import opened Random
  import opened SpeakingOrder
  import opened RoomState
  import opened Transitions
  import opened RoomInvariant
  import Minigames
  import SingleSubmission
  import PredictThem
  import DescribeIt
  import DefendIt
  import BombProtocol
  import BombContent

  lemma SingleStarts(id: Minigames.MinigameId, ids: seq<PlayerId>, least: nat, most: Option<nat>)
    requires id.RankIt? || id.CompleteIt? || id.DrawIt?
    requires Distinct(ids) && least >= 1
    ensures var s := SingleSubmission.Start(ids, least, most, Elements(ids));
            && (least <= |ids| && (most.Some? ==> |ids| <= most.value) ==> s.Some?)
            && (s.Some? ==>
                  && SingleSubmission.Valid(s.value) && s.value.participantIds == ids && !s.value.completed)
  {
    if least <= |ids| && (most.Some? ==> |ids| <= most.value) {
      SingleSubmission.StartAccepts(ids, least, most, Elements(ids));
    }
  }

  lemma CardOrdersShuffled(ids: seq<PlayerId>, rng: PlayerId -> Stream)
    ensures Minigames.CardOrdersFit(ids, map id | id in ids :: Shuffle(Minigames.CARDS, rng(id)))
  {
    assert Distinct(Minigames.CARDS);
    hide Shuffle, Permutation, Distinct;
  }

  ghost predicate PredictorsFit(ids: seq<PlayerId>, selected: seq<PlayerId>) {
    1 <= |selected| <= 4 && |selected| < |ids| && Distinct(selected) && forall id :: id in selected ==> id in ids
  }

  lemma PredictStarts(ids: seq<PlayerId>, selected: seq<PlayerId>)
    requires Distinct(ids)
    ensures var s := PredictThem.Start(ids, PredictThem.Config(selected, Elements(selected)));
            && (PredictorsFit(ids, selected) ==> s.Some?)
            && (s.Some? ==> PredictThem.Valid(s.value) && s.value.step == PredictThem.AudienceVote)
  {
    var config := PredictThem.Config(selected, Elements(selected));
    var s := PredictThem.Start(ids, config);
    if s.Some? {
      SelectedFewer(ids, selected);
      PredictThem.StartAccepts(ids, config);
    } else if PredictorsFit(ids, selected) {
      PredictThem.StartAccepts(ids, config);
    }
  }

  lemma SelectedFewer(ids: seq<PlayerId>, selected: seq<PlayerId>)
    requires Distinct(ids) && Distinct(selected) && (forall id :: id in selected ==> id in ids)
    requires PredictThem.Audience(ids, selected) != []
    ensures |selected| < |ids|
  {
    var outside := PredictThem.Audience(ids, selected)[0];
    assert outside in PredictThem.Audience(ids, selected);
    DistinctWithin(selected, Elements(ids) - {outside});
    DistinctCounts(ids);
  }

  lemma DescribeStarts(ids: seq<PlayerId>, rng: Stream)
    requires Distinct(ids)
    ensures var s := DescribeIt.Start(ids, DescribeIt.Config(Shuffle(ids, rng), Elements(ids)));
            && (s.Some? <==> 3 <= |ids| <= 5)
            && (s.Some? ==>
                  && DescribeIt.Valid(s.value) && s.value.participantIds == ids && s.value.step == DescribeIt.Think
                  && DescribeIt.Remaining(s.value) == |ids| + 1)
  {
    hide Shuffle, Permutation;
    if 3 <= |ids| <= 5 {
      DescribeIt.StartAccepts(ids, DescribeIt.Config(Shuffle(ids, rng), Elements(ids)));
    }
  }

  lemma AskersSelected(ids: seq<PlayerId>, order: seq<PlayerId>, rng: PlayerId -> Stream)
    requires Distinct(order) && |order| >= 2 && Permutation(order, ids)
    ensures DefendIt.AskersDrawn(ids, DefendIt.SelectFollowUpAskers(order, rng))
  {
    PermutationMembers(order, ids);
    var askers := DefendIt.SelectFollowUpAskers(order, rng);
    hide DefendIt.SelectFollowUpAskers, Permutation;
    assert askers.Keys == Elements(ids);
  }

  lemma DefendStarts(ids: seq<PlayerId>, rng: Stream, askerRng: PlayerId -> Stream)
    requires Distinct(ids)
    ensures var order := Shuffle(ids, rng);
            var askers := if |order| < 2 then map[] else DefendIt.SelectFollowUpAskers(order, askerRng);
            var s := DefendIt.Start(ids, DefendIt.Config(order, Elements(ids), askers));
            && (s.Some? <==> 2 <= |ids| <= 4)
            && (s.Some? ==>
                  && DefendIt.Valid(s.value) && s.value.participantIds == ids && s.value.step == DefendIt.Prep
                  && DefendIt.Remaining(s.value) == 3 * |ids| + 1)
  {
    var order := Shuffle(ids, rng);
    if 2 <= |ids| <= 4 {
      hide Shuffle;
      AskersSelected(ids, order, askerRng);
      hide DefendIt.AskersDrawn, DefendIt.SelectFollowUpAskers, DefendIt.Valid, DefendIt.Remaining;
      DefendIt.StartAccepts(ids, DefendIt.Config(order, Elements(ids), DefendIt.SelectFollowUpAskers(order, askerRng)));
    }
  }

  ghost predicate SizesMatch(round: Round) {
    Minigames.Registered(round.minigameId) && SizesFit(round.minigameId, round.adminSelectedIds, round.participantIds)
  }

  /**
    What starting a round's module gives: a game in order, not yet complete, at most thirteen timeouts
    from its end.
   */
  ghost predicate StartsWell(round: Round, d: Deps) {
    var m := StartModule(round, d);
    && (Distinct(round.participantIds) && SizesMatch(round) ==> m.Some?)
    && (!Minigames.Registered(round.minigameId) ==> m.None?)
    && (m.Some? ==>
          && Minigames.Valid(round.minigameId, m.value, round.participantIds)
          && !Minigames.IsComplete(m.value)
          && Minigames.TimeoutsLeft(m.value) <= 13)
  }

  lemma AnswersStart(round: Round, d: Deps)
    requires (round.minigameId.CompleteIt? || round.minigameId.DrawIt?) && Distinct(round.participantIds)
    ensures StartsWell(round, d)
  {
    hide Shuffle, Permutation, Distinct, Elements, SingleSubmission.Valid, PredictThem.Valid, DescribeIt.Valid,
         DefendIt.Valid, SingleSubmission.Start, PredictThem.Start, DescribeIt.Start, DefendIt.Start,
         Minigames.CardOrdersFit;
    var ids := round.participantIds;
    if round.minigameId.CompleteIt? {
      SingleStarts(round.minigameId, ids, 1, None);
    } else {
      SingleStarts(round.minigameId, ids, 2, Some(4));
    }
  }

  lemma RankItStarts(round: Round, d: Deps)
    requires round.minigameId.RankIt? && Distinct(round.participantIds)
    ensures StartsWell(round, d)
  {
    hide Shuffle, Permutation, Distinct, Elements, SingleSubmission.Valid, PredictThem.Valid, DescribeIt.Valid,
         DefendIt.Valid, SingleSubmission.Start, PredictThem.Start, DescribeIt.Start, DefendIt.Start,
         Minigames.CardOrdersFit;
    CardOrdersShuffled(round.participantIds, CardRng(d));
    SingleStarts(round.minigameId, round.participantIds, 2, Some(5));
  }

  lemma PredictThemStarts(round: Round, d: Deps)
    requires round.minigameId.PredictThemGame? && Distinct(round.participantIds)
    ensures StartsWell(round, d)
  {
    hide Shuffle, Permutation, Distinct, Elements, SingleSubmission.Valid, PredictThem.Valid, DescribeIt.Valid,
         DefendIt.Valid, SingleSubmission.Start, PredictThem.Start, DescribeIt.Start, DefendIt.Start,
         Minigames.CardOrdersFit;
    PredictStarts(round.participantIds, round.adminSelectedIds);
  }

  lemma DescribeItStarts(round: Round, d: Deps)
    requires round.minigameId.DescribeItGame? && Distinct(round.participantIds)
    ensures StartsWell(round, d)
  {
    hide Shuffle, Permutation, Distinct, Elements, SingleSubmission.Valid, PredictThem.Valid, DescribeIt.Valid,
         DefendIt.Valid, SingleSubmission.Start, PredictThem.Start, DescribeIt.Start, DefendIt.Start,
         Minigames.CardOrdersFit;
    DescribeStarts(round.participantIds, d.rng(SpeakerShuffle));
  }

  lemma DefendItStarts(round: Round, d: Deps)
    requires round.minigameId.DefendItGame? && Distinct(round.participantIds)
    ensures StartsWell(round, d)
  {
    hide Shuffle, Permutation, Distinct, Elements, SingleSubmission.Valid, PredictThem.Valid, DescribeIt.Valid,
         DefendIt.Valid, SingleSubmission.Start, PredictThem.Start, DescribeIt.Start, DefendIt.Start,
         Minigames.CardOrdersFit;
    DefendStarts(round.participantIds, d.rng(SpeakerShuffle), AskerRng(d));
  }

  lemma NothingInherited(round: Round, d: Deps)
    requires !Minigames.Registered(round.minigameId)
    ensures StartsWell(round, d)
  {
    hide StartConfigFor;
  }

  /**
    Every round of the right size starts, whichever game of the registry it plays and whatever the random
    numbers; a round of an inherited name never does.
   */
  lemma ModuleStarts(round: Round, d: Deps)
    ensures StartsWell(round, d)
  {
    if Distinct(round.participantIds) {
      hide StartsWell;
      match round.minigameId
      case RankIt => RankItStarts(round, d);
      case CompleteIt => AnswersStart(round, d);
      case DrawIt => AnswersStart(round, d);
      case PredictThemGame => PredictThemStarts(round, d);
      case DescribeItGame => DescribeItStarts(round, d);
      case DefendItGame => DefendItStarts(round, d);
      case InheritedName => NothingInherited(round, d);
    }
  }

  /** A game nobody has played yet, of the kind named, for the players of the round in the parts they were given. */
  ghost predicate Fresh(round: Round, m: Minigames.ModuleState) {
    match round.minigameId
    case PredictThemGame =>
      && m.Predicting?
      && var s := m.prediction;
      && s.selectedPlayerIds == round.adminSelectedIds && s.step == PredictThem.AudienceVote
      && (forall id :: id in s.audiencePlayerIds <==> id in round.participantIds && id !in round.adminSelectedIds)
      && s.audienceVotes == map[] && s.predictions == map[]
    case DescribeItGame =>
      && m.Describing?
      && var s := m.description;
      && s.participantIds == round.participantIds && Permutation(s.speakerOrder, round.participantIds)
      && s.step == DescribeIt.Think && s.currentSpeakerIndex == 0 && s.turnResults == map[]
    case DefendItGame =>
      && m.Defending?
      && var s := m.defence;
      && s.participantIds == round.participantIds && Permutation(s.speakerOrder, round.participantIds)
      && s.step == DefendIt.Prep && s.currentSpeakerIndex == 0 && s.turnResults == map[]
      && DefendIt.AskersFit(round.participantIds, s.followUpAskerIds)
    case InheritedName => false
    case _ => m == Minigames.Submissions(SingleSubmission.State(round.participantIds, {}, false))
  }

  lemma FreshStart(round: Round, d: Deps)
    ensures StartModule(round, d).Some? ==> Fresh(round, StartModule(round, d).value)
  {
    hide Shuffle, Permutation, Distinct, Elements, Minigames.CardOrdersFit, DefendIt.SelectFollowUpAskers, DefendIt.AskersFit,
         Filter;
    if round.minigameId.DescribeItGame? || round.minigameId.DefendItGame? {
      var order := Shuffle(round.participantIds, d.rng(SpeakerShuffle));
      assert Permutation(order, round.participantIds);
    }
  }

  /** Three to five distinct participants always start the special game. */
  lemma SpecialStarts(ids: seq<PlayerId>, d: Deps)
    requires Distinct(ids)
    ensures 3 <= |ids| <= 5 ==> StartSpecial(ids, d).Some?
    ensures StartSpecial(ids, d).Some? ==>
              BombProtocol.Valid(StartSpecial(ids, d).value) && StartSpecial(ids, d).value.status == BombProtocol.Active
  {
    if 3 <= |ids| <= 5 {
      BombContent.GeneratedConfigStarts(ids, BombRngOf(d));
    }
    hide BombContent.CreateConfig, BombProtocol.ShapeFits, BombProtocol.RolesFit, BombProtocol.InstructionsFit,
         BombProtocol.Solvable;
  }
}
