/** The six regular minigames behind the one interface the room uses, and their participant limits. */
module Minigames {
  import opened Collections
  import opened SpeakingOrder
  import SingleSubmission
  import PredictThem
  import DescribeIt
  import DefendIt

  /**
    The names the tables of games answer to: the six games, and the names every object literal inherits
    from `Object.prototype` ("constructor", "toString" and so on), which no table excludes. All of the
    latter behave alike.
   */
  datatype MinigameId = RankIt | CompleteIt | PredictThemGame | DrawIt | DescribeItGame | DefendItGame | InheritedName

  /** The name of a game: a key of the registry's own. */
  predicate Registered(id: MinigameId) {
    id != InheritedName
  }

  type GameName = id: MinigameId | Registered(id) witness RankIt

  datatype ModuleState =
    | Submissions(answers: SingleSubmission.State)
    | Predicting(prediction: PredictThem.State)
    | Describing(description: DescribeIt.State)
    | Defending(defence: DefendIt.State)

  /** What the room assembles for `start`: the prompts' owners and each game's own data. */
  datatype StartConfig =
    | RankItConfig(promptOwners: set<PlayerId>, initialOrder: map<PlayerId, seq<nat>>)
    | PromptConfig(owners: set<PlayerId>)
    | PredictThemConfig(predict: PredictThem.Config)
    | DescribeItConfig(describe: DescribeIt.Config)
    | DefendItConfig(defend: DefendIt.Config)

  datatype Action =
    | SubmitAnswer(game: GameName, accepted: bool)
    | PredictAction(predict: PredictThem.Action)
    | DescribeAction(describe: DescribeIt.Action)
    | DefendAction(defend: DefendIt.Action)

  datatype StepKey =
    | PredictStep(predict: PredictThem.Step)
    | DescribeStep(describe: (DescribeIt.Step, nat))
    | DefendStep(step: DefendIt.Step, index: nat)

  datatype Limit = Limit(least: nat, most: nat)

  const ALL_MINIGAMES: seq<GameName> := [RankIt, CompleteIt, PredictThemGame, DrawIt, DescribeItGame, DefendItGame]
  const CARDS: seq<nat> := [0, 1, 2, 3]

  /** How many players the Admin selects; for PREDICT_THEM these are the predictors only. */
  function ParticipantLimit(id: GameName): Limit {
    match id
    case DrawIt => Limit(2, 4)
    case CompleteIt => Limit(2, 5)
    case PredictThemGame => Limit(2, 4)
    case DefendItGame => Limit(2, 4)
    case DescribeItGame => Limit(3, 5)
    case RankIt => Limit(2, 5)
  }

  /** What is inherited has neither a minimum nor a maximum, and no number is below or above what is missing. */
  predicate WithinLimit(id: MinigameId, n: nat) {
    Registered(id) ==> ParticipantLimit(id).least <= n <= ParticipantLimit(id).most
  }

  predicate CardOrdersFit(participantIds: seq<PlayerId>, initialOrder: map<PlayerId, seq<nat>>) {
    forall id :: id in participantIds ==>
      id in initialOrder && |initialOrder[id]| == 4 && Distinct(initialOrder[id])
      && forall card :: card in initialOrder[id] ==> card in CARDS
  }

  /** `None` when the module's `start` throws, as it does for an inherited name, which has no `start`. */
  function Start(id: MinigameId, participantIds: seq<PlayerId>, config: StartConfig): Option<ModuleState> {
    match (id, config)
    case (RankIt, RankItConfig(owners, initialOrder)) =>
      if !CardOrdersFit(participantIds, initialOrder) then None
      else FromAnswers(SingleSubmission.Start(participantIds, 2, Some(5), owners))
    case (CompleteIt, PromptConfig(owners)) => FromAnswers(SingleSubmission.Start(participantIds, 1, None, owners))
    case (DrawIt, PromptConfig(owners)) => FromAnswers(SingleSubmission.Start(participantIds, 2, Some(4), owners))
    case (PredictThemGame, PredictThemConfig(predict)) =>
      (var s := PredictThem.Start(participantIds, predict); if s.None? then None else Some(Predicting(s.value)))
    case (DescribeItGame, DescribeItConfig(describe)) =>
      (var s := DescribeIt.Start(participantIds, describe); if s.None? then None else Some(Describing(s.value)))
    case (DefendItGame, DefendItConfig(defend)) =>
      (var s := DefendIt.Start(participantIds, defend); if s.None? then None else Some(Defending(s.value)))
    case _ => None
  }

  function FromAnswers(s: Option<SingleSubmission.State>): Option<ModuleState> {
    if s.None? then None else Some(Submissions(s.value))
  }

  predicate ValidateAction(id: MinigameId, m: ModuleState, playerId: PlayerId, action: Action) {
    match (m, action)
    case (Submissions(s), SubmitAnswer(game, accepted)) =>
      game == id && SingleSubmission.ValidateAction(s, playerId, accepted)
    case (Predicting(s), PredictAction(a)) => PredictThem.ValidateAction(s, playerId, a)
    case (Describing(s), DescribeAction(a)) => DescribeIt.ValidateAction(s, playerId, a)
    case (Defending(s), DefendAction(a)) => DefendIt.ValidateAction(s, playerId, a)
    case _ => false
  }

  function HandleAction(m: ModuleState, playerId: PlayerId, action: Action): ModuleState {
    match (m, action)
    case (Submissions(s), SubmitAnswer(_, _)) => Submissions(SingleSubmission.HandleAction(s, playerId))
    case (Predicting(s), PredictAction(a)) => Predicting(PredictThem.HandleAction(s, playerId, a))
    case (Describing(s), DescribeAction(a)) => Describing(DescribeIt.HandleAction(s, a))
    case (Defending(s), DefendAction(a)) => Defending(DefendIt.HandleAction(s, a))
    case _ => m
  }

  predicate IsComplete(m: ModuleState) {
    match m
    case Submissions(s) => s.completed
    case Predicting(s) => s.step == PredictThem.Completed
    case Describing(s) => s.step == DescribeIt.Completed
    case Defending(s) => s.step == DefendIt.Completed
  }

  /** The `success` that `resolve` reports. */
  predicate Succeeded(m: ModuleState) {
    match m
    case Submissions(s) => forall id :: id in s.participantIds ==> id in s.submitted
    case Predicting(s) => true
    case Describing(s) => s.step == DescribeIt.Completed
    case Defending(s) => s.step == DefendIt.Completed
  }

  /** Absent for the games without internal steps. */
  function InternalStep(m: ModuleState): Option<StepKey> {
    match m
    case Submissions(_) => None
    case Predicting(s) => Some(PredictStep(s.step))
    case Describing(s) => Some(DescribeStep(DescribeIt.StepKey(s)))
    case Defending(s) => Some(DefendStep(s.step, s.currentSpeakerIndex))
  }

  /** Absent for the games whose timer simply ends them. */
  function HandleTimeout(m: ModuleState): Option<ModuleState> {
    match m
    case Submissions(_) => None
    case Predicting(s) => Some(Predicting(PredictThem.HandleTimeout(s)))
    case Describing(s) => Some(Describing(DescribeIt.HandleTimeout(s)))
    case Defending(s) => Some(Defending(DefendIt.HandleTimeout(s)))
  }

  function DurationMs(id: GameName, m: Option<ModuleState>): nat {
    match id
    case RankIt => 45_000
    case CompleteIt => 45_000
    case DrawIt => 30_000
    case PredictThemGame => 20_000
    case DescribeItGame => if m.Some? && m.value.Describing? then DescribeIt.DurationMs(m.value.description) else 12_000
    case DefendItGame => if m.Some? && m.value.Defending? then DefendIt.DurationMs(m.value.defence) else 10_000
  }

  // ---- What the room relies on ----------------------------------------------------------------------

  /** The state belongs to this game and these participants, and satisfies the game's own invariant. */
  ghost predicate Valid(id: MinigameId, m: ModuleState, participantIds: seq<PlayerId>) {
    match m
    case Submissions(s) =>
      (id == RankIt || id == CompleteIt || id == DrawIt) && SingleSubmission.Valid(s) && s.participantIds == participantIds
    case Predicting(s) => id == PredictThemGame && PredictThem.Valid(s)
    case Describing(s) => id == DescribeItGame && DescribeIt.Valid(s) && s.participantIds == participantIds
    case Defending(s) => id == DefendItGame && DefendIt.Valid(s) && s.participantIds == participantIds
  }

  /** Timeouts still needed to end the game if nobody acts any more. */
  function TimeoutsLeft(m: ModuleState): int {
    match m
    case Submissions(s) => if s.completed then 0 else 1
    case Predicting(s) => PredictThem.StepsLeft(s)
    case Describing(s) => DescribeIt.Remaining(s)
    case Defending(s) => DefendIt.Remaining(s)
  }

  lemma CompleteMeansNoneLeft(id: MinigameId, m: ModuleState, participantIds: seq<PlayerId>)
    requires Valid(id, m, participantIds)
    ensures 0 <= TimeoutsLeft(m) <= 13
    ensures IsComplete(m) <==> TimeoutsLeft(m) == 0
  {
    hide DefendIt.Cast, DefendIt.Recorded;
    if m.Defending? {
      DefendIt.CastSpeaks(m.defence);
    }
  }

  /** A timeout moves a game with internal steps to a new step, one closer to its end. */
  lemma TimeoutAdvances(id: MinigameId, m: ModuleState, participantIds: seq<PlayerId>)
    requires Valid(id, m, participantIds) && !IsComplete(m)
    ensures HandleTimeout(m).Some? ==>
              var next := HandleTimeout(m).value;
              && Valid(id, next, participantIds)
              && TimeoutsLeft(next) == TimeoutsLeft(m) - 1
              && InternalStep(m).Some? && InternalStep(next) != InternalStep(m)
    ensures HandleTimeout(m).None? ==> TimeoutsLeft(m) == 1 && InternalStep(m).None?
  {
    hide DefendIt.Valid, DescribeIt.Valid, PredictThem.Valid, DefendIt.Remaining, DescribeIt.Remaining;
    match m
    case Submissions(s) =>
    case Predicting(s) => PredictThem.ApplyKeepsValid(s, PredictThem.Timeout);
    case Describing(s) => DescribeIt.ApplyAdvances(s, DescribeIt.Timeout);
    case Defending(s) => DefendIt.ApplyAdvances(s, DefendIt.Timeout);
  }

  lemma ActionKeepsValid(id: MinigameId, m: ModuleState, participantIds: seq<PlayerId>, playerId: PlayerId,
                         action: Action)
    requires Valid(id, m, participantIds) && ValidateAction(id, m, playerId, action)
    ensures Valid(id, HandleAction(m, playerId, action), participantIds)
    ensures TimeoutsLeft(HandleAction(m, playerId, action)) <= TimeoutsLeft(m)
  {
    hide DefendIt.Valid, DescribeIt.Valid, PredictThem.Valid, DefendIt.Remaining, DescribeIt.Remaining,
         DefendIt.ValidateAction, DescribeIt.ValidateAction, PredictThem.ValidateAction;
    match (m, action)
    case (Submissions(s), SubmitAnswer(game, accepted)) => SingleSubmission.HandleKeepsValid(s, playerId, accepted);
    case (Predicting(s), PredictAction(a)) =>
      PredictActionKeepsValid(s, playerId, a);
    case (Describing(s), DescribeAction(a)) =>
      DescribeActionKeepsValid(s, playerId, a);
    case (Defending(s), DefendAction(a)) =>
      DefendActionKeepsValid(s, playerId, a);
  }

  lemma PredictActionKeepsValid(s: PredictThem.State, playerId: PlayerId, a: PredictThem.Action)
    requires PredictThem.Valid(s) && PredictThem.ValidateAction(s, playerId, a)
    ensures PredictThem.Valid(PredictThem.HandleAction(s, playerId, a))
    ensures PredictThem.StepsLeft(PredictThem.HandleAction(s, playerId, a)) <= PredictThem.StepsLeft(s)
  {
    PredictThem.ApplyKeepsValid(s, PredictThem.Act(playerId, a));
  }

  lemma DescribeActionKeepsValid(s: DescribeIt.State, playerId: PlayerId, a: DescribeIt.Action)
    requires DescribeIt.Valid(s) && DescribeIt.ValidateAction(s, playerId, a)
    ensures DescribeIt.Valid(DescribeIt.HandleAction(s, a))
    ensures DescribeIt.HandleAction(s, a).participantIds == s.participantIds
    ensures DescribeIt.Remaining(DescribeIt.HandleAction(s, a)) <= DescribeIt.Remaining(s)
  {
    hide DescribeIt.Valid;
    DescribeIt.ApplyAdvances(s, DescribeIt.Act(playerId, a));
  }

  lemma DefendActionKeepsValid(s: DefendIt.State, playerId: PlayerId, a: DefendIt.Action)
    requires DefendIt.Valid(s) && DefendIt.ValidateAction(s, playerId, a)
    ensures DefendIt.Valid(DefendIt.HandleAction(s, a))
    ensures DefendIt.HandleAction(s, a).participantIds == s.participantIds
    ensures DefendIt.Remaining(DefendIt.HandleAction(s, a)) <= DefendIt.Remaining(s)
  {
    hide DefendIt.Valid;
    DefendIt.ApplyAdvances(s, DefendIt.Act(playerId, a));
  }

  /**
    No game takes the actions of another; the games of one answer take one acceptable answer of each participant, and
    the turn by turn games none of anybody whose part it is not.
   */
  lemma OwnActionsOnly(id: MinigameId, m: ModuleState, participantIds: seq<PlayerId>, playerId: PlayerId, action: Action)
    requires Valid(id, m, participantIds)
    ensures m.Submissions? ==>
              (ValidateAction(id, m, playerId, action) <==>
                 && action.SubmitAnswer? && action.game == id && action.accepted
                 && playerId in participantIds && playerId !in m.answers.submitted)
    ensures ValidateAction(id, m, playerId, action) ==>
              && (m.Predicting? ==>
                    && action.PredictAction? && m.prediction.step != PredictThem.Completed
                    && playerId in (if m.prediction.step == PredictThem.AudienceVote then m.prediction.audiencePlayerIds
                                    else m.prediction.selectedPlayerIds))
              && (m.Describing? ==>
                    && action.DescribeAction? && m.description.currentSpeakerIndex < |m.description.speakerOrder|
                    && playerId == m.description.speakerOrder[m.description.currentSpeakerIndex])
              && (m.Defending? ==>
                    && action.DefendAction? && m.defence.currentSpeakerIndex < |m.defence.speakerOrder|
                    && m.defence.speakerOrder[m.defence.currentSpeakerIndex] in m.defence.followUpAskerIds
                    && playerId == if m.defence.step == DefendIt.FollowUpQuestion
                                   then m.defence.followUpAskerIds[m.defence.speakerOrder[m.defence.currentSpeakerIndex]]
                                   else m.defence.speakerOrder[m.defence.currentSpeakerIndex])
  {
    hide DefendIt.Valid, PredictThem.Valid, DescribeIt.Valid;
    if m.Submissions? && action.SubmitAnswer? {
      SingleSubmission.MaySubmit(m.answers, playerId, action.accepted);
    }
    if m.Defending? {
      DefendIt.SpeakersHaveAskers(m.defence);
    }
  }
}
