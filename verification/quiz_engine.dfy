/** The quiz: two teams pick questions in turn, answer or steal them and spend one-use power-ups. */
module QuizEngine {
  import opened Collections

  type QuestionId = nat

  datatype TeamId = Team1 | Team2
  datatype PowerUp = DoubleAnswer | ScoreAttack | PassTrap
  /** The power-ups that can be added to a question already open. */
  type Activatable = p: PowerUp | p != ScoreAttack witness PassTrap
  datatype ScoreEventType = CorrectEvent | StealEvent | PowerUpEvent | PenaltyEvent | ManualAdjustment
  datatype Outcome = CorrectOutcome | WrongOutcome | StealOutcome | NoPointsOutcome
  datatype QuestionPhase = Answering | Steal | Revealed
  datatype Status = Active | Completed

  datatype Question = Question(id: QuestionId, points: int)
  datatype Result = Result(
    completed: bool, selectedBy: TeamId, awardedTo: Option<TeamId>, outcome: Option<Outcome>, powerUp: Option<PowerUp>)
  datatype ScoreEvent = ScoreEvent(questionId: Option<QuestionId>, teamId: TeamId, points: int, eventType: ScoreEventType)

  datatype PowerUps = PowerUps(doubleAnswer: int, scoreAttack: int, passTrap: int)
  datatype Team = Team(score: int, powerUps: PowerUps)
  datatype QuizConfig = QuizConfig(scoreAttackMultiplier: int, trapPenalty: int)

  datatype Teams = Teams(first: Team, second: Team)

  datatype Session = Session(
    teams: Teams, questions: seq<Question>, results: map<QuestionId, Result>, scoreEvents: seq<ScoreEvent>,
    currentTeamId: TeamId, currentQuestionId: Option<QuestionId>, questionPhase: Option<QuestionPhase>,
    activePowerUp: Option<PowerUp>, status: Status, config: QuizConfig)

  function Other(id: TeamId): TeamId {
    if id == Team1 then Team2 else Team1
  }

  function TeamOf(teams: Teams, id: TeamId): Team {
    if id == Team1 then teams.first else teams.second
  }

  function WithTeam(teams: Teams, id: TeamId, team: Team): Teams {
    if id == Team1 then teams.(first := team) else teams.(second := team)
  }

  function Uses(p: PowerUps, powerUp: PowerUp): int {
    match powerUp
    case DoubleAnswer => p.doubleAnswer
    case ScoreAttack => p.scoreAttack
    case PassTrap => p.passTrap
  }

  function Spend(teams: Teams, id: TeamId, powerUp: PowerUp): Teams {
    var team := TeamOf(teams, id);
    var p := team.powerUps;
    WithTeam(teams, id, team.(powerUps :=
      match powerUp
      case DoubleAnswer => p.(doubleAnswer := p.doubleAnswer - 1)
      case ScoreAttack => p.(scoreAttack := p.scoreAttack - 1)
      case PassTrap => p.(passTrap := p.passTrap - 1)))
  }

  function CreateQuizSession(questions: seq<Question>, config: QuizConfig): Session {
    var team := Team(0, PowerUps(1, 1, 1));
    Session(Teams(team, team), questions, map[], [], Team1, None, None, None, Active, config)
  }

  function SelectQuestion(s: Session, questionId: QuestionId, powerUp: Option<PowerUp>): Session {
    if s.currentQuestionId.Some? || questionId in s.results then s
    else if powerUp.Some? && Uses(TeamOf(s.teams, s.currentTeamId).powerUps, powerUp.value) <= 0 then s
    else
      s.(teams := if powerUp.Some? then Spend(s.teams, s.currentTeamId, powerUp.value) else s.teams,
            currentQuestionId := Some(questionId), questionPhase := Some(Answering), activePowerUp := powerUp,
            results := s.results[questionId := Result(false, s.currentTeamId, None, None, powerUp)])
  }

  /** Spending a power-up on a question already open; a pass-trap hands the question to the other team. */
  function ActivatePowerUp(s: Session, powerUp: Activatable): Session {
    if s.currentQuestionId.None? || s.questionPhase != Some(Answering) || s.activePowerUp.Some? then s
    else if s.currentQuestionId.value !in s.results then s
    else
      var result := s.results[s.currentQuestionId.value];
      if Uses(TeamOf(s.teams, result.selectedBy).powerUps, powerUp) <= 0 then s
      else
        s.(
          teams := Spend(s.teams, result.selectedBy, powerUp),
          activePowerUp := Some(powerUp),
          currentTeamId := if powerUp == PassTrap then Other(result.selectedBy) else s.currentTeamId,
          results := s.results[s.currentQuestionId.value := result.(powerUp := Some(powerUp))])
  }

  function Award(s: Session, teamId: TeamId, points: int, eventType: ScoreEventType,
                 questionId: Option<QuestionId>): Session {
    var team := TeamOf(s.teams, teamId);
    s.(teams := WithTeam(s.teams, teamId, team.(score := team.score + points)),
       scoreEvents := s.scoreEvents + [ScoreEvent(questionId, teamId, points, eventType)])
  }

  function RevealAnswer(s: Session): Session {
    if s.currentQuestionId.Some? then s.(questionPhase := Some(Revealed)) else s
  }

  function Finished(results: map<QuestionId, Result>): set<QuestionId> {
    set id | id in results && results[id].completed
  }

  /** Closes the open question; an event worth no points is not recorded. */
  function Finish(s: Session, awardedTo: Option<TeamId>, outcome: Outcome,
                  event: Option<(TeamId, int, ScoreEventType)>): Session
    requires s.currentQuestionId.Some?
  {
    var id := s.currentQuestionId.value;
    var next := if event.Some? && event.value.1 != 0
                then Award(s, event.value.0, event.value.1, event.value.2, Some(id)) else s;
    var selectedBy := if id in s.results then s.results[id].selectedBy else s.currentTeamId;
    var powerUp := if id in s.results then s.results[id].powerUp else None;
    var results := s.results[id := Result(true, selectedBy, awardedTo, Some(outcome), powerUp)];
    next.(results := results, currentQuestionId := None, questionPhase := None, activePowerUp := None,
          currentTeamId := Other(selectedBy),
          status := if |Finished(results)| >= |s.questions| then Completed else Active)
  }

  function MarkWrong(s: Session): Session {
    if s.currentQuestionId.None? || s.questionPhase == Some(Steal) then s
    else if s.activePowerUp == Some(PassTrap) then
      Finish(s, None, WrongOutcome, Some((s.currentTeamId, -s.config.trapPenalty, PenaltyEvent)))
    else s.(questionPhase := Some(Steal), currentTeamId := Other(s.currentTeamId))
  }

  /** The first question with the given id, as `Array.prototype.find` returns it. */
  function Find(questions: seq<Question>, id: QuestionId): (found: Option<Question>)
    ensures found.Some? ==> found.value in questions && found.value.id == id
    ensures found.None? ==> forall q :: q in questions ==> q.id != id
  {
    if questions == [] then None else if questions[0].id == id then Some(questions[0]) else Find(questions[1..], id)
  }

  function MarkCorrect(s: Session): Session {
    var q := if s.currentQuestionId.Some? then Find(s.questions, s.currentQuestionId.value) else None;
    if q.None? then s
    else
      var isSteal := s.questionPhase == Some(Steal);
      var next := Finish(s, Some(s.currentTeamId), if isSteal then StealOutcome else CorrectOutcome,
                         Some((s.currentTeamId, q.value.points, if isSteal then StealEvent else CorrectEvent)));
      if s.activePowerUp == Some(ScoreAttack) && !isSteal
      then Award(next, Other(s.currentTeamId), -q.value.points * s.config.scoreAttackMultiplier, PowerUpEvent, Some(q.value.id))
      else next
  }

  function NoPoints(s: Session): Session {
    if s.currentQuestionId.Some? then Finish(s, None, NoPointsOutcome, None) else s
  }

  function AdjustScore(s: Session, teamId: TeamId, points: int): Session {
    Award(s, teamId, points, ManualAdjustment, None)
  }

  // ---- Whole games ----------------------------------------------------------------------------------

  datatype Move =
    | Select(questionId: QuestionId, powerUp: Option<PowerUp>)
    | Activate(use: Activatable)
    | Reveal
    | Wrong
    | Correct
    | SkipPoints
    | Adjust(teamId: TeamId, points: int)

  function Play(s: Session, move: Move): Session {
    match move
    case Select(questionId, powerUp) => SelectQuestion(s, questionId, powerUp)
    case Activate(powerUp) => ActivatePowerUp(s, powerUp)
    case Reveal => RevealAnswer(s)
    case Wrong => MarkWrong(s)
    case Correct => MarkCorrect(s)
    case SkipPoints => NoPoints(s)
    case Adjust(teamId, points) => AdjustScore(s, teamId, points)
  }

  function Ids(questions: seq<Question>): set<QuestionId> {
    set q | q in questions :: q.id
  }

  /** The moves the board offers: only questions of this session can be picked. */
  ghost predicate Offered(questions: seq<Question>, move: Move) {
    move.Select? ==> move.questionId in Ids(questions)
  }

  function PlayAll(s: Session, moves: seq<Move>): Session
    decreases |moves|
  {
    if moves == [] then s else PlayAll(Play(s, moves[0]), moves[1..])
  }

  function PointsOf(events: seq<ScoreEvent>, teamId: TeamId): int {
    if events == [] then 0
    else
      var last := events[|events| - 1];
      PointsOf(events[..|events| - 1], teamId) + if last.teamId == teamId then last.points else 0
  }

  /** The questions on which a team has spent a power-up. */
  function SpentOn(results: map<QuestionId, Result>, teamId: TeamId, powerUp: PowerUp): set<QuestionId> {
    set id | id in results && results[id].selectedBy == teamId && results[id].powerUp == Some(powerUp)
  }

  /** Who picks when `n` questions are finished. */
  function PickerAfter(n: nat): TeamId {
    if n % 2 == 0 then Team1 else Team2
  }

  ghost predicate ScoresAddUp(teams: Teams, events: seq<ScoreEvent>) {
    && teams.first.score == PointsOf(events, Team1)
    && teams.second.score == PointsOf(events, Team2)
  }

  ghost predicate PowerUpsAddUp(teams: Teams, results: map<QuestionId, Result>) {
    forall id, p :: Uses(TeamOf(teams, id).powerUps, p) + |SpentOn(results, id, p)| == 1
  }

  ghost predicate TurnsAlternate(s: Session) {
    && (s.currentQuestionId.None? ==> s.currentTeamId == PickerAfter(|Finished(s.results)|))
    && (s.currentQuestionId.Some? ==>
          && s.currentQuestionId.value in s.results
          && s.results[s.currentQuestionId.value].selectedBy == PickerAfter(|Finished(s.results)|)
          && s.results[s.currentQuestionId.value].powerUp == s.activePowerUp)
  }

  ghost predicate BoardConsistent(s: Session) {
    && s.results.Keys <= Ids(s.questions)
    && (forall id :: id in s.results ==> (s.results[id].completed <==> Some(id) != s.currentQuestionId))
    && (s.currentQuestionId.Some? ==> s.currentQuestionId.value in s.results)
    && (s.status == Completed <==> Finished(s.results) == Ids(s.questions))
  }

  ghost predicate Valid(s: Session) {
    && ScoresAddUp(s.teams, s.scoreEvents) && PowerUpsAddUp(s.teams, s.results)
    && TurnsAlternate(s) && BoardConsistent(s)
  }

  /** Question ids are distinct and there is at least one question. */
  ghost predicate Playable(questions: seq<Question>) {
    questions != [] && |Ids(questions)| == |questions|
  }

  lemma CreateIsValid(questions: seq<Question>, config: QuizConfig)
    requires Playable(questions)
    ensures Valid(CreateQuizSession(questions, config))
  {
    var s := CreateQuizSession(questions, config);
    assert Finished(s.results) == {};
    assert forall id, p :: SpentOn(s.results, id, p) == {};
    assert questions[0].id in Ids(questions);
  }

  lemma AwardScores(s: Session, teamId: TeamId, points: int, eventType: ScoreEventType, questionId: Option<QuestionId>)
    requires ScoresAddUp(s.teams, s.scoreEvents)
    ensures var t := Award(s, teamId, points, eventType, questionId); ScoresAddUp(t.teams, t.scoreEvents)
  {
    var t := Award(s, teamId, points, eventType, questionId);
    assert t.scoreEvents[..|t.scoreEvents| - 1] == s.scoreEvents;
  }

  lemma AwardKeepsPowerUps(s: Session, teamId: TeamId, points: int, eventType: ScoreEventType, questionId: Option<QuestionId>)
    requires PowerUpsAddUp(s.teams, s.results)
    ensures var t := Award(s, teamId, points, eventType, questionId); PowerUpsAddUp(t.teams, t.results)
  {
    var t := Award(s, teamId, points, eventType, questionId);
    hide PowerUpsAddUp;
    forall id ensures TeamOf(t.teams, id).powerUps == TeamOf(s.teams, id).powerUps {
    }
    hide Award;
    SamePowerUps(s.teams, t.teams, s.results);
  }

  lemma SamePowerUps(before: Teams, after: Teams, results: map<QuestionId, Result>)
    requires PowerUpsAddUp(before, results)
    requires forall id :: TeamOf(after, id).powerUps == TeamOf(before, id).powerUps
    ensures PowerUpsAddUp(after, results)
  {
    hide SpentOn, TeamOf, Uses;
  }

  lemma AwardKeepsBoard(s: Session, teamId: TeamId, points: int, eventType: ScoreEventType, questionId: Option<QuestionId>)
    requires TurnsAlternate(s) && BoardConsistent(s)
    ensures TurnsAlternate(Award(s, teamId, points, eventType, questionId))
    ensures BoardConsistent(Award(s, teamId, points, eventType, questionId))
  {
    hide Finished, Ids;
  }

  lemma AwardAddsUp(s: Session, teamId: TeamId, points: int, eventType: ScoreEventType, questionId: Option<QuestionId>)
    requires Valid(s)
    ensures Valid(Award(s, teamId, points, eventType, questionId))
  {
    hide ScoresAddUp, PowerUpsAddUp, TurnsAlternate, BoardConsistent, Award;
    AwardScores(s, teamId, points, eventType, questionId);
    AwardKeepsPowerUps(s, teamId, points, eventType, questionId);
    AwardKeepsBoard(s, teamId, points, eventType, questionId);
  }

  /** Closing the open question leaves spent power-ups and scores alone and passes the turn on. */
  lemma CloseKeepsValid(s: Session, awardedTo: Option<TeamId>, outcome: Outcome)
    requires Valid(s) && Playable(s.questions) && s.currentQuestionId.Some?
    ensures Valid(Finish(s, awardedTo, outcome, None))
    ensures |Finished(Finish(s, awardedTo, outcome, None).results)| == |Finished(s.results)| + 1
  {
    var t := Finish(s, awardedTo, outcome, None);
    var id := s.currentQuestionId.value;
    hide PointsOf;
    assert Finished(t.results) == Finished(s.results) + {id} && id !in Finished(s.results);
    forall team, p ensures SpentOn(t.results, team, p) == SpentOn(s.results, team, p) {
      SpentOnElsewhere(s.results, t.results, id, team, p);
      assert id in SpentOn(t.results, team, p) <==> id in SpentOn(s.results, team, p);
    }
    FinishedAll(t);
    hide SpentOn, Finished;
    assert BoardConsistent(t);
  }

  lemma SpentOnElsewhere(before: map<QuestionId, Result>, after: map<QuestionId, Result>, id: QuestionId,
                         team: TeamId, p: PowerUp)
    requires id in after && after == before[id := after[id]]
    ensures SpentOn(after, team, p) - {id} == SpentOn(before, team, p) - {id}
  {
  }

  lemma FinishKeepsValid(s: Session, awardedTo: Option<TeamId>, outcome: Outcome,
                         event: Option<(TeamId, int, ScoreEventType)>)
    requires Valid(s) && Playable(s.questions) && s.currentQuestionId.Some?
    ensures Valid(Finish(s, awardedTo, outcome, event))
  {
    hide Valid, Playable, Finished;
    if event.Some? && event.value.1 != 0 {
      var awarded := Award(s, event.value.0, event.value.1, event.value.2, s.currentQuestionId);
      AwardAddsUp(s, event.value.0, event.value.1, event.value.2, s.currentQuestionId);
      assert Finish(s, awardedTo, outcome, event) == Finish(awarded, awardedTo, outcome, None);
      CloseKeepsValid(awarded, awardedTo, outcome);
    } else {
      assert Finish(s, awardedTo, outcome, event) == Finish(s, awardedTo, outcome, None);
      CloseKeepsValid(s, awardedTo, outcome);
    }
  }

  lemma FinishedAll(t: Session)
    requires t.results.Keys <= Ids(t.questions) && Playable(t.questions)
    ensures |Finished(t.results)| >= |t.questions| <==> Finished(t.results) == Ids(t.questions)
  {
    var done, all := Finished(t.results), Ids(t.questions);
    assert all == done + (all - done) && |all| == |done| + |all - done|;
  }

  /** Spending moves one use from the team's stock to the question, for that team and power-up only. */
  lemma SpentOnOne(before: map<QuestionId, Result>, after: map<QuestionId, Result>,
                   id: QuestionId, team: TeamId, powerUp: PowerUp, other: TeamId, p: PowerUp)
    requires id in after && after == before[id := after[id]]
    requires after[id].selectedBy == team && after[id].powerUp == Some(powerUp)
    requires id in before ==> before[id].powerUp == None
    ensures |SpentOn(after, other, p)| == |SpentOn(before, other, p)| + if other == team && p == powerUp then 1 else 0
  {
    var was, now := SpentOn(before, other, p), SpentOn(after, other, p);
    SpentOnElsewhere(before, after, id, other, p);
    assert id !in was && (id in now <==> other == team && p == powerUp);
    hide SpentOn;
    assert was - {id} == was;
    if id in now {
      assert now == was + {id};
    }
  }

  lemma SpendAddsUp(teams: Teams, before: map<QuestionId, Result>, after: map<QuestionId, Result>,
                    id: QuestionId, team: TeamId, powerUp: PowerUp)
    requires PowerUpsAddUp(teams, before)
    requires id in after && after == before[id := after[id]]
    requires after[id].selectedBy == team && after[id].powerUp == Some(powerUp)
    requires id in before ==> before[id].powerUp == None
    ensures PowerUpsAddUp(Spend(teams, team, powerUp), after)
  {
    hide SpentOn;
    forall other, p
      ensures Uses(TeamOf(Spend(teams, team, powerUp), other).powerUps, p) + |SpentOn(after, other, p)| == 1
    {
      assert Uses(TeamOf(teams, other).powerUps, p) + |SpentOn(before, other, p)| == 1;
      SpentOnOne(before, after, id, team, powerUp, other, p);
    }
  }

  lemma SelectKeepsValid(s: Session, questionId: QuestionId, powerUp: Option<PowerUp>)
    requires Valid(s) && questionId in Ids(s.questions)
    ensures Valid(SelectQuestion(s, questionId, powerUp))
  {
    var t := SelectQuestion(s, questionId, powerUp);
    if t != s {
      hide PointsOf;
      assert Finished(t.results) == Finished(s.results);
      assert questionId !in Finished(t.results);
      if powerUp.Some? {
        SpendAddsUp(s.teams, s.results, t.results, questionId, s.currentTeamId, powerUp.value);
      } else {
        forall team, p ensures SpentOn(t.results, team, p) == SpentOn(s.results, team, p) {
          SpentOnElsewhere(s.results, t.results, questionId, team, p);
          assert questionId !in SpentOn(t.results, team, p) && questionId !in SpentOn(s.results, team, p);
        }
      }
      hide PowerUpsAddUp, SpentOn, Finished;
      assert BoardConsistent(t);
    }
  }

  lemma ActivateKeepsValid(s: Session, powerUp: Activatable)
    requires Valid(s)
    ensures Valid(ActivatePowerUp(s, powerUp))
  {
    var t := ActivatePowerUp(s, powerUp);
    if t != s {
      hide PointsOf;
      var id := s.currentQuestionId.value;
      assert Finished(t.results) == Finished(s.results);
      SpendAddsUp(s.teams, s.results, t.results, id, s.results[id].selectedBy, powerUp);
      hide PowerUpsAddUp, SpentOn, Finished;
      assert BoardConsistent(t);
    }
  }

  /** While a question is open, its phase and who answers it are not bound by the invariant. */
  lemma PhaseKeepsValid(s: Session, phase: QuestionPhase, teamId: TeamId)
    requires Valid(s) && s.currentQuestionId.Some?
    ensures Valid(s.(questionPhase := Some(phase), currentTeamId := teamId))
  {
    hide PowerUpsAddUp, ScoresAddUp, Finished, Ids;
  }

  lemma PlayKeepsValid(s: Session, move: Move)
    requires Valid(s) && Playable(s.questions) && Offered(s.questions, move)
    ensures Valid(Play(s, move)) && Play(s, move).questions == s.questions
  {
    hide Valid, Playable, Finished, Ids;
    match move
    case Select(questionId, powerUp) =>
      SelectKeepsValid(s, questionId, powerUp);
    case Activate(powerUp) =>
      ActivateKeepsValid(s, powerUp);
    case Reveal =>
      if s.currentQuestionId.Some? {
        PhaseKeepsValid(s, Revealed, s.currentTeamId);
      }
    case Wrong =>
      if s.currentQuestionId.Some? && s.activePowerUp == Some(PassTrap) {
        FinishKeepsValid(s, None, WrongOutcome, Some((s.currentTeamId, -s.config.trapPenalty, PenaltyEvent)));
      } else if s.currentQuestionId.Some? {
        PhaseKeepsValid(s, Steal, Other(s.currentTeamId));
      }
    case Correct =>
      CorrectKeepsValid(s);
    case SkipPoints =>
      if s.currentQuestionId.Some? {
        FinishKeepsValid(s, None, NoPointsOutcome, None);
      }
    case Adjust(teamId, points) =>
      AwardAddsUp(s, teamId, points, ManualAdjustment, None);
  }

  lemma CorrectKeepsValid(s: Session)
    requires Valid(s) && Playable(s.questions)
    ensures Valid(MarkCorrect(s)) && MarkCorrect(s).questions == s.questions
  {
    hide Valid, Playable, Finished;
    var q := if s.currentQuestionId.Some? then Find(s.questions, s.currentQuestionId.value) else None;
    if q.Some? {
      var isSteal := s.questionPhase == Some(Steal);
      var outcome := if isSteal then StealOutcome else CorrectOutcome;
      var event := Some((s.currentTeamId, q.value.points, if isSteal then StealEvent else CorrectEvent));
      FinishKeepsValid(s, Some(s.currentTeamId), outcome, event);
      var next := Finish(s, Some(s.currentTeamId), outcome, event);
      AwardAddsUp(next, Other(s.currentTeamId), -q.value.points * s.config.scoreAttackMultiplier, PowerUpEvent, Some(q.value.id));
    }
  }

  /**
    After any moves the board offers: scores are the sums of their events, every power-up is either
    unused or spent on exactly one question, the teams have picked in turn, and the game is
    completed exactly when every question is finished.
   */
  lemma {:induction false} GameInvariant(s: Session, moves: seq<Move>)
    requires Valid(s) && Playable(s.questions)
    requires forall i :: 0 <= i < |moves| ==> Offered(s.questions, moves[i])
    ensures Valid(PlayAll(s, moves)) && PlayAll(s, moves).questions == s.questions
    decreases |moves|
  {
    hide Valid, Playable, Play;
    if moves != [] {
      PlayKeepsValid(s, moves[0]);
      GameInvariant(Play(s, moves[0]), moves[1..]);
    }
  }

  lemma EveryGame(questions: seq<Question>, config: QuizConfig, moves: seq<Move>)
    requires Playable(questions)
    requires forall i :: 0 <= i < |moves| ==> Offered(questions, moves[i])
    ensures var t := PlayAll(CreateQuizSession(questions, config), moves);
            && t.teams.first.score == PointsOf(t.scoreEvents, Team1)
            && t.teams.second.score == PointsOf(t.scoreEvents, Team2)
            && (forall id, p :: Uses(TeamOf(t.teams, id).powerUps, p) + |SpentOn(t.results, id, p)| == 1)
            && (t.currentQuestionId.None? ==> (t.currentTeamId == Team1 <==> |Finished(t.results)| % 2 == 0))
            && (t.status == Completed <==> Finished(t.results) == Ids(questions))
  {
    CreateIsValid(questions, config);
    GameInvariant(CreateQuizSession(questions, config), moves);
    hide PlayAll;
  }

  // ---- What each move does ------------------------------------------------------------------------------

  /** The team's score has changed by so much and the other one's by so much; the power-ups are as they were. */
  ghost predicate Gain(s: Session, t: Session, team: TeamId, own: int, others: int) {
    && TeamOf(t.teams, team).score == TeamOf(s.teams, team).score + own
    && TeamOf(t.teams, Other(team)).score == TeamOf(s.teams, Other(team)).score + others
    && forall id {:trigger TeamOf(t.teams, id)} :: TeamOf(t.teams, id).powerUps == TeamOf(s.teams, id).powerUps
  }

  /** The open question has been closed so, and the team that did not pick it picks next, if any question is left. */
  ghost predicate Closed(s: Session, t: Session, awardedTo: Option<TeamId>, outcome: Outcome)
    requires s.currentQuestionId.Some? && s.currentQuestionId.value in s.results
  {
    var id := s.currentQuestionId.value;
    && t.results == s.results[id := s.results[id].(completed := true, awardedTo := awardedTo, outcome := Some(outcome))]
    && t.currentQuestionId.None? && t.questionPhase.None? && t.activePowerUp.None?
    && t.currentTeamId == Other(s.results[id].selectedBy)
    && (t.status == Completed <==> forall q :: q in s.questions ==> q.id in t.results && t.results[q.id].completed)
    && t.questions == s.questions && t.config == s.config
  }

  /** The record of one change of a score; a change by nothing leaves no record. */
  function Recorded(id: QuestionId, team: TeamId, points: int, kind: ScoreEventType): seq<ScoreEvent> {
    if points == 0 then [] else [ScoreEvent(Some(id), team, points, kind)]
  }

  lemma {:induction false} AtMostAsMany(questions: seq<Question>)
    ensures |Ids(questions)| <= |questions|
  {
    if questions == [] {
      assert Ids(questions) == {};
    } else {
      AtMostAsMany(questions[1..]);
      assert questions == [questions[0]] + questions[1..];
      assert Ids(questions) == {questions[0].id} + Ids(questions[1..]);
    }
  }

  /** No two questions of a board share an id. */
  lemma {:induction false} FoundIsIt(questions: seq<Question>, q: Question)
    requires |Ids(questions)| == |questions| && q in questions
    ensures Find(questions, q.id) == Some(q)
  {
    var rest := questions[1..];
    assert questions == [questions[0]] + rest;
    assert Ids(questions) == {questions[0].id} + Ids(rest);
    AtMostAsMany(rest);
    if q != questions[0] {
      assert |Ids(rest)| == |rest|;
      assert q.id in Ids(rest);
      assert questions[0].id in Ids(rest) ==> Ids(questions) == Ids(rest);
      FoundIsIt(rest, q);
    }
  }

  lemma OpenIsListed(s: Session)
    requires Valid(s) && s.currentQuestionId.Some?
    ensures s.currentQuestionId.value in s.results && s.currentQuestionId.value in Ids(s.questions)
    ensures s.results[s.currentQuestionId.value].powerUp == s.activePowerUp
    ensures !s.results[s.currentQuestionId.value].completed
  {
    hide ScoresAddUp, PowerUpsAddUp, Finished, Ids;
  }

  lemma Completes(t: Session)
    requires Valid(t)
    ensures t.status == Completed <==> forall q :: q in t.questions ==> q.id in t.results && t.results[q.id].completed
  {
    hide ScoresAddUp, PowerUpsAddUp, TurnsAlternate;
    if t.status == Completed {
      forall q | q in t.questions ensures q.id in t.results && t.results[q.id].completed {
        assert q.id in Ids(t.questions);
        assert q.id in Finished(t.results);
      }
    }
    if forall q :: q in t.questions ==> q.id in t.results && t.results[q.id].completed {
      assert Finished(t.results) == Ids(t.questions);
    }
  }

  lemma Closes(s: Session, awardedTo: Option<TeamId>, outcome: Outcome, event: Option<(TeamId, int, ScoreEventType)>)
    requires Valid(s) && Playable(s.questions) && s.currentQuestionId.Some?
    ensures s.currentQuestionId.value in s.results
    ensures var t := Finish(s, awardedTo, outcome, event);
            && Closed(s, t, awardedTo, outcome)
            && match event
               case None => Gain(s, t, Team1, 0, 0) && t.scoreEvents == s.scoreEvents
               case Some(e) => Gain(s, t, e.0, e.1, 0) && t.scoreEvents == s.scoreEvents + Recorded(s.currentQuestionId.value, e.0, e.1, e.2)
  {
    hide Valid, Playable, Finished, Finish, Closed, Gain, Recorded;
    OpenIsListed(s);
    FinishKeepsValid(s, awardedTo, outcome, event);
    Completes(Finish(s, awardedTo, outcome, event));
    FinishCloses(s, awardedTo, outcome, event);
    FinishScores(s, awardedTo, outcome, event);
  }

  lemma FinishCloses(s: Session, awardedTo: Option<TeamId>, outcome: Outcome, event: Option<(TeamId, int, ScoreEventType)>)
    requires s.currentQuestionId.Some? && s.currentQuestionId.value in s.results
    ensures var t := Finish(s, awardedTo, outcome, event);
            t.questions == s.questions
            && ((t.status == Completed <==> forall q :: q in t.questions ==> q.id in t.results && t.results[q.id].completed)
                ==> Closed(s, t, awardedTo, outcome))
  {
    hide Finished;
  }

  lemma FinishScores(s: Session, awardedTo: Option<TeamId>, outcome: Outcome, event: Option<(TeamId, int, ScoreEventType)>)
    requires s.currentQuestionId.Some?
    ensures var t := Finish(s, awardedTo, outcome, event);
            match event
            case None => Gain(s, t, Team1, 0, 0) && t.scoreEvents == s.scoreEvents
            case Some(e) => Gain(s, t, e.0, e.1, 0) && t.scoreEvents == s.scoreEvents + Recorded(s.currentQuestionId.value, e.0, e.1, e.2)
  {
    hide Finished;
  }

  /**
    A right answer pays the answering team the points of the question, as a steal if it was open to be stolen; if the
    question was picked under a score attack and not stolen, the other team loses that many points times the multiplier.
   */
  lemma RightAnswer(s: Session, q: Question)
    requires Valid(s) && Playable(s.questions) && s.currentQuestionId == Some(q.id) && q in s.questions
    ensures q.id in s.results
    ensures var t := Play(s, Correct);
            var stolen := s.questionPhase == Some(Steal);
            var attack := s.activePowerUp == Some(ScoreAttack) && !stolen;
            var loss := q.points * s.config.scoreAttackMultiplier;
            && Closed(s, t, Some(s.currentTeamId), if stolen then StealOutcome else CorrectOutcome)
            && Gain(s, t, s.currentTeamId, q.points, if attack then -loss else 0)
            && t.scoreEvents == s.scoreEvents
                 + Recorded(q.id, s.currentTeamId, q.points, if stolen then StealEvent else CorrectEvent)
                 + if attack then [ScoreEvent(Some(q.id), Other(s.currentTeamId), -loss, PowerUpEvent)] else []
  {
    hide Valid, Playable, Finish, Find, Finished, Closed, Gain, Recorded, Award;
    MarksIt(s, q);
    var stolen := s.questionPhase == Some(Steal);
    var outcome := if stolen then StealOutcome else CorrectOutcome;
    var event := Some((s.currentTeamId, q.points, if stolen then StealEvent else CorrectEvent));
    Closes(s, Some(s.currentTeamId), outcome, event);
    if s.activePowerUp == Some(ScoreAttack) && !stolen {
      AlsoLoses(s, Finish(s, Some(s.currentTeamId), outcome, event), Some(s.currentTeamId), outcome, s.currentTeamId, q.points,
                -(q.points * s.config.scoreAttackMultiplier), PowerUpEvent, Some(q.id));
    }
  }

  lemma MarksIt(s: Session, q: Question)
    requires Playable(s.questions) && s.currentQuestionId == Some(q.id) && q in s.questions
    ensures var stolen := s.questionPhase == Some(Steal);
            var closed := Finish(s, Some(s.currentTeamId), if stolen then StealOutcome else CorrectOutcome,
                                 Some((s.currentTeamId, q.points, if stolen then StealEvent else CorrectEvent)));
            Play(s, Correct) ==
              if s.activePowerUp == Some(ScoreAttack) && !stolen
              then Award(closed, Other(s.currentTeamId), -(q.points * s.config.scoreAttackMultiplier), PowerUpEvent, Some(q.id))
              else closed
  {
    hide Finish, Find, Award, Ids;
    FoundIsIt(s.questions, q);
    assert -q.points * s.config.scoreAttackMultiplier == -(q.points * s.config.scoreAttackMultiplier);
  }

  lemma AlsoLoses(s: Session, u: Session, awardedTo: Option<TeamId>, outcome: Outcome, team: TeamId, own: int, points: int,
                  kind: ScoreEventType, id: Option<QuestionId>)
    requires s.currentQuestionId.Some? && s.currentQuestionId.value in s.results
    requires Closed(s, u, awardedTo, outcome) && Gain(s, u, team, own, 0)
    ensures Closed(s, Award(u, Other(team), points, kind, id), awardedTo, outcome)
    ensures Gain(s, Award(u, Other(team), points, kind, id), team, own, points)
    ensures Award(u, Other(team), points, kind, id).scoreEvents == u.scoreEvents + [ScoreEvent(id, Other(team), points, kind)]
  {
  }

  /** A wrong answer opens the question to the other team, or costs a trapped team the penalty; a wrong steal does nothing. */
  lemma WrongAnswer(s: Session)
    requires Valid(s) && Playable(s.questions) && s.currentQuestionId.Some?
    ensures s.currentQuestionId.value in s.results
    ensures var t := Play(s, Wrong);
            if s.questionPhase == Some(Steal) then t == s
            else if s.activePowerUp == Some(PassTrap) then
              && Closed(s, t, None, WrongOutcome) && Gain(s, t, s.currentTeamId, -s.config.trapPenalty, 0)
              && t.scoreEvents == s.scoreEvents
                   + Recorded(s.currentQuestionId.value, s.currentTeamId, -s.config.trapPenalty, PenaltyEvent)
            else t == s.(questionPhase := Some(Steal), currentTeamId := Other(s.currentTeamId))
  {
    hide Valid, Playable, Finish, Closed, Gain, Recorded;
    Closes(s, None, WrongOutcome, Some((s.currentTeamId, -s.config.trapPenalty, PenaltyEvent)));
  }

  /** Revealing the answer changes what is shown and nothing else; closing without points pays nobody. */
  lemma ClosedForNothing(s: Session)
    requires Valid(s) && Playable(s.questions) && s.currentQuestionId.Some?
    ensures s.currentQuestionId.value in s.results
    ensures Play(s, Reveal) == s.(questionPhase := Some(Revealed))
    ensures var t := Play(s, SkipPoints);
            Closed(s, t, None, NoPointsOutcome) && Gain(s, t, Team1, 0, 0) && t.scoreEvents == s.scoreEvents
  {
    Closes(s, None, NoPointsOutcome, None);
    hide Valid, Playable, Finish;
  }

  /** One use of the power-up has left the team's stock, and everything else of both teams is as it was. */
  ghost predicate Used(before: Teams, after: Teams, team: TeamId, powerUp: PowerUp) {
    && after.first.score == before.first.score && after.second.score == before.second.score
    && forall id, p {:trigger Uses(TeamOf(after, id).powerUps, p)} ::
         Uses(TeamOf(after, id).powerUps, p)
           == Uses(TeamOf(before, id).powerUps, p) - if id == team && p == powerUp then 1 else 0
  }

  /**
    A question can be picked once in a game, while none is open, by the team whose turn it is; a power-up goes with it
    if the team has not spent it on another question.
   */
  lemma Picks(s: Session, id: QuestionId, powerUp: Option<PowerUp>)
    requires Valid(s)
    ensures var t := Play(s, Select(id, powerUp));
            var team := s.currentTeamId;
            if s.currentQuestionId.None? && id !in s.results
               && (powerUp.Some? ==> SpentOn(s.results, team, powerUp.value) == {})
            then && t == s.(teams := t.teams, results := s.results[id := Result(false, team, None, None, powerUp)],
                            currentQuestionId := Some(id), questionPhase := Some(Answering), activePowerUp := powerUp)
                 && if powerUp.Some? then Used(s.teams, t.teams, team, powerUp.value) else t.teams == s.teams
            else t == s
  {
    hide SpentOn, ScoresAddUp, TurnsAlternate, BoardConsistent;
    if powerUp.Some? {
      assert Uses(TeamOf(s.teams, s.currentTeamId).powerUps, powerUp.value)
           + |SpentOn(s.results, s.currentTeamId, powerUp.value)| == 1;
    }
  }

  /**
    A power-up goes on the open question while nobody has answered it and none is on it yet, if the team that picked the
    question has not spent it on another; the pass-trap hands the question to the other team.
   */
  lemma Activates(s: Session, use: Activatable)
    requires Valid(s) && s.currentQuestionId.Some?
    ensures s.currentQuestionId.value in s.results
    ensures var t := Play(s, Activate(use));
            var id := s.currentQuestionId.value;
            var team := s.results[id].selectedBy;
            if s.questionPhase == Some(Answering) && s.activePowerUp.None? && SpentOn(s.results, team, use) == {}
            then && t == s.(teams := t.teams, activePowerUp := Some(use), results := s.results[id := s.results[id].(powerUp := Some(use))],
                            currentTeamId := if use == PassTrap then Other(team) else s.currentTeamId)
                 && Used(s.teams, t.teams, team, use)
            else t == s
  {
    OpenIsListed(s);
    hide SpentOn, ScoresAddUp, TurnsAlternate, BoardConsistent;
    assert Uses(TeamOf(s.teams, s.results[s.currentQuestionId.value].selectedBy).powerUps, use)
         + |SpentOn(s.results, s.results[s.currentQuestionId.value].selectedBy, use)| == 1;
  }

  /** Without an open question nothing can be activated, revealed or judged; a score can be corrected at any time. */
  lemma NothingOpen(s: Session, use: Activatable, team: TeamId, points: int)
    ensures s.currentQuestionId.None? ==>
              Play(s, Activate(use)) == s && Play(s, Reveal) == s && Play(s, Wrong) == s && Play(s, Correct) == s && Play(s, SkipPoints) == s
    ensures var t := Play(s, Adjust(team, points));
            && Gain(s, t, team, points, 0) && t == s.(teams := t.teams, scoreEvents := t.scoreEvents)
            && t.scoreEvents == s.scoreEvents + [ScoreEvent(None, team, points, ManualAdjustment)]
  {
  }

  // ---- What a question has paid --------------------------------------------------------------------------

  predicate Pays(e: ScoreEvent) {
    e.eventType == CorrectEvent || e.eventType == StealEvent
  }

  /** The event is the one that the closed question's result speaks of. */
  ghost predicate AsRecorded(questions: seq<Question>, results: map<QuestionId, Result>, e: ScoreEvent) {
    && e.questionId.Some? && e.questionId.value in results
    && results[e.questionId.value].completed
    && results[e.questionId.value].awardedTo == Some(e.teamId)
    && results[e.questionId.value].outcome == Some(if e.eventType == StealEvent then StealOutcome else CorrectOutcome)
    && exists q :: q in questions && q.id == e.questionId.value && q.points == e.points
  }

  ghost predicate PaidFor(events: seq<ScoreEvent>, id: QuestionId) {
    exists i :: 0 <= i < |events| && Pays(events[i]) && events[i].questionId == Some(id)
  }

  ghost predicate PaidOnce(questions: seq<Question>, results: map<QuestionId, Result>, events: seq<ScoreEvent>) {
    && (forall i :: 0 <= i < |events| && Pays(events[i]) ==> AsRecorded(questions, results, events[i]))
    && (forall i, j :: 0 <= i < j < |events| && Pays(events[i]) && Pays(events[j]) ==>
          events[i].questionId != events[j].questionId)
    && (forall q {:trigger PaidFor(events, q.id)} ::
          q in questions && q.points != 0 && q.id in results && results[q.id].awardedTo.Some? ==> PaidFor(events, q.id))
  }

  /** Closed results stay, no result gains an award, and no new event pays. */
  ghost predicate PaysNothing(s: Session, t: Session) {
    && t.questions == s.questions
    && |t.scoreEvents| >= |s.scoreEvents| && t.scoreEvents[..|s.scoreEvents|] == s.scoreEvents
    && (forall i :: |s.scoreEvents| <= i < |t.scoreEvents| ==> !Pays(t.scoreEvents[i]))
    && (forall id :: id in s.results && s.results[id].completed ==> id in t.results && t.results[id] == s.results[id])
    && (forall id :: id in t.results && t.results[id].awardedTo.Some? ==> id in s.results && s.results[id].awardedTo.Some?)
  }

  lemma StillPaidFor(before: seq<ScoreEvent>, after: seq<ScoreEvent>, id: QuestionId)
    requires |before| <= |after| && after[..|before|] == before && PaidFor(before, id)
    ensures PaidFor(after, id)
  {
    var i :| 0 <= i < |before| && Pays(before[i]) && before[i].questionId == Some(id);
    assert after[..|before|][i] == after[i];
  }

  lemma NothingPaid(s: Session, t: Session)
    requires PaidOnce(s.questions, s.results, s.scoreEvents) && PaysNothing(s, t)
    ensures PaidOnce(t.questions, t.results, t.scoreEvents)
  {
    hide PaidFor;
    forall i | 0 <= i < |t.scoreEvents| && Pays(t.scoreEvents[i])
      ensures i < |s.scoreEvents| && t.scoreEvents[i] == s.scoreEvents[i]
      ensures AsRecorded(t.questions, t.results, t.scoreEvents[i])
    {
      assert t.scoreEvents[..|s.scoreEvents|][i] == t.scoreEvents[i];
      assert AsRecorded(s.questions, s.results, s.scoreEvents[i]);
    }
    forall q | q in t.questions && q.points != 0 && q.id in t.results && t.results[q.id].awardedTo.Some?
      ensures PaidFor(t.scoreEvents, q.id)
    {
      StillPaidFor(s.scoreEvents, t.scoreEvents, q.id);
    }
  }

  /** The open question pays once, and its result says to whom. */
  lemma QuestionPaid(s: Session, t: Session, q: Question, team: TeamId, kind: ScoreEventType)
    requires PaidOnce(s.questions, s.results, s.scoreEvents) && q in s.questions
    requires s.currentQuestionId == Some(q.id) && q.id in s.results && !s.results[q.id].completed
    requires kind == CorrectEvent || kind == StealEvent
    requires Closed(s, t, Some(team), if kind == StealEvent then StealOutcome else CorrectOutcome)
    requires t.scoreEvents == s.scoreEvents + Recorded(q.id, team, q.points, kind)
    requires forall other :: other in s.questions && other.id == q.id ==> other == q
    ensures PaidOnce(t.questions, t.results, t.scoreEvents)
  {
    hide PaidFor;
    var n := |s.scoreEvents|;
    forall i | 0 <= i < |t.scoreEvents| && Pays(t.scoreEvents[i])
      ensures AsRecorded(t.questions, t.results, t.scoreEvents[i])
      ensures i < n ==> t.scoreEvents[i].questionId != Some(q.id)
    {
      if i < n {
        assert AsRecorded(s.questions, s.results, s.scoreEvents[i]);
      }
    }
    forall other | other in t.questions && other.points != 0 && other.id in t.results && t.results[other.id].awardedTo.Some?
      ensures PaidFor(t.scoreEvents, other.id)
    {
      if other.id == q.id {
        assert t.scoreEvents[n] == ScoreEvent(Some(q.id), team, q.points, kind);
        PaidHere(t.scoreEvents, n, q.id);
      } else {
        assert t.scoreEvents[..n] == s.scoreEvents;
        StillPaidFor(s.scoreEvents, t.scoreEvents, other.id);
      }
    }
  }

  lemma PaidHere(events: seq<ScoreEvent>, n: nat, id: QuestionId)
    requires n < |events| && Pays(events[n]) && events[n].questionId == Some(id)
    ensures PaidFor(events, id)
  {
  }

  lemma CorrectPays(s: Session)
    requires Valid(s) && Playable(s.questions) && PaidOnce(s.questions, s.results, s.scoreEvents)
    ensures var t := Play(s, Correct); PaidOnce(t.questions, t.results, t.scoreEvents)
  {
    hide Valid, PaidOnce, Finished, Finish, Gain;
    if s.currentQuestionId.Some? {
      OpenIsListed(s);
      assert s.currentQuestionId.value in Ids(s.questions);
      var q :| q in s.questions && q.id == s.currentQuestionId.value;
      forall other | other in s.questions && other.id == q.id ensures other == q {
        FoundIsIt(s.questions, other);
        FoundIsIt(s.questions, q);
      }
      MarksIt(s, q);
      var stolen := s.questionPhase == Some(Steal);
      var outcome := if stolen then StealOutcome else CorrectOutcome;
      var kind := if stolen then StealEvent else CorrectEvent;
      var event := Some((s.currentTeamId, q.points, kind));
      Closes(s, Some(s.currentTeamId), outcome, event);
      var closed := Finish(s, Some(s.currentTeamId), outcome, event);
      hide Playable, Find, Ids;
      QuestionPaid(s, closed, q, s.currentTeamId, kind);
      if s.activePowerUp == Some(ScoreAttack) && !stolen {
        NothingPaid(closed, Play(s, Correct));
      }
    }
  }

  lemma MovePays(s: Session, move: Move)
    requires Valid(s) && Playable(s.questions) && PaidOnce(s.questions, s.results, s.scoreEvents)
    ensures var t := Play(s, move); PaidOnce(t.questions, t.results, t.scoreEvents)
  {
    hide PaidOnce, Playable, Finished, Ids, ScoresAddUp, PowerUpsAddUp, Find, Spend;
    if move.Correct? {
      CorrectPays(s);
    } else {
      if s.currentQuestionId.Some? {
        OpenIsListed(s);
      }
      NothingPaid(s, Play(s, move));
    }
  }

  lemma {:induction false} GamePays(s: Session, moves: seq<Move>)
    requires Valid(s) && Playable(s.questions) && PaidOnce(s.questions, s.results, s.scoreEvents)
    requires forall i :: 0 <= i < |moves| ==> Offered(s.questions, moves[i])
    ensures var t := PlayAll(s, moves); t.questions == s.questions && PaidOnce(t.questions, t.results, t.scoreEvents)
    decreases |moves|
  {
    hide Valid, Playable, Play, PaidOnce;
    if moves != [] {
      PlayKeepsValid(s, moves[0]);
      MovePays(s, moves[0]);
      GamePays(Play(s, moves[0]), moves[1..]);
    }
  }

  /**
    Over every game a question pays at most once: its own points, to the team its result names, as a steal exactly where
    the result says so; and every question awarded to a team has paid, if it was worth anything.
   */
  lemma EveryQuestionPaysOnce(questions: seq<Question>, config: QuizConfig, moves: seq<Move>)
    requires Playable(questions)
    requires forall i :: 0 <= i < |moves| ==> Offered(questions, moves[i])
    ensures var t := PlayAll(CreateQuizSession(questions, config), moves); PaidOnce(questions, t.results, t.scoreEvents)
  {
    CreateIsValid(questions, config);
    GamePays(CreateQuizSession(questions, config), moves);
  }
}
