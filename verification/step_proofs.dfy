/** Every step keeps the room's invariant, and a timer always moves a playable room on. */
module StepProofs {
  import opened Collections
  import opened SpeakingOrder
  import opened RoomState
  import opened Transitions
  import opened RoomInvariant
  import opened RoomProofs
  import opened RoundProofs
  import opened PhaseProofs
  import opened SpecialProofs
  import opened AccusationProofs
  import opened MatchProofs
  import Minigames
  import BombProtocol

  ghost predicate KeepsValid(o: Outcome) {
    o.Accepted? ==> Valid(o.world)
  }

  /** The room rests in `state`, and the clock reading is not before that began. */
  ghost predicate In(w: World, state: GameState, d: Deps) {
    Valid(w) && w.room.phase.state == state && w.room.phase.startedAt <= d.now
  }

  lemma LobbyEvent(w: World, e: Event, d: Deps)
    requires In(w, Lobby, d)
    ensures KeepsValid(HandleLobby(w, e, d))
  {
    hide Valid, Transition;
    if PlayerCountFits(w.room) {
      LobbyStart(w, d);
    }
  }

  lemma RevealEvent(w: World, e: Event, d: Deps)
    requires In(w, RoleReveal, d)
    ensures KeepsValid(HandleRoleReveal(w, e, d))
  {
    hide Valid, Transition, EverybodyAcknowledged;
    RevealDone(w, w.room.submissions, d);
    assert w == w.(room := w.room.(submissions := w.room.submissions));
    if e.AcknowledgeReveal? {
      SubmissionNoted(w, w.room.submissions + {e.playerId});
      RevealDone(w, w.room.submissions + {e.playerId}, d);
    }
  }

  lemma IntroEvent(w: World, e: Event, d: Deps)
    requires In(w, GameIntro, d)
    ensures KeepsValid(HandleGameIntro(w, e, d))
  {
    hide Valid, Transition;
    IntroDone(w, d);
  }

  lemma SelectEvent(w: World, e: Event, d: Deps)
    requires In(w, MinigameSelect, d)
    ensures KeepsValid(HandleMinigameSelect(w, e, d))
  {
    hide Valid, Transition, AutoSelect, ExpandParticipants, BeginNormalRound, Distinct, EligibleMinigameIds;
    AutoSelectValid(w, d);
    if e.AdminSelectMinigame? && HandleMinigameSelect(w, e, d).Accepted? {
      AdminSelectValid(w, e.minigame.value, e.participantIds, d);
    }
  }

  lemma HackEvent(w: World, e: Event, d: Deps)
    requires In(w, HackerCorruption, d)
    ensures KeepsValid(HandleHackWindow(w, e, d))
  {
    hide Valid, TakeHack, ProceedToInstructions, HackerIds;
    HackTimerValid(w, d);
    if e.SubmitHack? && HandleHackWindow(w, e, d).Accepted? {
      HackValid(w, e.playerId, e.targetId, d);
    }
  }

  lemma InstructionsEvent(w: World, e: Event, d: Deps)
    requires In(w, MinigameInstructions, d)
    ensures KeepsValid(HandleMinigameInstructions(w, e, d))
  {
    hide Valid, Transition;
    InstructionsDone(w, d);
  }

  lemma PlayEvent(w: World, e: Event, d: Deps)
    requires In(w, MinigamePlay, d)
    ensures KeepsValid(HandleMinigamePlay(w, e, d))
  {
    hide Valid, PlayTimeout, CompleteMinigame, PlayAction;
    PartsOf(w);
    assert w.room.currentRound.Some?;
    hide Shape;
    PlayForced(w, d);
    PlayTimeoutValid(w, d);
    if e.SubmitAction? {
      PlayActionEvent(w, e.playerId, e.seqNo, e.actionId, e.action, d);
    }
  }

  lemma PlayForced(w: World, d: Deps)
    requires In(w, MinigamePlay, d)
    ensures Arrives(CompleteMinigame(w, d), ResultsReveal, w)
  {
    ReadyLater(w, d.now);
    var round := w.room.currentRound.value;
    assert round.moduleState.Some? && Minigames.Valid(round.minigameId, round.moduleState.value, round.participantIds);
    assert w == w.(room := w.room.(currentRound := Some(round)));
    hide Valid, Ready, CompleteMinigame;
    EndedReady(w, round, d.now);
    ResultsValid(w, d);
  }

  lemma PlayActionEvent(w: World, playerId: PlayerId, seqNo: int, actionId: nat, action: GameAction, d: Deps)
    requires In(w, MinigamePlay, d)
    ensures w.room.currentRound.Some?
    ensures KeepsValid(PlayAction(w, w.room.currentRound.value, playerId, seqNo, actionId, action, d))
  {
    var round := w.room.currentRound.value;
    assert round.moduleState.Some? && Minigames.Valid(round.minigameId, round.moduleState.value, round.participantIds);
    hide Valid, AfterAction, Minigames.Valid, Minigames.ValidateAction, Minigames.HandleAction, RecentOf, LastSeqOf,
         LastTwenty;
    if PlayAction(w, round, playerId, seqNo, actionId, action, d).Accepted? && actionId !in RecentOf(round.recentActionIds, playerId) {
      var m := round.moduleState.value;
      Minigames.ActionKeepsValid(round.minigameId, m, round.participantIds, playerId, action.action);
      PlayActionValid(w, Acted(round, playerId, seqNo, actionId, Minigames.HandleAction(m, playerId, action.action)), d);
    }
  }

  lemma ResultsEvent(w: World, e: Event, d: Deps)
    requires In(w, ResultsReveal, d)
    ensures KeepsValid(HandleResultsReveal(w, e, d))
  {
    hide Valid, Transition;
    ResultsDone(w, d);
  }

  lemma DiscussionEvent(w: World, e: Event, d: Deps)
    requires In(w, Discussion, d)
    ensures KeepsValid(HandleDiscussion(w, e, d))
  {
    hide Valid, ResolveAfterRoundOrSpecial, SpecialGameDue;
    DiscussionDone(w, d);
  }

  lemma ButtonEvent(w: World, playerId: PlayerId, d: Deps)
    requires Valid(w) && w.room.phase.startedAt <= d.now
    ensures KeepsValid(HandlePushButton(w, playerId, d))
  {
    hide Valid, Transition, OpenAccusation, EligibleVoterIds;
    if HandlePushButton(w, playerId, d).Accepted? {
      ButtonPushed(w, playerId, d);
    }
  }

  lemma AccusationSelectEvent(w: World, e: Event, d: Deps)
    requires In(w, AccusationSelect, d)
    ensures KeepsValid(HandleAccusationSelect(w, e, d))
  {
    hide Valid, Transition, ReturnToGameplay, LockSuspects, CancelAccusation, EligibleVoterIds, Distinct;
    if w.room.currentAccusation.Some? {
      var acc := w.room.currentAccusation.value;
      SelectionTimedOut(w, acc, d);
      if e.SubmitAccusation? && HandleAccusationSelect(w, e, d).Accepted? {
        SuspectsLocked(w, acc, e.suspectIds, d);
      }
    }
  }

  lemma AccusationVoteEvent(w: World, e: Event, d: Deps)
    requires In(w, AccusationVote, d)
    ensures KeepsValid(HandleAccusationVote(w, e, d))
  {
    hide Valid, ResolveAccusationVote, CountVote, IsApproved;
    VoteEnds(w, d);
    if e.SubmitAccusationVote? && HandleAccusationVote(w, e, d).Accepted? {
      BallotValid(w, w.room.currentAccusation.value, e.playerId, e.vote, d);
    }
  }

  lemma SpecialIntroEvent(w: World, e: Event, d: Deps)
    requires In(w, SpecialGameIntro, d)
    ensures KeepsValid(HandleSpecialGameIntro(w, e, d))
  {
    hide Valid, PlaySpecial, PlayableConfig;
    SpecialIntroDone(w, d);
  }

  lemma SpecialPlayEvent(w: World, e: Event, d: Deps)
    requires In(w, SpecialGamePlay, d)
    ensures KeepsValid(HandleSpecialGamePlay(w, e, d))
  {
    hide Valid, CompleteSpecialGame, SpecialAction;
    SpecialTimeoutValid(w, d);
    if e.SubmitAction? && w.room.currentSpecialRound.Some? {
      SpecialActionEvent(w, e.playerId, e.seqNo, e.actionId, e.action, d);
    }
  }

  lemma SpecialActionEvent(w: World, playerId: PlayerId, seqNo: int, actionId: nat, action: GameAction, d: Deps)
    requires In(w, SpecialGamePlay, d) && w.room.currentSpecialRound.Some?
    ensures KeepsValid(SpecialAction(w, w.room.currentSpecialRound.value, playerId, seqNo, actionId, action, d))
  {
    var s := w.room.currentSpecialRound.value;
    assert s.moduleState.Some? && BombProtocol.Valid(s.moduleState.value);
    hide Valid, AfterSpecialAction, BombProtocol.Valid, BombProtocol.ValidateAction, BombProtocol.HandleAction,
         RecentOf, LastSeqOf, LastTwenty;
    if SpecialAction(w, s, playerId, seqNo, actionId, action, d).Accepted? && actionId !in RecentOf(s.recentActionIds, playerId) {
      BombProtocol.ActionLedger(s.moduleState.value, playerId, action.bomb);
      var after := BombProtocol.HandleAction(s.moduleState.value, action.bomb);
      SpecialActionValid(w, SpecialActed(s, playerId, seqNo, actionId, after), d);
    }
  }

  lemma SpecialResultEvent(w: World, e: Event, d: Deps)
    requires In(w, SpecialGameResult, d)
    ensures KeepsValid(HandleSpecialGameResult(w, e, d))
  {
    hide Valid, LeaveSpecial;
    SpecialResultDone(w, d);
  }

  lemma FinalEvent(w: World, e: Event, d: Deps)
    requires In(w, FinalResults, d)
    ensures KeepsValid(HandleFinalResults(w, e, d))
  {
    hide Valid, Transition;
    ResultsLeft(w, d);
    if e.RequestRematch? {
      SubmissionNoted(w, w.room.submissions + {e.playerId});
    }
  }

  lemma RematchEvent(w: World, e: Event, d: Deps)
    requires In(w, RematchLobby, d)
    ensures KeepsValid(HandleRematchLobby(w, e, d))
  {
    hide Valid, Transition, ResetMatch;
    if PlayerCountFits(w.room) {
      RematchStart(w, d);
    }
  }

  lemma StateEvent(w: World, e: Event, d: Deps)
    requires Valid(w) && w.room.phase.startedAt <= d.now
    ensures KeepsValid(HandleInState(w, e, d))
  {
    hide Valid, HandleLobby, HandleRoleReveal, HandleGameIntro, HandleMinigameSelect, HandleHackWindow,
         HandleMinigameInstructions, HandleMinigamePlay, HandleResultsReveal, HandleDiscussion,
         HandleAccusationSelect, HandleAccusationVote, HandleSpecialGameIntro, HandleSpecialGamePlay,
         HandleSpecialGameResult, HandleFinalResults, HandleRematchLobby;
    match w.room.phase.state
    case Lobby => LobbyEvent(w, e, d);
    case RoleReveal => RevealEvent(w, e, d);
    case GameIntro => IntroEvent(w, e, d);
    case MinigameSelect => SelectEvent(w, e, d);
    case HackerCorruption => HackEvent(w, e, d);
    case MinigameInstructions => InstructionsEvent(w, e, d);
    case MinigamePlay => PlayEvent(w, e, d);
    case ResultsReveal => ResultsEvent(w, e, d);
    case Discussion => DiscussionEvent(w, e, d);
    case AccusationSelect => AccusationSelectEvent(w, e, d);
    case AccusationVote => AccusationVoteEvent(w, e, d);
    case SpecialGameIntro => SpecialIntroEvent(w, e, d);
    case SpecialGamePlay => SpecialPlayEvent(w, e, d);
    case SpecialGameResult => SpecialResultEvent(w, e, d);
    case FinalResults => FinalEvent(w, e, d);
    case RematchLobby => RematchEvent(w, e, d);
    case _ =>
  }
}
