/** Which handler an event reaches, and what must be true of it to get there. */
module Dispatch {
  import opened Collections
  import opened SpeakingOrder
  import opened RoomState
  import opened Transitions
  import opened Frames

  /** Who sent it, as the event itself has it: the host's events name nobody, a player's name the player. */
  predicate SentByWhomItNames(e: Event, sender: Sender) {
    match e
    case StartGame(_) => sender == HostSender
    case HostPhaseAction(_, _) => sender == HostSender
    case RestartMatch => sender == HostSender
    case CloseRoom => sender == HostSender
    case AcknowledgeReveal(_, p) => sender == PlayerSender(p)
    case AdminSelectMinigame(_, p, _, _) => sender == PlayerSender(p)
    case SubmitHack(_, p, _) => sender == PlayerSender(p)
    case SubmitAction(_, p, _, _, _) => sender == PlayerSender(p)
    case PushButton(_, p) => sender == PlayerSender(p)
    case SubmitAccusation(_, p, _) => sender == PlayerSender(p)
    case SubmitAccusationVote(_, p, _) => sender == PlayerSender(p)
    case RequestRematch(_, p) => sender == PlayerSender(p)
    case _ => true
  }

  /** The events sent for one particular phase. */
  predicate ForPhase(e: Event, phaseId: nat) {
    match e
    case StartGame(id) => id == phaseId
    case HostPhaseAction(id, _) => id == phaseId
    case AcknowledgeReveal(id, _) => id == phaseId
    case AdminSelectMinigame(id, _, _, _) => id == phaseId
    case SubmitHack(id, _, _) => id == phaseId
    case SubmitAction(id, _, _, _, _) => id == phaseId
    case PushButton(id, _) => id == phaseId
    case SubmitAccusation(id, _, _) => id == phaseId
    case SubmitAccusationVote(id, _, _) => id == phaseId
    case RequestRematch(id, _) => id == phaseId
    case TimerExpired(id) => id == phaseId
    case _ => true
  }

  /** Whatever is accepted was sent by whom it names, and for the phase the room is in. */
  lemma AcceptedIsAddressed(w: World, e: Event, sender: Sender, d: Deps)
    requires HandleEvent(w, e, sender, d).Accepted?
    ensures SentByWhomItNames(e, sender) && ForPhase(e, w.room.phase.phaseId)
  {
    hide HandleInState, HandlePushButton, HandleMatchClockExpired, CloseTheRoom, ResetMatch, Transition, SetConnected,
         Disconnect;
  }

  /** The host's action of this kind. */
  predicate HostDoes(e: Event, action: HostAction) {
    e.HostPhaseAction? && e.hostAction == action
  }

  /** It comes from whom it names, and for this phase. */
  predicate Addressed(w: World, e: Event, sender: Sender) {
    SentByWhomItNames(e, sender) && ForPhase(e, w.room.phase.phaseId)
  }

  /**
    An event of a phase reaches the handler of that phase, or the button's. Otherwise the host's events
    are refused because of the sender, a player's because of the name, and then any because of the phase.
   */
  lemma Dispatched(w: World, e: Event, sender: Sender, d: Deps)
    requires !CrossCutting(e)
    ensures var o := HandleEvent(w, e, sender, d);
            if !SentByWhomItNames(e, sender) then o == Rejected(w, if e.StartGame? || e.HostPhaseAction? then NotHost else IdentityMismatch)
            else if !ForPhase(e, w.room.phase.phaseId) then o == Rejected(w, StalePhase)
            else o == if e.PushButton? then HandlePushButton(w, e.playerId, d) else HandleInState(w, e, d)
  {
    hide HandleInState, HandlePushButton, HandleMatchClockExpired, CloseTheRoom, ResetMatch, Transition, SetConnected,
         Disconnect;
  }

  lemma InState(w: World, e: Event, d: Deps)
    ensures HandleInState(w, e, d) ==
            match w.room.phase.state
            case Lobby => HandleLobby(w, e, d)
            case RoleReveal => HandleRoleReveal(w, e, d)
            case GameIntro => HandleGameIntro(w, e, d)
            case MinigameSelect => HandleMinigameSelect(w, e, d)
            case HackerCorruption => HandleHackWindow(w, e, d)
            case MinigameInstructions => HandleMinigameInstructions(w, e, d)
            case MinigamePlay => HandleMinigamePlay(w, e, d)
            case ResultsReveal => HandleResultsReveal(w, e, d)
            case Discussion => HandleDiscussion(w, e, d)
            case AccusationSelect => HandleAccusationSelect(w, e, d)
            case AccusationVote => HandleAccusationVote(w, e, d)
            case SpecialGameIntro => HandleSpecialGameIntro(w, e, d)
            case SpecialGamePlay => HandleSpecialGamePlay(w, e, d)
            case SpecialGameResult => HandleSpecialGameResult(w, e, d)
            case FinalResults => HandleFinalResults(w, e, d)
            case RematchLobby => HandleRematchLobby(w, e, d)
            case _ => Rejected(w, InvalidEventForState)
  {
    hide HandleLobby, HandleRoleReveal, HandleGameIntro, HandleMinigameSelect, HandleHackWindow,
         HandleMinigameInstructions, HandleMinigamePlay, HandleResultsReveal, HandleDiscussion,
         HandleAccusationSelect, HandleAccusationVote, HandleSpecialGameIntro, HandleSpecialGamePlay,
         HandleSpecialGameResult, HandleFinalResults, HandleRematchLobby;
  }

  lemma ButtonElsewhere(w: World, e: Event, d: Deps)
    requires w.room.phase.state != Discussion && w.room.phase.state != MinigameSelect
    ensures e.PushButton? ==> HandlePushButton(w, e.playerId, d) == Rejected(w, InvalidEventForState)
  {
    hide Transition, OpenAccusation, EligibleVoterIds;
  }

  /** The Admin's turn is entered with everything else as it was. */
  lemma TurnKeeps(w: World, d: Deps)
    ensures var t := Transition(w, MinigameSelect, d);
            && t.Some? && t.value.room.phase.state == MinigameSelect
            && t.value.room == w.room.(phase := t.value.room.phase, submissions := {}, stateVersion := t.value.room.stateVersion,
                                       adminId := t.value.room.adminId, adminQueue := t.value.room.adminQueue)
            && t.value.priv == w.priv
  {
    hide NextQueue, DurationFor;
  }

  /** Entering a phase changes the phase, empties the submissions and takes an id; nothing else. */
  lemma EntryFrame(w: World, next: GameState, d: Deps)
    ensures var t := SetPhase(w, next, d);
            && t.room == w.room.(phase := t.room.phase, submissions := {}, stateVersion := t.room.stateVersion)
            && t.room.phase.state == next && t.room.phase.phaseId == w.nextId && t.room.phase.startedAt == d.now
            && t.room.stateVersion == w.room.stateVersion + 1
            && t.priv == w.priv && t.hist == w.hist && t.nextId == w.nextId + 1
  {
    hide DurationFor;
  }

  /** The same in one step, where the button does nothing. */
  lemma Reaches(w: World, e: Event, sender: Sender, d: Deps)
    requires !CrossCutting(e) && Addressed(w, e, sender)
    requires w.room.phase.state != Discussion && w.room.phase.state != MinigameSelect
    ensures HandleEvent(w, e, sender, d) == if e.PushButton? then Rejected(w, InvalidEventForState) else HandleInState(w, e, d)
  {
    hide HandleEvent, HandleInState, HandlePushButton;
    Dispatched(w, e, sender, d);
    ButtonElsewhere(w, e, d);
  }
}
