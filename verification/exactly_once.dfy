/** Actions reach a game at most once, however often, in whatever order and however late they are delivered. */
module ExactlyOnce {
  import opened Collections
  import opened SpeakingOrder
  import opened RoomState
  import opened Transitions
  import opened RoomInvariant
  import opened RoomProofs
  import opened PhaseProofs
  import opened Frames
  import opened Runs
  import Minigames
  import BombProtocol

  /** An action with this sequence number can no longer be applied in this phase, or the phase is over. */
  predicate Spent(w: World, phaseId: nat, playerId: PlayerId, seqNo: int) {
    && phaseId < w.nextId
    && (phaseId == w.room.phase.phaseId ==>
          && (w.room.phase.state == MinigamePlay && w.room.currentRound.Some? ==>
                seqNo <= LastSeqOf(w.room.currentRound.value.lastSeq, playerId))
          && (w.room.phase.state == SpecialGamePlay && w.room.currentSpecialRound.Some? ==>
                seqNo <= LastSeqOf(w.room.currentSpecialRound.value.lastSeq, playerId)))
  }

  lemma SpentStep(w: World, input: Input, phaseId: nat, playerId: PlayerId, seqNo: int)
    requires Spent(w, phaseId, playerId, seqNo)
    ensures Spent(Step(w, input), phaseId, playerId, seqNo)
  {
    hide Step, LastSeqOf, ClockFollows;
    StepFrame(w, input);
  }

  lemma {:induction false} StaysSpent(w: World, inputs: seq<Input>, phaseId: nat, playerId: PlayerId, seqNo: int)
    requires Spent(w, phaseId, playerId, seqNo)
    ensures Spent(RunOf(w, inputs), phaseId, playerId, seqNo)
    decreases |inputs|
  {
    hide Step, Spent;
    if inputs != [] {
      SpentStep(w, inputs[0], phaseId, playerId, seqNo);
      StaysSpent(Step(w, inputs[0]), inputs[1..], phaseId, playerId, seqNo);
    }
  }

  lemma SpentRefuses(w: World, e: Event, sender: Sender, d: Deps)
    requires e.SubmitAction? && Spent(w, e.phaseId, e.playerId, e.seqNo)
    ensures Step(w, Receive(e, sender, d)) == w
  {
    hide Minigames.ValidateAction, BombProtocol.ValidateAction, AfterAction, AfterSpecialAction, LastSeqOf, RecentOf,
         HandleAccusationSelect, HandleAccusationVote, HandlePushButton, HandleRoleReveal, HandleMinigameSelect,
         HandleHackWindow, Transition, CloseTheRoom, ResetMatch, SetConnected, HandleMatchClockExpired, PlaySpecial,
         LeaveSpecial, ResolveAfterRoundOrSpecial, PlayTimeout, CompleteMinigame, CompleteSpecialGame;
    if w.room.phase.state != MinigamePlay && w.room.phase.state != SpecialGamePlay {
      OnlyInPlay(w, e, d);
    }
  }

  /** Outside the two playing phases no action is ever accepted. */
  lemma OnlyInPlay(w: World, e: Event, d: Deps)
    requires e.SubmitAction? && w.room.phase.state != MinigamePlay && w.room.phase.state != SpecialGamePlay
    ensures !HandleInState(w, e, d).Accepted?
  {
    hide Transition, ReturnToGameplay, EverybodyAcknowledged;
  }

  lemma ActionSpends(w: World, after: Round, d: Deps, playerId: PlayerId, seqNo: int)
    requires Valid(w) && w.room.phase.state == MinigamePlay && w.room.currentRound.Some?
    requires w.room.currentRound.value.moduleState.Some? && after.moduleState.Some?
    requires LastSeqOf(after.lastSeq, playerId) == seqNo && SameRound(w.room.currentRound.value, after)
    ensures var o := AfterAction(w, w.room.currentRound.value, after, d);
            o.Accepted? ==> Spent(o.world, w.room.phase.phaseId, playerId, seqNo)
  {
    hide Valid, CompleteMinigame, Transition, Minigames.IsComplete, Minigames.InternalStep, LastSeqOf;
    PartsOf(w);
    hide Shape;
    var applied := w.(room := w.room.(currentRound := Some(after)));
    CompleteMoves(w, applied, d);
    TransitionMoves(w, applied, MinigamePlay, d);
  }

  lemma SpecialActionSpends(w: World, after: SpecialRound, d: Deps, playerId: PlayerId, seqNo: int)
    requires Valid(w) && w.room.phase.state == SpecialGamePlay
    requires after.moduleState.Some? && LastSeqOf(after.lastSeq, playerId) == seqNo
    ensures var o := AfterSpecialAction(w, after, d);
            o.Accepted? ==> Spent(o.world, w.room.phase.phaseId, playerId, seqNo)
  {
    hide Valid, CompleteSpecialGame, LastSeqOf;
    PartsOf(w);
    hide Shape;
    SpecialCompleteMoves(w, w.(room := w.room.(currentSpecialRound := Some(after))), d);
  }

  /** A delivery that changes anything uses its sequence number up. */
  lemma DeliverySpends(w: World, e: Event, sender: Sender, d: Deps)
    requires Valid(w) && e.SubmitAction? && Step(w, Receive(e, sender, d)) != w
    ensures Spent(Step(w, Receive(e, sender, d)), e.phaseId, e.playerId, e.seqNo)
  {
    hide Valid, Minigames.ValidateAction, BombProtocol.ValidateAction, AfterAction, AfterSpecialAction, RecentOf,
         LastTwenty, Minigames.HandleAction, BombProtocol.HandleAction, Spent, HandleAccusationSelect,
         HandleAccusationVote, HandlePushButton, HandleRoleReveal, HandleMinigameSelect, HandleHackWindow,
         HandleLobby, HandleGameIntro, HandleMinigameInstructions, HandleResultsReveal, HandleDiscussion,
         HandleSpecialGameIntro, HandleSpecialGameResult, HandleFinalResults, HandleRematchLobby, Transition,
         CloseTheRoom, ResetMatch, SetConnected, HandleMatchClockExpired, PlayTimeout, CompleteMinigame,
         CompleteSpecialGame;
    var seqNo := e.seqNo;
    if w.room.phase.state == MinigamePlay {
      var round := w.room.currentRound.value;
      var after := Minigames.HandleAction(round.moduleState.value, e.playerId, e.action.action);
      ActionSpends(w, Acted(round, e.playerId, seqNo, e.actionId, after), d, e.playerId, seqNo);
    } else if w.room.phase.state == SpecialGamePlay {
      var s := w.room.currentSpecialRound.value;
      var after := SpecialActed(s, e.playerId, seqNo, e.actionId, BombProtocol.HandleAction(s.moduleState.value, e.action.bomb));
      SpecialActionSpends(w, after, d, e.playerId, seqNo);
    } else {
      OnlyInPlay(w, e, d);
    }
  }

  /**
    Exactly once: an action that was applied changes nothing when it is delivered again, by anybody,
    at any later time, whatever happened in between and however many other actions that was.
   */
  lemma RedeliveryChangesNothing(w: World, e: Event, sender: Sender, d: Deps, between: seq<Input>, again: Sender,
                                 later: Deps)
    requires Valid(w) && e.SubmitAction? && Step(w, Receive(e, sender, d)) != w
    ensures var u := RunOf(Step(w, Receive(e, sender, d)), between);
            Step(u, Receive(e, again, later)) == u
  {
    hide Valid, Step, Spent, RunOf;
    var t := Step(w, Receive(e, sender, d));
    DeliverySpends(w, e, sender, d);
    StaysSpent(t, between, e.phaseId, e.playerId, e.seqNo);
    SpentRefuses(RunOf(t, between), e, again, later);
  }

  /**
    Of two actions of one player applied in one phase, the special game's included, the later has the
    higher number.
   */
  lemma SeqsIncreaseInPhase(w: World, e1: Event, s1: Sender, d1: Deps, between: seq<Input>, e2: Event, s2: Sender,
                            d2: Deps)
    requires Valid(w) && e1.SubmitAction? && e2.SubmitAction?
    requires e1.playerId == e2.playerId && e1.phaseId == e2.phaseId
    requires Step(w, Receive(e1, s1, d1)) != w
    requires var u := RunOf(Step(w, Receive(e1, s1, d1)), between); Step(u, Receive(e2, s2, d2)) != u
    ensures e1.seqNo < e2.seqNo
  {
    hide Valid, Step, RunOf, LastSeqOf;
    var t := Step(w, Receive(e1, s1, d1));
    DeliverySpends(w, e1, s1, d1);
    StaysSpent(t, between, e1.phaseId, e1.playerId, e1.seqNo);
    if e2.seqNo <= e1.seqNo {
      SpentRefuses(RunOf(t, between), e2, s2, d2);
    }
  }

  // ---- Order within a round ----------------------------------------------------------------------------------------

  /** If there is a round before and after, it is one round whose sequence numbers did not go back. */
  ghost predicate SeqsKept(before: Option<Round>, after: Option<Round>) {
    before.Some? && after.Some? ==> SeqsGrow(before.value.lastSeq, after.value.lastSeq)
  }

  ghost predicate KeepsSeqs(w: World, o: Outcome) {
    o.Accepted? ==> SeqsKept(w.room.currentRound, o.world.room.currentRound)
  }

  lemma EntryKeepsRound(w: World, next: GameState, d: Deps)
    requires next !in {RoleAssignment, MinigameSelect, HackerCorruption}
    ensures Transition(w, next, d).Some? && Transition(w, next, d).value.room.currentRound == w.room.currentRound
  {
    PlainEntry(w, next, d);
    hide Transition, DurationFor;
  }

  lemma WindowKeepsSeqs(w: World, e: Event, d: Deps)
    ensures KeepsSeqs(w, HandleHackWindow(w, e, d))
  {
    hide Transition, StartModule, HackerIds, LastSeqOf;
    if w.room.currentRound.Some? {
      var round := w.room.currentRound.value;
      var revealed := round.hackedRevealed || w.room.config.revealPolicy == OnInstructions;
      EntryKeepsRound(w.(room := w.room.(currentRound := Some(round.(hackedRevealed := revealed, moduleState := StartModule(round, d))))),
                      MinigameInstructions, d);
    }
  }

  lemma PausesKeepSeqs(w: World, e: Event, d: Deps)
    ensures KeepsSeqs(w, HandleMinigameInstructions(w, e, d)) && KeepsSeqs(w, HandleResultsReveal(w, e, d))
  {
    hide Transition, LastSeqOf;
    EntryKeepsRound(w, MinigamePlay, d);
    EntryKeepsRound(w.(room := w.room.(currentRound := None)), Discussion, d);
  }

  lemma CompletionKeepsRound(w: World, d: Deps)
    requires w.room.currentRound.Some?
    ensures var t := CompleteMinigame(w, d);
            t.Some? && t.value.room.currentRound.Some?
            && t.value.room.currentRound.value.lastSeq == w.room.currentRound.value.lastSeq
  {
    EntryKeepsRound(RecordRound(w, d), ResultsReveal, d);
    hide Transition, Minigames.Succeeded;
  }

  /** Whatever follows from an action, the round keeps the sequence numbers that came with it. */
  lemma ActionKeepsRound(w: World, before: Round, after: Round, d: Deps)
    requires before.moduleState.Some? && after.moduleState.Some?
    ensures var o := AfterAction(w, before, after, d);
            o.Accepted? && o.world.room.currentRound.Some? && o.world.room.currentRound.value.lastSeq == after.lastSeq
  {
    hide CompleteMinigame, Transition, Minigames.IsComplete, Minigames.InternalStep;
    var applied := w.(room := w.room.(currentRound := Some(after)));
    CompletionKeepsRound(applied, d);
    EntryKeepsRound(applied, MinigamePlay, d);
  }

  lemma TimeoutKeepsSeqs(w: World, d: Deps)
    requires w.room.currentRound.Some?
    ensures KeepsSeqs(w, Accept(PlayTimeout(w, w.room.currentRound.value, d)))
  {
    hide CompleteMinigame, Transition, Minigames.IsComplete, Minigames.InternalStep, Minigames.HandleTimeout,
         LastSeqOf;
    var round := w.room.currentRound.value;
    CompletionKeepsRound(w, d);
    if round.moduleState.Some? && Minigames.HandleTimeout(round.moduleState.value).Some? {
      var applied := w.(room := w.room.(currentRound := Some(round.(moduleState := Minigames.HandleTimeout(round.moduleState.value)))));
      CompletionKeepsRound(applied, d);
      EntryKeepsRound(applied, MinigamePlay, d);
    }
  }

  lemma PlayKeepsSeqs(w: World, e: Event, d: Deps)
    ensures KeepsSeqs(w, HandleMinigamePlay(w, e, d))
  {
    if w.room.currentRound.Some? {
      var round := w.room.currentRound.value;
      hide CompleteMinigame, PlayTimeout, AfterAction, Minigames.ValidateAction, Minigames.HandleAction, RecentOf,
           LastTwenty, LastSeqOf;
      CompletionKeepsRound(w, d);
      TimeoutKeepsSeqs(w, d);
      if e.SubmitAction? && PlayAction(w, round, e.playerId, e.seqNo, e.actionId, e.action, d).Accepted?
         && e.actionId !in RecentOf(round.recentActionIds, e.playerId) {
        SeqApplied(round.lastSeq, e.playerId, e.seqNo);
        var after := Minigames.HandleAction(round.moduleState.value, e.playerId, e.action.action);
        ActionKeepsRound(w, round, Acted(round, e.playerId, e.seqNo, e.actionId, after), d);
      }
    }
  }

  lemma CrossCuttingKeepsSeqs(w: World, e: Event, sender: Sender, d: Deps)
    requires CrossCutting(e)
    ensures KeepsSeqs(w, HandleEvent(w, e, sender, d))
  {
    hide Transition, CheckSender, SeqsKept, HandleMatchClockExpired, CloseTheRoom, ResetMatch, HandleInState,
         HandlePushButton, IsStalePhase, SetConnected, Disconnect;
    SameRoundKept(w.room.currentRound);
    match e
    case PlayerDisconnected(playerId) => ConnectionOnly(w, playerId, false);
    case PlayerReconnected(playerId) => ConnectionOnly(w, playerId, true);
    case MatchClockExpired(clockId) => ExpiryClearsRound(w, clockId, d);
    case RestartMatch => ResetClearsRound(w, d);
    case CloseRoom => CloseKeepsRound(w, d);
    case GraceExpired => CloseKeepsRound(w, d);
    case _ =>
  }

  lemma SameRoundKept(round: Option<Round>)
    ensures SeqsKept(round, round) && SeqsKept(round, None)
  {
  }

  lemma CloseKeepsRound(w: World, d: Deps)
    ensures CloseTheRoom(w, d).Some? && CloseTheRoom(w, d).value.room.currentRound == w.room.currentRound
  {
    hide Transition;
    EntryKeepsRound(w, Abandoned, d);
  }

  lemma ResetClearsRound(w: World, d: Deps)
    ensures var t := Transition(ResetMatch(w), Lobby, d); t.Some? && t.value.room.currentRound.None?
  {
    EntryKeepsRound(ResetMatch(w), Lobby, d);
    hide Transition;
  }

  lemma ExpiryClearsRound(w: World, clockId: nat, d: Deps)
    ensures var o := HandleMatchClockExpired(w, clockId, d);
            o.Accepted? ==> o.world.room.currentRound.None?
  {
    hide Transition, EndMatch;
    var logged := if w.room.currentAccusation.None? then w.room
                  else Log(w.room, d, AccusationAbandonedByClock(w.room.currentAccusation.value.initiatorId));
    ClearedEnds(w.(room := logged.(currentRound := None, currentSpecialRound := None, currentAccusation := None)), d);
  }

  lemma ClearedEnds(w: World, d: Deps)
    requires w.room.currentRound.None?
    ensures var t := Transition(EndMatch(w, HackersWin), FinalResults, d); t.Some? && t.value.room.currentRound.None?
  {
    EntryKeepsRound(EndMatch(w, HackersWin), FinalResults, d);
    hide Transition;
  }

  /** From one step to the next, sequence numbers of a round never go back, also when its phase changes. */
  lemma StepKeepsSeqs(w: World, input: Input)
    requires Valid(w)
    ensures SeqsKept(w.room.currentRound, Step(w, input).room.currentRound)
  {
    hide Valid, HandleEvent, LastSeqOf, Shape;
    PartsOf(w);
    if input.Receive? {
      RoundEventKeepsSeqs(w, input.event, input.sender, input.deps);
    } else {
      RosterFrame(w, input);
      hide JoinPlayer, LeavePlayer, KickPlayer, SetPlayerProfile;
    }
  }

  lemma RoundEventKeepsSeqs(w: World, e: Event, sender: Sender, d: Deps)
    requires Shape(w.room, w.room.phase.state)
    ensures KeepsSeqs(w, HandleEvent(w, e, sender, d))
  {
    hide HandleHackWindow, HandleMinigameInstructions, HandleMinigamePlay, HandleResultsReveal, HandlePushButton,
         HandleLobby, HandleRoleReveal, HandleGameIntro, HandleMinigameSelect, HandleDiscussion,
         HandleAccusationSelect, HandleAccusationVote, HandleSpecialGameIntro, HandleSpecialGamePlay,
         HandleSpecialGameResult, HandleFinalResults, HandleRematchLobby, CheckSender, IsStalePhase, SeqsGrow,
         HandleMatchClockExpired, CloseTheRoom, ResetMatch, SetConnected, Transition;
    if CrossCutting(e) {
      CrossCuttingKeepsSeqs(w, e, sender, d);
    } else if w.room.currentRound.Some? {
      WindowKeepsSeqs(w, e, d);
      PausesKeepSeqs(w, e, d);
      PlayKeepsSeqs(w, e, d);
      if e.PushButton? {
        ButtonRefused(w, e.playerId, d);
      }
    }
  }

  lemma ButtonRefused(w: World, playerId: PlayerId, d: Deps)
    requires w.room.phase.state != Discussion && w.room.phase.state != MinigameSelect
    ensures HandlePushButton(w, playerId, d).Rejected?
  {
    hide Transition;
  }

  /** A round is on all along the run. */
  ghost predicate RoundLasts(w: World, inputs: seq<Input>)
    decreases |inputs|
  {
    w.room.currentRound.Some? && (inputs == [] || RoundLasts(Step(w, inputs[0]), inputs[1..]))
  }

  lemma {:induction false} RunKeepsSeqs(w: World, inputs: seq<Input>, from: int)
    requires Valid(w) && w.room.phase.startedAt <= from && Ticking(inputs, from) && RoundLasts(w, inputs)
    ensures RunOf(w, inputs).room.currentRound.Some?
    ensures SeqsKept(w.room.currentRound, RunOf(w, inputs).room.currentRound)
    decreases |inputs|
  {
    hide Valid, Step;
    if inputs != [] {
      StepKeepsTime(w, inputs[0], from);
      StepValid(w, inputs[0]);
      StepKeepsSeqs(w, inputs[0]);
      RunKeepsSeqs(Step(w, inputs[0]), inputs[1..], Later(inputs[0], from));
    }
  }

  /** An action that is applied carries a higher sequence number than any before it, and leaves that as the last. */
  lemma AppliedIsNewest(w: World, e: Event, sender: Sender, d: Deps)
    requires Valid(w) && w.room.phase.state == MinigamePlay && w.room.currentRound.Some?
    requires e.SubmitAction? && Step(w, Receive(e, sender, d)) != w
    ensures e.seqNo > LastSeqOf(w.room.currentRound.value.lastSeq, e.playerId)
    ensures var t := Step(w, Receive(e, sender, d)).room.currentRound;
            t.Some? && LastSeqOf(t.value.lastSeq, e.playerId) == e.seqNo
  {
    hide Valid, Minigames.ValidateAction, AfterAction, RecentOf, LastTwenty, Minigames.HandleAction, PlayTimeout,
         CompleteMinigame, HandleAccusationSelect, HandleAccusationVote, HandlePushButton, HandleRoleReveal,
         HandleMinigameSelect, HandleHackWindow, HandleLobby, HandleGameIntro, HandleMinigameInstructions,
         HandleResultsReveal, HandleDiscussion, HandleSpecialGameIntro, HandleSpecialGamePlay,
         HandleSpecialGameResult, HandleFinalResults, HandleRematchLobby, HandleMatchClockExpired, Transition,
         CloseTheRoom, ResetMatch, SetConnected;
    var round := w.room.currentRound.value;
    var after := Minigames.HandleAction(round.moduleState.value, e.playerId, e.action.action);
    ActionKeepsRound(w, round, Acted(round, e.playerId, e.seqNo, e.actionId, after), d);
  }

  /** Of two actions of one player applied in one round, the later has the higher sequence number. */
  lemma SeqsIncrease(w: World, e1: Event, s1: Sender, d1: Deps, between: seq<Input>, e2: Event, s2: Sender, d2: Deps)
    requires Valid(w) && w.room.phase.state == MinigamePlay && w.room.phase.startedAt <= d1.now
    requires e1.SubmitAction? && e2.SubmitAction? && e1.playerId == e2.playerId
    requires Step(w, Receive(e1, s1, d1)) != w
    requires var t := Step(w, Receive(e1, s1, d1));
             && Ticking(between, d1.now) && RoundLasts(t, between)
             && RunOf(t, between).room.phase.state == MinigamePlay
             && Step(RunOf(t, between), Receive(e2, s2, d2)) != RunOf(t, between)
    ensures e1.seqNo < e2.seqNo
  {
    hide Valid, Step, LastSeqOf, Shape;
    PartsOf(w);
    RoundInPlay(w.room);
    var input := Receive(e1, s1, d1);
    var t := Step(w, input);
    AppliedIsNewest(w, e1, s1, d1);
    StepKeepsTime(w, input, d1.now);
    StepValid(w, input);
    RunKeepsSeqs(t, between, d1.now);
    RunValid(t, between, d1.now);
    AppliedIsNewest(RunOf(t, between), e2, s2, d2);
  }

  lemma RoundInPlay(r: Room)
    ensures Shape(r, MinigamePlay) ==> r.currentRound.Some?
  {
  }
}
