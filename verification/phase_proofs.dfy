/** The waiting phases of a regular round, from the hack window to the discussion, keep the room's invariant. */
module PhaseProofs {
  import opened Collections
  import opened SpeakingOrder
  import opened MatchClocks
  import opened RoomState
  import opened Transitions
  import opened RoomInvariant
  import opened RoomProofs
  import opened RoundProofs
  import Minigames

  /** The room has moved to a phase of its own: everything is in order and the phase id is new. */
  ghost predicate Arrives(t: Option<World>, state: GameState, w: World) {
    t.Some? && Valid(t.value) && t.value.room.phase.state == state && t.value.room.phase.phaseId >= w.nextId
  }

  lemma Enter(w: World, next: GameState, d: Deps)
    requires Ready(w, next, {}, d.now) && w.nextId > 0
    requires next !in {RoleAssignment, MinigameSelect, HackerCorruption}
    ensures Arrives(Transition(w, next, d), next, w)
    ensures Transition(w, next, d) == Some(SetPhase(w, next, d))
  {
    EnterValid(w, next, d);
    PlainEntry(w, next, d);
    hide Ready, Valid;
  }

  /** What a phase that waits has, and the freshness of its id. */
  lemma PartsOf(w: World)
    requires Valid(w)
    ensures w.room.phase.phaseId < w.nextId
    ensures Shape(w.room, w.room.phase.state)
  {
    hide RosterOk, MatchOk, AdminOk, JudgedOk, RoundOk, SpecialOk, AccusationOk, HackLedger, FirewallLedger,
         VerdictOk, ClockOk, IdsFresh, Shape, InProgress, ResultOk, LobbyOk, Live;
  }

  /** What holds at rest still holds at a later reading of the clock. */
  lemma ReadyLater(w: World, later: int)
    requires Valid(w) && w.room.phase.startedAt <= later
    ensures Ready(w, w.room.phase.state, w.room.submissions, later) && w.nextId > 0
  {
    ClockLater(w, later);
    hide RosterOk, MatchOk, AdminOk, JudgedOk, RoundOk, SpecialOk, AccusationOk, HackLedger, FirewallLedger,
         VerdictOk, ClockOk, IdsFresh, Shape, InProgress, ResultOk, LobbyOk, Live;
  }

  /** And the other way round: a room that is ready for the phase it is in, at the time that began, is at rest. */
  lemma StaysValid(w: World, t: World)
    requires Valid(w) && Ready(t, t.room.phase.state, t.room.submissions, t.room.phase.startedAt)
    requires t.room.phase == w.room.phase && t.nextId >= w.nextId
    requires t.room.phase.state == HackerCorruption ==> !t.room.firewallActive
    ensures Valid(t)
  {
    hide Ready;
  }

  // ---- The hack window ---------------------------------------------------------------------------------------

  /** A hack that is accepted adds one distinct target for one hacker, and spends one of that hacker's two. */
  lemma HackedRoundOk(c: Config, round: Round, order: seq<PlayerId>, hackers: set<PlayerId>, playerId: PlayerId,
                      targetId: PlayerId)
    requires RoundOk(c, round, order, hackers)
    requires playerId in hackers && playerId !in round.actionsUsed
    requires targetId in round.participantIds && targetId !in round.hackedIds
    ensures RoundOk(c, round.(hackedIds := round.hackedIds + [targetId], actionsUsed := round.actionsUsed + {playerId}), order, hackers)
  {
    hide SizesFit, PlayableConfig, Minigames.Valid;
  }

  lemma HackSpent(remaining: map<PlayerId, nat>, playerId: PlayerId, log: seq<LogEntry>, entry: LogEntry,
                  hackerCount: nat)
    requires HackLedger(HacksIn(log), remaining, hackerCount) && playerId in remaining && remaining[playerId] > 0
    requires entry.kind.HackAccepted?
    ensures HackLedger(HacksIn(log + [entry]), remaining[playerId := remaining[playerId] - 1], hackerCount)
    ensures ActivationsIn(log + [entry]) == ActivationsIn(log) && ConsumptionsIn(log + [entry]) == ConsumptionsIn(log)
  {
    LogGrows(log, entry);
    TotalUpdate(remaining, playerId, remaining[playerId] - 1);
    hide Total, HacksIn, ActivationsIn, ConsumptionsIn;
  }

  lemma HackValid(w: World, playerId: PlayerId, targetId: PlayerId, d: Deps)
    requires Valid(w) && w.room.phase.state == HackerCorruption && w.room.currentRound.Some?
    requires playerId in HackerIds(w.priv.players) && playerId !in w.room.currentRound.value.actionsUsed
    requires playerId in w.priv.hacksRemaining && w.priv.hacksRemaining[playerId] > 0
    requires targetId in w.room.currentRound.value.participantIds && targetId !in w.room.currentRound.value.hackedIds
    ensures Valid(TakeHack(w, w.room.currentRound.value, playerId, targetId, d))
  {
    var round := w.room.currentRound.value;
    var entry := LogEntry(d.now, HackAccepted(playerId, targetId));
    assert round.moduleState.None?;
    HackedRoundOk(w.room.config, round, w.room.playerOrder, HackerIds(w.priv.players), playerId, targetId);
    HackSpent(w.priv.hacksRemaining, playerId, w.room.matchLog, entry, w.room.hackerCount);
    hide Ready, RoundOk, HackLedger, HackerIds;
    var hacked := round.(hackedIds := round.hackedIds + [targetId], actionsUsed := round.actionsUsed + {playerId});
    HackedReady(w, hacked, entry, w.priv.hacksRemaining[playerId := w.priv.hacksRemaining[playerId] - 1]);
    StaysValid(w, TakeHack(w, round, playerId, targetId, d));
  }

  lemma HackedReady(w: World, round: Round, entry: LogEntry, remaining: map<PlayerId, nat>)
    requires Ready(w, HackerCorruption, w.room.submissions, w.room.phase.startedAt) && w.room.currentRound.Some?
    requires RoundOk(w.room.config, round, w.room.playerOrder, HackerIds(w.priv.players)) && round.moduleState.None?
    requires HackLedger(HacksIn(w.room.matchLog + [entry]), remaining, w.room.hackerCount)
    requires ActivationsIn(w.room.matchLog + [entry]) == ActivationsIn(w.room.matchLog)
    requires ConsumptionsIn(w.room.matchLog + [entry]) == ConsumptionsIn(w.room.matchLog)
    ensures Ready(w.(room := w.room.(currentRound := Some(round), matchLog := w.room.matchLog + [entry]),
                     priv := w.priv.(hacksRemaining := remaining)),
                  HackerCorruption, w.room.submissions, w.room.phase.startedAt)
  {
    hide RosterOk, MatchOk, AdminOk, JudgedOk, RoundOk, SpecialOk, AccusationOk, HackLedger, FirewallLedger,
         VerdictOk, ClockOk, IdsFresh, HacksIn, ActivationsIn, ConsumptionsIn, HackerIds;
  }

  lemma HackTimerValid(w: World, d: Deps)
    requires Valid(w) && w.room.phase.state == HackerCorruption && w.room.phase.startedAt <= d.now
    ensures PlayableConfig(w.room.config) && OwnGame(w.room) ==> ProceedToInstructions(w, d).Some?
    ensures !OwnGame(w.room) ==> ProceedToInstructions(w, d).None?
    ensures ProceedToInstructions(w, d).Some? ==> Arrives(ProceedToInstructions(w, d), MinigameInstructions, w)
  {
    ReadyLater(w, d.now);
    assert w.room.currentRound.Some?;
    hide Ready, Valid, ProceedToInstructions, PlayableConfig;
    ProceedValid(w, d);
  }

  // ---- Playing -------------------------------------------------------------------------------------------------

  lemma InstructionsDone(w: World, d: Deps)
    requires Valid(w) && w.room.phase.state == MinigameInstructions && w.room.phase.startedAt <= d.now
    ensures Arrives(Transition(w, MinigamePlay, d), MinigamePlay, w)
    ensures RoundTimeouts(Transition(w, MinigamePlay, d).value) == RoundTimeouts(w)
  {
    ReadyLater(w, d.now);
    assert Ready(w, MinigamePlay, {}, d.now) by {
      hide RosterOk, MatchOk, AdminOk, JudgedOk, RoundOk, SpecialOk, AccusationOk, HackLedger, FirewallLedger,
           VerdictOk, ClockOk, IdsFresh;
    }
    hide Ready, Valid;
    Enter(w, MinigamePlay, d);
    hide Minigames.TimeoutsLeft;
  }

  /** A round that goes on with a new state of its game. */
  lemma PlayedReady(w: World, round: Round, submissions: set<PlayerId>, latest: int)
    requires Ready(w, MinigamePlay, w.room.submissions, latest) && w.room.currentRound.Some?
    requires var was := w.room.currentRound.value;
             round == was.(moduleState := round.moduleState, lastSeq := round.lastSeq, recentActionIds := round.recentActionIds)
    requires round.moduleState.Some? && !Minigames.IsComplete(round.moduleState.value)
    requires Minigames.Valid(round.minigameId, round.moduleState.value, round.participantIds)
    ensures Ready(w.(room := w.room.(currentRound := Some(round))), MinigamePlay, submissions, latest)
  {
    hide RosterOk, MatchOk, AdminOk, JudgedOk, SpecialOk, AccusationOk, HackLedger, FirewallLedger, VerdictOk,
         ClockOk, IdsFresh, SizesFit, PlayableConfig, Minigames.Valid, Minigames.IsComplete, Distinct;
  }

  lemma RecordedReady(w: World, d: Deps, latest: int)
    requires w.room.currentRound.Some? && Ready(w, ResultsReveal, w.room.submissions, latest)
    ensures Ready(RecordRound(w, d), ResultsReveal, {}, latest)
  {
    hide RosterOk, MatchOk, AdminOk, JudgedOk, SpecialOk, AccusationOk, HackLedger, FirewallLedger, VerdictOk,
         ClockOk, IdsFresh, SizesFit, PlayableConfig, Minigames.Valid, Minigames.Succeeded, Minigames.IsComplete,
         Distinct;
  }

  lemma EndedReady(w: World, round: Round, latest: int)
    requires Ready(w, MinigamePlay, w.room.submissions, latest) && w.room.currentRound.Some?
    requires var was := w.room.currentRound.value;
             round == was.(moduleState := round.moduleState, lastSeq := round.lastSeq, recentActionIds := round.recentActionIds)
    requires round.moduleState.Some? && Minigames.Valid(round.minigameId, round.moduleState.value, round.participantIds)
    ensures Ready(w.(room := w.room.(currentRound := Some(round))), ResultsReveal, w.room.submissions, latest)
  {
    hide RosterOk, MatchOk, AdminOk, JudgedOk, SpecialOk, AccusationOk, HackLedger, FirewallLedger, VerdictOk,
         ClockOk, IdsFresh, SizesFit, PlayableConfig, Minigames.Valid, Minigames.IsComplete, Distinct;
  }

  /** A game that ends, completed or not, is shown its results. */
  lemma ResultsValid(w: World, d: Deps)
    requires Ready(w, ResultsReveal, w.room.submissions, d.now) && w.room.currentRound.Some? && w.nextId > 0
    ensures Arrives(CompleteMinigame(w, d), ResultsReveal, w)
  {
    RecordedReady(w, d, d.now);
    hide Ready, Minigames.Succeeded;
    Enter(RecordRound(w, d), ResultsReveal, d);
    hide Valid, Transition;
  }

  lemma GameInPlay(w: World)
    requires Valid(w) && w.room.phase.state == MinigamePlay
    ensures w.room.currentRound.Some? && w.room.currentRound.value.moduleState.Some?
    ensures var round := w.room.currentRound.value;
            && !Minigames.IsComplete(round.moduleState.value)
            && Minigames.Valid(round.minigameId, round.moduleState.value, round.participantIds)
  {
    hide RosterOk, MatchOk, AdminOk, JudgedOk, SpecialOk, AccusationOk, HackLedger, FirewallLedger, VerdictOk,
         ClockOk, IdsFresh, Minigames.Valid, Minigames.IsComplete;
  }

  /** A game in progress restarts the phase for its next step or, ended, shows its results. */
  lemma PlayTimeoutValid(w: World, d: Deps)
    requires Valid(w) && w.room.phase.state == MinigamePlay && w.room.phase.startedAt <= d.now && w.room.currentRound.Some?
    ensures var t := PlayTimeout(w, w.room.currentRound.value, d);
            && t.Some? && Arrives(t, t.value.room.phase.state, w)
            && (t.value.room.phase.state == ResultsReveal
                || (t.value.room.phase.state == MinigamePlay && RoundTimeouts(t.value) == RoundTimeouts(w) - 1))
  {
    hide Valid, Ready, Minigames.Valid, Minigames.IsComplete, Minigames.TimeoutsLeft, Minigames.InternalStep,
         Minigames.HandleTimeout;
    ReadyLater(w, d.now);
    GameInPlay(w);
    var round := w.room.currentRound.value;
    Minigames.TimeoutAdvances(round.minigameId, round.moduleState.value, round.participantIds);
    var before := round.moduleState.value;
    if Minigames.HandleTimeout(before).None? {
      EndedReady(w, round, d.now);
      assert w == w.(room := w.room.(currentRound := Some(round)));
      ResultsValid(w, d);
    } else {
      var after := Minigames.HandleTimeout(before).value;
      var applied := w.(room := w.room.(currentRound := Some(round.(moduleState := Some(after)))));
      if Minigames.IsComplete(after) {
        EndedReady(w, round.(moduleState := Some(after)), d.now);
        ResultsValid(applied, d);
      } else {
        PlayedReady(w, round.(moduleState := Some(after)), {}, d.now);
        Enter(applied, MinigamePlay, d);
      }
    }
  }

  /** The timeouts the round's game is from its end. */
  function RoundTimeouts(w: World): int {
    if w.room.currentRound.Some? && w.room.currentRound.value.moduleState.Some?
    then Minigames.TimeoutsLeft(w.room.currentRound.value.moduleState.value) else 0
  }

  lemma PlayActionValid(w: World, round: Round, d: Deps)
    requires Valid(w) && w.room.phase.state == MinigamePlay && w.room.phase.startedAt <= d.now && w.room.currentRound.Some?
    requires var was := w.room.currentRound.value;
             && was.moduleState.Some? && round.moduleState.Some?
             && round == was.(moduleState := round.moduleState, lastSeq := round.lastSeq, recentActionIds := round.recentActionIds)
    requires Minigames.Valid(round.minigameId, round.moduleState.value, round.participantIds)
    ensures var t := AfterAction(w, w.room.currentRound.value, round, d); t.Accepted? && Valid(t.world)
  {
    ReadyLater(w, d.now);
    var applied := w.(room := w.room.(currentRound := Some(round)));
    assert Ready(w, MinigamePlay, w.room.submissions, w.room.phase.startedAt);
    var after := round.moduleState.value;
    var before := w.room.currentRound.value.moduleState.value;
    hide Valid, Ready, Minigames.Valid, Minigames.IsComplete, Minigames.InternalStep;
    if Minigames.IsComplete(after) {
      EndedReady(w, round, d.now);
      ResultsValid(applied, d);
    } else if Minigames.InternalStep(before).Some? && Minigames.InternalStep(after) != Minigames.InternalStep(before) {
      PlayedReady(w, round, {}, d.now);
      Enter(applied, MinigamePlay, d);
    } else {
      PlayedReady(w, round, w.room.submissions, w.room.phase.startedAt);
      StaysValid(w, applied);
    }
  }

  lemma ResultsDone(w: World, d: Deps)
    requires Valid(w) && w.room.phase.state == ResultsReveal && w.room.phase.startedAt <= d.now
    ensures Arrives(Transition(w.(room := w.room.(currentRound := None)), Discussion, d), Discussion, w)
  {
    ReadyLater(w, d.now);
    var t := w.(room := w.room.(currentRound := None));
    assert Ready(t, Discussion, {}, d.now) by {
      hide RosterOk, MatchOk, AdminOk, JudgedOk, RoundOk, SpecialOk, AccusationOk, HackLedger, FirewallLedger,
           VerdictOk, ClockOk, IdsFresh;
    }
    hide Ready, Valid;
    Enter(t, Discussion, d);
  }
}
