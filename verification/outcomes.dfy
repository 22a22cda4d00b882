/** What the invariant means for whoever plays: statements about every room that can be brought about. */
module Outcomes {
  import opened Collections
  import opened SpeakingOrder
  import opened AdminRotation
  import opened MatchClocks
  import opened RoomState
  import opened Transitions
  import opened RoomInvariant
  import opened RoomProofs
  import opened PhaseProofs
  import opened MatchProofs
  import opened StepProofs
  import opened Frames
  import opened Runs
  import opened Progress

  /** A room that some sequence of events and roster steps leads to, with the clock never going back. */
  ghost predicate Reachable(w: World) {
    exists config: Config, d: Deps, inputs: seq<Input> ::
      Ticking(inputs, d.now) && w == RunOf(CreateRoom(config, d), inputs)
  }

  lemma ReachableIsValid(w: World)
    requires Reachable(w)
    ensures Valid(w)
  {
    hide Valid, RunOf, CreateRoom;
    var config: Config, d: Deps, inputs: seq<Input> :| Ticking(inputs, d.now) && w == RunOf(CreateRoom(config, d), inputs);
    ReachableValid(config, d, inputs);
  }

  // ---- Parts and phases ------------------------------------------------------------------------------------------

  /** The phase a room rests in fixes which optional parts it has and what its match clock does. */
  lemma PartsByPhase(w: World)
    requires Reachable(w) && w.room.phase.state != Abandoned
    ensures var r, s := w.room, w.room.phase.state;
            && s != RoomCreated && s != RoleAssignment
            && (r.currentRound.Some? <==> s in {HackerCorruption, MinigameInstructions, MinigamePlay, ResultsReveal})
            && (r.currentRound.Some? ==> (r.currentRound.value.moduleState.Some? <==> s != HackerCorruption))
            && (r.currentSpecialRound.Some? <==> s in {SpecialGameIntro, SpecialGamePlay, SpecialGameResult})
            && (r.currentAccusation.Some? <==> s in {AccusationSelect, AccusationVote})
            && (r.currentAccusation.Some? ==> (r.currentAccusation.value.suspectIds.Some? <==> s == AccusationVote))
            && (r.winner.Some? <==> s in {FinalResults, RematchLobby})
            && (r.phase.durationMs.Some? <==> Timed(s))
            && match r.matchClock.status
               case Pending => s in {Lobby, RoleReveal, GameIntro}
               case Paused => s in {SpecialGameIntro, SpecialGamePlay, SpecialGameResult}
               case Stopped => s in {FinalResults, RematchLobby}
               case Running => s in {MinigameSelect, HackerCorruption, MinigameInstructions, MinigamePlay, ResultsReveal,
                                     Discussion, AccusationSelect, AccusationVote}
  {
    hide Valid, Reachable;
    ReachableIsValid(w);
    PartsOf(w);
    assert w.room.phase.durationMs.Some? <==> Timed(w.room.phase.state) by { TimedWhenValid(w); }
  }

  lemma TimedWhenValid(w: World)
    requires Valid(w)
    ensures w.room.phase.durationMs.Some? <==> Timed(w.room.phase.state)
    ensures w.room.phase.state == HackerCorruption ==> !w.room.firewallActive
  {
    hide Ready;
  }

  /** Public and private rosters list the same distinct players. */
  lemma RostersAgree(w: World)
    requires Reachable(w)
    ensures Distinct(w.room.playerOrder)
    ensures w.room.players.Keys == w.priv.players.Keys == Elements(w.room.playerOrder)
  {
    hide Reachable;
    ReachableIsValid(w);
    hide MatchOk, AdminOk, JudgedOk, RoundOk, SpecialOk, AccusationOk, HackLedger, FirewallLedger, VerdictOk, ClockOk,
         IdsFresh;
  }

  // ---- Turns ------------------------------------------------------------------------------------------------------

  /**
    The Admins assigned in a match, with those still queued, are consecutive blocks that each name
    every player once: nobody is ever more than one turn ahead of anybody else.
   */
  lemma AdminTurnsFair(w: World, p: PlayerId, q: PlayerId)
    requires Reachable(w) && Live(w.room.phase.state, w.room.matchClock.status)
    requires p in w.room.playerOrder && q in w.room.playerOrder
    ensures Blocks(w.hist.admins + w.room.adminQueue, w.room.playerOrder)
    ensures Count(w.hist.admins, p) <= Count(w.hist.admins, q) + 1
    ensures w.room.adminId.Some? ==> w.hist.admins != [] && w.hist.admins[|w.hist.admins| - 1] == w.room.adminId.value
  {
    hide Reachable, Count, Blocks;
    ReachableIsValid(w);
    RostersAgree(w);
    hide RosterOk, MatchOk, JudgedOk, RoundOk, SpecialOk, AccusationOk, HackLedger, FirewallLedger, VerdictOk,
         ClockOk, IdsFresh, Distinct;
    FairSoFar(w.hist.admins, w.room.adminQueue, w.room.playerOrder, p, q);
  }

  // ---- The verdict ------------------------------------------------------------------------------------------------

  /**
    The crew has won exactly when the last accusation was approved and named precisely the players
    who hold the hacker role; otherwise the hackers have.
   */
  lemma VerdictIsSound(w: World)
    requires Reachable(w) && w.room.phase.state == FinalResults
    ensures w.room.winner.Some? && w.room.hackerCount == |HackerIds(w.priv.players)|
    ensures var h := w.room.accusationHistory;
            w.room.winner == Some(CrewWins) <==>
              h != [] && h[|h| - 1].approved && Elements(h[|h| - 1].suspectIds) == HackerIds(w.priv.players)
  {
    hide Reachable;
    ReachableIsValid(w);
    hide RosterOk, AdminOk, RoundOk, SpecialOk, AccusationOk, HackLedger, FirewallLedger, ClockOk, IdsFresh,
         HackerIds, Elements;
  }

  predicate AsksForReset(e: Event) {
    e.RestartMatch? || e.StartGame?
  }

  /** The input resets the match: it asks for that and is accepted at this point of the run. */
  predicate Resets(w: World, input: Input) {
    input.Receive? && AsksForReset(input.event) && Offer(w, input).Accepted?
  }

  /** A winner stays exactly if the step is no reset, and a reset leaves none. */
  lemma WinnerStandsOneStep(w: World, input: Input)
    requires Valid(w) && w.room.winner.Some? && Timely(w, input)
    ensures Step(w, input).room.winner == if Resets(w, input) then None else w.room.winner
  {
    hide Valid, HandleEvent, RoundContinues, SpecialContinues, Follows, Shape;
    PartsOf(w);
    WinnerMeansOver(w);
    if input.Receive? {
      if AsksForReset(input.event) {
        ResetClears(w, input.event, input.sender, input.deps);
      } else {
        WinnerStandsEvent(w, input.event, input.sender, input.deps);
      }
    } else {
      RosterFrame(w, input);
      hide JoinPlayer, LeavePlayer, KickPlayer, SetPlayerProfile;
    }
  }

  lemma ResetClears(w: World, e: Event, sender: Sender, d: Deps)
    requires Valid(w) && w.room.phase.startedAt <= d.now
    requires w.room.phase.state in {FinalResults, RematchLobby, Abandoned} && AsksForReset(e)
    ensures HandleEvent(w, e, sender, d).Accepted? ==> HandleEvent(w, e, sender, d).world.room.winner.None?
  {
    hide Valid, Transition, CheckSender, IsStalePhase, DurationFor, ResetMatch, Shape, HandleMatchClockExpired, CloseTheRoom,
         HandlePushButton, HandleHackWindow, HandleMinigamePlay, HandleAccusationSelect, HandleAccusationVote;
    RestartClears(w, d);
    if PlayerCountFits(w.room) && w.room.phase.state == RematchLobby {
      RematchStart(w, d);
      RevealHasNoWinner(Transition(ResetMatch(w), RoleAssignment, d));
    }
  }

  lemma RestartClears(w: World, d: Deps)
    ensures Transition(ResetMatch(w), Lobby, d).Some? && Transition(ResetMatch(w), Lobby, d).value.room.winner.None?
  {
    PlainEntry(ResetMatch(w), Lobby, d);
    hide Transition, DurationFor;
  }

  lemma RevealHasNoWinner(t: Option<World>)
    requires t.Some? ==> Valid(t.value) && t.value.room.phase.state == RoleReveal
    ensures t.Some? ==> t.value.room.winner.None?
  {
    if t.Some? {
      PartsOf(t.value);
    }
    hide Valid;
  }

  lemma WinnerMeansOver(w: World)
    requires Shape(w.room, w.room.phase.state) && w.room.winner.Some?
    ensures w.room.phase.state in {FinalResults, RematchLobby, Abandoned}
  {
  }

  lemma WinnerStandsEvent(w: World, e: Event, sender: Sender, d: Deps)
    requires w.room.winner.Some? && w.room.phase.state in {FinalResults, RematchLobby, Abandoned}
    requires !AsksForReset(e)
    ensures HandleEvent(w, e, sender, d).Accepted? ==> HandleEvent(w, e, sender, d).world.room.winner == w.room.winner
  {
    hide CheckSender, IsStalePhase, DurationFor, Log;
    hide HandleLobby, HandleRoleReveal, HandleGameIntro, HandleMinigameSelect, HandleHackWindow,
         HandleMinigameInstructions, HandleMinigamePlay, HandleResultsReveal, HandleDiscussion,
         HandleAccusationSelect, HandleAccusationVote, HandleSpecialGameIntro, HandleSpecialGamePlay,
         HandleSpecialGameResult, ResetMatch;
  }

  /** No input of the run resets the match when its turn comes. */
  predicate NeverReset(w: World, inputs: seq<Input>)
    decreases |inputs|
  {
    inputs == [] || (!Resets(w, inputs[0]) && NeverReset(Step(w, inputs[0]), inputs[1..]))
  }

  /** Once there is a winner it stays until a match is reset, whatever else is sent and for however long. */
  lemma {:induction false} WinnerStands(w: World, inputs: seq<Input>, from: int)
    requires Valid(w) && w.room.phase.startedAt <= from && Ticking(inputs, from)
    requires w.room.winner.Some? && NeverReset(w, inputs)
    ensures RunOf(w, inputs).room.winner == w.room.winner
    decreases |inputs|
  {
    hide Valid, Step, Resets;
    if inputs != [] {
      StepKeepsTime(w, inputs[0], from);
      StepValid(w, inputs[0]);
      WinnerStandsOneStep(w, inputs[0]);
      WinnerStands(Step(w, inputs[0]), inputs[1..], Later(inputs[0], from));
    }
  }

  // ---- The ledgers ------------------------------------------------------------------------------------------------

  /** Hacks left plus hacks accepted are two for each hacker, in every phase of every match. */
  lemma HacksBalance(w: World)
    requires Reachable(w)
    ensures Total(w.priv.hacksRemaining) + HacksIn(w.room.matchLog) == 2 * w.room.hackerCount
    ensures Live(w.room.phase.state, w.room.matchClock.status) ==> w.room.hackerCount == |HackerIds(w.priv.players)|
  {
    hide Reachable;
    ReachableIsValid(w);
    hide RosterOk, AdminOk, JudgedOk, RoundOk, SpecialOk, AccusationOk, FirewallLedger, VerdictOk, ClockOk, IdsFresh,
         Live, HackerIds, Total, HacksIn;
  }

  /** Each round's hacked players are distinct participants, exactly as many as hackers who acted. */
  lemma RoundHacksFit(w: World)
    requires Reachable(w) && w.room.currentRound.Some?
    ensures var round := w.room.currentRound.value;
            && Distinct(round.hackedIds) && (forall id :: id in round.hackedIds ==> id in round.participantIds)
            && |round.hackedIds| == |round.actionsUsed| && round.actionsUsed <= HackerIds(w.priv.players)
  {
    hide Reachable;
    ReachableIsValid(w);
    hide RosterOk, MatchOk, AdminOk, JudgedOk, SpecialOk, AccusationOk, HackLedger, FirewallLedger, VerdictOk,
         ClockOk, IdsFresh, HackerIds, PlayableConfig, SizesFit;
  }

  /** The firewall goes up at most once a match, is up while not consumed, and no hack window waits behind it. */
  lemma FirewallBalance(w: World)
    requires Reachable(w)
    ensures ActivationsIn(w.room.matchLog) == ConsumptionsIn(w.room.matchLog) + (if w.room.firewallActive then 1 else 0)
    ensures ActivationsIn(w.room.matchLog) <= 1
    ensures w.room.phase.state == HackerCorruption ==> !w.room.firewallActive
  {
    hide Reachable;
    ReachableIsValid(w);
    hide RosterOk, MatchOk, AdminOk, JudgedOk, RoundOk, SpecialOk, AccusationOk, HackLedger, VerdictOk, ClockOk,
         IdsFresh, ActivationsIn, ConsumptionsIn;
  }

  // ---- The match clock ----------------------------------------------------------------------------------------------

  /**
    The clock has a deadline exactly while it runs and never more time than it began with; it is
    paused at most once a match, and unless that pause came after the deadline, the deadline is the
    start plus the total plus the time spent paused minus the penalties.
   */
  lemma ClockBalances(w: World)
    requires Reachable(w)
    ensures var c, h := w.room.matchClock, w.hist;
            && (c.status == Running <==> c.deadlineAt.Some?)
            && 0 <= c.remainingMs <= w.room.config.matchClockTotalMs
            && h.pauses <= 1
            && (c.status == Running ==> c.startedAt.Some?)
            && (c.status == Running && !h.latePause ==>
                  c.deadlineAt.value == c.startedAt.value + w.room.config.matchClockTotalMs + h.pausedMs - c.totalPenaltyMs)
  {
    hide Reachable;
    ReachableIsValid(w);
    hide RosterOk, MatchOk, AdminOk, JudgedOk, RoundOk, SpecialOk, AccusationOk, HackLedger, FirewallLedger,
         VerdictOk, IdsFresh;
  }

  /** The clock with this id no longer runs, and its id has been handed out. */
  predicate Retired(w: World, clockId: nat) {
    clockId < w.nextId && !(w.room.matchClock.status == Running && w.room.matchClock.clockId == clockId)
  }

  lemma {:induction false} StaysRetired(w: World, clockId: nat, inputs: seq<Input>)
    requires Retired(w, clockId)
    ensures Retired(RunOf(w, inputs), clockId)
    decreases |inputs|
  {
    hide Step, RoundContinues, SpecialContinues;
    if inputs != [] {
      StepFrame(w, inputs[0]);
      StaysRetired(Step(w, inputs[0]), clockId, inputs[1..]);
    }
  }

  /** Once a running clock has been paused, its expiry is refused for ever after, also when the clock runs again. */
  lemma PausedClockNeverExpires(w: World, until: seq<Input>, after: seq<Input>, from: int, sender: Sender, d: Deps)
    requires Valid(w) && w.room.phase.startedAt <= from && Ticking(until, from) && w.room.matchClock.status == Running
    requires RunOf(w, until).room.matchClock.status == Paused
    ensures var u := RunOf(RunOf(w, until), after);
            HandleEvent(u, MatchClockExpired(w.room.matchClock.clockId), sender, d) == Rejected(u, StaleMatchClock)
  {
    hide Valid, RunOf;
    var clockId := w.room.matchClock.clockId;
    ClockIdHandedOut(w);
    IdsOnlyGrow(w, until);
    StaysRetired(RunOf(w, until), clockId, after);
    StaleExpiry(RunOf(RunOf(w, until), after), clockId, sender, d);
    hide HandleEvent;
  }

  lemma ClockIdHandedOut(w: World)
    requires Valid(w)
    ensures w.room.matchClock.clockId < w.nextId
  {
    hide RosterOk, MatchOk, AdminOk, JudgedOk, RoundOk, SpecialOk, AccusationOk, HackLedger, FirewallLedger,
         VerdictOk, ClockOk;
  }

  lemma {:induction false} IdsOnlyGrow(w: World, inputs: seq<Input>)
    ensures RunOf(w, inputs).nextId >= w.nextId
    decreases |inputs|
  {
    hide Step, RoundContinues, SpecialContinues;
    if inputs != [] {
      StepFrame(w, inputs[0]);
      IdsOnlyGrow(Step(w, inputs[0]), inputs[1..]);
    }
  }

  lemma StaleExpiry(w: World, clockId: nat, sender: Sender, d: Deps)
    requires Retired(w, clockId)
    ensures HandleEvent(w, MatchClockExpired(clockId), sender, d) == Rejected(w, StaleMatchClock)
  {
    hide HandleInState, Transition, IsStalePhase, CloseTheRoom, ResetMatch, SetConnected, HandlePushButton, EndMatch;
  }

  // ---- One expiry for each phase ---------------------------------------------------------------------------------------

  /** A phase that is over never comes back. */
  predicate PhaseOver(w: World, phaseId: nat) {
    phaseId < w.nextId && w.room.phase.phaseId != phaseId
  }

  lemma {:induction false} StaysOver(w: World, phaseId: nat, inputs: seq<Input>)
    requires PhaseOver(w, phaseId)
    ensures PhaseOver(RunOf(w, inputs), phaseId)
    decreases |inputs|
  {
    hide Step, RoundContinues, SpecialContinues;
    if inputs != [] {
      StepFrame(w, inputs[0]);
      StaysOver(Step(w, inputs[0]), phaseId, inputs[1..]);
    }
  }

  lemma UntimedRefuses(w: World, sender: Sender, d: Deps)
    requires !Timed(w.room.phase.state)
    ensures HandleEvent(w, TimerExpired(w.room.phase.phaseId), sender, d).Rejected?
  {
    hide HandleRoleReveal, HandleGameIntro, HandleMinigameSelect, HandleHackWindow, HandleMinigameInstructions,
         HandleMinigamePlay, HandleResultsReveal, HandleDiscussion, HandleAccusationSelect, HandleAccusationVote,
         HandleSpecialGameIntro, HandleSpecialGamePlay, HandleSpecialGameResult, ResetMatch, Transition, CloseTheRoom,
         SetConnected, HandlePushButton, HandleMatchClockExpired;
  }

  lemma StalePhaseRefused(w: World, phaseId: nat, sender: Sender, d: Deps)
    requires phaseId != w.room.phase.phaseId
    ensures HandleEvent(w, TimerExpired(phaseId), sender, d) == Rejected(w, StalePhase)
  {
    hide HandleInState, Transition, CloseTheRoom, ResetMatch, SetConnected, HandlePushButton, HandleMatchClockExpired;
  }

  /** At most one expiry is ever accepted for a phase: after it, every other for that phase is refused as stale. */
  lemma OneExpiryPerPhase(w: World, phaseId: nat, sender: Sender, d: Deps, inputs: seq<Input>, again: Sender,
                          later: Deps)
    requires Valid(w) && w.room.phase.startedAt <= d.now
    requires HandleEvent(w, TimerExpired(phaseId), sender, d).Accepted?
    ensures var u := RunOf(Step(w, Receive(TimerExpired(phaseId), sender, d)), inputs);
            HandleEvent(u, TimerExpired(phaseId), again, later) == Rejected(u, StalePhase)
  {
    hide Valid, HandleEvent, RunOf, TimerLeads, Shape, Follows, RoundContinues, SpecialContinues, PlayableConfig;
    if phaseId != w.room.phase.phaseId {
      StalePhaseRefused(w, phaseId, sender, d);
    } else if !Timed(w.room.phase.state) {
      UntimedRefuses(w, sender, d);
    }
    var t := Step(w, Receive(TimerExpired(phaseId), sender, d));
    PartsOf(w);
    ExpiryMoves(w, sender, d);
    PartsOf(t);
    StaysOver(t, phaseId, inputs);
    StalePhaseRefused(RunOf(t, inputs), phaseId, again, later);
  }

  // ---- Rejections ---------------------------------------------------------------------------------------------------------

  ghost predicate SameIfRejected(w: World, o: Outcome) {
    o.Rejected? ==> o.world == w
  }

  lemma SetupRejections(w: World, e: Event, d: Deps)
    ensures SameIfRejected(w, HandleLobby(w, e, d)) && SameIfRejected(w, HandleRoleReveal(w, e, d))
    ensures SameIfRejected(w, HandleGameIntro(w, e, d)) && SameIfRejected(w, HandleMinigameSelect(w, e, d))
    ensures SameIfRejected(w, HandleHackWindow(w, e, d)) && SameIfRejected(w, HandleMinigameInstructions(w, e, d))
  {
    hide Transition, AutoSelect, ExpandParticipants, ProceedToInstructions, TakeHack, EverybodyAcknowledged,
         BeginNormalRound;
  }

  lemma PlayRejections(w: World, e: Event, d: Deps)
    ensures SameIfRejected(w, HandleMinigamePlay(w, e, d)) && SameIfRejected(w, HandleResultsReveal(w, e, d))
    ensures SameIfRejected(w, HandleDiscussion(w, e, d)) && SameIfRejected(w, HandleSpecialGameIntro(w, e, d))
    ensures SameIfRejected(w, HandleSpecialGamePlay(w, e, d)) && SameIfRejected(w, HandleSpecialGameResult(w, e, d))
  {
    hide Transition, PlayTimeout, CompleteMinigame, ResolveAfterRoundOrSpecial, PlaySpecial, CompleteSpecialGame,
         LeaveSpecial;
  }

  lemma AccusationRejections(w: World, e: Event, playerId: PlayerId, d: Deps)
    ensures SameIfRejected(w, HandleAccusationSelect(w, e, d)) && SameIfRejected(w, HandleAccusationVote(w, e, d))
    ensures SameIfRejected(w, HandlePushButton(w, playerId, d)) && SameIfRejected(w, HandleFinalResults(w, e, d))
  {
    hide Transition, ReturnToGameplay, ResolveAccusationVote, LockSuspects, CancelAccusation, OpenAccusation,
         AllVoted;
  }

  lemma RejectedElsewhere(w: World, e: Event, sender: Sender, d: Deps)
    requires !(w.room.phase.state == RematchLobby && e.StartGame?)
    ensures SameIfRejected(w, HandleEvent(w, e, sender, d))
  {
    hide HandleLobby, HandleRoleReveal, HandleGameIntro, HandleMinigameSelect, HandleHackWindow,
         HandleMinigameInstructions, HandleMinigamePlay, HandleResultsReveal, HandleDiscussion,
         HandleAccusationSelect, HandleAccusationVote, HandleSpecialGameIntro, HandleSpecialGamePlay,
         HandleSpecialGameResult, HandleFinalResults, ResetMatch, Transition, CloseTheRoom, SetConnected,
         HandlePushButton, CheckSender, IsStalePhase;
    SetupRejections(w, e, d);
    PlayRejections(w, e, d);
    AccusationRejections(w, e, if e.PushButton? then e.playerId else 0, d);
  }

  lemma RematchHasWinner(w: World)
    requires Valid(w) && w.room.phase.state == RematchLobby
    ensures ResetMatch(w) != w
  {
    hide Valid, Shape;
    PartsOf(w);
    assert Shape(w.room, RematchLobby) ==> w.room.winner.Some? by { ShapeOfRematch(w.room); }
  }

  lemma ShapeOfRematch(r: Room)
    ensures Shape(r, RematchLobby) ==> r.winner.Some?
  {
  }

  /**
    A rejected event returns the room it was given, with one exception: starting a game from the
    rematch lobby resets the room before it finds the number of players unfit. Either way the actor
    keeps the room it had.
   */
  lemma RejectedLeavesRoom(w: World, e: Event, sender: Sender, d: Deps)
    requires Valid(w) && HandleEvent(w, e, sender, d).Rejected?
    ensures HandleEvent(w, e, sender, d).world != w <==>
              w.room.phase.state == RematchLobby && e.StartGame? && sender == HostSender
              && e.phaseId == w.room.phase.phaseId && !PlayerCountFits(w.room)
    ensures Step(w, Receive(e, sender, d)) == w
  {
    hide Valid, Transition, ResetMatch, HandleLobby, HandleRoleReveal, HandleGameIntro, HandleMinigameSelect,
         HandleHackWindow, HandleMinigameInstructions, HandleMinigamePlay, HandleResultsReveal, HandleDiscussion,
         HandleAccusationSelect, HandleAccusationVote, HandleSpecialGameIntro, HandleSpecialGamePlay,
         HandleSpecialGameResult, HandleFinalResults, CloseTheRoom, SetConnected, HandlePushButton,
         HandleMatchClockExpired;
    if w.room.phase.state == RematchLobby && e.StartGame? {
      RematchHasWinner(w);
    } else {
      RejectedElsewhere(w, e, sender, d);
    }
  }
}
