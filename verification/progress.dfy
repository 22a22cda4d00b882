/**
  With a playable configuration every timed phase ends by its own timer, but for the hack window of a round
  that plays no game of the registry.
 */
module Progress {
  import opened Collections
  import opened SpeakingOrder
  import opened RoomState
  import opened Transitions
  import opened RoomInvariant
  import opened RoomProofs
  import opened RoundProofs
  import opened PhaseProofs
  import opened SpecialProofs
  import opened AccusationProofs
  import opened MatchProofs
  import opened StepProofs
  import opened Frames
  import opened Runs
  import Minigames

  /** Where the timer of each phase leads. */
  ghost predicate TimerLeads(w: World, t: World) {
    var next := t.room.phase.state;
    match w.room.phase.state
    case RoleReveal => next == GameIntro
    case GameIntro => next == MinigameSelect
    case MinigameSelect => next == (if w.room.firewallActive then MinigameInstructions else HackerCorruption) && OwnGame(t.room)
    case HackerCorruption => next == MinigameInstructions
    case MinigameInstructions => next == MinigamePlay && RoundTimeouts(t) == RoundTimeouts(w)
    case MinigamePlay => next == ResultsReveal || (next == MinigamePlay && RoundTimeouts(t) == RoundTimeouts(w) - 1)
    case ResultsReveal => next == Discussion
    case Discussion => next == if SpecialGameDue(w.room) then SpecialGameIntro else MinigameSelect
    case AccusationSelect => next == MinigameSelect
    case AccusationVote => next == MinigameSelect || next == FinalResults
    case SpecialGameIntro => next == SpecialGamePlay
    case SpecialGamePlay => next == SpecialGameResult
    case SpecialGameResult => next == MinigameSelect || next == FinalResults
    case _ => false
  }

  /**
    The timer is never refused and begins a phase with a new id; with a playable configuration and a round of a
    game of the registry nothing throws.
   */
  ghost predicate TimerMoves(w: World, o: Outcome) {
    && !o.Rejected? && (PlayableConfig(w.room.config) && OwnGame(w.room) ==> o.Accepted?)
    && (o.Accepted? ==> Valid(o.world) && o.world.room.phase.phaseId >= w.nextId && TimerLeads(w, o.world))
  }

  lemma SelectTimer(w: World, d: Deps)
    requires In(w, MinigameSelect, d)
    ensures TimerMoves(w, HandleMinigameSelect(w, TimerExpired(w.room.phase.phaseId), d))
  {
    hide Valid, PlayableConfig, AutoSelect;
    AutoSelectValid(w, d);
  }

  lemma HackTimer(w: World, d: Deps)
    requires In(w, HackerCorruption, d)
    ensures TimerMoves(w, HandleHackWindow(w, TimerExpired(w.room.phase.phaseId), d))
    ensures !OwnGame(w.room) ==> HandleHackWindow(w, TimerExpired(w.room.phase.phaseId), d).Threw?
  {
    hide Valid, PlayableConfig, ProceedToInstructions;
    PartsOf(w);
    assert w.room.currentRound.Some?;
    HackTimerValid(w, d);
  }

  lemma InstructionsTimer(w: World, d: Deps)
    requires In(w, MinigameInstructions, d)
    ensures TimerMoves(w, HandleMinigameInstructions(w, TimerExpired(w.room.phase.phaseId), d))
  {
    hide Valid, PlayableConfig, Transition, RoundTimeouts;
    InstructionsDone(w, d);
  }

  lemma PlayTimer(w: World, d: Deps)
    requires In(w, MinigamePlay, d)
    ensures TimerMoves(w, HandleMinigamePlay(w, TimerExpired(w.room.phase.phaseId), d))
  {
    hide Valid, PlayableConfig, PlayTimeout, RoundTimeouts;
    PartsOf(w);
    assert w.room.currentRound.Some?;
    PlayTimeoutValid(w, d);
  }

  lemma ResultsTimer(w: World, d: Deps)
    requires In(w, ResultsReveal, d)
    ensures TimerMoves(w, HandleResultsReveal(w, TimerExpired(w.room.phase.phaseId), d))
  {
    hide Valid, PlayableConfig, Transition;
    ResultsDone(w, d);
  }

  lemma DiscussionTimer(w: World, d: Deps)
    requires In(w, Discussion, d)
    ensures TimerMoves(w, HandleDiscussion(w, TimerExpired(w.room.phase.phaseId), d))
  {
    hide Valid, PlayableConfig, ResolveAfterRoundOrSpecial, SpecialGameDue;
    DiscussionDone(w, d);
  }

  lemma RevealTimer(w: World, d: Deps)
    requires In(w, RoleReveal, d)
    ensures TimerMoves(w, HandleRoleReveal(w, TimerExpired(w.room.phase.phaseId), d))
  {
    hide Valid, PlayableConfig, Transition;
    assert w == w.(room := w.room.(submissions := w.room.submissions));
    RevealDone(w, w.room.submissions, d);
  }

  lemma IntroTimer(w: World, d: Deps)
    requires In(w, GameIntro, d)
    ensures TimerMoves(w, HandleGameIntro(w, TimerExpired(w.room.phase.phaseId), d))
  {
    hide Valid, PlayableConfig, Transition;
    IntroDone(w, d);
  }

  lemma AccusationSelectTimer(w: World, d: Deps)
    requires In(w, AccusationSelect, d)
    ensures TimerMoves(w, HandleAccusationSelect(w, TimerExpired(w.room.phase.phaseId), d))
  {
    hide Valid, PlayableConfig, ReturnToGameplay, CancelAccusation;
    PartsOf(w);
    assert w.room.currentAccusation.Some?;
    SelectionTimedOut(w, w.room.currentAccusation.value, d);
  }

  lemma AccusationVoteTimer(w: World, d: Deps)
    requires In(w, AccusationVote, d)
    ensures TimerMoves(w, HandleAccusationVote(w, TimerExpired(w.room.phase.phaseId), d))
  {
    hide Valid, PlayableConfig, ResolveAccusationVote, IsApproved;
    PartsOf(w);
    assert w.room.currentAccusation.Some? && w.room.currentAccusation.value.suspectIds.Some?;
    VoteEnds(w, d);
  }

  lemma SpecialIntroTimer(w: World, d: Deps)
    requires In(w, SpecialGameIntro, d)
    ensures TimerMoves(w, HandleSpecialGameIntro(w, TimerExpired(w.room.phase.phaseId), d))
  {
    hide Valid, PlayableConfig, PlaySpecial;
    SpecialIntroDone(w, d);
  }

  lemma SpecialPlayTimer(w: World, d: Deps)
    requires In(w, SpecialGamePlay, d)
    ensures TimerMoves(w, HandleSpecialGamePlay(w, TimerExpired(w.room.phase.phaseId), d))
  {
    hide Valid, PlayableConfig, CompleteSpecialGame;
    PartsOf(w);
    assert w.room.currentSpecialRound.Some?;
    SpecialTimeoutValid(w, d);
  }

  lemma SpecialResultTimer(w: World, d: Deps)
    requires In(w, SpecialGameResult, d)
    ensures TimerMoves(w, HandleSpecialGameResult(w, TimerExpired(w.room.phase.phaseId), d))
  {
    hide Valid, PlayableConfig, LeaveSpecial;
    SpecialResultDone(w, d);
  }

  /** Only a hack window can be waiting with a round of an inherited name. */
  lemma OwnElsewhere(w: World)
    requires Valid(w) && w.room.phase.state != HackerCorruption && w.room.phase.state != Abandoned
    ensures OwnGame(w.room)
  {
    hide Ready;
    StartedOwn(w, w.room.phase.state, w.room.submissions, w.room.phase.startedAt);
  }

  lemma StateTimer(w: World, d: Deps)
    requires In(w, w.room.phase.state, d) && Timed(w.room.phase.state)
    ensures TimerMoves(w, HandleInState(w, TimerExpired(w.room.phase.phaseId), d))
    ensures !OwnGame(w.room) ==> HandleInState(w, TimerExpired(w.room.phase.phaseId), d).Threw?
  {
    hide Valid, TimerMoves, HandleLobby, HandleRoleReveal, HandleGameIntro, HandleMinigameSelect, HandleHackWindow,
         HandleMinigameInstructions, HandleMinigamePlay, HandleResultsReveal, HandleDiscussion,
         HandleAccusationSelect, HandleAccusationVote, HandleSpecialGameIntro, HandleSpecialGamePlay,
         HandleSpecialGameResult, HandleFinalResults, HandleRematchLobby;
    if w.room.phase.state != HackerCorruption {
      OwnElsewhere(w);
    }
    match w.room.phase.state
    case MinigameSelect => SelectTimer(w, d);
    case HackerCorruption => HackTimer(w, d);
    case MinigameInstructions => InstructionsTimer(w, d);
    case MinigamePlay => PlayTimer(w, d);
    case ResultsReveal => ResultsTimer(w, d);
    case Discussion => DiscussionTimer(w, d);
    case RoleReveal => RevealTimer(w, d);
    case GameIntro => IntroTimer(w, d);
    case AccusationSelect => AccusationSelectTimer(w, d);
    case AccusationVote => AccusationVoteTimer(w, d);
    case SpecialGameIntro => SpecialIntroTimer(w, d);
    case SpecialGamePlay => SpecialPlayTimer(w, d);
    case SpecialGameResult => SpecialResultTimer(w, d);
    case _ =>
  }

  lemma ExpiryMoves(w: World, sender: Sender, d: Deps)
    requires Valid(w) && Timed(w.room.phase.state) && w.room.phase.startedAt <= d.now
    ensures TimerMoves(w, HandleEvent(w, TimerExpired(w.room.phase.phaseId), sender, d))
    ensures !OwnGame(w.room) ==> HandleEvent(w, TimerExpired(w.room.phase.phaseId), sender, d).Threw?
  {
    hide Valid, PlayableConfig, HandleInState, TimerLeads;
    StateTimer(w, d);
  }

  /**
    No stall: in every timed phase of a room in order the phase's own timer is accepted and begins another phase,
    whatever the random numbers, exactly if the round in the room plays a game of the registry. Otherwise it
    throws.
   */
  lemma NoStall(w: World, sender: Sender, d: Deps)
    requires Valid(w) && PlayableConfig(w.room.config) && Timed(w.room.phase.state) && w.room.phase.startedAt <= d.now
    ensures var o := HandleEvent(w, TimerExpired(w.room.phase.phaseId), sender, d);
            && (o.Accepted? <==> OwnGame(w.room)) && (o.Threw? <==> !OwnGame(w.room))
            && (o.Accepted? ==>
                  && Valid(o.world) && TimerLeads(w, o.world)
                  && o.world.room.phase.phaseId != w.room.phase.phaseId)
  {
    hide Valid, PlayableConfig, HandleEvent, TimerLeads, Shape;
    PartsOf(w);
    ExpiryMoves(w, sender, d);
  }

  lemma DefaultConfigIsPlayable()
    ensures PlayableConfig(DefaultConfig())
  {
  }

  // ---- From the Admin's turn to the discussion -------------------------------------------------------------------

  /** The timer of the phase the room is in, as the phase timer service dispatches it. */
  function Expiry(w: World, d: Deps): Input {
    Receive(TimerExpired(w.room.phase.phaseId), HostSender, d)
  }

  function AfterTimers(w: World, ds: seq<Deps>): World
    decreases |ds|
  {
    if ds == [] then w else AfterTimers(Step(w, Expiry(w, ds[0])), ds[1..])
  }

  predicate Onward(ds: seq<Deps>, from: int) {
    ds == [] || (from <= ds[0].now && Onward(ds[1..], ds[0].now))
  }

  /** An upper bound on the expiries until the discussion. */
  ghost function ExpiriesLeft(w: World): int {
    match w.room.phase.state
    case MinigameSelect => 17
    case HackerCorruption => 16
    case MinigameInstructions => 2 + RoundTimeouts(w)
    case MinigamePlay => 1 + RoundTimeouts(w)
    case ResultsReveal => 1
    case _ => 0
  }

  lemma TimeoutsBounded(w: World)
    requires Valid(w)
    ensures 0 <= RoundTimeouts(w) <= 13
    ensures w.room.phase.state == MinigamePlay ==> RoundTimeouts(w) >= 1
  {
    if w.room.currentRound.Some? && w.room.currentRound.value.moduleState.Some? {
      var round := w.room.currentRound.value;
      hide RosterOk, MatchOk, AdminOk, JudgedOk, SpecialOk, AccusationOk, HackLedger, FirewallLedger, VerdictOk,
           ClockOk, IdsFresh, Minigames.IsComplete, Minigames.TimeoutsLeft, Minigames.Valid;
      Minigames.CompleteMeansNoneLeft(round.minigameId, round.moduleState.value, round.participantIds);
    } else {
      PartsOf(w);
      hide Valid;
    }
  }

  predicate BeforeDiscussion(state: GameState) {
    state == MinigameSelect || InRound(state)
  }

  /** Each expiry brings the round strictly closer to its discussion. */
  lemma RoundAdvances(w: World, d: Deps)
    requires Valid(w) && PlayableConfig(w.room.config) && BeforeDiscussion(w.room.phase.state) && OwnGame(w.room)
    requires w.room.phase.startedAt <= d.now
    ensures var t := Step(w, Expiry(w, d));
            && Valid(t) && t.room.config == w.room.config && t.room.phase.startedAt <= d.now && OwnGame(t.room)
            && (BeforeDiscussion(t.room.phase.state) || t.room.phase.state == Discussion)
            && 0 <= ExpiriesLeft(t) < ExpiriesLeft(w)
  {
    hide Valid, HandleEvent, PlayableConfig, RoundTimeouts, RoundContinues, SpecialContinues;
    NoStall(w, HostSender, d);
    StepFrame(w, Expiry(w, d));
    TimeoutsBounded(w);
    var t := Step(w, Expiry(w, d));
    TimeoutsBounded(t);
    if t.room.phase.state != HackerCorruption {
      OwnElsewhere(t);
    }
  }

  lemma {:induction false} ReachesDiscussion(w: World, ds: seq<Deps>) returns (k: nat)
    requires Valid(w) && PlayableConfig(w.room.config) && BeforeDiscussion(w.room.phase.state) && OwnGame(w.room)
    requires ExpiriesLeft(w) <= |ds| && Onward(ds, w.room.phase.startedAt)
    ensures k <= |ds| && k <= ExpiriesLeft(w) && AfterTimers(w, ds[..k]).room.phase.state == Discussion
    decreases |ds|
  {
    hide Valid, PlayableConfig, Step, RoundTimeouts;
    TimeoutsBounded(w);
    RoundAdvances(w, ds[0]);
    var t := Step(w, Expiry(w, ds[0]));
    if t.room.phase.state == Discussion {
      k := 1;
      assert AfterTimers(t, ds[..1][1..]) == t;
    } else {
      OnwardLater(ds[1..], t.room.phase.startedAt, ds[0].now);
      var m := ReachesDiscussion(t, ds[1..]);
      k := m + 1;
      assert ds[..k][1..] == ds[1..][..m];
    }
  }

  lemma OnwardLater(ds: seq<Deps>, from: int, later: int)
    requires Onward(ds, later) && from <= later
    ensures Onward(ds, from)
  {
  }

  /** Timers alone take any round from the Admin's turn to the discussion within seventeen expiries. */
  lemma RoundWithinSeventeen(w: World, ds: seq<Deps>) returns (k: nat)
    requires Valid(w) && PlayableConfig(w.room.config) && w.room.phase.state == MinigameSelect
    requires |ds| >= 17 && Onward(ds, w.room.phase.startedAt)
    ensures k <= 17 && AfterTimers(w, ds[..k]).room.phase.state == Discussion
  {
    hide Valid, AfterTimers;
    OwnElsewhere(w);
    k := ReachesDiscussion(w, ds);
  }
}
