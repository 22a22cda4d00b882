/**
  A selection may name anything, and the tables of games also answer to the names that every object
  inherits: what becomes of a round that plays no game of the registry, and when there can be one.
 */
module GameNames {
  import opened Collections
  import opened SpeakingOrder
  import opened RoomState
  import opened Transitions
  import opened RoomInvariant
  import opened RoomProofs
  import opened RoundProofs
  import opened PhaseProofs
  import opened AccusationProofs
  import opened MatchProofs
  import opened StepProofs
  import opened Frames
  import opened Runs
  import opened Progress
  import Minigames

  /** What a caller can see before the event is sent. */
  predicate SelectsInherited(input: Input) {
    input.Receive? && input.event.AdminSelectMinigame? && input.event.minigame == Some(Minigames.InheritedName)
  }

  // ---- The selection ------------------------------------------------------------------------------------------------

  /** The participants the Admin may list whatever the game: everybody of the room at most once. */
  ghost predicate MayPlay(w: World, ids: seq<PlayerId>) {
    && Distinct(ids) && (forall id :: id in ids ==> id in w.room.playerOrder)
    && (w.room.adminId.Some? && w.room.adminId.value in ids ==> w.room.config.adminMaySelectSelf)
  }

  function Selection(w: World, minigame: Minigames.MinigameId, ids: seq<PlayerId>, d: Deps): Input
    requires w.room.adminId.Some?
  {
    var admin := w.room.adminId.value;
    Receive(AdminSelectMinigame(w.room.phase.phaseId, admin, Some(minigame), ids), PlayerSender(admin), d)
  }

  /**
    The Admin names something inherited. No number of participants is too small or too large; behind
    the firewall the event throws, and otherwise a hack window opens whose own timer then throws.
   */
  lemma InheritedSelection(w: World, ids: seq<PlayerId>, d: Deps, later: Deps)
    requires Valid(w) && w.room.phase.state == MinigameSelect && w.room.adminId.Some?
    requires w.room.phase.startedAt <= d.now <= later.now
    ensures var o := Offer(w, Selection(w, Minigames.InheritedName, ids, d));
            if !MayPlay(w, ids) then o == Rejected(w, InvalidParticipants)
            else if w.room.firewallActive then o.Threw?
            else
              && o.Accepted? && Valid(o.world) && o.world.room.phase.state == HackerCorruption && !OwnGame(o.world.room)
              && Offer(o.world, Expiry(o.world, later)).Threw?
  {
    hide Valid, HandleEvent, HandleMinigameSelect, Transition, ExpandParticipants, BeginNormalRound, MayPlay, Distinct,
         JoinPlayer, LeavePlayer, KickPlayer, SetPlayerProfile, EligibleMinigameIds, PlayableConfig, TimerLeads,
         RoundContinues, SpecialContinues, Follows;
    var input := Selection(w, Minigames.InheritedName, ids, d);
    SelectHandled(w, Minigames.InheritedName, ids, d);
    EverybodyMayPlay(w);
    SelectOutcome(w, ids, d);
    if MayPlay(w, ids) {
      MayPlayMeans(w, ids);
      AdminSelectValid(w, Minigames.InheritedName, ids, d);
      if Offer(w, input).Accepted? {
        var t := Offer(w, input).world;
        StepFrame(w, input);
        ExpiryMoves(t, HostSender, later);
      }
    }
  }

  lemma SelectHandled(w: World, minigame: Minigames.MinigameId, ids: seq<PlayerId>, d: Deps)
    requires w.room.phase.state == MinigameSelect && w.room.adminId.Some?
    ensures var input := Selection(w, minigame, ids, d);
            HandleEvent(w, input.event, input.sender, d) == HandleMinigameSelect(w, input.event, d)
  {
    hide HandleMinigameSelect, HandlePushButton, HandleMatchClockExpired, CloseTheRoom, ResetMatch, Transition, SetConnected,
         Disconnect;
  }

  lemma EverybodyMayPlay(w: World)
    requires Valid(w)
    ensures EligibleMinigameIds(w.room) == w.room.playerOrder
  {
    EverybodyEligible(w.room, w.priv.players, w.room.config.eliminatedMayPlay);
    hide RosterOk, MatchOk, AdminOk, JudgedOk, RoundOk, SpecialOk, AccusationOk, HackLedger, FirewallLedger,
         VerdictOk, ClockOk, IdsFresh, EligibleIf, Shape, InProgress, ResultOk, LobbyOk, Live;
  }

  lemma MayPlayMeans(w: World, ids: seq<PlayerId>)
    requires MayPlay(w, ids)
    ensures Distinct(ids) && forall id :: id in ids ==> id in w.room.playerOrder
  {
  }

  /** The guards of the selection, for an inherited name. */
  lemma SelectOutcome(w: World, ids: seq<PlayerId>, d: Deps)
    requires w.room.adminId.Some? && EligibleMinigameIds(w.room) == w.room.playerOrder
    ensures HandleMinigameSelect(w, Selection(w, Minigames.InheritedName, ids, d).event, d)
            == if !MayPlay(w, ids) then Rejected(w, InvalidParticipants)
               else Accept(Transition(BeginNormalRound(w, Minigames.InheritedName, ExpandParticipants(w.room, Minigames.InheritedName, ids), ids, d),
                                      HackerCorruption, d))
  {
    hide Transition, ExpandParticipants, BeginNormalRound, Distinct, EligibleMinigameIds, AutoSelect;
  }

  // ---- When a round can be of an inherited name -----------------------------------------------------------------------

  /** In the Admin's turn nothing but a selection or the timer begins a round. */
  lemma TurnKeepsGame(w: World, e: Event, sender: Sender, d: Deps)
    requires Valid(w) && w.room.phase.state == MinigameSelect && w.room.phase.startedAt <= d.now
    ensures var o := HandleEvent(w, e, sender, d);
            o.Accepted? ==>
              (!OwnGame(o.world.room) <==> e.AdminSelectMinigame? && e.minigame == Some(Minigames.InheritedName))
  {
    hide Valid, HandleInState, HandlePushButton, CheckSender, IsStalePhase, HandleMatchClockExpired, CloseTheRoom,
         Transition, ResetMatch, SetConnected, HandleMinigameSelect, Follows, Shape;
    OwnElsewhere(w);
    if CrossCutting(e) {
      CrossCuttingGame(w, e, sender, d);
    } else if e.PushButton? {
      ButtonGame(w, e.playerId, d);
    } else {
      InTurn(w, e, d);
      SelectGame(w, e, d);
    }
  }

  lemma InTurn(w: World, e: Event, d: Deps)
    requires w.room.phase.state == MinigameSelect
    ensures HandleInState(w, e, d) == HandleMinigameSelect(w, e, d)
  {
    hide HandleMinigameSelect, HandleHackWindow, HandleMinigamePlay, HandleAccusationSelect, HandleAccusationVote;
  }

  lemma CrossCuttingGame(w: World, e: Event, sender: Sender, d: Deps)
    requires CrossCutting(e) && w.room.phase.state == MinigameSelect && OwnGame(w.room)
    ensures var o := HandleEvent(w, e, sender, d); o.Accepted? ==> OwnGame(o.world.room)
  {
    hide HandleInState, HandlePushButton, CheckSender, IsStalePhase, HandleMatchClockExpired, CloseTheRoom, Transition,
         ResetMatch;
    CloseGame(w, d);
    if e.MatchClockExpired? {
      ClockGame(w, e.clockId, d);
    }
  }

  lemma CloseGame(w: World, d: Deps)
    requires OwnGame(w.room)
    ensures CloseTheRoom(w, d).Some? ==> OwnGame(CloseTheRoom(w, d).value.room)
  {
    PlainEntry(w, Abandoned, d);
    hide Transition, DurationFor;
  }

  lemma ClockGame(w: World, clockId: nat, d: Deps)
    ensures var o := HandleMatchClockExpired(w, clockId, d); o.Accepted? ==> OwnGame(o.world.room)
  {
    var logged := if w.room.currentAccusation.None? then w.room
                  else Log(w.room, d, AccusationAbandonedByClock(w.room.currentAccusation.value.initiatorId));
    var cleared := w.(room := logged.(currentRound := None, currentSpecialRound := None, currentAccusation := None));
    PlainEntry(EndMatch(cleared, HackersWin), FinalResults, d);
    hide DurationFor, Transition;
  }

  lemma ButtonGame(w: World, playerId: PlayerId, d: Deps)
    requires OwnGame(w.room)
    ensures var o := HandlePushButton(w, playerId, d); o.Accepted? ==> OwnGame(o.world.room)
  {
    PlainEntry(OpenAccusation(w, playerId, d), AccusationSelect, d);
    hide DurationFor, Transition, EligibleVoterIds;
  }

  lemma SelectGame(w: World, e: Event, d: Deps)
    requires Valid(w) && w.room.phase.state == MinigameSelect && w.room.phase.startedAt <= d.now
    ensures var o := HandleMinigameSelect(w, e, d);
            o.Accepted? ==>
              (!OwnGame(o.world.room) <==> e.AdminSelectMinigame? && e.minigame == Some(Minigames.InheritedName))
  {
    hide Valid, Transition, AutoSelect, ExpandParticipants, BeginNormalRound, Distinct, EligibleMinigameIds;
    AutoSelectValid(w, d);
    if e.AdminSelectMinigame? && HandleMinigameSelect(w, e, d).Accepted? {
      AdminSelectValid(w, e.minigame.value, e.participantIds, d);
    }
  }

  /** A step takes a room to a round of an inherited name exactly if it is an accepted selection of one. */
  lemma StepGame(w: World, input: Input)
    requires Valid(w) && Timely(w, input) && OwnGame(w.room)
    ensures !OwnGame(Step(w, input).room) <==> SelectsInherited(input) && Offer(w, input).Accepted?
  {
    hide Valid, HandleEvent, SeqsGrow, SpecialContinues, JoinPlayer, LeavePlayer, KickPlayer, SetPlayerProfile;
    StepFrame(w, input);
    if input.Receive? {
      if w.room.phase.state == MinigameSelect {
        TurnKeepsGame(w, input.event, input.sender, input.deps);
      } else if SelectsInherited(input) {
        SelectionElsewhere(w, input.event, input.sender, input.deps);
      }
    }
  }

  lemma SelectionElsewhere(w: World, e: Event, sender: Sender, d: Deps)
    requires w.room.phase.state != MinigameSelect && e.AdminSelectMinigame?
    ensures !HandleEvent(w, e, sender, d).Accepted?
  {
    hide Transition, PlayAction, SpecialAction, EligibleVoterIds, CountVote, PlayTimeout, LeaveSpecial;
  }

  /** As long as no selection names anything inherited, every round plays a game of the registry. */
  lemma {:induction false} OwnAlong(w: World, inputs: seq<Input>, from: int)
    requires Valid(w) && w.room.phase.startedAt <= from && Ticking(inputs, from) && OwnGame(w.room)
    requires forall i :: i in inputs ==> !SelectsInherited(i)
    ensures OwnGame(RunOf(w, inputs).room)
    decreases |inputs|
  {
    hide Valid, Step, OwnGame, SelectsInherited, Offer;
    if inputs != [] {
      StepKeepsTime(w, inputs[0], from);
      StepValid(w, inputs[0]);
      StepGame(w, inputs[0]);
      OwnAlong(Step(w, inputs[0]), inputs[1..], Later(inputs[0], from));
    }
  }

  /**
    No stall along a run: whatever else anybody sends, while no selection names anything inherited the timer of every
    timed phase of a playable room is accepted.
   */
  lemma NeverStalls(config: Config, d: Deps, inputs: seq<Input>, later: Deps)
    requires PlayableConfig(config) && Ticking(inputs, d.now)
    requires forall i :: i in inputs ==> !SelectsInherited(i)
    ensures var w := RunOf(CreateRoom(config, d), inputs);
            Timed(w.room.phase.state) && w.room.phase.startedAt <= later.now ==> Offer(w, Expiry(w, later)).Accepted?
  {
    hide Valid, RunOf, HandleEvent, PlayableConfig, SelectsInherited, JoinPlayer, LeavePlayer, KickPlayer, SetPlayerProfile;
    CreatedValid(config, d);
    var created := CreateRoom(config, d);
    assert created.room.phase.startedAt == d.now && created.room.config == config && OwnGame(created.room);
    hide CreateRoom, OwnGame;
    RunValid(created, inputs, d.now);
    OwnAlong(created, inputs, d.now);
    ConfigKept(created, inputs);
    var w := RunOf(created, inputs);
    if Timed(w.room.phase.state) && w.room.phase.startedAt <= later.now {
      NoStall(w, HostSender, later);
    }
  }

  lemma {:induction false} ConfigKept(w: World, inputs: seq<Input>)
    ensures RunOf(w, inputs).room.config == w.room.config
    decreases |inputs|
  {
    hide Step, RoundContinues, SpecialContinues;
    if inputs != [] {
      StepFrame(w, inputs[0]);
      ConfigKept(Step(w, inputs[0]), inputs[1..]);
    }
  }

  // ---- What becomes of it -----------------------------------------------------------------------------------------------

  /** Closing the room, for whatever reason, and the end of the match's time: what ends any phase. */
  predicate EndsAnyPhase(input: Input) {
    input.Receive? && (input.event.CloseRoom? || input.event.GraceExpired? || input.event.MatchClockExpired?)
  }

  /** Nothing else ends the hack window of a round of an inherited name. */
  lemma WindowStays(w: World, input: Input)
    requires Valid(w) && Timely(w, input) && w.room.phase.state == HackerCorruption && !OwnGame(w.room)
    requires !EndsAnyPhase(input)
    ensures Step(w, input).room.phase == w.room.phase && !OwnGame(Step(w, input).room)
  {
    hide Valid, HandleEvent, SeqsGrow, SpecialContinues, Shape;
    PartsOf(w);
    StepFrame(w, input);
    if input.Receive? {
      WindowHandled(w, input.event, input.sender, input.deps);
    }
  }

  lemma WindowHandled(w: World, e: Event, sender: Sender, d: Deps)
    requires Valid(w) && w.room.phase.startedAt <= d.now && w.room.phase.state == HackerCorruption && !OwnGame(w.room)
    requires !e.CloseRoom? && !e.GraceExpired? && !e.MatchClockExpired?
    ensures var o := HandleEvent(w, e, sender, d); o.Accepted? ==> o.world.room.phase == w.room.phase
  {
    hide Valid, HandleHackWindow, CheckSender, IsStalePhase, HandleMatchClockExpired, CloseTheRoom, Transition, ResetMatch;
    WindowAlone(w, e, d);
    InWindow(w, e, d);
    hide HandleInState;
  }

  lemma InWindow(w: World, e: Event, d: Deps)
    requires w.room.phase.state == HackerCorruption
    ensures HandleInState(w, e, d) == HandleHackWindow(w, e, d)
  {
    hide HandleHackWindow, HandleMinigameSelect, HandleMinigamePlay, HandleAccusationSelect, HandleAccusationVote;
  }

  lemma WindowAlone(w: World, e: Event, d: Deps)
    requires Valid(w) && w.room.phase.startedAt <= d.now && w.room.phase.state == HackerCorruption && !OwnGame(w.room)
    ensures var o := HandleHackWindow(w, e, d); o.Accepted? ==> o.world.room.phase == w.room.phase
  {
    HackTimerValid(w, d);
    hide Valid, ProceedToInstructions, HackerIds;
  }

  /** Whatever else is sent, and whenever: the room stays in that hack window. */
  lemma {:induction false} WindowStaysFor(w: World, inputs: seq<Input>, from: int)
    requires Valid(w) && w.room.phase.startedAt <= from && Ticking(inputs, from)
    requires w.room.phase.state == HackerCorruption && !OwnGame(w.room)
    requires forall i :: i in inputs ==> !EndsAnyPhase(i)
    ensures RunOf(w, inputs).room.phase == w.room.phase && !OwnGame(RunOf(w, inputs).room)
    decreases |inputs|
  {
    hide Valid, Step, OwnGame, EndsAnyPhase;
    if inputs != [] {
      StepKeepsTime(w, inputs[0], from);
      StepValid(w, inputs[0]);
      WindowStays(w, inputs[0]);
      WindowStaysFor(Step(w, inputs[0]), inputs[1..], Later(inputs[0], from));
    }
  }

  // ---- It can happen to everybody ------------------------------------------------------------------------------------------

  /** The room is about to play a round of an inherited name. */
  ghost predicate Adrift(w: World) {
    w.room.phase.state == HackerCorruption && !OwnGame(w.room)
  }

  lemma OneMore(w: World, input: Input, rest: seq<Input>, from: int)
    ensures RunOf(w, [input] + rest) == RunOf(Step(w, input), rest)
    ensures Ticking([input] + rest, from) <==> Ticking([input], from) && Ticking(rest, Later(input, from))
  {
    hide Step;
    assert ([input] + rest)[1..] == rest && [input][1..] == [];
  }

  lemma PlayersEnough(w: World)
    requires Valid(w) && PlayableConfig(w.room.config) && (w.room.phase.state == GameIntro || w.room.phase.state == MinigameSelect)
    ensures 4 <= |w.room.playerOrder| && Distinct(w.room.playerOrder)
  {
    hide AdminOk, JudgedOk, RoundOk, SpecialOk, AccusationOk, HackLedger, FirewallLedger, VerdictOk, ClockOk, IdsFresh,
         Shape, InProgress, ResultOk, LobbyOk, Distinct;
  }

  /** The first Admin names something inherited and one other player. */
  lemma FromFirstTurn(w: World, d: Deps) returns (inputs: seq<Input>)
    requires Valid(w) && w.room.phase.state == MinigameSelect && w.room.phase.startedAt <= d.now
    requires w.room.adminId.Some? && !w.room.firewallActive && PlayableConfig(w.room.config)
    ensures Ticking(inputs, d.now) && Adrift(RunOf(w, inputs))
  {
    hide Valid, Offer, HandleEvent, Step, PlayableConfig;
    PlayersEnough(w);
    var order := w.room.playerOrder;
    var id := if order[0] == w.room.adminId.value then order[1] else order[0];
    var input := Selection(w, Minigames.InheritedName, [id], d);
    StepOfAccepted(w, input);
    InheritedSelection(w, [id], d, d);
    OneMore(w, input, [], d.now);
    inputs := [input] + [];
  }

  lemma TimerHandled(w: World, d: Deps)
    ensures Offer(w, Expiry(w, d)) == HandleInState(w, TimerExpired(w.room.phase.phaseId), d)
  {
    hide HandleInState, HandlePushButton, HandleMatchClockExpired, CloseTheRoom, ResetMatch, Transition;
  }

  lemma IntroHandled(w: World, e: Event, d: Deps)
    requires w.room.phase.state == GameIntro
    ensures HandleInState(w, e, d) == HandleGameIntro(w, e, d)
  {
    hide HandleGameIntro, HandleHackWindow, HandleMinigamePlay, HandleAccusationSelect, HandleAccusationVote;
  }

  lemma FirstTurn(w: World, d: Deps)
    requires Valid(w) && w.room.phase.state == GameIntro && w.room.phase.startedAt <= d.now && w.room.playerOrder != []
    ensures var o := HandleGameIntro(w, TimerExpired(w.room.phase.phaseId), d);
            && o.Accepted? && o.world.room.phase.state == MinigameSelect
            && o.world.room.adminId.Some? && !o.world.room.firewallActive
  {
    hide Valid, Transition;
    IntroDone(w, d);
  }

  lemma FromIntro(w: World, d: Deps) returns (inputs: seq<Input>)
    requires Valid(w) && w.room.phase.state == GameIntro && w.room.phase.startedAt <= d.now && PlayableConfig(w.room.config)
    ensures Ticking(inputs, d.now) && Adrift(RunOf(w, inputs))
  {
    hide Valid, Offer, Step, RunOf, Adrift, HandleGameIntro, HandleInState, RoundContinues, SpecialContinues, PlayableConfig;
    PlayersEnough(w);
    var input := Expiry(w, d);
    StepOfAccepted(w, input);
    TimerHandled(w, d);
    IntroHandled(w, TimerExpired(w.room.phase.phaseId), d);
    FirstTurn(w, d);
    StepValid(w, input);
    StepFrame(w, input);
    StepKeepsTime(w, input, d.now);
    var rest := FromFirstTurn(Step(w, input), d);
    inputs := [input] + rest;
    OneMore(w, input, rest, d.now);
  }

  lemma FromReveal(w: World, d: Deps) returns (inputs: seq<Input>)
    requires Valid(w) && w.room.phase.state == RoleReveal && w.room.phase.startedAt <= d.now && PlayableConfig(w.room.config)
    ensures Ticking(inputs, d.now) && Adrift(RunOf(w, inputs))
  {
    hide Valid, HandleEvent, Step, RunOf, Adrift, RoundContinues, SpecialContinues, PlayableConfig, JoinPlayer, LeavePlayer,
         KickPlayer, SetPlayerProfile;
    var input := Expiry(w, d);
    OwnElsewhere(w);
    NoStall(w, HostSender, d);
    StepOfAccepted(w, input);
    StepFrame(w, input);
    StepKeepsTime(w, input, d.now);
    var rest := FromIntro(Step(w, input), d);
    inputs := [input] + rest;
    OneMore(w, input, rest, d.now);
  }

  lemma LobbyHandled(w: World, d: Deps)
    requires Valid(w) && w.room.phase.state == Lobby && PlayerCountFits(w.room) && w.room.config.roleRule != UnknownRoleRule
    ensures var o := HandleEvent(w, StartGame(w.room.phase.phaseId), HostSender, d);
            o.Accepted? && o.world.room.phase.state == RoleReveal
  {
    hide Valid, Transition, HandleHackWindow, HandleMinigamePlay, HandleAccusationSelect, HandleAccusationVote,
         HandleMinigameSelect, HandlePushButton, HandleMatchClockExpired, CloseTheRoom, ResetMatch, HandleRoleReveal,
         HandleRematchLobby, HandleFinalResults;
    LobbyStart(w, d);
  }

  lemma Joined(w: World)
    requires w.room.phase.state == Lobby && |w.room.playerOrder| < w.room.config.maxPlayers
    ensures var t := Step(w, Join(0));
            t.room.phase == w.room.phase && t.room.config == w.room.config && |t.room.playerOrder| == |w.room.playerOrder| + 1
  {
    hide HandleEvent;
  }

  /** Players join until there are enough, the host starts the game, and two timers and one selection later it has happened. */
  lemma {:induction false} FromLobby(w: World, d: Deps) returns (inputs: seq<Input>)
    requires Valid(w) && w.room.phase.state == Lobby && w.room.phase.startedAt <= d.now && PlayableConfig(w.room.config)
    requires |w.room.playerOrder| <= w.room.config.minPlayers <= w.room.config.maxPlayers
    ensures Ticking(inputs, d.now) && Adrift(RunOf(w, inputs))
    decreases w.room.config.minPlayers - |w.room.playerOrder|
  {
    hide Valid, HandleEvent, Step, RunOf, Adrift, RoundContinues, SpecialContinues, JoinPlayer, LeavePlayer,
         KickPlayer, SetPlayerProfile;
    var input: Input;
    var rest: seq<Input>;
    if |w.room.playerOrder| < w.room.config.minPlayers {
      input := Join(0);
      StepValid(w, input);
      Joined(w);
      rest := FromLobby(Step(w, input), d);
    } else {
      input := Receive(StartGame(w.room.phase.phaseId), HostSender, d);
      LobbyHandled(w, d);
      StepOfAccepted(w, input);
      StepValid(w, input);
      StepFrame(w, input);
      StepKeepsTime(w, input, d.now);
      rest := FromReveal(Step(w, input), d);
    }
    inputs := [input] + rest;
    OneMore(w, input, rest, d.now);
  }

  /** In a room of any playable configuration a run of legitimate inputs ends in such a hack window. */
  lemma AdriftReachable(config: Config, d: Deps) returns (inputs: seq<Input>)
    requires PlayableConfig(config) && config.minPlayers <= config.maxPlayers
    ensures Ticking(inputs, d.now) && Adrift(RunOf(CreateRoom(config, d), inputs))
  {
    CreatedValid(config, d);
    hide Valid, RunOf, Adrift;
    inputs := FromLobby(CreateRoom(config, d), d);
  }
}
