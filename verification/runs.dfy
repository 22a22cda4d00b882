/** Whole runs of a room: any sequence of events and roster steps under a clock that never goes back. */
module Runs {
  import opened Collections
  import opened SpeakingOrder
  import opened AdminRotation
  import opened MatchClocks
  import opened RoomState
  import opened Transitions
  import opened RoomInvariant
  import opened RoomProofs
  import opened RoundProofs
  import opened PhaseProofs
  import opened SpecialProofs
  import opened AccusationProofs
  import opened MatchProofs
  import opened StepProofs
  import opened Frames
  import Minigames

  lemma CrossCuttingValid(w: World, e: Event, sender: Sender, d: Deps)
    requires CrossCutting(e) && Valid(w) && w.room.phase.startedAt <= d.now
    ensures KeepsValid(HandleEvent(w, e, sender, d))
  {
    hide Valid, HandleMatchClockExpired, CloseTheRoom, Transition, ResetMatch, SetConnected, CheckSender, SetPhase,
         HandleInState, HandlePushButton, IsStalePhase;
    match e
    case PlayerDisconnected(playerId) => ConnectionChanged(w, playerId, false);
    case PlayerReconnected(playerId) => ConnectionChanged(w, playerId, true);
    case HostDisconnected => HostChanged(w, false);
    case HostReconnected => HostChanged(w, true);
    case MatchClockExpired(clockId) => ClockExpiryValid(w, clockId, d);
    case RestartMatch => RestartValid(w, d);
    case _ => Closed(w, d);
  }

  lemma HostChanged(w: World, connected: bool)
    requires Valid(w)
    ensures Valid(w.(room := w.room.(hostConnected := connected)))
  {
    hide RosterOk, MatchOk, AdminOk, JudgedOk, RoundOk, SpecialOk, AccusationOk, HackLedger, FirewallLedger,
         VerdictOk, ClockOk, IdsFresh;
  }

  lemma ClockExpiryValid(w: World, clockId: nat, d: Deps)
    requires Valid(w) && w.room.phase.startedAt <= d.now
    ensures KeepsValid(HandleMatchClockExpired(w, clockId, d))
  {
    hide Valid, Transition;
    if w.room.matchClock.status == Running && w.room.matchClock.clockId == clockId && w.room.winner.None? {
      ClockRunsOut(w, clockId, d);
    }
  }

  lemma EventValid(w: World, e: Event, sender: Sender, d: Deps)
    requires Valid(w) && w.room.phase.startedAt <= d.now
    ensures KeepsValid(HandleEvent(w, e, sender, d))
  {
    hide Valid, HandleInState, HandlePushButton, CheckSender, IsStalePhase, HandleMatchClockExpired, CloseTheRoom,
         Transition, ResetMatch, SetConnected;
    if CrossCutting(e) {
      CrossCuttingValid(w, e, sender, d);
    } else {
      StateEvent(w, e, d);
      if e.PushButton? {
        ButtonEvent(w, e.playerId, d);
      }
    }
  }

  lemma RosterValid(w: World, input: Input)
    requires Valid(w) && !input.Receive?
    ensures KeepsValid(Offer(w, input))
  {
    hide Valid, RemovePlayer;
    match input
    case Join(profile) =>
      if JoinPlayer(w, profile).Accepted? {
        JoinValid(w, profile);
      }
      hide JoinPlayer;
    case Leave(playerId) =>
      if InLobby(w.room) {
        RemoveValid(w, playerId);
      }
    case Kick(playerId) =>
      if InLobby(w.room) {
        RemoveValid(w, playerId);
      }
    case SetProfile(playerId, profile) =>
      if playerId in w.room.players {
        ProfileChanged(w, playerId, profile);
      }
  }

  /** Whatever is offered to a room at rest, the room the actor keeps is again in order. */
  lemma StepValid(w: World, input: Input)
    requires Valid(w) && Timely(w, input)
    ensures Valid(Step(w, input))
  {
    hide Valid, HandleEvent;
    if input.Receive? {
      EventValid(w, input.event, input.sender, input.deps);
    } else {
      RosterValid(w, input);
    }
    hide JoinPlayer, LeavePlayer, KickPlayer, SetPlayerProfile;
  }

  /** What a step leaves alone: it begins a new phase now, or stays in this one. */
  lemma StepFrame(w: World, input: Input)
    ensures Step(w, input) == w || Stayed(w, Step(w, input))
            || (input.Receive? && Moved(w, Step(w, input), input.deps.now))
  {
    hide Stayed, Moved, HandleEvent, JoinPlayer, LeavePlayer, KickPlayer, SetPlayerProfile;
    if input.Receive? {
      EventFrame(w, input.event, input.sender, input.deps);
    } else {
      RosterFrame(w, input);
    }
  }

  lemma StepOfAccepted(w: World, input: Input)
    ensures Step(w, input) == if Offer(w, input).Accepted? then Offer(w, input).world else w
  {
    hide Offer;
  }

  // ---- Runs -----------------------------------------------------------------------------------------------------

  function RunOf(w: World, inputs: seq<Input>): World
    decreases |inputs|
  {
    if inputs == [] then w else RunOf(Step(w, inputs[0]), inputs[1..])
  }

  /** The clock readings of the inputs never go back, from `from` on. */
  predicate Ticking(inputs: seq<Input>, from: int) {
    inputs == []
    || if inputs[0].Receive? then from <= inputs[0].deps.now && Ticking(inputs[1..], inputs[0].deps.now)
       else Ticking(inputs[1..], from)
  }

  /** The clock reading after a step. */
  function Later(input: Input, from: int): int {
    if input.Receive? then input.deps.now else from
  }

  lemma StepKeepsTime(w: World, input: Input, from: int)
    requires Valid(w) && w.room.phase.startedAt <= from && Ticking([input], from)
    ensures Timely(w, input)
    ensures Step(w, input).room.phase.startedAt <= Later(input, from) && from <= Later(input, from)
  {
    StepFrame(w, input);
    hide Step, Valid, Follows, RoundContinues, SpecialContinues;
  }

  /** The invariant holds along every run. */
  lemma {:induction false} RunValid(w: World, inputs: seq<Input>, from: int)
    requires Valid(w) && w.room.phase.startedAt <= from && Ticking(inputs, from)
    ensures Valid(RunOf(w, inputs))
    decreases |inputs|
  {
    hide Valid, Step;
    if inputs != [] {
      StepKeepsTime(w, inputs[0], from);
      StepValid(w, inputs[0]);
      RunValid(Step(w, inputs[0]), inputs[1..], Later(inputs[0], from));
    }
  }

  /** Every room anybody can bring about is in order. */
  lemma ReachableValid(config: Config, d: Deps, inputs: seq<Input>)
    requires Ticking(inputs, d.now)
    ensures Valid(RunOf(CreateRoom(config, d), inputs))
  {
    CreatedValid(config, d);
    hide Valid, RunOf;
    RunValid(CreateRoom(config, d), inputs, d.now);
  }
}
