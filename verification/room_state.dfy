/** The room document, the players' private half, the events and the selectors over them. */
module RoomState {
  import opened Collections
  import opened Random
  import opened SpeakingOrder
  import opened MatchClocks
  import opened Minigames
  import BombProtocol

  datatype GameState =
    | RoomCreated | Lobby | RoleAssignment | RoleReveal | GameIntro | MinigameSelect | HackerCorruption
    | MinigameInstructions | MinigamePlay | ResultsReveal | Discussion | AccusationSelect | AccusationVote
    | SpecialGameIntro | SpecialGamePlay | SpecialGameResult | FinalResults | RematchLobby | Abandoned

  datatype Role = Crew | Hacker
  datatype Winner = CrewWins | HackersWin
  datatype Vote = Approve | Reject
  datatype Origin = FromDiscussion | FromMinigameSelect

  // ---- Configuration: rule ids are resolved to the rules they name -------------------------------

  datatype RoleRule = Linear | UnknownRoleRule
  datatype ScheduleRule = EndOfCycleOnce | AfterFirstRoundOnce | NeverRule | UnknownScheduleRule
  datatype ParticipantRule = FixedFour | Scaling | UnknownParticipantRule
  datatype SelectionRule = PickAny | Only(game: GameName) | UnknownSelectionRule
  datatype RevealPolicy = OnResults | OnInstructions | NeverReveal

  datatype Timers = Timers(
    roleReveal: nat, intro: nat, adminSelection: nat, accusationSelection: nat, accusationVoting: nat, corruption: nat,
    instructions: nat, results: nat, discussion: nat, specialIntro: nat, specialResult: nat)

  datatype Config = Config(
    roleRule: RoleRule, minHackers: int, maxHackers: int,
    scheduleRule: ScheduleRule, participantRule: ParticipantRule, minSpecial: int, maxSpecial: int, failPenaltyMs: nat,
    selectionRule: SelectionRule,
    eliminatedMayPlay: bool, eliminatedMayJoinSpecial: bool, eliminatedMayVote: bool,
    timers: Timers, minPlayers: int, maxPlayers: int, roundsPerCycle: int, revealPolicy: RevealPolicy,
    matchClockTotalMs: nat, adminMaySelectSelf: bool, accusationCooldownMs: nat)

  // ---- The room -----------------------------------------------------------------------------------

  datatype Player = Player(profile: nat, alive: bool, connected: bool)

  datatype Phase = Phase(state: GameState, phaseId: nat, startedAt: int, durationMs: Option<nat>)

  datatype Round = Round(
    cycle: nat, roundInCycle: nat, minigameId: MinigameId, adminId: Option<PlayerId>,
    adminSelectedIds: seq<PlayerId>, participantIds: seq<PlayerId>,
    hackedIds: seq<PlayerId>, actionsUsed: set<PlayerId>, hackedRevealed: bool,
    moduleState: Option<ModuleState>, lastSeq: map<PlayerId, int>, recentActionIds: map<PlayerId, seq<nat>>, startedAt: int)

  datatype SpecialRound = SpecialRound(
    cycle: nat, participantIds: seq<PlayerId>, moduleState: Option<BombProtocol.State>,
    lastSeq: map<PlayerId, int>, recentActionIds: map<PlayerId, seq<nat>>, startedAt: int)

  datatype Accusation = Accusation(
    initiatorId: PlayerId, requiredSuspectCount: nat, suspectIds: Option<seq<PlayerId>>,
    eligibleVoterIds: seq<PlayerId>, votes: map<PlayerId, Vote>, origin: Origin, startedAt: int)

  datatype RoundRecord = RoundRecord(
    cycle: nat, roundInCycle: nat, minigameId: MinigameId, adminId: Option<PlayerId>,
    hackedIds: seq<PlayerId>, hackedRevealed: bool, success: bool, startedAt: int, endedAt: int)

  datatype SpecialRecord = SpecialRecord(
    cycle: nat, participantIds: seq<PlayerId>, success: bool, startedAt: int, endedAt: int)

  datatype AccusationRecord = AccusationRecord(
    initiatorId: PlayerId, suspectIds: seq<PlayerId>, votes: map<PlayerId, Vote>, approved: bool, correct: Option<bool>,
    startedAt: int, endedAt: int)

  datatype LogKind =
    | PenaltyApplied(ms: nat)
    | FirewallActivated
    | FirewallConsumed
    | HackAccepted(hackerId: PlayerId, targetId: PlayerId)
    | AccusationStarted(initiatorId: PlayerId, required: nat, origin: Origin)
    | AccusationLocked(suspectIds: seq<PlayerId>)
    | AccusationCancelled(initiatorId: PlayerId)
    | AccusationRejected(approveCount: nat, total: nat)
    | AccusationResolved(correct: bool)
    | AccusationAbandonedByClock(initiatorId: PlayerId)

  datatype LogEntry = LogEntry(at: int, kind: LogKind)

  /** `playerOrder` is the order in which the keys of the players record were added. */
  datatype Room = Room(
    hostConnected: bool, config: Config, playerOrder: seq<PlayerId>, players: map<PlayerId, Player>, phase: Phase,
    cycle: nat, roundInCycle: nat, firewallActive: bool, specialGameUsed: bool, winner: Option<Winner>,
    adminId: Option<PlayerId>, adminQueue: seq<PlayerId>, matchClock: MatchClock, hackerCount: nat,
    currentRound: Option<Round>, currentSpecialRound: Option<SpecialRound>, currentAccusation: Option<Accusation>,
    accusationCooldownUntil: Option<int>, submissions: set<PlayerId>,
    roundHistory: seq<RoundRecord>, specialRoundHistory: seq<SpecialRecord>, accusationHistory: seq<AccusationRecord>,
    matchLog: seq<LogEntry>, stateVersion: nat)

  datatype PrivatePlayer = PrivatePlayer(sessionToken: nat, role: Option<Role>)

  datatype Priv = Priv(players: map<PlayerId, PrivatePlayer>, hacksRemaining: map<PlayerId, nat>)

  /**
    History variables: what a match did that the room itself does not keep. `admins` lists the
    Admins assigned since the roles were, `pausedAt` and `pausedMs` tell when and how long the match
    clock was paused, `latePause` whether that was after its deadline.
   */
  datatype History = History(admins: seq<PlayerId>, pauses: nat, pausedAt: int, pausedMs: int, latePause: bool)

  /** `nextId` is the state of the id generator: every id it hands out is fresh. */
  datatype World = World(room: Room, priv: Priv, nextId: nat, hist: History)

  const NO_HISTORY := History([], 0, 0, 0, false)

  // ---- Dependencies -------------------------------------------------------------------------------

  /** The places that draw random numbers; each has its own stream. */
  datatype Site =
    | RoleDraw | AdminShuffle | MinigameChoice | ParticipantDraw | SpeakerShuffle | Asker(id: PlayerId)
    | CardShuffle(id: PlayerId) | SpecialDraw
    | BombOperator | BombSolution | BombBoard | BombWire | BombDigit(index: nat) | BombVisible

  datatype Deps = Deps(now: int, rng: Site -> Stream)

  // ---- Events -------------------------------------------------------------------------------------

  datatype HostAction =
    | SkipIntro | SkipInstructions | SkipRevealTimer | SkipResultsReveal | SkipSpecialIntro | ForceEndMinigame
    | ForceEndSpecialGame | EndDiscussionEarly | EndVoteEarly | Advance

  datatype GameAction = Regular(action: Action) | Bomb(bomb: BombProtocol.Action)

  /** The Admin may name anything: `minigame` is `None` for a name that the tables of games do not answer to. */
  datatype Event =
    | StartGame(phaseId: nat)
    | HostPhaseAction(phaseId: nat, hostAction: HostAction)
    | RestartMatch
    | CloseRoom
    | GraceExpired
    | AcknowledgeReveal(phaseId: nat, playerId: PlayerId)
    | AdminSelectMinigame(phaseId: nat, playerId: PlayerId, minigame: Option<MinigameId>, participantIds: seq<PlayerId>)
    | SubmitHack(phaseId: nat, playerId: PlayerId, targetId: PlayerId)
    | SubmitAction(phaseId: nat, playerId: PlayerId, seqNo: int, actionId: nat, action: GameAction)
    | PushButton(phaseId: nat, playerId: PlayerId)
    | SubmitAccusation(phaseId: nat, playerId: PlayerId, suspectIds: seq<PlayerId>)
    | SubmitAccusationVote(phaseId: nat, playerId: PlayerId, vote: Vote)
    | RequestRematch(phaseId: nat, playerId: PlayerId)
    | PlayerDisconnected(playerId: PlayerId)
    | PlayerReconnected(playerId: PlayerId)
    | HostDisconnected
    | HostReconnected
    | TimerExpired(phaseId: nat)
    | MatchClockExpired(clockId: nat)

  datatype Sender = HostSender | PlayerSender(playerId: PlayerId)

  datatype RejectionCode =
    | StalePhase | DuplicateAction | OutOfOrder | NotParticipant | NotHacker | NotEligibleVoter | NotHost
    | IdentityMismatch | InvalidAction | InvalidEventForState | MatchInProgress | InvalidPlayerCount | NotAdmin
    | InvalidMinigameId | InvalidParticipants | NoHacksRemaining | AlreadyHackedThisRound | InvalidTarget
    | TargetAlreadyHacked | FirewallActive | StaleMatchClock | AccusationOnCooldown | NotInitiator | InvalidSuspects

  /** `Threw` is an exception: the caller gets no new state at all. */
  datatype Outcome = Accepted(world: World) | Rejected(world: World, code: RejectionCode) | Threw

  // ---- Selectors ----------------------------------------------------------------------------------

  predicate IsAlive(r: Room, id: PlayerId) {
    id in r.players && r.players[id].alive
  }

  function EligibleIf(r: Room, everybody: bool): seq<PlayerId> {
    if everybody then r.playerOrder else Filter(r.playerOrder, (id: PlayerId) => IsAlive(r, id))
  }

  function EligibleMinigameIds(r: Room): seq<PlayerId> {
    EligibleIf(r, r.config.eliminatedMayPlay)
  }

  function EligibleSpecialIds(r: Room): seq<PlayerId> {
    EligibleIf(r, r.config.eliminatedMayJoinSpecial)
  }

  function EligibleVoterIds(r: Room): seq<PlayerId> {
    EligibleIf(r, r.config.eliminatedMayVote)
  }

  function ConnectedIds(r: Room): seq<PlayerId> {
    Filter(r.playerOrder, (id: PlayerId) => id in r.players && r.players[id].connected)
  }

  function HackerIds(priv: map<PlayerId, PrivatePlayer>): set<PlayerId> {
    set id | id in priv && priv[id].role == Some(Hacker)
  }

  // ---- Guards -------------------------------------------------------------------------------------

  predicate IsHostEvent(e: Event) {
    e.StartGame? || e.HostPhaseAction? || e.RestartMatch? || e.CloseRoom?
  }

  /** Events of players, which carry the player's id; system events are neither. */
  function PlayerOf(e: Event): Option<PlayerId> {
    match e
    case AcknowledgeReveal(_, p) => Some(p)
    case AdminSelectMinigame(_, p, _, _) => Some(p)
    case SubmitHack(_, p, _) => Some(p)
    case SubmitAction(_, p, _, _, _) => Some(p)
    case PushButton(_, p) => Some(p)
    case SubmitAccusation(_, p, _) => Some(p)
    case SubmitAccusationVote(_, p, _) => Some(p)
    case RequestRematch(_, p) => Some(p)
    case _ => None
  }

  function CheckSender(e: Event, sender: Sender): Option<RejectionCode> {
    if IsHostEvent(e) && sender != HostSender then Some(NotHost)
    else if PlayerOf(e).Some? && sender != PlayerSender(PlayerOf(e).value) then Some(IdentityMismatch)
    else None
  }

  predicate CarriesPhaseId(e: Event) {
    e.StartGame? || e.HostPhaseAction? || e.TimerExpired? || PlayerOf(e).Some?
  }

  predicate IsStalePhase(r: Room, e: Event) {
    CarriesPhaseId(e) && e.phaseId != r.phase.phaseId
  }

  /** The round, if there is one, plays a game of the registry. */
  predicate OwnGame(r: Room) {
    r.currentRound.Some? ==> Registered(r.currentRound.value.minigameId)
  }

  /** The phases that end by themselves. */
  predicate Timed(state: GameState) {
    state !in {RoomCreated, Lobby, RoleAssignment, FinalResults, RematchLobby, Abandoned}
  }

  function DurationFor(state: GameState, r: Room): Option<nat> {
    var t := r.config.timers;
    match state
    case RoleReveal => Some(t.roleReveal)
    case GameIntro => Some(t.intro)
    case MinigameSelect => Some(t.adminSelection)
    case HackerCorruption => Some(t.corruption)
    case MinigameInstructions => Some(t.instructions)
    case MinigamePlay =>
      if r.currentRound.None? || !Registered(r.currentRound.value.minigameId) then None
      else Some(Minigames.DurationMs(r.currentRound.value.minigameId, r.currentRound.value.moduleState))
    case ResultsReveal => Some(t.results)
    case Discussion => Some(t.discussion)
    case AccusationSelect => Some(t.accusationSelection)
    case AccusationVote => Some(t.accusationVoting)
    case SpecialGameIntro => Some(t.specialIntro)
    case SpecialGamePlay => if r.currentSpecialRound.None? then None else Some(BombProtocol.DURATION_MS)
    case SpecialGameResult => Some(t.specialResult)
    case _ => None
  }

  /** The default configuration. */
  function DefaultConfig(): Config {
    Config(Linear, 1, 3, EndOfCycleOnce, Scaling, 3, 5, 180_000, PickAny, false, false, false,
           Timers(15_000, 10_000, 20_000, 20_000, 20_000, 10_000, 10_000, 8_000, 60_000, 8_000, 8_000),
           4, 10, 2, OnResults, 900_000, true, 20_000)
  }
}
