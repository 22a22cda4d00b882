/**
  The room's state machine on values: what one event does to a room. The class in
  `room_object.dfy` performs the same steps on a room in place.
 */
module Transitions {
  import opened Collections
  import opened Random
  import opened SpeakingOrder
  import opened MatchClocks
  import opened Minigames
  import opened RoomState
  import PredictThem
  import DescribeIt
  import DefendIt
  import BombProtocol
  import BombContent

  function Accept(w: Option<World>): Outcome {
    if w.None? then Threw else Accepted(w.value)
  }

  function Log(r: Room, d: Deps, kind: LogKind): Room {
    r.(matchLog := r.matchLog + [LogEntry(d.now, kind)])
  }

  // ---- Core transition and auto-advance -------------------------------------------------------------

  function SetPhase(w: World, next: GameState, d: Deps): World {
    w.(room := w.room.(
         phase := Phase(next, w.nextId, d.now, DurationFor(next, w.room)),
         submissions := {},
         stateVersion := w.room.stateVersion + 1),
       nextId := w.nextId + 1)
  }

  /** Enters a phase and does at once the work of the phases that never wait; `None` when that work throws. */
  function Transition(w: World, next: GameState, d: Deps): Option<World>
    decreases match next case RoleAssignment => 3 case HackerCorruption => 2 case _ => 0
  {
    var entered := SetPhase(w, next, d);
    match next
    case RoleAssignment =>
      var roles := PerformRoleAssignment(entered, d);
      if roles.None? then None else Transition(roles.value, RoleReveal, d)
    case MinigameSelect => Some(AssignNextAdmin(entered, d))
    case HackerCorruption =>
      if entered.room.firewallActive then ProceedToInstructions(ResolveFirewallBlock(entered, d), d) else Some(entered)
    case _ => Some(entered)
  }

  /** Drops who is no longer eligible, and shuffles everybody eligible in when nobody is left waiting. */
  function NextQueue(queue: seq<PlayerId>, eligible: seq<PlayerId>, rng: Stream): seq<PlayerId> {
    var waiting := Filter(queue, (id: PlayerId) => id in eligible);
    if waiting == [] && eligible != [] then Shuffle(eligible, rng) else waiting
  }

  function AssignNextAdmin(w: World, d: Deps): World {
    var queue := NextQueue(w.room.adminQueue, EligibleMinigameIds(w.room), d.rng(AdminShuffle));
    if queue == [] then w.(room := w.room.(adminId := None, adminQueue := []))
    else w.(room := w.room.(adminId := Some(queue[0]), adminQueue := queue[1..]),
            hist := w.hist.(admins := w.hist.admins + [queue[0]]))
  }

  // ---- Role assignment --------------------------------------------------------------------------------

  /** `Math.round(playerCount * 0.25)`, clamped by the configuration and the players there are. */
  function HackerCountFor(c: Config, playerCount: nat): int {
    Max(c.minHackers, Min(c.maxHackers, Min((playerCount + 2) / 4, playerCount)))
  }

  function PerformRoleAssignment(w: World, d: Deps): Option<World> {
    var r := w.room;
    if r.config.roleRule == UnknownRoleRule then None
    else
      var hackers := Elements(RandomSubset(r.playerOrder, HackerCountFor(r.config, |r.playerOrder|), d.rng(RoleDraw)));
      Some(w.(
        room := r.(hackerCount := |hackers|, cycle := 1, roundInCycle := 0, firewallActive := false,
                   specialGameUsed := false, adminId := None, adminQueue := [], matchClock := InitMatchClock()),
        priv := Priv(AssignRoles(w.priv.players, r.playerOrder, hackers),
                     w.priv.hacksRemaining + HackBudget(w.priv.players, r.playerOrder, hackers)),
        hist := NO_HISTORY))
  }

  function AssignRoles(players: map<PlayerId, PrivatePlayer>, order: seq<PlayerId>, hackers: set<PlayerId>)
    : map<PlayerId, PrivatePlayer>
  {
    map id | id in players ::
      if id in order then players[id].(role := Some(if id in hackers then Hacker else Crew)) else players[id]
  }

  function HackBudget(players: map<PlayerId, PrivatePlayer>, order: seq<PlayerId>,
                      hackers: set<PlayerId>): map<PlayerId, nat> {
    map id | id in players && id in order :: if id in hackers then 2 else 0
  }

  // ---- Round setup --------------------------------------------------------------------------------------

  /** For PREDICT_THEM everybody eligible who was not selected joins as the audience. */
  function ExpandParticipants(r: Room, id: MinigameId, selected: seq<PlayerId>): seq<PlayerId> {
    if id != PredictThemGame then selected
    else selected + Filter(EligibleMinigameIds(r), (p: PlayerId) => p !in selected)
  }

  function BeginNormalRound(w: World, id: MinigameId, participantIds: seq<PlayerId>, selected: seq<PlayerId>,
                            d: Deps): World {
    var r := w.room;
    w.(room := r.(
      roundInCycle := r.roundInCycle + 1,
      currentRound := Some(Round(r.cycle, r.roundInCycle + 1, id, r.adminId, selected, participantIds,
                                 [], {}, false, None, map[], map[], d.now))))
  }

  function AutoSelectMinigame(r: Room, d: Deps): GameName {
    match r.config.selectionRule
    case PickAny => RandomChoice(ALL_MINIGAMES, d.rng(MinigameChoice))
    case Only(id) => id
    case UnknownSelectionRule => ALL_MINIGAMES[0]
  }

  /** A clamped random selection, cut down when it would leave PREDICT_THEM without an audience. */
  function AutoSelectParticipants(r: Room, id: GameName, d: Deps): seq<PlayerId> {
    var limit := ParticipantLimit(id);
    var pool := EligibleMinigameIds(r);
    var selected := RandomSubset(pool, Max(limit.least, Min(limit.most, |pool|)), d.rng(ParticipantDraw));
    if id == PredictThemGame && |selected| > 0 && |pool| - |selected| < 1
    then selected[..Min(|selected|, limit.least - 1)] else selected
  }

  function AutoSelect(w: World, d: Deps): Option<World> {
    var id := AutoSelectMinigame(w.room, d);
    var selected := AutoSelectParticipants(w.room, id, d);
    Transition(BeginNormalRound(w, id, ExpandParticipants(w.room, id, selected), selected, d), HackerCorruption, d)
  }

  // ---- Hack window and instructions ---------------------------------------------------------------------

  function ResolveFirewallBlock(w: World, d: Deps): World {
    if w.room.currentRound.None? then w
    else w.(room := Log(w.room.(firewallActive := false), d, FirewallConsumed))
  }

  function AskerRng(d: Deps): PlayerId -> Stream {
    (id: PlayerId) => d.rng(Asker(id))
  }

  function CardRng(d: Deps): PlayerId -> Stream {
    (id: PlayerId) => d.rng(CardShuffle(id))
  }

  function StartConfigFor(round: Round, d: Deps): StartConfig
    requires Distinct(round.participantIds)
  {
    var owners := Elements(round.participantIds);
    match round.minigameId
    case RankIt => RankItConfig(owners, map id | id in round.participantIds :: Shuffle(CARDS, CardRng(d)(id)))
    case PredictThemGame => PredictThemConfig(PredictThem.Config(round.adminSelectedIds, Elements(round.adminSelectedIds)))
    case DescribeItGame =>
      DescribeItConfig(DescribeIt.Config(Shuffle(round.participantIds, d.rng(SpeakerShuffle)), owners))
    case DefendItGame =>
      (var order := Shuffle(round.participantIds, d.rng(SpeakerShuffle));
       DefendItConfig(DefendIt.Config(order, owners,
         if |order| < 2 then map[] else DefendIt.SelectFollowUpAskers(order, AskerRng(d)))))
    case _ => PromptConfig(owners)
  }

  /** A round whose participants repeat is refused by every module's `start`. */
  function StartModule(round: Round, d: Deps): Option<ModuleState> {
    if !Distinct(round.participantIds) then None
    else Minigames.Start(round.minigameId, round.participantIds, StartConfigFor(round, d))
  }

  function ProceedToInstructions(w: World, d: Deps): Option<World>
    decreases 1
  {
    if w.room.currentRound.None? then Some(w)
    else
      var round := w.room.currentRound.value;
      var revealed := round.hackedRevealed || w.room.config.revealPolicy == OnInstructions;
      var started := StartModule(round, d);
      if started.None? then None
      else
        Transition(w.(room := w.room.(currentRound := Some(round.(hackedRevealed := revealed, moduleState := started)))),
                   MinigameInstructions, d)
  }

  // ---- Round completion ----------------------------------------------------------------------------------

  function CompleteMinigame(w: World, d: Deps): Option<World> {
    if w.room.currentRound.None? then Some(w) else Transition(RecordRound(w, d), ResultsReveal, d)
  }

  /** What a round leaves behind when its game ends. */
  function RecordRound(w: World, d: Deps): World
    requires w.room.currentRound.Some?
  {
    var round := w.room.currentRound.value;
    var revealed := round.hackedRevealed || w.room.config.revealPolicy == OnResults;
    var success := round.moduleState.Some? && Minigames.Succeeded(round.moduleState.value);
    w.(room := w.room.(
         currentRound := Some(round.(hackedRevealed := revealed)),
         roundHistory := w.room.roundHistory + [RoundRecord(
           round.cycle, round.roundInCycle, round.minigameId, round.adminId, round.hackedIds, revealed, success,
           round.startedAt, d.now)]))
  }

  // ---- Special game ---------------------------------------------------------------------------------------

  predicate SpecialGameDue(r: Room) {
    !r.specialGameUsed
    && match r.config.scheduleRule
       case EndOfCycleOnce => r.roundInCycle >= r.config.roundsPerCycle
       case AfterFirstRoundOnce => r.roundInCycle >= 1
       case NeverRule => false
       case UnknownScheduleRule => false
  }

  function ResolveAfterRoundOrSpecial(w: World, d: Deps): Option<World> {
    if SpecialGameDue(w.room) then Transition(BeginSpecialGame(w, d), SpecialGameIntro, d)
    else Transition(w, MinigameSelect, d)
  }

  function SpecialParticipantCount(r: Room): int {
    match r.config.participantRule
    case FixedFour => 4
    case Scaling => if |r.playerOrder| <= 5 then 3 else if |r.playerOrder| <= 7 then 4 else 5
    case UnknownParticipantRule => r.config.minSpecial
  }

  function SpecialParticipants(r: Room, d: Deps): seq<PlayerId> {
    var pool := EligibleSpecialIds(r);
    RandomSubset(pool, Max(r.config.minSpecial, Min(r.config.maxSpecial, Min(SpecialParticipantCount(r), |pool|))),
                 d.rng(SpecialDraw))
  }

  function BeginSpecialGame(w: World, d: Deps): World {
    var r := w.room;
    w.(room := r.(
         currentSpecialRound := Some(SpecialRound(r.cycle, SpecialParticipants(r, d), None, map[], map[], d.now)),
         specialGameUsed := true,
         matchClock := PauseMatchClock(r.matchClock, d.now)),
       hist := NotePause(w.hist, r.matchClock, d.now))
  }

  function NotePause(h: History, clock: MatchClock, now: int): History {
    if clock.status != Running || clock.deadlineAt.None? then h
    else h.(pauses := h.pauses + 1, pausedAt := now, latePause := now > clock.deadlineAt.value)
  }

  function NoteResume(h: History, clock: MatchClock, now: int): History {
    if clock.status != Paused then h else h.(pausedMs := h.pausedMs + (now - h.pausedAt))
  }

  function CompleteSpecialGame(w: World, d: Deps): Option<World> {
    if w.room.currentSpecialRound.None? then Some(w) else Transition(RecordSpecial(w, d), SpecialGameResult, d)
  }

  function RecordSpecial(w: World, d: Deps): World
    requires w.room.currentSpecialRound.Some?
  {
    var s := w.room.currentSpecialRound.value;
    var success := s.moduleState.Some? && s.moduleState.value.status == BombProtocol.Success;
    w.(room := w.room.(specialRoundHistory := w.room.specialRoundHistory
                         + [SpecialRecord(s.cycle, s.participantIds, success, s.startedAt, d.now)]))
  }

  // ---- Accusation -----------------------------------------------------------------------------------------

  /** An interrupted selection resumes with the same Admin; after a discussion the next Admin's turn begins. */
  function ReturnToGameplay(w: World, d: Deps, origin: Origin): Option<World> {
    if origin == FromMinigameSelect then Some(SetPhase(w, MinigameSelect, d)) else Transition(w, MinigameSelect, d)
  }

  function HandlePushButton(w: World, playerId: PlayerId, d: Deps): Outcome {
    var r := w.room;
    if r.winner.Some? then Rejected(w, InvalidEventForState)
    else if r.phase.state != Discussion && r.phase.state != MinigameSelect then Rejected(w, InvalidEventForState)
    else if r.accusationCooldownUntil.Some? && d.now < r.accusationCooldownUntil.value then Rejected(w, AccusationOnCooldown)
    else if playerId !in EligibleVoterIds(r) then Rejected(w, NotEligibleVoter)
    else
      Accept(Transition(OpenAccusation(w, playerId, d), AccusationSelect, d))
  }

  function OpenAccusation(w: World, playerId: PlayerId, d: Deps): World {
    var r := w.room;
    var origin := if r.phase.state == Discussion then FromDiscussion else FromMinigameSelect;
    var accusation := Accusation(playerId, r.hackerCount, None, [], map[], origin, d.now);
    w.(room := Log(r.(currentAccusation := Some(accusation)), d, AccusationStarted(playerId, r.hackerCount, origin)))
  }

  function HandleAccusationSelect(w: World, e: Event, d: Deps): Outcome {
    var r := w.room;
    if r.currentAccusation.None? then Rejected(w, InvalidEventForState)
    else
      var acc := r.currentAccusation.value;
      match e
      case SubmitAccusation(_, playerId, ids) =>
        if playerId != acc.initiatorId then Rejected(w, NotInitiator)
        else if !Distinct(ids) || |ids| != acc.requiredSuspectCount then Rejected(w, InvalidSuspects)
        else if exists id :: id in ids && id !in EligibleVoterIds(r) then Rejected(w, InvalidSuspects)
        else
          Accept(Transition(LockSuspects(w, acc, ids, d), AccusationVote, d))
      case TimerExpired(_) =>
        Accept(ReturnToGameplay(CancelAccusation(w, acc, d), d, acc.origin))
      case _ => Rejected(w, InvalidEventForState)
  }

  function LockSuspects(w: World, acc: Accusation, ids: seq<PlayerId>, d: Deps): World {
    var locked := acc.(suspectIds := Some(ids), eligibleVoterIds := EligibleVoterIds(w.room));
    w.(room := Log(w.room.(currentAccusation := Some(locked)), d, AccusationLocked(ids)))
  }

  function CancelAccusation(w: World, acc: Accusation, d: Deps): World {
    w.(room := Log(w.room, d, AccusationCancelled(acc.initiatorId)).(currentAccusation := None))
  }

  function Approvals(votes: map<PlayerId, Vote>): set<PlayerId> {
    set id | id in votes && votes[id] == Approve
  }

  /** A strict majority of the voters listed when the suspects were locked; a tie rejects. */
  predicate IsApproved(acc: Accusation) {
    |acc.eligibleVoterIds| > 0 && 2 * |Approvals(acc.votes)| > |acc.eligibleVoterIds|
  }

  function RecordOf(acc: Accusation, suspects: seq<PlayerId>, correct: Option<bool>, d: Deps): AccusationRecord {
    AccusationRecord(acc.initiatorId, suspects, acc.votes, IsApproved(acc), correct, acc.startedAt, d.now)
  }

  function ResolveAccusationVote(w: World, d: Deps): Option<World> {
    var r := w.room;
    if r.currentAccusation.None? || r.currentAccusation.value.suspectIds.None? then Some(w)
    else
      var acc := r.currentAccusation.value;
      var suspects := acc.suspectIds.value;
      if !IsApproved(acc) then ReturnToGameplay(RejectAccusation(w, acc, suspects, d), d, acc.origin)
      else Transition(Convict(w, acc, suspects, d), FinalResults, d)
  }

  function RejectAccusation(w: World, acc: Accusation, suspects: seq<PlayerId>, d: Deps): World {
    w.(room := Log(w.room, d, AccusationRejected(|Approvals(acc.votes)|, |acc.eligibleVoterIds|)).(
         accusationHistory := w.room.accusationHistory + [RecordOf(acc, suspects, None, d)],
         accusationCooldownUntil := Some(d.now + w.room.config.accusationCooldownMs),
         currentAccusation := None))
  }

  /** An approved accusation ends the match: the crew wins exactly when the suspects are the hackers. */
  function Convict(w: World, acc: Accusation, suspects: seq<PlayerId>, d: Deps): World {
    var correct := HackerIds(w.priv.players) == Elements(suspects);
    EndMatch(w.(room := Log(w.room, d, AccusationResolved(correct)).(
                  accusationHistory := w.room.accusationHistory + [RecordOf(acc, suspects, Some(correct), d)],
                  currentAccusation := None)),
             if correct then CrewWins else HackersWin)
  }

  predicate AllVoted(acc: Accusation) {
    |acc.eligibleVoterIds| > 0 && forall id :: id in acc.eligibleVoterIds ==> id in acc.votes
  }

  function HandleAccusationVote(w: World, e: Event, d: Deps): Outcome {
    var r := w.room;
    if r.currentAccusation.None? || r.currentAccusation.value.suspectIds.None? then Rejected(w, InvalidEventForState)
    else
      var acc := r.currentAccusation.value;
      match e
      case SubmitAccusationVote(_, playerId, vote) =>
        if playerId !in acc.eligibleVoterIds then Rejected(w, NotEligibleVoter)
        else if playerId in r.submissions then Rejected(w, DuplicateAction)
        else
          CountVote(w, acc.(votes := acc.votes[playerId := vote]), playerId, d)
      case TimerExpired(_) => Accept(ResolveAccusationVote(w, d))
      case HostPhaseAction(_, action) =>
        if action == EndVoteEarly then Accept(ResolveAccusationVote(w, d)) else Rejected(w, InvalidEventForState)
      case _ => Rejected(w, InvalidEventForState)
  }

  /** The last missing ballot closes the vote at once. */
  function CountVote(w: World, voted: Accusation, playerId: PlayerId, d: Deps): Outcome {
    var counted := w.(room := w.room.(submissions := w.room.submissions + {playerId}, currentAccusation := Some(voted)));
    if AllVoted(voted) then Accept(ResolveAccusationVote(counted, d)) else Accepted(counted)
  }

  // ---- Match reset ----------------------------------------------------------------------------------------

  function ResetMatch(w: World): World {
    var r := w.room;
    w.(room := r.(
         cycle := 0, roundInCycle := 0, firewallActive := false, specialGameUsed := false, winner := None,
         adminId := None, adminQueue := [], matchClock := InitMatchClock(), hackerCount := 0,
         currentRound := None, currentSpecialRound := None, currentAccusation := None, accusationCooldownUntil := None,
         roundHistory := [], specialRoundHistory := [], accusationHistory := [], matchLog := [],
         players := map id | id in r.players :: r.players[id].(alive := true)),
       priv := Priv(map id | id in w.priv.players :: w.priv.players[id].(role := None), map[]),
       hist := NO_HISTORY)
  }

  // ---- Connections ----------------------------------------------------------------------------------------

  /** Only the connection status changes. */
  function SetConnected(w: World, playerId: PlayerId, connected: bool): World {
    if playerId !in w.room.players then w
    else w.(room := w.room.(players := w.room.players[playerId := w.room.players[playerId].(connected := connected)]))
  }

  /**
    Every module ignores a participant's disconnect, but an inherited name has nothing to call: then the
    event throws.
   */
  function Disconnect(w: World, playerId: PlayerId): Option<World> {
    if !OwnGame(w.room) && playerId in w.room.currentRound.value.participantIds then None
    else Some(SetConnected(w, playerId, false))
  }

  // ---- Per-state handlers ---------------------------------------------------------------------------------

  predicate PlayerCountFits(r: Room) {
    r.config.minPlayers <= |r.playerOrder| <= r.config.maxPlayers
  }

  function HandleLobby(w: World, e: Event, d: Deps): Outcome {
    if !e.StartGame? then Rejected(w, InvalidEventForState)
    else if !PlayerCountFits(w.room) then Rejected(w, InvalidPlayerCount)
    else Accept(Transition(w, RoleAssignment, d))
  }

  predicate EverybodyAcknowledged(r: Room) {
    ConnectedIds(r) != [] && forall id :: id in ConnectedIds(r) ==> id in r.submissions
  }

  function HandleRoleReveal(w: World, e: Event, d: Deps): Outcome {
    match e
    case AcknowledgeReveal(_, playerId) =>
      if playerId !in w.room.players then Rejected(w, NotParticipant)
      else if playerId in w.room.submissions then Rejected(w, DuplicateAction)
      else
        var noted := w.(room := w.room.(submissions := w.room.submissions + {playerId}));
        if EverybodyAcknowledged(noted.room) then Accept(Transition(noted, GameIntro, d)) else Accepted(noted)
    case HostPhaseAction(_, action) =>
      if action == SkipRevealTimer then Accept(Transition(w, GameIntro, d)) else Rejected(w, InvalidEventForState)
    case TimerExpired(_) => Accept(Transition(w, GameIntro, d))
    case _ => Rejected(w, InvalidEventForState)
  }

  function HandleGameIntro(w: World, e: Event, d: Deps): Outcome {
    if e.TimerExpired? || (e.HostPhaseAction? && e.hostAction == SkipIntro) then
      Accept(Transition(
        w.(room := w.room.(matchClock := StartMatchClock(w.room.config.matchClockTotalMs, d.now, w.nextId)),
           nextId := w.nextId + 1), MinigameSelect, d))
    else Rejected(w, InvalidEventForState)
  }

  function HandleMinigameSelect(w: World, e: Event, d: Deps): Outcome {
    var r := w.room;
    match e
    case AdminSelectMinigame(_, playerId, minigame, ids) =>
      if r.adminId != Some(playerId) then Rejected(w, NotAdmin)
      else if minigame.None? then Rejected(w, InvalidMinigameId)
      else
        if !Distinct(ids) || !WithinLimit(minigame.value, |ids|) then Rejected(w, InvalidParticipants)
        else if exists id :: id in ids && id !in EligibleMinigameIds(r) then Rejected(w, InvalidParticipants)
        else if !r.config.adminMaySelectSelf && playerId in ids then Rejected(w, InvalidParticipants)
        else
          var participants := ExpandParticipants(r, minigame.value, ids);
          if minigame.value == PredictThemGame && |participants| - |ids| < 1 then Rejected(w, InvalidParticipants)
          else Accept(Transition(BeginNormalRound(w, minigame.value, participants, ids, d), HackerCorruption, d))
    case TimerExpired(_) => Accept(AutoSelect(w, d))
    case _ => Rejected(w, InvalidEventForState)
  }

  /** The target is locked, one charge is spent and the hacker's action for the round is used, all at once. */
  function TakeHack(w: World, round: Round, playerId: PlayerId, targetId: PlayerId, d: Deps): World
    requires playerId in w.priv.hacksRemaining && w.priv.hacksRemaining[playerId] > 0
  {
    var hacked := round.(hackedIds := round.hackedIds + [targetId], actionsUsed := round.actionsUsed + {playerId});
    w.(room := Log(w.room.(currentRound := Some(hacked)), d, HackAccepted(playerId, targetId)),
       priv := w.priv.(hacksRemaining := w.priv.hacksRemaining[playerId := w.priv.hacksRemaining[playerId] - 1]))
  }

  function HandleHackWindow(w: World, e: Event, d: Deps): Outcome {
    var r := w.room;
    if r.currentRound.None? then Rejected(w, InvalidEventForState)
    else
      var round := r.currentRound.value;
      match e
      case SubmitHack(_, playerId, targetId) =>
        var remaining := if playerId in w.priv.hacksRemaining then w.priv.hacksRemaining[playerId] else 0;
        if r.firewallActive then Rejected(w, FirewallActive)
        else if playerId !in HackerIds(w.priv.players) then Rejected(w, NotHacker)
        else if remaining <= 0 then Rejected(w, NoHacksRemaining)
        else if playerId in round.actionsUsed then Rejected(w, AlreadyHackedThisRound)
        else if targetId !in round.participantIds then Rejected(w, InvalidTarget)
        else if targetId in round.hackedIds then Rejected(w, TargetAlreadyHacked)
        else Accepted(TakeHack(w, round, playerId, targetId, d))
      case TimerExpired(_) => Accept(ProceedToInstructions(w, d))
      case _ => Rejected(w, InvalidEventForState)
  }

  function HandleMinigameInstructions(w: World, e: Event, d: Deps): Outcome {
    if e.TimerExpired? || (e.HostPhaseAction? && e.hostAction == SkipInstructions)
    then Accept(Transition(w, MinigamePlay, d)) else Rejected(w, InvalidEventForState)
  }

  /** The last twenty: `slice(-20)`. */
  function LastTwenty(ids: seq<nat>): seq<nat> {
    if |ids| <= 20 then ids else ids[|ids| - 20..]
  }

  function RecentOf(recent: map<PlayerId, seq<nat>>, playerId: PlayerId): seq<nat> {
    if playerId in recent then recent[playerId] else []
  }

  function LastSeqOf(lastSeq: map<PlayerId, int>, playerId: PlayerId): int {
    if playerId in lastSeq then lastSeq[playerId] else 0
  }

  function HandleMinigamePlay(w: World, e: Event, d: Deps): Outcome {
    var r := w.room;
    if r.currentRound.None? then Rejected(w, InvalidEventForState)
    else
      var round := r.currentRound.value;
      match e
      case SubmitAction(_, playerId, seqNo, actionId, action) => PlayAction(w, round, playerId, seqNo, actionId, action, d)
      case TimerExpired(_) => Accept(PlayTimeout(w, round, d))
      case HostPhaseAction(_, action) =>
        if action == ForceEndMinigame then Accept(CompleteMinigame(w, d)) else Rejected(w, InvalidEventForState)
      case _ => Rejected(w, InvalidEventForState)
  }

  function PlayAction(w: World, round: Round, playerId: PlayerId, seqNo: int, actionId: nat, action: GameAction,
                      d: Deps): Outcome {
    var recent := RecentOf(round.recentActionIds, playerId);
    if playerId !in round.participantIds then Rejected(w, NotParticipant)
    else if actionId in recent then Accepted(w)
    else if seqNo <= LastSeqOf(round.lastSeq, playerId) then Rejected(w, OutOfOrder)
    else if round.moduleState.None? || !action.Regular?
      || !Minigames.ValidateAction(round.minigameId, round.moduleState.value, playerId, action.action)
    then Rejected(w, InvalidAction)
    else
      var after := Minigames.HandleAction(round.moduleState.value, playerId, action.action);
      AfterAction(w, round, Acted(round, playerId, seqNo, actionId, after), d)
  }

  /** The round once an action is applied: the new module state, and the action remembered for its player. */
  function Acted(round: Round, playerId: PlayerId, seqNo: int, actionId: nat, after: ModuleState): Round {
    round.(
      moduleState := Some(after),
      lastSeq := round.lastSeq[playerId := seqNo],
      recentActionIds :=
        round.recentActionIds[playerId := LastTwenty(RecentOf(round.recentActionIds, playerId) + [actionId])])
  }

  /** An applied action ends the game, restarts the phase for a new internal step, or changes nothing else. */
  function AfterAction(w: World, before: Round, after: Round, d: Deps): Outcome
    requires before.moduleState.Some? && after.moduleState.Some?
  {
    var applied := w.(room := w.room.(currentRound := Some(after)));
    var was, now := before.moduleState.value, after.moduleState.value;
    if Minigames.IsComplete(now) then Accept(CompleteMinigame(applied, d))
    else if InternalStep(was).Some? && InternalStep(now) != InternalStep(was) then Accept(Transition(applied, MinigamePlay, d))
    else Accepted(applied)
  }

  function PlayTimeout(w: World, round: Round, d: Deps): Option<World> {
    if round.moduleState.None? || Minigames.HandleTimeout(round.moduleState.value).None? then CompleteMinigame(w, d)
    else
      var before := round.moduleState.value;
      var after := Minigames.HandleTimeout(before).value;
      var applied := w.(room := w.room.(currentRound := Some(round.(moduleState := Some(after)))));
      if !Minigames.IsComplete(after) && InternalStep(before).Some? && InternalStep(after) != InternalStep(before)
      then Transition(applied, MinigamePlay, d)
      else CompleteMinigame(applied, d)
  }

  function HandleResultsReveal(w: World, e: Event, d: Deps): Outcome {
    if e.TimerExpired? || (e.HostPhaseAction? && e.hostAction == SkipResultsReveal)
    then Accept(Transition(w.(room := w.room.(currentRound := None)), Discussion, d))
    else Rejected(w, InvalidEventForState)
  }

  function HandleDiscussion(w: World, e: Event, d: Deps): Outcome {
    if e.TimerExpired? || (e.HostPhaseAction? && e.hostAction == EndDiscussionEarly)
    then Accept(ResolveAfterRoundOrSpecial(w, d)) else Rejected(w, InvalidEventForState)
  }

  function BombRngOf(d: Deps): BombContent.BombRng {
    BombContent.BombRng(d.rng(BombOperator), d.rng(BombSolution), d.rng(BombBoard), d.rng(BombWire),
                        (i: nat) => d.rng(BombDigit(i)), d.rng(BombVisible))
  }

  function StartSpecial(participantIds: seq<PlayerId>, d: Deps): Option<BombProtocol.State> {
    var config := BombContent.CreateConfig(participantIds, BombRngOf(d));
    if config.None? then None else BombProtocol.Start(participantIds, config.value)
  }

  function HandleSpecialGameIntro(w: World, e: Event, d: Deps): Outcome {
    if e.TimerExpired? || (e.HostPhaseAction? && e.hostAction == SkipSpecialIntro) then Accept(PlaySpecial(w, d))
    else Rejected(w, InvalidEventForState)
  }

  function PlaySpecial(w: World, d: Deps): Option<World> {
    if w.room.currentSpecialRound.None? then Transition(w, SpecialGamePlay, d)
    else
      var s := w.room.currentSpecialRound.value;
      var started := StartSpecial(s.participantIds, d);
      if started.None? then None
      else Transition(w.(room := w.room.(currentSpecialRound := Some(s.(moduleState := started)))), SpecialGamePlay, d)
  }

  function HandleSpecialGamePlay(w: World, e: Event, d: Deps): Outcome {
    if w.room.currentSpecialRound.None? then Rejected(w, InvalidEventForState)
    else
      match e
      case SubmitAction(_, playerId, seqNo, actionId, action) =>
        SpecialAction(w, w.room.currentSpecialRound.value, playerId, seqNo, actionId, action, d)
      case TimerExpired(_) => Accept(CompleteSpecialGame(w, d))
      case HostPhaseAction(_, action) =>
        if action == ForceEndSpecialGame then Accept(CompleteSpecialGame(w, d)) else Rejected(w, InvalidEventForState)
      case _ => Rejected(w, InvalidEventForState)
  }

  function SpecialAction(w: World, s: SpecialRound, playerId: PlayerId, seqNo: int, actionId: nat,
                         action: GameAction, d: Deps): Outcome {
    var recent := RecentOf(s.recentActionIds, playerId);
    if playerId !in s.participantIds then Rejected(w, NotParticipant)
    else if actionId in recent then Accepted(w)
    else if seqNo <= LastSeqOf(s.lastSeq, playerId) then Rejected(w, OutOfOrder)
    else if s.moduleState.None? || !action.Bomb? || !BombProtocol.ValidateAction(s.moduleState.value, playerId, action.bomb)
    then Rejected(w, InvalidAction)
    else
      var after := BombProtocol.HandleAction(s.moduleState.value, action.bomb);
      AfterSpecialAction(w, SpecialActed(s, playerId, seqNo, actionId, after), d)
  }

  function SpecialActed(s: SpecialRound, playerId: PlayerId, seqNo: int, actionId: nat, after: BombProtocol.State)
    : SpecialRound
  {
    s.(
      moduleState := Some(after),
      lastSeq := s.lastSeq[playerId := seqNo],
      recentActionIds := s.recentActionIds[playerId := LastTwenty(RecentOf(s.recentActionIds, playerId) + [actionId])])
  }

  function AfterSpecialAction(w: World, after: SpecialRound, d: Deps): Outcome
    requires after.moduleState.Some?
  {
    var applied := w.(room := w.room.(currentSpecialRound := Some(after)));
    if after.moduleState.value.status != BombProtocol.Active then Accept(CompleteSpecialGame(applied, d)) else Accepted(applied)
  }

  function Resume(w: World, d: Deps): World {
    w.(room := w.room.(matchClock := ResumeMatchClock(w.room.matchClock, d.now, w.nextId)),
       nextId := if w.room.matchClock.status == Paused then w.nextId + 1 else w.nextId,
       hist := NoteResume(w.hist, w.room.matchClock, d.now))
  }

  function HandleSpecialGameResult(w: World, e: Event, d: Deps): Outcome {
    if e.TimerExpired? || (e.HostPhaseAction? && e.hostAction == Advance) then Accept(LeaveSpecial(w, d))
    else Rejected(w, InvalidEventForState)
  }

  /** A win raises the firewall; a loss costs time, and the match when none is left. The clock resumes otherwise. */
  function LeaveSpecial(w: World, d: Deps): Option<World> {
    var history := w.room.specialRoundHistory;
    var left := w.(room := w.room.(currentSpecialRound := None));
    if history == [] then ResolveAfterRoundOrSpecial(Resume(left, d), d)
    else if history[|history| - 1].success then ResolveAfterRoundOrSpecial(Resume(RaiseFirewall(left, d), d), d)
    else
      var charged := Charge(left, d);
      if charged.room.matchClock.remainingMs <= 0 then Transition(EndMatch(charged, HackersWin), FinalResults, d)
      else ResolveAfterRoundOrSpecial(Resume(charged, d), d)
  }

  function RaiseFirewall(w: World, d: Deps): World {
    w.(room := Log(w.room.(firewallActive := true), d, FirewallActivated))
  }

  function Charge(w: World, d: Deps): World {
    w.(room := Log(w.room, d, PenaltyApplied(w.room.config.failPenaltyMs)).(
         matchClock := ApplyPenalty(w.room.matchClock, w.room.config.failPenaltyMs)))
  }

  function EndMatch(w: World, winner: Winner): World {
    w.(room := w.room.(winner := Some(winner), matchClock := StopMatchClock(w.room.matchClock)))
  }

  function HandleFinalResults(w: World, e: Event, d: Deps): Outcome {
    match e
    case RequestRematch(_, playerId) =>
      if playerId in w.room.submissions then Rejected(w, DuplicateAction)
      else Accepted(w.(room := w.room.(submissions := w.room.submissions + {playerId})))
    case HostPhaseAction(_, action) =>
      if action == Advance then Accept(Transition(w, RematchLobby, d)) else Rejected(w, InvalidEventForState)
    case _ => Rejected(w, InvalidEventForState)
  }

  /** The reset comes before the player count is checked, so a rejected start returns a reset room. */
  function HandleRematchLobby(w: World, e: Event, d: Deps): Outcome {
    if !e.StartGame? then Rejected(w, InvalidEventForState)
    else if !PlayerCountFits(w.room) then Rejected(ResetMatch(w), InvalidPlayerCount)
    else Accept(Transition(ResetMatch(w), RoleAssignment, d))
  }

  // ---- Entry point ----------------------------------------------------------------------------------------

  function HandleMatchClockExpired(w: World, clockId: nat, d: Deps): Outcome {
    var r := w.room;
    if r.matchClock.status != Running || r.matchClock.clockId != clockId || r.winner.Some? then Rejected(w, StaleMatchClock)
    else
      var logged := if r.currentAccusation.None? then r
                    else Log(r, d, AccusationAbandonedByClock(r.currentAccusation.value.initiatorId));
      var cleared := w.(room := logged.(currentRound := None, currentSpecialRound := None, currentAccusation := None));
      Accept(Transition(EndMatch(cleared, HackersWin), FinalResults, d))
  }

  function HandleInState(w: World, e: Event, d: Deps): Outcome {
    match w.room.phase.state
    case Lobby => HandleLobby(w, e, d)
    case RoleReveal => HandleRoleReveal(w, e, d)
    case GameIntro => HandleGameIntro(w, e, d)
    case MinigameSelect => HandleMinigameSelect(w, e, d)
    case HackerCorruption => HandleHackWindow(w, e, d)
    case MinigameInstructions => HandleMinigameInstructions(w, e, d)
    case MinigamePlay => HandleMinigamePlay(w, e, d)
    case ResultsReveal => HandleResultsReveal(w, e, d)
    case Discussion => HandleDiscussion(w, e, d)
    case AccusationSelect => HandleAccusationSelect(w, e, d)
    case AccusationVote => HandleAccusationVote(w, e, d)
    case SpecialGameIntro => HandleSpecialGameIntro(w, e, d)
    case SpecialGamePlay => HandleSpecialGamePlay(w, e, d)
    case SpecialGameResult => HandleSpecialGameResult(w, e, d)
    case FinalResults => HandleFinalResults(w, e, d)
    case RematchLobby => HandleRematchLobby(w, e, d)
    case _ => Rejected(w, InvalidEventForState)
  }

  function HandleEvent(w: World, e: Event, sender: Sender, d: Deps): Outcome {
    var senderProblem := CheckSender(e, sender);
    if senderProblem.Some? then Rejected(w, senderProblem.value)
    else
      match e
      case PlayerDisconnected(playerId) => Accept(Disconnect(w, playerId))
      case PlayerReconnected(playerId) => Accepted(SetConnected(w, playerId, true))
      case HostDisconnected => Accepted(w.(room := w.room.(hostConnected := false)))
      case HostReconnected => Accepted(w.(room := w.room.(hostConnected := true)))
      case CloseRoom => Accept(CloseTheRoom(w, d))
      case GraceExpired => Accept(CloseTheRoom(w, d))
      case MatchClockExpired(clockId) => HandleMatchClockExpired(w, clockId, d)
      case RestartMatch =>
        if w.room.phase.state != FinalResults && w.room.phase.state != RematchLobby then Rejected(w, InvalidEventForState)
        else Accept(Transition(ResetMatch(w), Lobby, d))
      case _ =>
        if IsStalePhase(w.room, e) then Rejected(w, StalePhase)
        else if e.PushButton? then HandlePushButton(w, e.playerId, d)
        else HandleInState(w, e, d)
  }

  function CloseTheRoom(w: World, d: Deps): Option<World> {
    if w.room.phase.state == Abandoned then Some(w) else Transition(w, Abandoned, d)
  }

  // ---- Roster steps ---------------------------------------------------------------------------------------

  function CreateRoom(config: Config, d: Deps): World {
    World(
      Room(true, config, [], map[], Phase(Lobby, 1, d.now, None), 0, 0, false, false, None, None, [],
           InitMatchClock(), 0, None, None, None, None, {}, [], [], [], [], 0),
      Priv(map[], map[]), 2, NO_HISTORY)
  }

  predicate InLobby(r: Room) {
    r.phase.state == Lobby || r.phase.state == RematchLobby
  }

  function JoinPlayer(w: World, profile: nat): Outcome {
    var r := w.room;
    if !InLobby(r) then Rejected(w, MatchInProgress)
    else if |r.playerOrder| >= r.config.maxPlayers then Rejected(w, InvalidPlayerCount)
    else Accepted(w.(
      room := r.(playerOrder := r.playerOrder + [w.nextId], players := r.players[w.nextId := Player(profile, true, true)]),
      priv := w.priv.(players := w.priv.players[w.nextId := PrivatePlayer(w.nextId + 1, None)]),
      nextId := w.nextId + 2))
  }

  function RemovePlayer(w: World, playerId: PlayerId): World {
    w.(room := w.room.(playerOrder := Filter(w.room.playerOrder, (id: PlayerId) => id != playerId),
                       players := w.room.players - {playerId}),
       priv := w.priv.(players := w.priv.players - {playerId}))
  }

  function LeavePlayer(w: World, playerId: PlayerId): Outcome {
    if !InLobby(w.room) then Rejected(w, MatchInProgress) else Accepted(RemovePlayer(w, playerId))
  }

  function KickPlayer(w: World, playerId: PlayerId): Outcome {
    if w.room.phase.state != Lobby then Rejected(w, MatchInProgress) else Accepted(RemovePlayer(w, playerId))
  }

  function SetPlayerProfile(w: World, playerId: PlayerId, profile: nat): Outcome {
    if w.room.phase.state != Lobby then Rejected(w, MatchInProgress)
    else if playerId !in w.room.players then Rejected(w, NotParticipant)
    else Accepted(w.(room := w.room.(players := w.room.players[playerId := w.room.players[playerId].(profile := profile)])))
  }

  // ---- The step relation the actor uses ---------------------------------------------------------------------

  datatype Input =
    | Receive(event: Event, sender: Sender, deps: Deps)
    | Join(profile: nat)
    | Leave(playerId: PlayerId)
    | Kick(playerId: PlayerId)
    | SetProfile(playerId: PlayerId, profile: nat)

  function Offer(w: World, input: Input): Outcome {
    match input
    case Receive(event, sender, deps) => HandleEvent(w, event, sender, deps)
    case Join(profile) => JoinPlayer(w, profile)
    case Leave(playerId) => LeavePlayer(w, playerId)
    case Kick(playerId) => KickPlayer(w, playerId)
    case SetProfile(playerId, profile) => SetPlayerProfile(w, playerId, profile)
  }

  /** Only accepted results become the next state. */
  function Step(w: World, input: Input): World {
    var outcome := Offer(w, input);
    if outcome.Accepted? then outcome.world else w
  }
}
