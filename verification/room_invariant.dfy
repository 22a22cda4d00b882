/** What holds of a room at rest: after every accepted event and every roster step. */
module RoomInvariant {
  import opened Collections
  import opened SpeakingOrder
  import opened AdminRotation
  import opened MatchClocks
  import opened Minigames
  import opened RoomState
  import opened Transitions
  import BombProtocol

  // ---- Which optional parts a phase has -------------------------------------------------------------

  predicate InRound(state: GameState) {
    state in {HackerCorruption, MinigameInstructions, MinigamePlay, ResultsReveal}
  }

  predicate InSpecial(state: GameState) {
    state in {SpecialGameIntro, SpecialGamePlay, SpecialGameResult}
  }

  predicate InAccusation(state: GameState) {
    state == AccusationSelect || state == AccusationVote
  }

  predicate MatchOver(state: GameState) {
    state == FinalResults || state == RematchLobby
  }

  function ClockStatusIn(state: GameState): ClockStatus {
    if state in {Lobby, RoleReveal, GameIntro} then Pending
    else if InSpecial(state) then Paused
    else if MatchOver(state) then Stopped
    else Running
  }

  /** The phase a room rests in fixes which of its parts exist; an abandoned room keeps what it had. */
  ghost predicate Shape(r: Room, state: GameState) {
    && state != RoomCreated && state != RoleAssignment
    && (r.winner.Some? <==> r.matchClock.status == Stopped)
    && (state != Abandoned ==>
          && (r.currentRound.Some? <==> InRound(state))
          && (r.currentRound.Some? ==> (r.currentRound.value.moduleState.Some? <==> state != HackerCorruption))
          && (r.currentSpecialRound.Some? <==> InSpecial(state))
          && (r.currentSpecialRound.Some? ==>
                (r.currentSpecialRound.value.moduleState.Some? <==> state != SpecialGameIntro))
          && (r.currentAccusation.Some? <==> InAccusation(state))
          && (r.currentAccusation.Some? ==> (r.currentAccusation.value.suspectIds.Some? <==> state == AccusationVote))
          && r.matchClock.status == ClockStatusIn(state)
          && (r.winner.Some? <==> MatchOver(state)))
  }

  /** A match is on, or its result is still shown, or it was abandoned before its clock stopped. */
  predicate Live(state: GameState, clock: ClockStatus) {
    if state == Abandoned then clock == Running || clock == Paused
    else state !in {RoomCreated, Lobby, RematchLobby, RoleAssignment}
  }

  // ---- The parts --------------------------------------------------------------------------------------

  /** Public and private rosters list the same players, and nobody is ever eliminated. */
  ghost predicate RosterOk(order: seq<PlayerId>, players: map<PlayerId, Player>, secret: map<PlayerId, PrivatePlayer>) {
    && Distinct(order)
    && players.Keys == Elements(order)
    && secret.Keys == Elements(order)
    && forall id {:trigger players[id]} :: id in players ==> players[id].alive
  }

  ghost predicate IdsFresh(order: seq<PlayerId>, clockId: nat, nextId: nat) {
    (forall id :: id in order ==> id < nextId) && clockId < nextId
  }

  /** Everybody has a role and the public count is the number of hackers. */
  ghost predicate MatchOk(c: Config, order: seq<PlayerId>, secret: map<PlayerId, PrivatePlayer>, hackerCount: nat) {
    && c.minPlayers <= |order| <= c.maxPlayers
    && (forall id {:trigger secret[id]} :: id in secret ==> secret[id].role.Some?)
    && hackerCount == |HackerIds(secret)|
  }

  ghost predicate AdminOk(h: History, adminId: Option<PlayerId>, queue: seq<PlayerId>, order: seq<PlayerId>) {
    && Rotation(h.admins, queue, order)
    && (adminId.Some? ==> h.admins != [] && h.admins[|h.admins| - 1] == adminId.value)
  }

  /** Bounds within which every phase can go on by its timer alone; the default configuration is within them. */
  ghost predicate PlayableConfig(c: Config) {
    && c.roleRule != UnknownRoleRule
    && 4 <= c.minPlayers
    && 3 <= c.minSpecial <= 5 && c.maxSpecial <= 5
  }

  /** The number of participants the module of this round starts with. */
  ghost predicate SizesFit(id: GameName, selectedIds: seq<PlayerId>, participantIds: seq<PlayerId>) {
    if id == PredictThemGame then
      && 1 <= |selectedIds| <= 4 && |selectedIds| < |participantIds|
      && Distinct(selectedIds) && forall p :: p in selectedIds ==> p in participantIds
    else
      ParticipantLimit(id).least <= |participantIds| <= ParticipantLimit(id).most
  }

  /** Hacked players are distinct participants, one for each hacker who acted. */
  ghost predicate RoundOk(c: Config, round: Round, order: seq<PlayerId>, hackers: set<PlayerId>) {
    && Distinct(round.participantIds) && (forall id :: id in round.participantIds ==> id in order)
    && Distinct(round.hackedIds) && (forall id :: id in round.hackedIds ==> id in round.participantIds)
    && round.actionsUsed <= hackers && |round.hackedIds| == |round.actionsUsed|
    && (PlayableConfig(c) && Registered(round.minigameId) ==>
          SizesFit(round.minigameId, round.adminSelectedIds, round.participantIds))
    && (round.moduleState.Some? ==> Minigames.Valid(round.minigameId, round.moduleState.value, round.participantIds))
  }

  ghost predicate SpecialOk(c: Config, s: SpecialRound, order: seq<PlayerId>) {
    && Distinct(s.participantIds) && (forall id :: id in s.participantIds ==> id in order)
    && (PlayableConfig(c) ==> 3 <= |s.participantIds| <= 5)
    && (s.moduleState.Some? ==> BombProtocol.Valid(s.moduleState.value))
  }

  /** While a vote is open, exactly the recorded submissions are votes, and at least one voter is missing. */
  ghost predicate AccusationOk(acc: Accusation, state: GameState, order: seq<PlayerId>, hackerCount: nat,
                               submissions: set<PlayerId>) {
    && acc.initiatorId in order
    && acc.requiredSuspectCount == hackerCount
    && (acc.suspectIds.Some? ==>
          && Distinct(acc.suspectIds.value) && |acc.suspectIds.value| == hackerCount
          && forall id :: id in acc.suspectIds.value ==> id in order)
    && (state == AccusationSelect ==> acc.votes == map[] && acc.eligibleVoterIds == [])
    && (state == AccusationVote ==>
          && acc.eligibleVoterIds == order
          && acc.votes.Keys == submissions && submissions <= Elements(order)
          && !AllVoted(acc))
  }

  /** A game in progress is not finished: finishing it would have ended the phase. */
  ghost predicate InProgress(r: Room, state: GameState) {
    && ((state == MinigameInstructions || state == MinigamePlay)
        && r.currentRound.Some? && r.currentRound.value.moduleState.Some? ==>
          !Minigames.IsComplete(r.currentRound.value.moduleState.value))
    && (state == SpecialGamePlay && r.currentSpecialRound.Some? && r.currentSpecialRound.value.moduleState.Some? ==>
          r.currentSpecialRound.value.moduleState.value.status == BombProtocol.Active)
  }

  // ---- The ledgers --------------------------------------------------------------------------------------

  function HacksIn(log: seq<LogEntry>): nat {
    if log == [] then 0 else HacksIn(log[..|log| - 1]) + if log[|log| - 1].kind.HackAccepted? then 1 else 0
  }

  function ActivationsIn(log: seq<LogEntry>): nat {
    if log == [] then 0 else ActivationsIn(log[..|log| - 1]) + if log[|log| - 1].kind.FirewallActivated? then 1 else 0
  }

  function ConsumptionsIn(log: seq<LogEntry>): nat {
    if log == [] then 0 else ConsumptionsIn(log[..|log| - 1]) + if log[|log| - 1].kind.FirewallConsumed? then 1 else 0
  }

  lemma LogGrows(log: seq<LogEntry>, entry: LogEntry)
    ensures HacksIn(log + [entry]) == HacksIn(log) + if entry.kind.HackAccepted? then 1 else 0
    ensures ActivationsIn(log + [entry]) == ActivationsIn(log) + if entry.kind.FirewallActivated? then 1 else 0
    ensures ConsumptionsIn(log + [entry]) == ConsumptionsIn(log) + if entry.kind.FirewallConsumed? then 1 else 0
  {
    assert (log + [entry])[..|log|] == log;
  }

  /** Hacks left and hacks spent are what the hackers were given: two each. */
  ghost predicate HackLedger(hacks: nat, remaining: map<PlayerId, nat>, hackerCount: nat) {
    Total(remaining) + hacks == 2 * hackerCount
  }

  /** The firewall is up exactly when it was activated once more than consumed, and it is activated at most once. */
  ghost predicate FirewallLedger(activations: nat, consumptions: nat, active: bool, used: bool, pending: bool) {
    && activations == consumptions + (if active then 1 else 0)
    && activations + (if pending then 1 else 0) <= (if used then 1 else 0)
  }

  /**
    The deadline is the start plus the total plus the time paused minus the penalties, unless the pause
    came too late.
   */
  ghost predicate ClockOk(clock: MatchClock, h: History, totalMs: nat, used: bool, latest: int) {
    && WellFormed(clock, totalMs)
    && h.pauses <= (if used then 1 else 0) && 0 <= h.pausedMs
    && (clock.status == Pending ==> !used && h.pausedMs == 0 && !h.latePause)
    && (clock.status == Running || clock.status == Paused ==>
          clock.startedAt.value <= latest && h.pauses == (if used then 1 else 0))
    && (clock.status == Paused ==>
          && used && h.pausedMs == 0 && clock.totalPenaltyMs == 0 && h.pausedAt <= latest
          && (!h.latePause ==> clock.remainingMs == clock.startedAt.value + totalMs - h.pausedAt))
    && (clock.status == Running && !used ==> h.pausedMs == 0 && clock.totalPenaltyMs == 0 && !h.latePause)
    && (clock.status == Running && !h.latePause ==>
          clock.deadlineAt.value == clock.startedAt.value + totalMs + h.pausedMs - clock.totalPenaltyMs)
  }

  // ---- The verdict ----------------------------------------------------------------------------------------

  ghost predicate LastCorrect(history: seq<AccusationRecord>) {
    history != [] && history[|history| - 1].approved && history[|history| - 1].correct == Some(true)
  }

  /** Crew wins by a last accusation that was approved and correct; before the verdict none was approved. */
  ghost predicate VerdictOk(history: seq<AccusationRecord>, winner: Option<Winner>) {
    && (winner.None? ==> forall i :: 0 <= i < |history| ==> !history[i].approved)
    && (winner.Some? ==> (winner == Some(CrewWins) <==> LastCorrect(history)))
  }

  /** An approved accusation was judged against the real hackers. */
  ghost predicate JudgedOk(history: seq<AccusationRecord>, hackers: set<PlayerId>) {
    forall i :: 0 <= i < |history| && history[i].approved ==>
      history[i].correct == Some(hackers == Elements(history[i].suspectIds))
  }

  /** A lobby has nothing of a match in it. */
  ghost predicate LobbyOk(r: Room, state: GameState, remaining: map<PlayerId, nat>) {
    state == Lobby ==> remaining == map[] && r.matchLog == [] && r.accusationHistory == [] && r.hackerCount == 0
  }

  /** The result shown is that of the bomb just played. */
  ghost predicate ResultOk(r: Room, state: GameState) {
    state == SpecialGameResult && r.currentSpecialRound.Some? && r.currentSpecialRound.value.moduleState.Some? ==>
      && r.specialRoundHistory != []
      && r.specialRoundHistory[|r.specialRoundHistory| - 1].success
           == (r.currentSpecialRound.value.moduleState.value.status == BombProtocol.Success)
  }

  /** The room may rest in `state` with these submissions: everything but the phase itself is in order. */
  ghost predicate Ready(w: World, state: GameState, submissions: set<PlayerId>, latest: int) {
    var r := w.room;
    && Shape(r, state)
    && InProgress(r, state)
    && ResultOk(r, state)
    && LobbyOk(r, state, w.priv.hacksRemaining)
    && RosterOk(r.playerOrder, r.players, w.priv.players)
    && IdsFresh(r.playerOrder, r.matchClock.clockId, w.nextId)
    && (Live(state, r.matchClock.status) ==>
          && MatchOk(r.config, r.playerOrder, w.priv.players, r.hackerCount)
          && AdminOk(w.hist, r.adminId, r.adminQueue, r.playerOrder)
          && JudgedOk(r.accusationHistory, HackerIds(w.priv.players)))
    && (r.currentRound.Some? ==> RoundOk(r.config, r.currentRound.value, r.playerOrder, HackerIds(w.priv.players)))
    && (r.currentSpecialRound.Some? ==> SpecialOk(r.config, r.currentSpecialRound.value, r.playerOrder))
    && (r.currentAccusation.Some? ==>
          AccusationOk(r.currentAccusation.value, state, r.playerOrder, r.hackerCount, submissions))
    && HackLedger(HacksIn(r.matchLog), w.priv.hacksRemaining, r.hackerCount)
    && FirewallLedger(ActivationsIn(r.matchLog), ConsumptionsIn(r.matchLog), r.firewallActive, r.specialGameUsed,
                      r.currentSpecialRound.Some?)
    && ClockOk(r.matchClock, w.hist, r.config.matchClockTotalMs, r.specialGameUsed, latest)
    && VerdictOk(r.accusationHistory, r.winner)
  }

  ghost predicate Valid(w: World) {
    && Ready(w, w.room.phase.state, w.room.submissions, w.room.phase.startedAt)
    && 0 < w.room.phase.phaseId < w.nextId
    && (w.room.phase.durationMs.Some? <==> Timed(w.room.phase.state))
    && (w.room.phase.state == HackerCorruption ==> !w.room.firewallActive)
  }

  /** The clock reading of a step is not before the phase it finds the room in began. */
  ghost predicate Timely(w: World, input: Input) {
    input.Receive? ==> w.room.phase.startedAt <= input.deps.now
  }
}
