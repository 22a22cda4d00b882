/** How a match begins and ends, and who is in the room: what each accepted event makes of it, part by part. */
module MatchCourse {
  import opened Collections
  import opened Random
  import opened SpeakingOrder
  import opened MatchClocks
  import opened RoomState
  import opened Transitions
  import opened RoomInvariant
  import opened RoomProofs
  import opened RoundProofs
  import opened PhaseProofs
  import opened MatchProofs
  import opened Frames
  import opened Dispatch
  import Minigames

  // ---- The start ----------------------------------------------------------------------------------------------------

  /** Everybody has a role and its hacks, and nothing of the match has happened yet. */
  ghost predicate MatchBegun(w: World, t: World) {
    var r, hackers := t.room, HackerIds(t.priv.players);
    && r.phase.state == RoleReveal && r.playerOrder == w.room.playerOrder && r.players.Keys == w.room.players.Keys
    && r.hackerCount == |hackers| && HackersFor(r.config, |r.playerOrder|, r.hackerCount)
    && t.priv.players.Keys == t.priv.hacksRemaining.Keys == w.priv.players.Keys
    && (forall id :: id in t.priv.players ==>
          && t.priv.players[id].role == Some(if id in hackers then Hacker else Crew)
          && t.priv.hacksRemaining[id] == if id in hackers then 2 else 0)
    && r.cycle == 1 && r.roundInCycle == 0 && !r.firewallActive && !r.specialGameUsed && r.winner.None?
    && r.adminId.None? && r.adminQueue == [] && r.matchClock.status == Pending
    && r.currentRound.None? && r.currentSpecialRound.None? && r.currentAccusation.None?
    && r.accusationHistory == [] && r.matchLog == []
  }

  /** What a room remembers from match to match unless it is reset. */
  predicate Remembers(r: Room, t: Room) {
    && t.roundHistory == r.roundHistory && t.specialRoundHistory == r.specialRoundHistory
    && t.accusationCooldownUntil == r.accusationCooldownUntil
  }

  /**
    A lobby answers the host's start only: it is refused for a number of players that does not fit, throws when the
    rule for the roles is unknown, and else begins the match.
   */
  lemma LobbyAnswers(w: World, e: Event, sender: Sender, d: Deps)
    requires Valid(w) && w.room.phase.state == Lobby && !CrossCutting(e) && Addressed(w, e, sender)
    ensures var o := HandleEvent(w, e, sender, d);
            if !e.StartGame? then o == Rejected(w, InvalidEventForState)
            else if !(w.room.config.minPlayers <= |w.room.playerOrder| <= w.room.config.maxPlayers)
            then o == Rejected(w, InvalidPlayerCount)
            else if w.room.config.roleRule == UnknownRoleRule then o.Threw?
            else o.Accepted? && MatchBegun(w, o.world) && Remembers(w.room, o.world.room)
  {
    hide Valid, HandleEvent, HandleInState, MatchBegun, Transition, Blank, Remembers;
    Reaches(w, e, sender, d);
    InState(w, e, d);
    LobbyBlank(w, d.now);
    RolesLead(w, w, d);
  }

  /** A rematch lobby does likewise, and begins with everything of the last match forgotten. */
  lemma RematchAnswers(w: World, e: Event, sender: Sender, d: Deps)
    requires Valid(w) && w.room.phase.state == RematchLobby && !CrossCutting(e) && Addressed(w, e, sender)
    ensures var o := HandleEvent(w, e, sender, d);
            if !e.StartGame? then o == Rejected(w, InvalidEventForState)
            else if !(w.room.config.minPlayers <= |w.room.playerOrder| <= w.room.config.maxPlayers)
            then o.Rejected? && o.code == InvalidPlayerCount
            else if w.room.config.roleRule == UnknownRoleRule then o.Threw?
            else
              && o.Accepted? && MatchBegun(w, o.world)
              && o.world.room.roundHistory == [] && o.world.room.specialRoundHistory == []
              && o.world.room.accusationCooldownUntil.None?
  {
    hide Valid, HandleEvent, HandleInState, MatchBegun, Transition, Blank, ResetMatch;
    Reaches(w, e, sender, d);
    InState(w, e, d);
    ResetBlank(w, d.now);
    ResetRosters(w);
    RolesLead(w, ResetMatch(w), d);
  }

  lemma ResetRosters(w: World)
    ensures var t := ResetMatch(w);
            && t.room.playerOrder == w.room.playerOrder && t.room.players.Keys == w.room.players.Keys
            && t.priv.players.Keys == w.priv.players.Keys && t.room.config == w.room.config
            && t.room.roundHistory == [] && t.room.specialRoundHistory == [] && t.room.accusationCooldownUntil.None?
  {
  }

  lemma RolesLead(w: World, s: World, d: Deps)
    requires Blank(s, d.now) && s.room.playerOrder == w.room.playerOrder && s.room.players.Keys == w.room.players.Keys
    requires s.priv.players.Keys == w.priv.players.Keys && s.room.config == w.room.config
    ensures Transition(s, RoleAssignment, d).Some? <==> s.room.config.roleRule != UnknownRoleRule
    ensures Transition(s, RoleAssignment, d).Some? ==>
              var t := Transition(s, RoleAssignment, d).value;
              MatchBegun(w, t) && Remembers(s.room, t.room)
  {
    hide Blank, PerformRoleAssignment, HackersFor, DurationFor, SetPhase, HackerIds;
    EnteredBlank(s, d);
    var entered := SetPhase(s, RoleAssignment, d);
    RolesFrame(entered, d);
    if s.room.config.roleRule != UnknownRoleRule {
      RolesDealt(entered, d);
      var roles := PerformRoleAssignment(entered, d).value;
      PlainEntry(roles, RoleReveal, d);
      EntryFrame(roles, RoleReveal, d);
    }
  }

  lemma EnteredBlank(s: World, d: Deps)
    requires Blank(s, d.now)
    ensures var t := SetPhase(s, RoleAssignment, d);
            && Blank(t, d.now) && t.priv == s.priv && t.room.config == s.room.config
            && t.room.playerOrder == s.room.playerOrder && t.room.players == s.room.players
            && t.room.winner.None? && t.room.currentRound.None? && t.room.currentSpecialRound.None? && t.room.currentAccusation.None?
            && t.room.accusationHistory == [] && t.room.matchLog == [] && Remembers(s.room, t.room)
  {
    hide RosterOk, DurationFor;
  }

  lemma RolesFrame(w: World, d: Deps)
    ensures PerformRoleAssignment(w, d).Some? <==> w.room.config.roleRule != UnknownRoleRule
    ensures PerformRoleAssignment(w, d).Some? ==>
              var t := PerformRoleAssignment(w, d).value;
              t.room == w.room.(hackerCount := t.room.hackerCount, cycle := 1, roundInCycle := 0, firewallActive := false,
                                specialGameUsed := false, adminId := None, adminQueue := [], matchClock := InitMatchClock())
  {
    hide RandomSubset, HackerCountFor;
  }

  // ---- The reveal and the introduction ------------------------------------------------------------------------------

  /** Everybody who is connected has acknowledged, and somebody is. */
  predicate AllSeen(r: Room, seen: set<PlayerId>) {
    && (exists id :: id in r.playerOrder && id in r.players && r.players[id].connected)
    && forall id :: id in r.playerOrder && id in r.players && r.players[id].connected ==> id in seen
  }

  /** The phase is another, nobody has submitted anything in it, and all else is as before. */
  ghost predicate OnlyPhase(w: World, t: World, next: GameState) {
    && t.room.phase.state == next
    && t.room == w.room.(phase := t.room.phase, submissions := {}, stateVersion := t.room.stateVersion) && t.priv == w.priv
  }

  /**
    The reveal is left by the timer, by the host, and by the acknowledgement with which all connected players
    have given theirs; any earlier one is noted and that is all.
   */
  lemma RevealAnswers(w: World, e: Event, sender: Sender, d: Deps)
    requires w.room.phase.state == RoleReveal && !CrossCutting(e) && Addressed(w, e, sender)
    ensures var o := HandleEvent(w, e, sender, d);
            if e.AcknowledgeReveal? then
              if e.playerId !in w.room.players then o == Rejected(w, NotParticipant)
              else if e.playerId in w.room.submissions then o == Rejected(w, DuplicateAction)
              else
                var seen := w.room.submissions + {e.playerId};
                if AllSeen(w.room, seen) then o.Accepted? && OnlyPhase(w, o.world, GameIntro)
                else o == Accepted(w.(room := w.room.(submissions := seen)))
            else if e.TimerExpired? || HostDoes(e, SkipRevealTimer) then o.Accepted? && OnlyPhase(w, o.world, GameIntro)
            else o == Rejected(w, InvalidEventForState)
  {
    hide HandleEvent, HandleInState, Transition, EverybodyAcknowledged, AllSeen, OnlyPhase;
    Reaches(w, e, sender, d);
    InState(w, e, d);
    PlainMoves(w, w, GameIntro, d);
    if e.AcknowledgeReveal? {
      var noted := w.(room := w.room.(submissions := w.room.submissions + {e.playerId}));
      PlainMoves(w, noted, GameIntro, d);
      SeenByAll(noted.room);
      SameSeen(w.room, noted.room);
    }
  }

  lemma SeenByAll(r: Room)
    ensures EverybodyAcknowledged(r) <==> AllSeen(r, r.submissions)
  {
    var connected := ConnectedIds(r);
    assert connected != [] ==> connected[0] in connected;
  }

  lemma SameSeen(r: Room, noted: Room)
    requires noted == r.(submissions := noted.submissions)
    ensures AllSeen(noted, noted.submissions) <==> AllSeen(r, noted.submissions)
  {
  }

  lemma PlainMoves(w: World, s: World, next: GameState, d: Deps)
    requires s.room == w.room.(submissions := s.room.submissions) && s.priv == w.priv
    requires next !in {RoleAssignment, MinigameSelect, HackerCorruption}
    ensures Transition(s, next, d).Some? && OnlyPhase(w, Transition(s, next, d).value, next)
  {
    hide Transition, SetPhase;
    PlainEntry(s, next, d);
    EntryFrame(s, next, d);
  }

  /** The match clock has started, with all its time, at this moment, and the Admin's turn has come. */
  ghost predicate ClockStarted(w: World, t: World, now: int) {
    var r, clock, totalMs := t.room, t.room.matchClock, w.room.config.matchClockTotalMs;
    && r.phase.state == MinigameSelect && clock.status == Running && clock.clockId == w.nextId
    && clock.startedAt == Some(now) && clock.deadlineAt == Some(now + totalMs)
    && clock.remainingMs == totalMs && clock.totalPenaltyMs == 0
    && r == w.room.(matchClock := clock, phase := r.phase, submissions := {}, stateVersion := r.stateVersion,
                    adminId := r.adminId, adminQueue := r.adminQueue)
  }

  /** The introduction is left by the timer or the host. */
  lemma IntroAnswers(w: World, e: Event, sender: Sender, d: Deps)
    requires w.room.phase.state == GameIntro && !CrossCutting(e) && Addressed(w, e, sender)
    ensures var o := HandleEvent(w, e, sender, d);
            if e.TimerExpired? || HostDoes(e, SkipIntro) then o.Accepted? && ClockStarted(w, o.world, d.now)
            else o == Rejected(w, InvalidEventForState)
  {
    hide HandleEvent, HandleInState, Transition;
    Reaches(w, e, sender, d);
    InState(w, e, d);
    TurnKeeps(w.(room := w.room.(matchClock := StartMatchClock(w.room.config.matchClockTotalMs, d.now, w.nextId)),
                 nextId := w.nextId + 1), d);
  }

  // ---- The end --------------------------------------------------------------------------------------------------------

  /** The end of the match's time, for the clock that runs: the hackers win and what was going on is dropped. */
  lemma TimeIsUp(w: World, clockId: nat, sender: Sender, d: Deps)
    ensures var o := HandleEvent(w, MatchClockExpired(clockId), sender, d);
            var r := w.room;
            if r.matchClock.status == Running && r.matchClock.clockId == clockId && r.winner.None?
            then
              && o.Accepted? && o.world.priv == w.priv
              && o.world.room == r.(
                   winner := Some(HackersWin), matchClock := r.matchClock.(status := Stopped, deadlineAt := None),
                   currentRound := None, currentSpecialRound := None, currentAccusation := None,
                   matchLog := r.matchLog + (if r.currentAccusation.None? then []
                                             else [LogEntry(d.now, AccusationAbandonedByClock(r.currentAccusation.value.initiatorId))]),
                   phase := o.world.room.phase, submissions := {}, stateVersion := o.world.room.stateVersion)
              && o.world.room.phase.state == FinalResults
            else o == Rejected(w, StaleMatchClock)
  {
    hide HandleInState, HandlePushButton, Transition, CloseTheRoom, ResetMatch, SetConnected, Disconnect;
    var logged := if w.room.currentAccusation.None? then w.room
                  else Log(w.room, d, AccusationAbandonedByClock(w.room.currentAccusation.value.initiatorId));
    var cleared := w.(room := logged.(currentRound := None, currentSpecialRound := None, currentAccusation := None));
    var ended := EndMatch(cleared, HackersWin);
    assert w.room.matchLog + [] == w.room.matchLog;
    PlainEntry(ended, FinalResults, d);
    EntryFrame(ended, FinalResults, d);
    hide SetPhase;
  }

  /** With the results on show each player may ask once for a rematch; the host leads on to the rematch lobby. */
  lemma FinalAnswers(w: World, e: Event, sender: Sender, d: Deps)
    requires w.room.phase.state == FinalResults && !CrossCutting(e) && Addressed(w, e, sender)
    ensures var o := HandleEvent(w, e, sender, d);
            if e.RequestRematch? then
              if e.playerId in w.room.submissions then o == Rejected(w, DuplicateAction)
              else o == Accepted(w.(room := w.room.(submissions := w.room.submissions + {e.playerId})))
            else if HostDoes(e, Advance) then o.Accepted? && OnlyPhase(w, o.world, RematchLobby)
            else o == Rejected(w, InvalidEventForState)
  {
    hide HandleEvent, HandleInState, Transition, OnlyPhase;
    Reaches(w, e, sender, d);
    InState(w, e, d);
    PlainMoves(w, w, RematchLobby, d);
  }

  /** A room is closed once, by the host or for the host's absence, with everything in it left as it was. */
  lemma ClosingAnswers(w: World, sender: Sender, d: Deps)
    ensures var o := HandleEvent(w, CloseRoom, sender, d);
            if sender != HostSender then o == Rejected(w, NotHost)
            else if w.room.phase.state == Abandoned then o == Accepted(w)
            else o.Accepted? && OnlyPhase(w, o.world, Abandoned)
    ensures var o := HandleEvent(w, GraceExpired, sender, d);
            if w.room.phase.state == Abandoned then o == Accepted(w)
            else o.Accepted? && OnlyPhase(w, o.world, Abandoned)
  {
    hide HandleInState, HandlePushButton, HandleMatchClockExpired, ResetMatch, Transition, SetConnected, Disconnect, OnlyPhase;
    PlainMoves(w, w, Abandoned, d);
  }

  /** A restart, by the host and once a match is over, leads to a lobby with the players and nothing else. */
  lemma Restarted(w: World, sender: Sender, d: Deps)
    ensures var o := HandleEvent(w, RestartMatch, sender, d);
            if sender != HostSender then o == Rejected(w, NotHost)
            else if w.room.phase.state != FinalResults && w.room.phase.state != RematchLobby
            then o == Rejected(w, InvalidEventForState)
            else o.Accepted?
    ensures var o := HandleEvent(w, RestartMatch, sender, d);
            o.Accepted? ==>
              var r := o.world.room;
              && r.phase.state == Lobby && r.config == w.room.config && r.playerOrder == w.room.playerOrder
              && r.players.Keys == w.room.players.Keys
              && (forall id :: id in r.players ==> r.players[id] == w.room.players[id].(alive := true))
              && o.world.priv.hacksRemaining == map[] && o.world.priv.players.Keys == w.priv.players.Keys
              && (forall id :: id in o.world.priv.players ==> o.world.priv.players[id] == w.priv.players[id].(role := None))
              && r.winner.None? && r.hackerCount == 0 && r.adminId.None? && r.adminQueue == [] && r.cycle == 0 && r.roundInCycle == 0
              && !r.firewallActive && !r.specialGameUsed && r.matchClock.status == Pending && r.accusationCooldownUntil.None?
              && r.currentRound.None? && r.currentSpecialRound.None? && r.currentAccusation.None?
              && r.roundHistory == [] && r.specialRoundHistory == [] && r.accusationHistory == [] && r.matchLog == []
  {
    hide HandleInState, HandlePushButton, HandleMatchClockExpired, CloseTheRoom, Transition, SetConnected, Disconnect;
    PlainEntry(ResetMatch(w), Lobby, d);
    EntryFrame(ResetMatch(w), Lobby, d);
    hide SetPhase;
  }

  // ---- Who is there -----------------------------------------------------------------------------------------------------

  /** A room begins as an empty lobby of its host, with nothing played yet. */
  lemma RoomIsNew(config: Config, d: Deps)
    ensures var w := CreateRoom(config, d);
            var r := w.room;
            && r.config == config && r.hostConnected && r.playerOrder == [] && r.players == map[] && w.priv.players == map[]
            && r.phase.state == Lobby && r.phase.startedAt == d.now && r.phase.durationMs.None? && r.phase.phaseId < w.nextId
            && r.winner.None? && r.adminId.None? && r.adminQueue == [] && r.cycle == 0 && r.roundInCycle == 0
            && !r.firewallActive && !r.specialGameUsed && r.matchClock.status == Pending && r.hackerCount == 0
            && r.currentRound.None? && r.currentSpecialRound.None? && r.currentAccusation.None? && r.submissions == {}
            && r.accusationCooldownUntil.None? && w.priv.hacksRemaining == map[]
            && r.roundHistory == [] && r.specialRoundHistory == [] && r.accusationHistory == [] && r.matchLog == []
  {
  }

  /** Connections change a status and nothing else. */
  lemma ConnectionNoted(w: World, e: Event, sender: Sender, d: Deps)
    requires HandleEvent(w, e, sender, d).Accepted?
    ensures var t := HandleEvent(w, e, sender, d).world;
            match e
            case HostDisconnected => t == w.(room := w.room.(hostConnected := false))
            case HostReconnected => t == w.(room := w.room.(hostConnected := true))
            case PlayerDisconnected(p) => StatusOnly(w, t, p, false)
            case PlayerReconnected(p) => StatusOnly(w, t, p, true)
            case _ => true
  {
    hide HandleInState, HandlePushButton, HandleMatchClockExpired, CloseTheRoom, Transition, ResetMatch;
  }

  ghost predicate StatusOnly(w: World, t: World, p: PlayerId, connected: bool) {
    && t == w.(room := w.room.(players := t.room.players)) && t.room.players.Keys == w.room.players.Keys
    && forall id :: id in w.room.players ==>
         t.room.players[id] == if id == p then w.room.players[id].(connected := connected) else w.room.players[id]
  }

  /** Everybody but one player is there as before, in the same order. */
  ghost predicate Without(w: World, t: World, p: PlayerId) {
    && t == w.(room := w.room.(playerOrder := t.room.playerOrder, players := w.room.players - {p}),
               priv := w.priv.(players := w.priv.players - {p}))
    && (forall id :: id in t.room.playerOrder <==> id in w.room.playerOrder && id != p)
    && InSameOrder(t.room.playerOrder, w.room.playerOrder)
  }

  ghost predicate Before(ids: seq<PlayerId>, a: PlayerId, b: PlayerId) {
    exists k, l :: 0 <= k < l < |ids| && ids[k] == a && ids[l] == b
  }

  /** Whoever comes before another in the shorter list does so in the longer one. */
  ghost predicate InSameOrder(some: seq<PlayerId>, all: seq<PlayerId>) {
    forall i, j :: 0 <= i < j < |some| ==> Before(all, some[i], some[j])
  }

  lemma StillBefore(ids: seq<PlayerId>, a: PlayerId, b: PlayerId)
    requires ids != [] && ((ids[0] == a && b in ids[1..]) || Before(ids[1..], a, b))
    ensures Before(ids, a, b)
  {
    if ids[0] == a && b in ids[1..] {
      var l :| 0 <= l < |ids[1..]| && ids[1..][l] == b;
      assert ids[l + 1] == b;
    } else {
      var k, l :| 0 <= k < l < |ids[1..]| && ids[1..][k] == a && ids[1..][l] == b;
      assert ids[k + 1] == a && ids[l + 1] == b;
    }
  }

  lemma {:induction false} FilterInOrder(all: seq<PlayerId>, keep: PlayerId -> bool)
    ensures InSameOrder(Filter(all, keep), all)
  {
    if all != [] {
      var some, rest := Filter(all, keep), Filter(all[1..], keep);
      FilterInOrder(all[1..], keep);
      hide Before;
      forall i, j | 0 <= i < j < |some| ensures Before(all, some[i], some[j]) {
        if keep(all[0]) {
          assert some == [all[0]] + rest;
          assert some[j] == rest[j - 1];
          if i > 0 {
            assert some[i] == rest[i - 1];
          }
        }
        StillBefore(all, some[i], some[j]);
      }
    }
  }

  /** The roster steps, each where it is allowed and with all it does. */
  lemma RosterSteps(w: World, profile: nat, p: PlayerId)
    ensures var open := w.room.phase.state == Lobby || w.room.phase.state == RematchLobby;
            var id := w.nextId;
            JoinPlayer(w, profile)
            == if !open then Rejected(w, MatchInProgress)
               else if |w.room.playerOrder| >= w.room.config.maxPlayers then Rejected(w, InvalidPlayerCount)
               else Accepted(w.(room := w.room.(playerOrder := w.room.playerOrder + [id],
                                                players := w.room.players[id := Player(profile, true, true)]),
                                priv := w.priv.(players := w.priv.players[id := PrivatePlayer(id + 1, None)]),
                                nextId := id + 2))
    ensures if w.room.phase.state == Lobby || w.room.phase.state == RematchLobby
            then LeavePlayer(w, p).Accepted? && Without(w, LeavePlayer(w, p).world, p)
            else LeavePlayer(w, p) == Rejected(w, MatchInProgress)
    ensures if w.room.phase.state == Lobby
            then KickPlayer(w, p).Accepted? && Without(w, KickPlayer(w, p).world, p)
            else KickPlayer(w, p) == Rejected(w, MatchInProgress)
    ensures var o := SetPlayerProfile(w, p, profile);
            if w.room.phase.state != Lobby then o == Rejected(w, MatchInProgress)
            else if p !in w.room.players then o == Rejected(w, NotParticipant)
            else
              && o.Accepted? && o.world == w.(room := w.room.(players := o.world.room.players))
              && o.world.room.players.Keys == w.room.players.Keys
              && forall id :: id in w.room.players ==>
                   o.world.room.players[id] == if id == p then w.room.players[id].(profile := profile) else w.room.players[id]
  {
    FilterInOrder(w.room.playerOrder, (id: PlayerId) => id != p);
    hide Filter, InSameOrder;
  }

  // ---- How long a phase lasts ---------------------------------------------------------------------------------------------

  /** The time a game gets for the step it is in. */
  ghost predicate GameTime(game: Minigames.MinigameId, m: Minigames.ModuleState, ms: nat) {
    && (game == Minigames.RankIt || game == Minigames.CompleteIt ==> ms == 45_000)
    && (game == Minigames.DrawIt ==> ms == 30_000)
    && (game == Minigames.PredictThemGame ==> ms == 20_000)
    && (game == Minigames.DescribeItGame && m.Describing? ==> ms == if m.description.step.Think? then 9_000 else 12_000)
    && (game == Minigames.DefendItGame && m.Defending? ==>
          && (m.defence.step.Defence? ==> ms == 15_000)
          && (m.defence.step.FollowUpQuestion? ==> ms == 8_000)
          && (m.defence.step.Prep? || m.defence.step.FollowUpResponse? ==> ms == 10_000))
  }

  /** The time of the phase that a room is in: its own setting, that of its game, or as long as people want. */
  ghost predicate TimeAllotted(r: Room) {
    var ms, t := r.phase.durationMs, r.config.timers;
    match r.phase.state
    case RoleReveal => ms == Some(t.roleReveal)
    case GameIntro => ms == Some(t.intro)
    case MinigameSelect => ms == Some(t.adminSelection)
    case HackerCorruption => ms == Some(t.corruption)
    case MinigameInstructions => ms == Some(t.instructions)
    case ResultsReveal => ms == Some(t.results)
    case Discussion => ms == Some(t.discussion)
    case AccusationSelect => ms == Some(t.accusationSelection)
    case AccusationVote => ms == Some(t.accusationVoting)
    case SpecialGameIntro => ms == Some(t.specialIntro)
    case SpecialGamePlay => r.currentSpecialRound.Some? ==> ms == Some(90_000)
    case SpecialGameResult => ms == Some(t.specialResult)
    case MinigamePlay =>
      r.currentRound.Some? && r.currentRound.value.moduleState.Some? && OwnGame(r) ==>
        ms.Some? && GameTime(r.currentRound.value.minigameId, r.currentRound.value.moduleState.value, ms.value)
    case _ => ms == None
  }

  /** Every phase that begins is given its time. */
  lemma PhaseTimed(w: World, e: Event, sender: Sender, d: Deps)
    requires HandleEvent(w, e, sender, d).Accepted?
    ensures var r := HandleEvent(w, e, sender, d).world.room; r.phase == w.room.phase || TimeAllotted(r)
  {
    hide HandleEvent, RoundContinues, SpecialContinues, Follows, DurationFor, TimeAllotted;
    EventFrame(w, e, sender, d);
    var r := HandleEvent(w, e, sender, d).world.room;
    if r.phase != w.room.phase {
      DurationIsTime(r);
    }
  }

  lemma DurationIsTime(r: Room)
    requires r.phase.durationMs == DurationFor(r.phase.state, r)
    ensures TimeAllotted(r)
  {
  }
}
