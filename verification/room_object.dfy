/**
  The room as the event handlers change it: a copy whose public and private halves each handler
  updates in place, one assignment after the other. Every method is tied to the step on values of
  the same name, about which everything else is proved.
 */
module RoomObjects {
  import opened Collections
  import opened Random
  import opened SpeakingOrder
  import opened MatchClocks
  import opened RoomState
  import Minigames
  import BombProtocol
  import BombContent
  import T = Transitions
  import Invariant = RoomInvariant
  import MatchProofs
  import Runs

  /** What a handler answers; `Thrown` is an exception, after which the copy is discarded. */
  datatype Reply = Ok | Refused(code: RejectionCode) | Thrown

  /** The copy and the answer are what the step on values says. */
  ghost predicate Agrees(reply: Reply, after: World, expected: Outcome) {
    match expected
    case Accepted(w) => reply == Ok && after == w
    case Rejected(w, code) => reply == Refused(code) && after == w
    case Threw => reply == Thrown
  }

  /** The same for the steps inside a handler, which throw or do not. */
  ghost predicate Follows(ok: bool, after: World, expected: Option<World>) {
    (ok <==> expected.Some?) && (ok ==> after == expected.value)
  }

  function ReplyOf(ok: bool): Reply {
    if ok then Ok else Thrown
  }

  class RoomObject {
    var room: Room
    var priv: Priv
    var nextId: nat
    ghost var hist: History

    ghost function Snapshot(): World
      reads this
    {
      World(room, priv, nextId, hist)
    }

    ghost predicate Valid()
      reads this
    {
      Invariant.Valid(Snapshot())
    }

    /** The clone every event is handled on, so that the caller's room is never changed. */
    constructor Clone(original: RoomObject)
      ensures Snapshot() == original.Snapshot()
    {
      room := original.room;
      priv := original.priv;
      nextId := original.nextId;
      hist := original.hist;
    }

    /** A new room in its lobby. */
    constructor (config: Config, d: Deps)
      ensures Snapshot() == T.CreateRoom(config, d) && Valid()
    {
      hide Invariant.Ready;
      room := Room(true, config, [], map[], Phase(Lobby, 1, d.now, None), 0, 0, false, false, None, None, [],
                   InitMatchClock(), 0, None, None, None, None, {}, [], [], [], [], 0);
      priv := Priv(map[], map[]);
      nextId := 2;
      hist := NO_HISTORY;
      new;
      MatchProofs.CreatedValid(config, d);
    }

    // ---- Core transition and auto-advance ---------------------------------------------------------

    method Log(kind: LogKind, d: Deps)
      modifies `room
      ensures room == T.Log(old(room), d, kind)
    {
      room := room.(matchLog := room.matchLog + [LogEntry(d.now, kind)]);
    }

    method FreshId() returns (id: nat)
      modifies `nextId
      ensures id == old(nextId) && nextId == old(nextId) + 1
    {
      id := nextId;
      nextId := nextId + 1;
    }

    method SetPhase(next: GameState, d: Deps)
      modifies `room, `nextId
      ensures Snapshot() == T.SetPhase(old(Snapshot()), next, d)
    {
      hide DurationFor;
      var id := FreshId();
      room := room.(phase := Phase(next, id, d.now, DurationFor(next, room)));
      room := room.(submissions := {});
      room := room.(stateVersion := room.stateVersion + 1);
    }

    /** Enters a phase; for the phases that never wait, their work follows at once. */
    method Transition(next: GameState, d: Deps) returns (ok: bool)
      modifies this
      ensures Follows(ok, Snapshot(), T.Transition(old(Snapshot()), next, d))
      decreases match next case RoleAssignment => 3 case HackerCorruption => 2 case _ => 0
    {
      hide T.SetPhase, T.PerformRoleAssignment, T.AssignNextAdmin, T.ResolveFirewallBlock, T.ProceedToInstructions;
      SetPhase(next, d);
      match next
      case RoleAssignment =>
        ok := PerformRoleAssignment(d);
        if ok {
          ok := Transition(RoleReveal, d);
        }
      case MinigameSelect =>
        AssignNextAdmin(d);
        ok := true;
      case HackerCorruption =>
        ok := true;
        if room.firewallActive {
          ResolveFirewallBlock(d);
          ok := ProceedToInstructions(d);
        }
      case _ =>
        ok := true;
    }

    /** Rotates the Admin queue: drops who left, reshuffles when it is empty, takes its head. */
    method AssignNextAdmin(d: Deps)
      modifies `room, `hist
      ensures Snapshot() == T.AssignNextAdmin(old(Snapshot()), d)
    {
      hide EligibleIf, Filter, Shuffle;
      var eligibleIds := EligibleMinigameIds(room);
      var queue := Filter(room.adminQueue, (id: PlayerId) => id in eligibleIds);
      if |queue| == 0 && |eligibleIds| > 0 {
        queue := Shuffle(eligibleIds, d.rng(AdminShuffle));
      }
      if |queue| > 0 {
        room := room.(adminId := Some(queue[0]));
        hist := hist.(admins := hist.admins + [queue[0]]);
        room := room.(adminQueue := queue[1..]);
      } else {
        room := room.(adminId := None);
        room := room.(adminQueue := []);
      }
    }

    // ---- Role assignment ------------------------------------------------------------------------------

    method PerformRoleAssignment(d: Deps) returns (ok: bool)
      modifies this
      ensures Follows(ok, Snapshot(), T.PerformRoleAssignment(old(Snapshot()), d))
    {
      hide RandomSubset, T.HackerCountFor, T.AssignRoles, T.HackBudget;
      if room.config.roleRule == UnknownRoleRule {
        return false;
      }
      var hackers := Elements(RandomSubset(room.playerOrder, T.HackerCountFor(room.config, |room.playerOrder|), d.rng(RoleDraw)));
      room := room.(hackerCount := |hackers|);
      DealRoles(hackers);
      room := room.(cycle := 1, roundInCycle := 0);
      room := room.(firewallActive := false, specialGameUsed := false);
      room := room.(adminId := None, adminQueue := []);
      room := room.(matchClock := InitMatchClock());
      hist := NO_HISTORY;
      ok := true;
    }

    /** Deals the roles player by player, two hacks to each hacker. */
    method DealRoles(hackers: set<PlayerId>)
      modifies `priv
      ensures priv == Priv(T.AssignRoles(old(priv.players), room.playerOrder, hackers),
                           old(priv.hacksRemaining) + T.HackBudget(old(priv.players), room.playerOrder, hackers))
    {
      hide T.AssignRoles, T.HackBudget;
      var order := room.playerOrder;
      NobodyDealt(priv, hackers);
      var i := 0;
      while i < |order|
        invariant 0 <= i <= |order|
        invariant priv == Dealt(old(priv), order[..i], hackers)
      {
        var id := order[i];
        OneMoreDealt(old(priv), order[..i], id, hackers);
        if id in priv.players {
          var role := if id in hackers then Hacker else Crew;
          priv := priv.(players := priv.players[id := priv.players[id].(role := Some(role))]);
          priv := priv.(hacksRemaining := priv.hacksRemaining[id := if role == Hacker then 2 else 0]);
        }
        i := i + 1;
        assert order[..i] == order[..i - 1] + [id];
      }
      assert order[..i] == order;
    }

    // ---- Round setup ------------------------------------------------------------------------------------

    method BeginNormalRound(id: Minigames.MinigameId, participantIds: seq<PlayerId>, selected: seq<PlayerId>, d: Deps)
      modifies `room
      ensures Snapshot() == T.BeginNormalRound(old(Snapshot()), id, participantIds, selected, d)
    {
      room := room.(roundInCycle := room.roundInCycle + 1);
      room := room.(currentRound := Some(Round(room.cycle, room.roundInCycle, id, room.adminId, selected, participantIds,
                                               [], {}, false, None, map[], map[], d.now)));
    }

    method AutoSelect(d: Deps) returns (ok: bool)
      modifies this
      ensures Follows(ok, Snapshot(), T.AutoSelect(old(Snapshot()), d))
    {
      hide T.AutoSelectMinigame, T.AutoSelectParticipants, T.ExpandParticipants, T.Transition, T.BeginNormalRound;
      var id := T.AutoSelectMinigame(room, d);
      var selected := T.AutoSelectParticipants(room, id, d);
      BeginNormalRound(id, T.ExpandParticipants(room, id, selected), selected, d);
      ok := Transition(HackerCorruption, d);
    }

    method ResolveFirewallBlock(d: Deps)
      modifies `room
      ensures Snapshot() == T.ResolveFirewallBlock(old(Snapshot()), d)
    {
      if room.currentRound.None? {
        return;
      }
      room := room.(firewallActive := false);
      Log(FirewallConsumed, d);
    }

    method ProceedToInstructions(d: Deps) returns (ok: bool)
      modifies this
      ensures Follows(ok, Snapshot(), T.ProceedToInstructions(old(Snapshot()), d))
      decreases 1
    {
      hide T.StartModule, T.Transition;
      if room.currentRound.None? {
        return true;
      }
      ghost var round := room.currentRound.value;
      if room.config.revealPolicy == OnInstructions {
        room := room.(currentRound := Some(room.currentRound.value.(hackedRevealed := true)));
      }
      StartIgnoresReveal(round, room.currentRound.value.hackedRevealed, d);
      var started := T.StartModule(room.currentRound.value, d);
      if started.None? {
        return false;
      }
      room := room.(currentRound := Some(room.currentRound.value.(moduleState := started)));
      ok := Transition(MinigameInstructions, d);
    }

    // ---- Completion and the special game -------------------------------------------------------------------

    method CompleteMinigame(d: Deps) returns (ok: bool)
      modifies this
      ensures Follows(ok, Snapshot(), T.CompleteMinigame(old(Snapshot()), d))
    {
      hide T.Transition, Minigames.Succeeded;
      if room.currentRound.None? {
        return true;
      }
      var success := room.currentRound.value.moduleState.Some? && Minigames.Succeeded(room.currentRound.value.moduleState.value);
      if room.config.revealPolicy == OnResults {
        room := room.(currentRound := Some(room.currentRound.value.(hackedRevealed := true)));
      }
      var round := room.currentRound.value;
      room := room.(roundHistory := room.roundHistory + [RoundRecord(
        round.cycle, round.roundInCycle, round.minigameId, round.adminId, round.hackedIds, round.hackedRevealed, success,
        round.startedAt, d.now)]);
      ok := Transition(ResultsReveal, d);
    }

    method ResolveAfterRoundOrSpecial(d: Deps) returns (ok: bool)
      modifies this
      ensures Follows(ok, Snapshot(), T.ResolveAfterRoundOrSpecial(old(Snapshot()), d))
    {
      hide T.Transition, T.BeginSpecialGame, T.SpecialGameDue;
      if T.SpecialGameDue(room) {
        BeginSpecialGame(d);
        ok := Transition(SpecialGameIntro, d);
      } else {
        ok := Transition(MinigameSelect, d);
      }
    }

    method BeginSpecialGame(d: Deps)
      modifies `room, `hist
      ensures Snapshot() == T.BeginSpecialGame(old(Snapshot()), d)
    {
      hide T.SpecialParticipants, PauseMatchClock, T.NotePause;
      var participants := T.SpecialParticipants(room, d);
      room := room.(currentSpecialRound := Some(SpecialRound(room.cycle, participants, None, map[], map[], d.now)));
      room := room.(specialGameUsed := true);
      hist := T.NotePause(hist, room.matchClock, d.now);
      room := room.(matchClock := PauseMatchClock(room.matchClock, d.now));
    }

    method CompleteSpecialGame(d: Deps) returns (ok: bool)
      modifies this
      ensures Follows(ok, Snapshot(), T.CompleteSpecialGame(old(Snapshot()), d))
    {
      hide T.Transition;
      if room.currentSpecialRound.None? {
        return true;
      }
      var s := room.currentSpecialRound.value;
      var success := s.moduleState.Some? && s.moduleState.value.status == BombProtocol.Success;
      room := room.(specialRoundHistory := room.specialRoundHistory
                      + [SpecialRecord(s.cycle, s.participantIds, success, s.startedAt, d.now)]);
      ok := Transition(SpecialGameResult, d);
    }

    method Resume(d: Deps)
      modifies `room, `nextId, `hist
      ensures Snapshot() == T.Resume(old(Snapshot()), d)
    {
      if room.matchClock.status == Paused {
        hist := T.NoteResume(hist, room.matchClock, d.now);
        var id := FreshId();
        room := room.(matchClock := ResumeMatchClock(room.matchClock, d.now, id));
      }
    }

    method EndMatch(winner: Winner)
      modifies `room
      ensures Snapshot() == T.EndMatch(old(Snapshot()), winner)
    {
      room := room.(winner := Some(winner));
      room := room.(matchClock := StopMatchClock(room.matchClock));
    }

    method LeaveSpecial(d: Deps) returns (ok: bool)
      modifies this
      ensures Follows(ok, Snapshot(), T.LeaveSpecial(old(Snapshot()), d))
    {
      hide T.Transition, T.ResolveAfterRoundOrSpecial, T.Resume, T.EndMatch, ApplyPenalty;
      room := room.(currentSpecialRound := None);
      var history := room.specialRoundHistory;
      if |history| > 0 && history[|history| - 1].success {
        room := room.(firewallActive := true);
        Log(FirewallActivated, d);
        Resume(d);
      } else if |history| > 0 {
        room := room.(matchClock := ApplyPenalty(room.matchClock, room.config.failPenaltyMs));
        Log(PenaltyApplied(room.config.failPenaltyMs), d);
        if room.matchClock.remainingMs <= 0 {
          EndMatch(HackersWin);
          ok := Transition(FinalResults, d);
          return;
        }
        Resume(d);
      } else {
        Resume(d);
      }
      ok := ResolveAfterRoundOrSpecial(d);
    }

    // ---- Accusation --------------------------------------------------------------------------------------------

    method ReturnToGameplay(origin: Origin, d: Deps) returns (ok: bool)
      modifies this
      ensures Follows(ok, Snapshot(), T.ReturnToGameplay(old(Snapshot()), d, origin))
    {
      hide T.Transition, T.SetPhase;
      if origin == FromMinigameSelect {
        SetPhase(MinigameSelect, d);
        ok := true;
      } else {
        ok := Transition(MinigameSelect, d);
      }
    }

    method HandlePushButton(playerId: PlayerId, d: Deps) returns (reply: Reply)
      modifies this
      ensures Agrees(reply, Snapshot(), T.HandlePushButton(old(Snapshot()), playerId, d))
    {
      hide T.Transition, EligibleVoterIds;
      if room.winner.Some? {
        return Refused(InvalidEventForState);
      }
      if room.phase.state != Discussion && room.phase.state != MinigameSelect {
        return Refused(InvalidEventForState);
      }
      if room.accusationCooldownUntil.Some? && d.now < room.accusationCooldownUntil.value {
        return Refused(AccusationOnCooldown);
      }
      if playerId !in EligibleVoterIds(room) {
        return Refused(NotEligibleVoter);
      }
      var origin := if room.phase.state == Discussion then FromDiscussion else FromMinigameSelect;
      room := room.(currentAccusation := Some(Accusation(playerId, room.hackerCount, None, [], map[], origin, d.now)));
      Log(AccusationStarted(playerId, room.hackerCount, origin), d);
      var ok := Transition(AccusationSelect, d);
      reply := ReplyOf(ok);
    }

    method HandleAccusationSelect(e: Event, d: Deps) returns (reply: Reply)
      modifies this
      ensures Agrees(reply, Snapshot(), T.HandleAccusationSelect(old(Snapshot()), e, d))
    {
      hide T.Transition, T.ReturnToGameplay, EligibleVoterIds, Distinct;
      if room.currentAccusation.None? {
        return Refused(InvalidEventForState);
      }
      var acc := room.currentAccusation.value;
      if e.SubmitAccusation? {
        if e.playerId != acc.initiatorId {
          return Refused(NotInitiator);
        }
        var ids := e.suspectIds;
        if !Distinct(ids) {
          return Refused(InvalidSuspects);
        }
        if |ids| != acc.requiredSuspectCount {
          return Refused(InvalidSuspects);
        }
        var eligible := AllIn(ids, EligibleVoterIds(room));
        if !eligible {
          return Refused(InvalidSuspects);
        }
        room := room.(currentAccusation := Some(acc.(suspectIds := Some(ids), eligibleVoterIds := EligibleVoterIds(room))));
        Log(AccusationLocked(ids), d);
        EligibleIgnoresAccusation(old(room), room);
        var ok := Transition(AccusationVote, d);
        return ReplyOf(ok);
      }
      if e.TimerExpired? {
        Log(AccusationCancelled(acc.initiatorId), d);
        room := room.(currentAccusation := None);
        var ok := ReturnToGameplay(acc.origin, d);
        return ReplyOf(ok);
      }
      reply := Refused(InvalidEventForState);
    }

    method ResolveAccusationVote(d: Deps) returns (ok: bool)
      modifies this
      ensures Follows(ok, Snapshot(), T.ResolveAccusationVote(old(Snapshot()), d))
    {
      hide T.Transition, T.ReturnToGameplay, HackerIds, T.Approvals, Elements;
      if room.currentAccusation.None? || room.currentAccusation.value.suspectIds.None? {
        return true;
      }
      var acc := room.currentAccusation.value;
      var suspectIds := acc.suspectIds.value;
      var total := |acc.eligibleVoterIds|;
      var approveCount := |T.Approvals(acc.votes)|;
      var approved := total > 0 && 2 * approveCount > total;
      if !approved {
        room := room.(accusationHistory := room.accusationHistory + [AccusationRecord(
          acc.initiatorId, suspectIds, acc.votes, false, None, acc.startedAt, d.now)]);
        room := room.(accusationCooldownUntil := Some(d.now + room.config.accusationCooldownMs));
        Log(AccusationRejected(approveCount, total), d);
        room := room.(currentAccusation := None);
        ok := ReturnToGameplay(acc.origin, d);
        return;
      }
      var correct := HackerIds(priv.players) == Elements(suspectIds);
      room := room.(accusationHistory := room.accusationHistory + [AccusationRecord(
        acc.initiatorId, suspectIds, acc.votes, true, Some(correct), acc.startedAt, d.now)]);
      room := room.(currentAccusation := None);
      EndMatch(if correct then CrewWins else HackersWin);
      Log(AccusationResolved(correct), d);
      ok := Transition(FinalResults, d);
    }

    method HandleAccusationVote(e: Event, d: Deps) returns (reply: Reply)
      modifies this
      ensures Agrees(reply, Snapshot(), T.HandleAccusationVote(old(Snapshot()), e, d))
    {
      hide T.ResolveAccusationVote;
      if room.currentAccusation.None? || room.currentAccusation.value.suspectIds.None? {
        return Refused(InvalidEventForState);
      }
      if e.SubmitAccusationVote? {
        if e.playerId !in room.currentAccusation.value.eligibleVoterIds {
          return Refused(NotEligibleVoter);
        }
        if e.playerId in room.submissions {
          return Refused(DuplicateAction);
        }
        room := room.(submissions := room.submissions + {e.playerId});
        var acc := room.currentAccusation.value;
        room := room.(currentAccusation := Some(acc.(votes := acc.votes[e.playerId := e.vote])));
        var ok := true;
        if T.AllVoted(room.currentAccusation.value) {
          ok := ResolveAccusationVote(d);
        }
        return ReplyOf(ok);
      }
      if e.TimerExpired? || (e.HostPhaseAction? && e.hostAction == EndVoteEarly) {
        var ok := ResolveAccusationVote(d);
        return ReplyOf(ok);
      }
      reply := Refused(InvalidEventForState);
    }

    // ---- Match reset -------------------------------------------------------------------------------------------

    method ResetMatch()
      modifies this
      ensures Snapshot() == T.ResetMatch(old(Snapshot()))
    {
      room := room.(cycle := 0, roundInCycle := 0, firewallActive := false, specialGameUsed := false, winner := None);
      room := room.(adminId := None, adminQueue := [], matchClock := InitMatchClock(), hackerCount := 0);
      room := room.(currentRound := None, currentSpecialRound := None, currentAccusation := None, accusationCooldownUntil := None);
      room := room.(roundHistory := [], specialRoundHistory := [], accusationHistory := [], matchLog := []);
      ReviveAll();
      ForgetRoles();
      priv := priv.(hacksRemaining := map[]);
      hist := NO_HISTORY;
    }

    method ReviveAll()
      modifies `room
      ensures room == old(room).(players := Revived(old(room.players), {}))
    {
      var left := room.players.Keys;
      AllLeft(room.players, priv.players);
      while left != {}
        invariant left <= old(room.players).Keys
        invariant room == old(room).(players := Revived(old(room.players), left))
        decreases |left|
      {
        var id :| id in left;
        left := left - {id};
        room := room.(players := room.players[id := room.players[id].(alive := true)]);
        assert room.players == Revived(old(room.players), left);
      }
    }

    method ForgetRoles()
      modifies `priv
      ensures priv == old(priv).(players := Forgotten(old(priv.players), {}))
    {
      var left := priv.players.Keys;
      AllLeft(room.players, priv.players);
      while left != {}
        invariant left <= old(priv.players).Keys
        invariant priv == old(priv).(players := Forgotten(old(priv.players), left))
        decreases |left|
      {
        var id :| id in left;
        left := left - {id};
        priv := priv.(players := priv.players[id := priv.players[id].(role := None)]);
        assert priv.players == Forgotten(old(priv.players), left);
      }
    }

    // ---- Per-state handlers --------------------------------------------------------------------------------------

    method SetConnected(playerId: PlayerId, connected: bool)
      modifies `room
      ensures Snapshot() == T.SetConnected(old(Snapshot()), playerId, connected)
    {
      if playerId in room.players {
        room := room.(players := room.players[playerId := room.players[playerId].(connected := connected)]);
      }
    }

    /** Tells the round's module, too; none of them minds, but an inherited name has nothing to tell. */
    method HandlePlayerDisconnected(playerId: PlayerId) returns (ok: bool)
      modifies `room
      ensures Follows(ok, Snapshot(), T.Disconnect(old(Snapshot()), playerId))
    {
      SetConnected(playerId, false);
      ok := true;
      if room.currentRound.Some? && playerId in room.currentRound.value.participantIds {
        ok := Minigames.Registered(room.currentRound.value.minigameId);
      }
    }

    method HandleLobby(e: Event, d: Deps) returns (reply: Reply)
      modifies this
      ensures Agrees(reply, Snapshot(), T.HandleLobby(old(Snapshot()), e, d))
    {
      hide T.Transition;
      if e.StartGame? {
        if !T.PlayerCountFits(room) {
          return Refused(InvalidPlayerCount);
        }
        var ok := Transition(RoleAssignment, d);
        return ReplyOf(ok);
      }
      reply := Refused(InvalidEventForState);
    }

    method HandleRoleReveal(e: Event, d: Deps) returns (reply: Reply)
      modifies this
      ensures Agrees(reply, Snapshot(), T.HandleRoleReveal(old(Snapshot()), e, d))
    {
      hide T.Transition, T.EverybodyAcknowledged;
      if e.AcknowledgeReveal? {
        if e.playerId !in room.players {
          return Refused(NotParticipant);
        }
        if e.playerId in room.submissions {
          return Refused(DuplicateAction);
        }
        room := room.(submissions := room.submissions + {e.playerId});
        var ok := true;
        if T.EverybodyAcknowledged(room) {
          ok := Transition(GameIntro, d);
        }
        return ReplyOf(ok);
      }
      if e.TimerExpired? || (e.HostPhaseAction? && e.hostAction == SkipRevealTimer) {
        var ok := Transition(GameIntro, d);
        return ReplyOf(ok);
      }
      reply := Refused(InvalidEventForState);
    }

    method HandleGameIntro(e: Event, d: Deps) returns (reply: Reply)
      modifies this
      ensures Agrees(reply, Snapshot(), T.HandleGameIntro(old(Snapshot()), e, d))
    {
      hide T.Transition, StartMatchClock;
      if e.TimerExpired? || (e.HostPhaseAction? && e.hostAction == SkipIntro) {
        var id := FreshId();
        room := room.(matchClock := StartMatchClock(room.config.matchClockTotalMs, d.now, id));
        var ok := Transition(MinigameSelect, d);
        return ReplyOf(ok);
      }
      reply := Refused(InvalidEventForState);
    }

    method HandleMinigameSelect(e: Event, d: Deps) returns (reply: Reply)
      modifies this
      ensures Agrees(reply, Snapshot(), T.HandleMinigameSelect(old(Snapshot()), e, d))
    {
      hide T.Transition, T.AutoSelect, T.ExpandParticipants, T.BeginNormalRound, EligibleMinigameIds, Distinct;
      if e.AdminSelectMinigame? {
        if room.adminId != Some(e.playerId) {
          return Refused(NotAdmin);
        }
        if e.minigame.None? {
          return Refused(InvalidMinigameId);
        }
        var id, ids := e.minigame.value, e.participantIds;
        if !Distinct(ids) {
          return Refused(InvalidParticipants);
        }
        if !Minigames.WithinLimit(id, |ids|) {
          return Refused(InvalidParticipants);
        }
        var eligible := AllIn(ids, EligibleMinigameIds(room));
        if !eligible {
          return Refused(InvalidParticipants);
        }
        if !room.config.adminMaySelectSelf && e.playerId in ids {
          return Refused(InvalidParticipants);
        }
        var participants := T.ExpandParticipants(room, id, ids);
        if id == Minigames.PredictThemGame && |participants| - |ids| < 1 {
          return Refused(InvalidParticipants);
        }
        BeginNormalRound(id, participants, ids, d);
        var ok := Transition(HackerCorruption, d);
        return ReplyOf(ok);
      }
      if e.TimerExpired? {
        var ok := AutoSelect(d);
        return ReplyOf(ok);
      }
      reply := Refused(InvalidEventForState);
    }

    method HandleHackWindow(e: Event, d: Deps) returns (reply: Reply)
      modifies this
      ensures Agrees(reply, Snapshot(), T.HandleHackWindow(old(Snapshot()), e, d))
    {
      hide T.ProceedToInstructions, HackerIds;
      if room.currentRound.None? {
        return Refused(InvalidEventForState);
      }
      if e.SubmitHack? {
        if room.firewallActive {
          return Refused(FirewallActive);
        }
        if e.playerId !in HackerIds(priv.players) {
          return Refused(NotHacker);
        }
        var remaining := if e.playerId in priv.hacksRemaining then priv.hacksRemaining[e.playerId] else 0;
        if remaining <= 0 {
          return Refused(NoHacksRemaining);
        }
        var round := room.currentRound.value;
        if e.playerId in round.actionsUsed {
          return Refused(AlreadyHackedThisRound);
        }
        if e.targetId !in round.participantIds {
          return Refused(InvalidTarget);
        }
        if e.targetId in round.hackedIds {
          return Refused(TargetAlreadyHacked);
        }
        round := round.(hackedIds := round.hackedIds + [e.targetId]);
        round := round.(actionsUsed := round.actionsUsed + {e.playerId});
        room := room.(currentRound := Some(round));
        priv := priv.(hacksRemaining := priv.hacksRemaining[e.playerId := remaining - 1]);
        Log(HackAccepted(e.playerId, e.targetId), d);
        return Ok;
      }
      if e.TimerExpired? {
        var ok := ProceedToInstructions(d);
        return ReplyOf(ok);
      }
      reply := Refused(InvalidEventForState);
    }

    method HandleMinigameInstructions(e: Event, d: Deps) returns (reply: Reply)
      modifies this
      ensures Agrees(reply, Snapshot(), T.HandleMinigameInstructions(old(Snapshot()), e, d))
    {
      hide T.Transition;
      if e.TimerExpired? || (e.HostPhaseAction? && e.hostAction == SkipInstructions) {
        var ok := Transition(MinigamePlay, d);
        return ReplyOf(ok);
      }
      reply := Refused(InvalidEventForState);
    }

    method HandleMinigamePlay(e: Event, d: Deps) returns (reply: Reply)
      modifies this
      ensures Agrees(reply, Snapshot(), T.HandleMinigamePlay(old(Snapshot()), e, d))
    {
      hide T.PlayAction, T.PlayTimeout, T.CompleteMinigame;
      if room.currentRound.None? {
        return Refused(InvalidEventForState);
      }
      if e.SubmitAction? {
        reply := PlayAction(e.playerId, e.seqNo, e.actionId, e.action, d);
        return;
      }
      if e.TimerExpired? {
        var ok := PlayTimeout(d);
        return ReplyOf(ok);
      }
      if e.HostPhaseAction? && e.hostAction == ForceEndMinigame {
        var ok := CompleteMinigame(d);
        return ReplyOf(ok);
      }
      reply := Refused(InvalidEventForState);
    }

    method PlayAction(playerId: PlayerId, seqNo: int, actionId: nat, action: GameAction, d: Deps) returns (reply: Reply)
      requires room.currentRound.Some?
      modifies this
      ensures Agrees(reply, Snapshot(), T.PlayAction(old(Snapshot()), old(room).currentRound.value, playerId, seqNo, actionId, action, d))
    {
      hide T.CompleteMinigame, T.Transition, Minigames.ValidateAction, Minigames.HandleAction, Minigames.IsComplete,
           Minigames.InternalStep, T.LastTwenty, T.RecentOf, T.LastSeqOf;
      var round := room.currentRound.value;
      if playerId !in round.participantIds {
        return Refused(NotParticipant);
      }
      var recentIds := T.RecentOf(round.recentActionIds, playerId);
      if actionId in recentIds {
        return Ok;
      }
      if seqNo <= T.LastSeqOf(round.lastSeq, playerId) {
        return Refused(OutOfOrder);
      }
      if round.moduleState.None? || !action.Regular?
         || !Minigames.ValidateAction(round.minigameId, round.moduleState.value, playerId, action.action) {
        return Refused(InvalidAction);
      }
      var before := round.moduleState.value;
      var after := Minigames.HandleAction(before, playerId, action.action);
      round := round.(moduleState := Some(after));
      round := round.(lastSeq := round.lastSeq[playerId := seqNo]);
      round := round.(recentActionIds := round.recentActionIds[playerId := T.LastTwenty(recentIds + [actionId])]);
      room := room.(currentRound := Some(round));
      var ok := true;
      if Minigames.IsComplete(after) {
        ok := CompleteMinigame(d);
      } else if Minigames.InternalStep(before).Some? && Minigames.InternalStep(after) != Minigames.InternalStep(before) {
        ok := Transition(MinigamePlay, d);
      }
      reply := ReplyOf(ok);
    }

    method PlayTimeout(d: Deps) returns (ok: bool)
      requires room.currentRound.Some?
      modifies this
      ensures Follows(ok, Snapshot(), T.PlayTimeout(old(Snapshot()), old(room).currentRound.value, d))
    {
      hide T.CompleteMinigame, T.Transition, Minigames.HandleTimeout, Minigames.IsComplete, Minigames.InternalStep;
      var round := room.currentRound.value;
      if round.moduleState.None? || Minigames.HandleTimeout(round.moduleState.value).None? {
        ok := CompleteMinigame(d);
        return;
      }
      var before := round.moduleState.value;
      var after := Minigames.HandleTimeout(before).value;
      room := room.(currentRound := Some(round.(moduleState := Some(after))));
      if !Minigames.IsComplete(after) && Minigames.InternalStep(before).Some?
         && Minigames.InternalStep(after) != Minigames.InternalStep(before) {
        ok := Transition(MinigamePlay, d);
      } else {
        ok := CompleteMinigame(d);
      }
    }

    method HandleResultsReveal(e: Event, d: Deps) returns (reply: Reply)
      modifies this
      ensures Agrees(reply, Snapshot(), T.HandleResultsReveal(old(Snapshot()), e, d))
    {
      hide T.Transition;
      if e.TimerExpired? || (e.HostPhaseAction? && e.hostAction == SkipResultsReveal) {
        room := room.(currentRound := None);
        var ok := Transition(Discussion, d);
        return ReplyOf(ok);
      }
      reply := Refused(InvalidEventForState);
    }

    method HandleDiscussion(e: Event, d: Deps) returns (reply: Reply)
      modifies this
      ensures Agrees(reply, Snapshot(), T.HandleDiscussion(old(Snapshot()), e, d))
    {
      hide T.ResolveAfterRoundOrSpecial;
      if e.TimerExpired? || (e.HostPhaseAction? && e.hostAction == EndDiscussionEarly) {
        var ok := ResolveAfterRoundOrSpecial(d);
        return ReplyOf(ok);
      }
      reply := Refused(InvalidEventForState);
    }

    method HandleSpecialGameIntro(e: Event, d: Deps) returns (reply: Reply)
      modifies this
      ensures Agrees(reply, Snapshot(), T.HandleSpecialGameIntro(old(Snapshot()), e, d))
    {
      hide T.Transition, T.StartSpecial;
      if e.TimerExpired? || (e.HostPhaseAction? && e.hostAction == SkipSpecialIntro) {
        if room.currentSpecialRound.Some? {
          var started := T.StartSpecial(room.currentSpecialRound.value.participantIds, d);
          if started.None? {
            return Thrown;
          }
          room := room.(currentSpecialRound := Some(room.currentSpecialRound.value.(moduleState := started)));
        }
        var ok := Transition(SpecialGamePlay, d);
        return ReplyOf(ok);
      }
      reply := Refused(InvalidEventForState);
    }

    method HandleSpecialGamePlay(e: Event, d: Deps) returns (reply: Reply)
      modifies this
      ensures Agrees(reply, Snapshot(), T.HandleSpecialGamePlay(old(Snapshot()), e, d))
    {
      hide T.CompleteSpecialGame, T.SpecialAction;
      if room.currentSpecialRound.None? {
        return Refused(InvalidEventForState);
      }
      if e.SubmitAction? {
        reply := SpecialAction(e.playerId, e.seqNo, e.actionId, e.action, d);
        return;
      }
      if e.TimerExpired? || (e.HostPhaseAction? && e.hostAction == ForceEndSpecialGame) {
        var ok := CompleteSpecialGame(d);
        return ReplyOf(ok);
      }
      reply := Refused(InvalidEventForState);
    }

    method SpecialAction(playerId: PlayerId, seqNo: int, actionId: nat, action: GameAction,
                         d: Deps) returns (reply: Reply)
      requires room.currentSpecialRound.Some?
      modifies this
      ensures Agrees(reply, Snapshot(),
                     T.SpecialAction(old(Snapshot()), old(room).currentSpecialRound.value, playerId, seqNo, actionId, action, d))
    {
      hide T.CompleteSpecialGame, BombProtocol.ValidateAction, BombProtocol.HandleAction, T.LastTwenty, T.RecentOf,
           T.LastSeqOf;
      var round := room.currentSpecialRound.value;
      if playerId !in round.participantIds {
        return Refused(NotParticipant);
      }
      var recentIds := T.RecentOf(round.recentActionIds, playerId);
      if actionId in recentIds {
        return Ok;
      }
      if seqNo <= T.LastSeqOf(round.lastSeq, playerId) {
        return Refused(OutOfOrder);
      }
      if round.moduleState.None? || !action.Bomb? || !BombProtocol.ValidateAction(round.moduleState.value, playerId, action.bomb) {
        return Refused(InvalidAction);
      }
      var after := BombProtocol.HandleAction(round.moduleState.value, action.bomb);
      round := round.(moduleState := Some(after));
      round := round.(lastSeq := round.lastSeq[playerId := seqNo]);
      round := round.(recentActionIds := round.recentActionIds[playerId := T.LastTwenty(recentIds + [actionId])]);
      room := room.(currentSpecialRound := Some(round));
      var ok := true;
      if after.status != BombProtocol.Active {
        ok := CompleteSpecialGame(d);
      }
      reply := ReplyOf(ok);
    }

    method HandleSpecialGameResult(e: Event, d: Deps) returns (reply: Reply)
      modifies this
      ensures Agrees(reply, Snapshot(), T.HandleSpecialGameResult(old(Snapshot()), e, d))
    {
      hide T.LeaveSpecial;
      if e.TimerExpired? || (e.HostPhaseAction? && e.hostAction == Advance) {
        var ok := LeaveSpecial(d);
        return ReplyOf(ok);
      }
      reply := Refused(InvalidEventForState);
    }

    method HandleFinalResults(e: Event, d: Deps) returns (reply: Reply)
      modifies this
      ensures Agrees(reply, Snapshot(), T.HandleFinalResults(old(Snapshot()), e, d))
    {
      hide T.Transition;
      if e.RequestRematch? {
        if e.playerId in room.submissions {
          return Refused(DuplicateAction);
        }
        room := room.(submissions := room.submissions + {e.playerId});
        return Ok;
      }
      if e.HostPhaseAction? && e.hostAction == Advance {
        var ok := Transition(RematchLobby, d);
        return ReplyOf(ok);
      }
      reply := Refused(InvalidEventForState);
    }

    method HandleRematchLobby(e: Event, d: Deps) returns (reply: Reply)
      modifies this
      ensures Agrees(reply, Snapshot(), T.HandleRematchLobby(old(Snapshot()), e, d))
    {
      hide T.Transition;
      if e.StartGame? {
        ResetMatch();
        if !T.PlayerCountFits(room) {
          return Refused(InvalidPlayerCount);
        }
        var ok := Transition(RoleAssignment, d);
        return ReplyOf(ok);
      }
      reply := Refused(InvalidEventForState);
    }

    // ---- Entry point -----------------------------------------------------------------------------------------------

    method CloseTheRoom(d: Deps) returns (ok: bool)
      modifies this
      ensures Follows(ok, Snapshot(), T.CloseTheRoom(old(Snapshot()), d))
    {
      hide T.Transition;
      ok := true;
      if room.phase.state != Abandoned {
        ok := Transition(Abandoned, d);
      }
    }

    method HandleMatchClockExpired(clockId: nat, d: Deps) returns (reply: Reply)
      modifies this
      ensures Agrees(reply, Snapshot(), T.HandleMatchClockExpired(old(Snapshot()), clockId, d))
    {
      hide T.Transition;
      if room.matchClock.status != Running || room.matchClock.clockId != clockId || room.winner.Some? {
        return Refused(StaleMatchClock);
      }
      EndMatch(HackersWin);
      room := room.(currentRound := None);
      room := room.(currentSpecialRound := None);
      if room.currentAccusation.Some? {
        Log(AccusationAbandonedByClock(room.currentAccusation.value.initiatorId), d);
      }
      room := room.(currentAccusation := None);
      var ok := Transition(FinalResults, d);
      reply := ReplyOf(ok);
    }

    method HandleInState(e: Event, d: Deps) returns (reply: Reply)
      modifies this
      ensures Agrees(reply, Snapshot(), T.HandleInState(old(Snapshot()), e, d))
    {
      hide T.HandleLobby, T.HandleRoleReveal, T.HandleGameIntro, T.HandleMinigameSelect, T.HandleHackWindow,
           T.HandleMinigameInstructions, T.HandleMinigamePlay, T.HandleResultsReveal, T.HandleDiscussion,
           T.HandleAccusationSelect, T.HandleAccusationVote, T.HandleSpecialGameIntro, T.HandleSpecialGamePlay,
           T.HandleSpecialGameResult, T.HandleFinalResults, T.HandleRematchLobby;
      match room.phase.state
      case Lobby => reply := HandleLobby(e, d);
      case RoleReveal => reply := HandleRoleReveal(e, d);
      case GameIntro => reply := HandleGameIntro(e, d);
      case MinigameSelect => reply := HandleMinigameSelect(e, d);
      case HackerCorruption => reply := HandleHackWindow(e, d);
      case MinigameInstructions => reply := HandleMinigameInstructions(e, d);
      case MinigamePlay => reply := HandleMinigamePlay(e, d);
      case ResultsReveal => reply := HandleResultsReveal(e, d);
      case Discussion => reply := HandleDiscussion(e, d);
      case AccusationSelect => reply := HandleAccusationSelect(e, d);
      case AccusationVote => reply := HandleAccusationVote(e, d);
      case SpecialGameIntro => reply := HandleSpecialGameIntro(e, d);
      case SpecialGamePlay => reply := HandleSpecialGamePlay(e, d);
      case SpecialGameResult => reply := HandleSpecialGameResult(e, d);
      case FinalResults => reply := HandleFinalResults(e, d);
      case RematchLobby => reply := HandleRematchLobby(e, d);
      case _ => reply := Refused(InvalidEventForState);
    }

    method Apply(e: Event, sender: Sender, d: Deps) returns (reply: Reply)
      requires Valid() && room.phase.startedAt <= d.now
      modifies this
      ensures Agrees(reply, Snapshot(), T.HandleEvent(old(Snapshot()), e, sender, d))
      ensures reply == Ok ==> Valid()
    {
      hide Invariant.Valid, T.HandleInState, T.HandlePushButton, T.HandleMatchClockExpired, T.Transition, T.ResetMatch, T.CloseTheRoom,
           T.SetConnected, T.Disconnect, CheckSender, IsStalePhase;
      Runs.EventValid(Snapshot(), e, sender, d);
      var senderProblem := CheckSender(e, sender);
      if senderProblem.Some? {
        return Refused(senderProblem.value);
      }
      if e.PlayerDisconnected? {
        var ok := HandlePlayerDisconnected(e.playerId);
        return ReplyOf(ok);
      }
      if e.PlayerReconnected? {
        SetConnected(e.playerId, true);
        return Ok;
      }
      if e.HostDisconnected? || e.HostReconnected? {
        room := room.(hostConnected := e.HostReconnected?);
        return Ok;
      }
      if e.CloseRoom? || e.GraceExpired? {
        var ok := CloseTheRoom(d);
        return ReplyOf(ok);
      }
      if e.MatchClockExpired? {
        reply := HandleMatchClockExpired(e.clockId, d);
        return;
      }
      if e.RestartMatch? {
        if room.phase.state != FinalResults && room.phase.state != RematchLobby {
          return Refused(InvalidEventForState);
        }
        ResetMatch();
        var ok := Transition(Lobby, d);
        return ReplyOf(ok);
      }
      if IsStalePhase(room, e) {
        return Refused(StalePhase);
      }
      if e.PushButton? {
        reply := HandlePushButton(e.playerId, d);
      } else {
        reply := HandleInState(e, d);
      }
    }

    // ---- Roster steps ----------------------------------------------------------------------------------------------

    method JoinPlayer(profile: nat) returns (reply: Reply)
      requires Valid()
      modifies this
      ensures Agrees(reply, Snapshot(), T.JoinPlayer(old(Snapshot()), profile))
      ensures reply == Ok ==> Valid()
    {
      hide Invariant.Valid;
      if T.JoinPlayer(Snapshot(), profile).Accepted? {
        MatchProofs.JoinValid(Snapshot(), profile);
      }
      if room.phase.state != Lobby && room.phase.state != RematchLobby {
        return Refused(MatchInProgress);
      }
      if |room.playerOrder| >= room.config.maxPlayers {
        return Refused(InvalidPlayerCount);
      }
      var playerId := FreshId();
      var sessionToken := FreshId();
      room := room.(playerOrder := room.playerOrder + [playerId], players := room.players[playerId := Player(profile, true, true)]);
      priv := priv.(players := priv.players[playerId := PrivatePlayer(sessionToken, None)]);
      reply := Ok;
    }

    method RemovePlayer(playerId: PlayerId)
      modifies this
      ensures Snapshot() == T.RemovePlayer(old(Snapshot()), playerId)
    {
      hide Filter;
      room := room.(playerOrder := Filter(room.playerOrder, (id: PlayerId) => id != playerId), players := room.players - {playerId});
      priv := priv.(players := priv.players - {playerId});
    }

    method LeavePlayer(playerId: PlayerId) returns (reply: Reply)
      requires Valid()
      modifies this
      ensures Agrees(reply, Snapshot(), T.LeavePlayer(old(Snapshot()), playerId))
      ensures reply == Ok ==> Valid()
    {
      hide Invariant.Valid, T.RemovePlayer;
      if T.InLobby(room) {
        MatchProofs.RemoveValid(Snapshot(), playerId);
      }
      if room.phase.state != Lobby && room.phase.state != RematchLobby {
        return Refused(MatchInProgress);
      }
      RemovePlayer(playerId);
      reply := Ok;
    }

    method KickPlayer(playerId: PlayerId) returns (reply: Reply)
      requires Valid()
      modifies this
      ensures Agrees(reply, Snapshot(), T.KickPlayer(old(Snapshot()), playerId))
      ensures reply == Ok ==> Valid()
    {
      hide Invariant.Valid, T.RemovePlayer;
      if T.InLobby(room) {
        MatchProofs.RemoveValid(Snapshot(), playerId);
      }
      if room.phase.state != Lobby {
        return Refused(MatchInProgress);
      }
      RemovePlayer(playerId);
      reply := Ok;
    }

    method SetPlayerProfile(playerId: PlayerId, profile: nat) returns (reply: Reply)
      requires Valid()
      modifies this
      ensures Agrees(reply, Snapshot(), T.SetPlayerProfile(old(Snapshot()), playerId, profile))
      ensures reply == Ok ==> Valid()
    {
      hide Invariant.Valid;
      if playerId in room.players {
        MatchProofs.ProfileChanged(Snapshot(), playerId, profile);
      }
      if room.phase.state != Lobby {
        return Refused(MatchInProgress);
      }
      if playerId !in room.players {
        return Refused(NotParticipant);
      }
      room := room.(players := room.players[playerId := room.players[playerId].(profile := profile)]);
      reply := Ok;
    }
  }

  /** The players, all alive but those still left to visit. */
  ghost function Revived(players: map<PlayerId, Player>, left: set<PlayerId>): map<PlayerId, Player> {
    map id | id in players :: if id in left then players[id] else players[id].(alive := true)
  }

  /** The secret half, without roles but for those still left to visit. */
  ghost function Forgotten(secret: map<PlayerId, PrivatePlayer>, left: set<PlayerId>): map<PlayerId, PrivatePlayer> {
    map id | id in secret :: if id in left then secret[id] else secret[id].(role := None)
  }

  lemma AllLeft(players: map<PlayerId, Player>, secret: map<PlayerId, PrivatePlayer>)
    ensures Revived(players, players.Keys) == players && Forgotten(secret, secret.Keys) == secret
  {
  }

  /** The private half once the listed players have their roles. */
  ghost function Dealt(priv: Priv, dealt: seq<PlayerId>, hackers: set<PlayerId>): Priv {
    Priv(T.AssignRoles(priv.players, dealt, hackers), priv.hacksRemaining + T.HackBudget(priv.players, dealt, hackers))
  }

  lemma NobodyDealt(priv: Priv, hackers: set<PlayerId>)
    ensures Dealt(priv, [], hackers) == priv
  {
    assert T.AssignRoles(priv.players, [], hackers) == priv.players;
    assert T.HackBudget(priv.players, [], hackers) == map[];
  }

  lemma OneMoreDealt(priv: Priv, dealt: seq<PlayerId>, id: PlayerId, hackers: set<PlayerId>)
    ensures var before, after := Dealt(priv, dealt, hackers), Dealt(priv, dealt + [id], hackers);
            && (id in before.players <==> id in priv.players)
            && (id !in priv.players ==> after == before)
            && (id in priv.players ==>
                  && after.players == before.players[id := before.players[id].(role := Some(if id in hackers then Hacker else Crew))]
                  && after.hacksRemaining == before.hacksRemaining[id := if id in hackers then 2 else 0])
  {
    var before, after := Dealt(priv, dealt, hackers), Dealt(priv, dealt + [id], hackers);
    OneMoreHacks(priv, dealt, id, hackers);
    hide T.HackBudget;
    if id in priv.players {
      assert after.players == before.players[id := before.players[id].(role := Some(if id in hackers then Hacker else Crew))];
    } else {
      assert after.players == before.players;
    }
  }

  lemma OneMoreHacks(priv: Priv, dealt: seq<PlayerId>, id: PlayerId, hackers: set<PlayerId>)
    ensures var was, now := T.HackBudget(priv.players, dealt, hackers), T.HackBudget(priv.players, dealt + [id], hackers);
            && (id !in priv.players ==> now == was)
            && (id in priv.players ==>
                  priv.hacksRemaining + now == (priv.hacksRemaining + was)[id := if id in hackers then 2 else 0])
  {
    var was, now := T.HackBudget(priv.players, dealt, hackers), T.HackBudget(priv.players, dealt + [id], hackers);
    if id in priv.players {
      assert now == was[id := if id in hackers then 2 else 0];
    } else {
      assert now == was;
    }
  }

  /** Handles an event on a copy; the room given stays as it was, and what is accepted is again in order. */
  method HandleEvent(room: RoomObject, e: Event, sender: Sender, d: Deps) returns (next: RoomObject, reply: Reply)
    requires room.Valid() && room.room.phase.startedAt <= d.now
    ensures fresh(next)
    ensures Agrees(reply, next.Snapshot(), T.HandleEvent(room.Snapshot(), e, sender, d))
    ensures reply == Ok ==> next.Valid()
  {
    hide Invariant.Valid, T.HandleEvent;
    next := new RoomObject.Clone(room);
    reply := next.Apply(e, sender, d);
  }

  /** The validation loop of the selections: stops at the first id that is not listed. */
  method AllIn(ids: seq<PlayerId>, listed: seq<PlayerId>) returns (all: bool)
    ensures all <==> forall id :: id in ids ==> id in listed
  {
    for i := 0 to |ids|
      invariant forall k :: 0 <= k < i ==> ids[k] in listed
    {
      if ids[i] !in listed {
        return false;
      }
    }
    all := true;
  }

  lemma EligibleIgnoresAccusation(before: Room, after: Room)
    requires after == before.(currentAccusation := after.currentAccusation, matchLog := after.matchLog)
    ensures EligibleVoterIds(after) == EligibleVoterIds(before)
  {
    if !before.config.eliminatedMayVote {
      SameFilter(before.playerOrder, before, after);
    }
  }

  lemma {:induction false} SameFilter(order: seq<PlayerId>, before: Room, after: Room)
    requires before.players == after.players
    ensures Filter(order, (id: PlayerId) => IsAlive(before, id)) == Filter(order, (id: PlayerId) => IsAlive(after, id))
  {
    if order != [] {
      SameFilter(order[1..], before, after);
    }
  }

  lemma StartIgnoresReveal(round: Round, revealed: bool, d: Deps)
    ensures T.StartModule(round.(hackedRevealed := revealed), d) == T.StartModule(round, d)
  {
    hide Minigames.Start, Shuffle;
  }
}
