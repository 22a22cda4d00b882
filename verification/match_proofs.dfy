/** The beginning and the end of a match, connections and the roster keep the room's invariant. */
module MatchProofs {
  import opened Collections
  import opened SpeakingOrder
  import opened AdminRotation
  import opened MatchClocks
  import opened RoomState
  import opened Transitions
  import opened RoomInvariant
  import opened RoomProofs
  import opened RoundProofs
  import opened PhaseProofs
  import opened SpecialProofs
  import opened AccusationProofs

  // ---- Setting out ------------------------------------------------------------------------------------------------

  lemma LobbyStart(w: World, d: Deps)
    requires Valid(w) && w.room.phase.state == Lobby && PlayerCountFits(w.room)
    ensures var t := Transition(w, RoleAssignment, d);
            && (t.Some? <==> w.room.config.roleRule != UnknownRoleRule)
            && (t.Some? ==> Arrives(t, RoleReveal, w))
  {
    LobbyBlank(w, d.now);
    StartValid(w, d);
    hide Valid, Blank, Transition;
  }

  lemma RematchStart(w: World, d: Deps)
    requires Valid(w) && PlayerCountFits(w.room)
    ensures var t := Transition(ResetMatch(w), RoleAssignment, d);
            && (t.Some? <==> w.room.config.roleRule != UnknownRoleRule)
            && (t.Some? ==> Arrives(t, RoleReveal, w))
  {
    ResetBlank(w, d.now);
    StartValid(ResetMatch(w), d);
    hide Valid, Blank, Transition;
  }

  /** Submissions matter to an open vote only. */
  lemma SubmissionNoted(w: World, submissions: set<PlayerId>)
    requires Valid(w) && !InAccusation(w.room.phase.state) && w.room.phase.state != Abandoned
    ensures Valid(w.(room := w.room.(submissions := submissions)))
  {
    hide RosterOk, MatchOk, AdminOk, JudgedOk, RoundOk, SpecialOk, AccusationOk, HackLedger, FirewallLedger,
         VerdictOk, ClockOk, IdsFresh;
  }

  lemma RevealDone(w: World, submissions: set<PlayerId>, d: Deps)
    requires Valid(w) && w.room.phase.state == RoleReveal && w.room.phase.startedAt <= d.now
    ensures Arrives(Transition(w.(room := w.room.(submissions := submissions)), GameIntro, d), GameIntro, w)
  {
    ReadyLater(w, d.now);
    var t := w.(room := w.room.(submissions := submissions));
    assert Ready(t, GameIntro, {}, d.now) by {
      hide RosterOk, MatchOk, AdminOk, JudgedOk, RoundOk, SpecialOk, AccusationOk, HackLedger, FirewallLedger,
           VerdictOk, ClockOk, IdsFresh;
    }
    hide Ready, Valid;
    Enter(t, GameIntro, d);
  }

  lemma ClockStarted(w: World, now: int)
    requires Ready(w, GameIntro, w.room.submissions, now) && w.nextId > 0
    ensures Ready(w.(room := w.room.(matchClock := StartMatchClock(w.room.config.matchClockTotalMs, now, w.nextId)),
                     nextId := w.nextId + 1), MinigameSelect, {}, now)
  {
    assert ClockOk(StartMatchClock(w.room.config.matchClockTotalMs, now, w.nextId), w.hist, w.room.config.matchClockTotalMs,
                   w.room.specialGameUsed, now);
    hide RosterOk, MatchOk, AdminOk, JudgedOk, RoundOk, SpecialOk, AccusationOk, HackLedger, FirewallLedger,
         VerdictOk, ClockOk, HackerIds;
  }

  /** Before the match clock starts there was no special game to raise the firewall. */
  lemma FirewallDownBefore(w: World, latest: int)
    requires Ready(w, GameIntro, w.room.submissions, latest)
    ensures !w.room.firewallActive
  {
    hide RosterOk, MatchOk, AdminOk, JudgedOk, RoundOk, SpecialOk, AccusationOk, HackLedger, VerdictOk, IdsFresh,
         WellFormed, ActivationsIn, ConsumptionsIn, HacksIn;
  }

  /** The match clock starts when the introduction ends, and the first Admin is assigned. */
  lemma IntroDone(w: World, d: Deps)
    requires Valid(w) && w.room.phase.state == GameIntro && w.room.phase.startedAt <= d.now
    ensures var t := w.(room := w.room.(matchClock := StartMatchClock(w.room.config.matchClockTotalMs, d.now, w.nextId)),
                        nextId := w.nextId + 1);
            && Arrives(Transition(t, MinigameSelect, d), MinigameSelect, w)
            && !Transition(t, MinigameSelect, d).value.room.firewallActive
            && (w.room.playerOrder != [] ==> Transition(t, MinigameSelect, d).value.room.adminId.Some?)
  {
    ReadyLater(w, d.now);
    FirewallDownBefore(w, d.now);
    hide Valid, Ready;
    ClockStarted(w, d.now);
    var t := w.(room := w.room.(matchClock := StartMatchClock(w.room.config.matchClockTotalMs, d.now, w.nextId)),
                nextId := w.nextId + 1);
    SelectValid(t, d);
    hide Transition;
  }

  // ---- The end ------------------------------------------------------------------------------------------------------

  lemma ResultsLeft(w: World, d: Deps)
    requires Valid(w) && w.room.phase.state == FinalResults && w.room.phase.startedAt <= d.now
    ensures Arrives(Transition(w, RematchLobby, d), RematchLobby, w)
  {
    ReadyLater(w, d.now);
    assert Ready(w, RematchLobby, {}, d.now) by {
      hide RosterOk, MatchOk, AdminOk, JudgedOk, RoundOk, SpecialOk, AccusationOk, HackLedger, FirewallLedger,
           VerdictOk, ClockOk, IdsFresh;
    }
    hide Ready, Valid;
    Enter(w, RematchLobby, d);
  }

  /** The current clock's expiry ends the match for the hackers from every phase in which that clock runs. */
  lemma ClockRunsOut(w: World, clockId: nat, d: Deps)
    requires Valid(w) && w.room.phase.startedAt <= d.now
    requires w.room.matchClock.status == Running && w.room.matchClock.clockId == clockId && w.room.winner.None?
    ensures var t := HandleMatchClockExpired(w, clockId, d);
            t.Accepted? && Arrives(Some(t.world), FinalResults, w)
  {
    ReadyLater(w, d.now);
    StoppedClockOk(w.room.matchClock, w.hist, w.room.config.matchClockTotalMs, w.room.specialGameUsed, 0, d.now);
    assert Live(w.room.phase.state, w.room.matchClock.status);
    hide Ready, Valid, ClockOk, HacksIn, ActivationsIn, ConsumptionsIn;
    var clock := StopMatchClock(w.room.matchClock);
    var log := w.room.matchLog;
    if w.room.currentAccusation.Some? {
      var entry := LogEntry(d.now, AccusationAbandonedByClock(w.room.currentAccusation.value.initiatorId));
      PlainEntryKeepsLedgers(w.room.matchLog, entry);
      log := log + [entry];
    }
    EndedForHackers(w, log, clock, d.now);
    var t := w.(room := w.room.(currentRound := None, currentSpecialRound := None, currentAccusation := None, matchLog := log,
                                matchClock := clock, winner := Some(HackersWin)));
    Enter(t, FinalResults, d);
  }

  lemma Closed(w: World, d: Deps)
    requires Valid(w) && w.room.phase.startedAt <= d.now
    ensures var t := CloseTheRoom(w, d);
            t.Some? && Valid(t.value) && t.value.room.phase.state == Abandoned
            && (t.value == w || t.value.room.phase.phaseId >= w.nextId)
  {
    if w.room.phase.state != Abandoned {
      ReadyLater(w, d.now);
      assert Ready(w, Abandoned, {}, d.now) by {
        hide RosterOk, MatchOk, AdminOk, JudgedOk, RoundOk, SpecialOk, HackLedger, FirewallLedger, VerdictOk, ClockOk,
             IdsFresh;
      }
      hide Ready, Valid;
      Enter(w, Abandoned, d);
    }
  }

  // ---- Connections and the roster -----------------------------------------------------------------------------------

  /** Public and private halves may change together while they list the same players. */
  lemma PlayersChanged(w: World, players: map<PlayerId, Player>, hostConnected: bool)
    requires Valid(w) && RosterOk(w.room.playerOrder, players, w.priv.players)
    ensures Valid(w.(room := w.room.(players := players, hostConnected := hostConnected)))
  {
    hide RosterOk, MatchOk, AdminOk, JudgedOk, RoundOk, SpecialOk, AccusationOk, HackLedger, FirewallLedger,
         VerdictOk, ClockOk, IdsFresh;
  }

  lemma ConnectionChanged(w: World, playerId: PlayerId, connected: bool)
    requires Valid(w)
    ensures Valid(SetConnected(w, playerId, connected))
  {
    if playerId in w.room.players {
      var players := w.room.players[playerId := w.room.players[playerId].(connected := connected)];
      assert players.Keys == w.room.players.Keys;
      assert RosterOk(w.room.playerOrder, players, w.priv.players);
      hide RosterOk, Valid;
      PlayersChanged(w, players, w.room.hostConnected);
    }
  }

  lemma ProfileChanged(w: World, playerId: PlayerId, profile: nat)
    requires Valid(w) && playerId in w.room.players
    ensures Valid(w.(room := w.room.(players := w.room.players[playerId := w.room.players[playerId].(profile := profile)])))
  {
    var players := w.room.players[playerId := w.room.players[playerId].(profile := profile)];
    assert players.Keys == w.room.players.Keys;
    assert RosterOk(w.room.playerOrder, players, w.priv.players);
    hide RosterOk, Valid;
    PlayersChanged(w, players, w.room.hostConnected);
  }

  /** Between matches nothing depends on who is in the room but the rosters themselves. */
  lemma RosterChanged(w: World, order: seq<PlayerId>, players: map<PlayerId, Player>,
                      secret: map<PlayerId, PrivatePlayer>, nextId: nat)
    requires Valid(w) && InLobby(w.room)
    requires RosterOk(order, players, secret) && IdsFresh(order, w.room.matchClock.clockId, nextId) && nextId >= w.nextId
    ensures Valid(w.(room := w.room.(playerOrder := order, players := players), priv := w.priv.(players := secret), nextId := nextId))
  {
    hide RosterOk, MatchOk, AdminOk, JudgedOk, RoundOk, SpecialOk, AccusationOk, HackLedger, FirewallLedger,
         VerdictOk, ClockOk, IdsFresh;
  }

  lemma JoinedRoster(order: seq<PlayerId>, players: map<PlayerId, Player>, secret: map<PlayerId, PrivatePlayer>,
                     id: PlayerId,
                     player: Player, own: PrivatePlayer, clockId: nat)
    requires RosterOk(order, players, secret) && IdsFresh(order, clockId, id) && player.alive
    ensures RosterOk(order + [id], players[id := player], secret[id := own]) && IdsFresh(order + [id], clockId, id + 2)
  {
    assert Elements(order + [id]) == Elements(order) + {id};
    assert id !in order;
  }

  lemma JoinValid(w: World, profile: nat)
    requires Valid(w) && JoinPlayer(w, profile).Accepted?
    ensures Valid(JoinPlayer(w, profile).world)
  {
    var player, own := Player(profile, true, true), PrivatePlayer(w.nextId + 1, None);
    JoinedRoster(w.room.playerOrder, w.room.players, w.priv.players, w.nextId, player, own, w.room.matchClock.clockId);
    hide RosterOk, IdsFresh, Valid;
    RosterChanged(w, w.room.playerOrder + [w.nextId], w.room.players[w.nextId := player], w.priv.players[w.nextId := own], w.nextId + 2);
  }

  lemma RemovedRoster(order: seq<PlayerId>, players: map<PlayerId, Player>, secret: map<PlayerId, PrivatePlayer>,
                      id: PlayerId,
                      clockId: nat, nextId: nat)
    requires RosterOk(order, players, secret) && IdsFresh(order, clockId, nextId)
    ensures var left := Filter(order, (p: PlayerId) => p != id);
            RosterOk(left, players - {id}, secret - {id}) && IdsFresh(left, clockId, nextId)
  {
    FilterDistinct(order, (p: PlayerId) => p != id);
    var left := Filter(order, (p: PlayerId) => p != id);
    assert Elements(left) == Elements(order) - {id};
  }

  lemma RemoveValid(w: World, playerId: PlayerId)
    requires Valid(w) && InLobby(w.room)
    ensures Valid(RemovePlayer(w, playerId))
  {
    RemovedRoster(w.room.playerOrder, w.room.players, w.priv.players, playerId, w.room.matchClock.clockId, w.nextId);
    hide RosterOk, IdsFresh, Valid;
    RosterChanged(w, Filter(w.room.playerOrder, (id: PlayerId) => id != playerId), w.room.players - {playerId},
                  w.priv.players - {playerId}, w.nextId);
  }

  lemma CreatedValid(config: Config, d: Deps)
    ensures Valid(CreateRoom(config, d))
  {
  }
}
