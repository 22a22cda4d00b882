/** Every handler keeps the room's invariant. */
module RoomProofs {
  import opened Collections
  import opened Random
  import opened SpeakingOrder
  import opened AdminRotation
  import opened MatchClocks
  import Minigames
  import opened RoomState
  import opened Transitions
  import opened RoomInvariant
  import BombProtocol
  import BombContent

  /** Whoever waits to play plays a game of the registry: no other has a state. */
  lemma StartedOwn(w: World, state: GameState, submissions: set<PlayerId>, latest: int)
    requires Ready(w, state, submissions, latest) && state != HackerCorruption && state != Abandoned
    ensures OwnGame(w.room)
  {
    hide RosterOk, MatchOk, AdminOk, JudgedOk, SpecialOk, AccusationOk, HackLedger, FirewallLedger, VerdictOk,
         ClockOk, IdsFresh, InProgress, ResultOk, LobbyOk, Live, SizesFit, PlayableConfig, Distinct;
  }

  /** Exactly the timed phases are given a duration. */
  lemma DurationGiven(w: World, next: GameState, latest: int)
    requires Ready(w, next, {}, latest)
    ensures DurationFor(next, w.room).Some? <==> Timed(next)
  {
    if next == MinigamePlay {
      StartedOwn(w, next, {}, latest);
    }
    hide RosterOk, MatchOk, AdminOk, JudgedOk, RoundOk, SpecialOk, AccusationOk, HackLedger, FirewallLedger, VerdictOk,
         ClockOk, IdsFresh, InProgress, ResultOk, LobbyOk, Live, Minigames.DurationMs;
  }

  /** A room that is ready for a phase is valid once it has entered it. */
  lemma EnterValid(w: World, next: GameState, d: Deps)
    requires Ready(w, next, {}, d.now) && w.nextId > 0
    requires next == HackerCorruption ==> !w.room.firewallActive
    ensures Valid(SetPhase(w, next, d))
  {
    DurationGiven(w, next, d.now);
    hide RosterOk, MatchOk, AdminOk, JudgedOk, RoundOk, SpecialOk, AccusationOk, HackLedger, FirewallLedger,
         VerdictOk, ClockOk, Minigames.IsComplete, DurationFor, Timed;
  }

  /** Phases without work of their own are entered and nothing more. */
  lemma PlainEntry(w: World, next: GameState, d: Deps)
    requires next !in {RoleAssignment, MinigameSelect, HackerCorruption}
    ensures Transition(w, next, d) == Some(SetPhase(w, next, d))
  {
    hide SetPhase;
  }

  lemma ClockLater(w: World, later: int)
    requires ClockOk(w.room.matchClock, w.hist, w.room.config.matchClockTotalMs, w.room.specialGameUsed, w.room.phase.startedAt)
    requires w.room.phase.startedAt <= later
    ensures ClockOk(w.room.matchClock, w.hist, w.room.config.matchClockTotalMs, w.room.specialGameUsed, later)
  {
  }

  // ---- Match setup --------------------------------------------------------------------------------------

  /** Nothing of a match is left, and the rosters agree: the state roles are assigned in. */
  ghost predicate Blank(w: World, latest: int) {
    var r := w.room;
    && RosterOk(r.playerOrder, r.players, w.priv.players)
    && IdsFresh(r.playerOrder, r.matchClock.clockId, w.nextId)
    && w.priv.hacksRemaining == map[] && r.matchLog == [] && r.accusationHistory == [] && r.hackerCount == 0
    && !r.firewallActive && r.winner.None?
    && r.currentRound.None? && r.currentSpecialRound.None? && r.currentAccusation.None?
    && w.hist.pauses <= (if r.specialGameUsed then 1 else 0) && 0 <= w.hist.pausedMs
    && w.nextId > 0
  }

  /** The budget handed out is two hacks for each hacker. */
  lemma {:induction false} BudgetTotal(secret: map<PlayerId, PrivatePlayer>, order: seq<PlayerId>,
                                       hackers: set<PlayerId>)
    requires hackers <= secret.Keys && forall id :: id in hackers ==> id in order
    ensures Total(HackBudget(secret, order, hackers)) == 2 * |hackers|
    decreases |secret|
  {
    if secret == map[] {
      assert HackBudget(secret, order, hackers) == map[];
    } else {
      var id :| id in secret;
      var rest := secret - {id};
      hide Total;
      BudgetTotal(rest, order, hackers - {id});
      var budget := HackBudget(secret, order, hackers);
      BudgetWithout(secret, order, hackers, id);
      hide HackBudget;
      if id in order {
        TotalSplit(budget, id);
      }
    }
  }

  lemma BudgetWithout(secret: map<PlayerId, PrivatePlayer>, order: seq<PlayerId>, hackers: set<PlayerId>, id: PlayerId)
    requires id in secret
    ensures var budget, rest := HackBudget(secret, order, hackers), HackBudget(secret - {id}, order, hackers - {id});
            && (id in budget <==> id in order)
            && (id in order ==> rest == budget - {id} && budget[id] == if id in hackers then 2 else 0)
            && (id !in order ==> rest == budget)
  {
  }

  /** Exactly the drawn players become hackers, and everybody gets a role. */
  lemma RolesAssigned(c: Config, order: seq<PlayerId>, secret: map<PlayerId, PrivatePlayer>, hackers: set<PlayerId>)
    requires secret.Keys == Elements(order) && hackers <= Elements(order)
    requires c.minPlayers <= |order| <= c.maxPlayers
    ensures HackerIds(AssignRoles(secret, order, hackers)) == hackers
    ensures MatchOk(c, order, AssignRoles(secret, order, hackers), |hackers|)
    ensures AssignRoles(secret, order, hackers).Keys == Elements(order)
  {
  }

  /** With roles handed out, an empty room is ready for the reveal. */
  lemma RevealReady(w: World, hackerCount: nat, priv: Priv, latest: int) returns (t: World)
    requires Blank(w, latest)
    requires MatchOk(w.room.config, w.room.playerOrder, priv.players, hackerCount)
    requires priv.players.Keys == w.priv.players.Keys
    requires Total(priv.hacksRemaining) == 2 * hackerCount
    ensures t == w.(room := w.room.(hackerCount := hackerCount, cycle := 1, roundInCycle := 0, firewallActive := false,
                                    specialGameUsed := false, adminId := None, adminQueue := [],
                                    matchClock := InitMatchClock()),
                    priv := priv, hist := NO_HISTORY)
    ensures Ready(t, RoleReveal, {}, latest)
  {
    t := w.(room := w.room.(hackerCount := hackerCount, cycle := 1, roundInCycle := 0, firewallActive := false,
                            specialGameUsed := false, adminId := None, adminQueue := [], matchClock := InitMatchClock()),
            priv := priv, hist := NO_HISTORY);
    NoTurnsYet(w.room.playerOrder);
    hide MatchOk, RoundOk, SpecialOk, AccusationOk, Elements, Total, Rotation, HackerIds, Distinct;
  }

  lemma RolesReady(w: World, d: Deps)
    requires Blank(w, d.now) && w.room.config.roleRule != UnknownRoleRule && PlayerCountFits(w.room)
    ensures var t := PerformRoleAssignment(w, d); t.Some? && Ready(t.value, RoleReveal, {}, d.now) && t.value.nextId > 0
  {
    var r := w.room;
    var hackers := Elements(RandomSubset(r.playerOrder, HackerCountFor(r.config, |r.playerOrder|), d.rng(RoleDraw)));
    RolesAssigned(r.config, r.playerOrder, w.priv.players, hackers);
    BudgetTotal(w.priv.players, r.playerOrder, hackers);
    var budget := HackBudget(w.priv.players, r.playerOrder, hackers);
    assert map[] + budget == budget;
    hide MatchOk, Elements, RandomSubset, HackBudget, AssignRoles, Total, RosterOk, Ready, IdsFresh, HackerCountFor;
    var t := RevealReady(w, |hackers|, Priv(AssignRoles(w.priv.players, r.playerOrder, hackers), budget), d.now);
    hide Blank;
  }

  /** `k` is the whole number nearest to a quarter of `n`, the larger one of two. */
  ghost predicate NearestQuarter(k: int, n: nat) {
    4 * k - 2 <= n < 4 * k + 2
  }

  /** A quarter of the players, within the bounds of the configuration, and never more than there are players. */
  ghost predicate HackersFor(c: Config, n: nat, count: nat) {
    exists k: int ::
      NearestQuarter(k, n)
      && count as int == Max(0, Min(n, if k < c.minHackers || c.maxHackers < c.minHackers then c.minHackers
                                       else if k > c.maxHackers then c.maxHackers else k))
  }

  lemma HackersRuled(c: Config, n: nat)
    ensures HackersFor(c, n, Max(0, Min(HackerCountFor(c, n), n)))
  {
    var k := (n + 2) / 4;
    assert NearestQuarter(k, n);
  }

  /** In numbers, for the default configuration. */
  lemma DefaultHackers(n: nat, count: nat)
    requires HackersFor(DefaultConfig(), n, count) && n > 0
    ensures count == 1 <==> n <= 5
    ensures count == 2 <==> 6 <= n <= 9
    ensures count == 3 <==> n >= 10
  {
    var k :| NearestQuarter(k, n)
             && count as int == Max(0, Min(n, if k < 1 then 1 else if k > 3 then 3 else k));
  }

  /**
    What a start deals: a quarter of the players are hackers, rounded to the nearest number, within the bounds of the
    configuration and the players there are, each with two hacks, and everybody else is crew without any.
   */
  lemma RolesDealt(w: World, d: Deps)
    requires Blank(w, d.now) && w.room.config.roleRule != UnknownRoleRule
    ensures var t := PerformRoleAssignment(w, d).value;
            var n := |w.room.playerOrder|;
            && t.room.hackerCount == |HackerIds(t.priv.players)|
            && HackersFor(w.room.config, n, t.room.hackerCount)
            && t.priv.players.Keys == t.priv.hacksRemaining.Keys == w.priv.players.Keys
            && forall id :: id in t.priv.players ==>
                 && t.priv.players[id].role == Some(if id in HackerIds(t.priv.players) then Hacker else Crew)
                 && t.priv.hacksRemaining[id] == if id in HackerIds(t.priv.players) then 2 else 0
  {
    var order := w.room.playerOrder;
    var drawn := RandomSubset(order, HackerCountFor(w.room.config, |order|), d.rng(RoleDraw));
    DistinctCounts(drawn);
    HackersRuled(w.room.config, |order|);
    var hackers := Elements(drawn);
    hide RandomSubset, HackerCountFor, HackersFor, Distinct, IdsFresh;
    assert map[] + HackBudget(w.priv.players, order, hackers) == HackBudget(w.priv.players, order, hackers);
    assert HackerIds(AssignRoles(w.priv.players, order, hackers)) == hackers;
  }

  lemma NoTurnsYet(order: seq<PlayerId>)
    ensures Rotation([], [], order)
  {
  }

  /** Starting a game from an empty state leads to the role reveal, unless the role rule is unknown. */
  lemma StartValid(w: World, d: Deps)
    requires Blank(w, d.now) && PlayerCountFits(w.room)
    ensures Transition(w, RoleAssignment, d).Some? <==> w.room.config.roleRule != UnknownRoleRule
    ensures Transition(w, RoleAssignment, d).Some? ==>
              var t := Transition(w, RoleAssignment, d).value;
              Valid(t) && t.room.phase.state == RoleReveal && t.room.phase.phaseId >= w.nextId
  {
    var entered := SetPhase(w, RoleAssignment, d);
    if w.room.config.roleRule != UnknownRoleRule {
      assert Blank(entered, d.now);
      RolesReady(entered, d);
      var roles := PerformRoleAssignment(entered, d).value;
      EnterValid(roles, RoleReveal, d);
      PlainEntry(roles, RoleReveal, d);
      hide Blank, Valid, Ready;
    }
  }

  lemma LobbyBlank(w: World, latest: int)
    requires Valid(w) && w.room.phase.state == Lobby
    ensures Blank(w, latest)
  {
    hide RosterOk, MatchOk, AdminOk, JudgedOk, RoundOk, SpecialOk, AccusationOk, HackLedger, VerdictOk, IdsFresh;
  }

  /** A reset keeps the rosters and drops everything of the match. */
  lemma ResetBlank(w: World, latest: int)
    requires Valid(w)
    ensures Blank(ResetMatch(w), latest)
  {
    hide RosterOk, MatchOk, AdminOk, JudgedOk, RoundOk, SpecialOk, AccusationOk, HackLedger, VerdictOk, ClockOk,
         FirewallLedger;
    ResetRoster(w);
  }

  lemma ResetRoster(w: World)
    requires RosterOk(w.room.playerOrder, w.room.players, w.priv.players)
    ensures var t := ResetMatch(w); RosterOk(t.room.playerOrder, t.room.players, t.priv.players)
  {
    var t := ResetMatch(w);
    assert t.room.players.Keys == w.room.players.Keys && t.priv.players.Keys == w.priv.players.Keys;
  }

  lemma LobbyReady(w: World, latest: int)
    requires Blank(w, latest) && w.room.matchClock == InitMatchClock() && w.hist == NO_HISTORY && !w.room.specialGameUsed
    ensures Ready(w, Lobby, {}, latest)
  {
    hide RosterOk, MatchOk, AdminOk, JudgedOk, RoundOk, SpecialOk, AccusationOk, IdsFresh;
  }

  lemma RestartValid(w: World, d: Deps)
    requires Valid(w)
    ensures Transition(ResetMatch(w), Lobby, d) == Some(SetPhase(ResetMatch(w), Lobby, d))
    ensures Valid(SetPhase(ResetMatch(w), Lobby, d))
  {
    var t := ResetMatch(w);
    assert t.room.matchClock == InitMatchClock() && t.hist == NO_HISTORY && !t.room.specialGameUsed;
    ResetBlank(w, d.now);
    assert t.nextId > 0;
    hide ResetMatch, Blank, Valid, Ready;
    PlainEntry(t, Lobby, d);
    LobbyReady(t, d.now);
    EnterValid(t, Lobby, d);
  }
}
