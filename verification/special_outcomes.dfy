/** What the special game changes for the match: when it comes, who plays it, and what its outcome is worth. */
module SpecialOutcomes {
  import opened Collections
  import opened Random
  import opened SpeakingOrder
  import opened AdminRotation
  import opened MatchClocks
  import opened RoomState
  import opened Transitions
  import opened RoomInvariant
  import opened RoomProofs
  import opened RoundProofs
  import opened PhaseProofs
  import opened StartProofs
  import opened SpecialProofs
  import opened Frames
  import opened Dispatch
  import opened Turns
  import BombProtocol
  import BombContent

  // ---- The way out ------------------------------------------------------------------------------------------------

  /** The bomb whose result is shown, and what was recorded of it. */
  lemma ResultShown(w: World)
    requires Valid(w) && w.room.phase.state == SpecialGameResult
    ensures w.room.currentSpecialRound.Some? && w.room.currentSpecialRound.value.moduleState.Some?
    ensures var h := w.room.specialRoundHistory;
            h != [] && (h[|h| - 1].success <==> w.room.currentSpecialRound.value.moduleState.value.status == BombProtocol.Success)
    ensures w.room.matchClock.status == Paused && w.room.specialGameUsed && w.room.winner.None?
    ensures w.room.currentRound.None? && w.room.currentAccusation.None?
  {
    hide RosterOk, MatchOk, AdminOk, JudgedOk, RoundOk, SpecialOk, AccusationOk, HackLedger, VerdictOk, ClockOk, IdsFresh,
         InProgress, LobbyOk, Live, HacksIn, ActivationsIn, ConsumptionsIn;
  }

  /** The parts of a room that a special game's result is about. */
  ghost predicate Settled(w: World, t: World, firewall: bool, entry: LogKind, penaltyMs: int, now: int) {
    && t.room.firewallActive == firewall
    && t.room.matchLog == w.room.matchLog + [LogEntry(now, entry)]
    && t.room.matchClock.totalPenaltyMs == w.room.matchClock.totalPenaltyMs + penaltyMs
    && t.room.currentSpecialRound.None?
  }

  /** Play goes on with the Admin's turn, and the clock runs again with this much time on it. */
  ghost predicate PlayGoesOn(w: World, t: World, remainingMs: int, now: int) {
    && t.room.phase.state == MinigameSelect && t.room.winner == w.room.winner
    && t.room.matchClock.status == Running && t.room.matchClock.deadlineAt == Some(now + remainingMs)
    && t.room.matchClock.clockId >= w.nextId && t.room.matchClock.startedAt == w.room.matchClock.startedAt
    && (w.room.playerOrder != [] ==> OneTurnMore(w, t)) && t.priv == w.priv
    && t.room == w.room.(currentSpecialRound := None, firewallActive := t.room.firewallActive, matchLog := t.room.matchLog,
                         matchClock := t.room.matchClock, phase := t.room.phase, submissions := {},
                         stateVersion := t.room.stateVersion, adminId := t.room.adminId, adminQueue := t.room.adminQueue)
  }

  /** What a defused bomb is worth, and what any other costs. */
  ghost predicate BombPaid(w: World, t: World, defused: bool, now: int) {
    var clock, penaltyMs := w.room.matchClock, w.room.config.failPenaltyMs;
    if defused then
      && Settled(w, t, true, FirewallActivated, 0, now)
      && PlayGoesOn(w, t, clock.remainingMs, now)
    else
      && Settled(w, t, w.room.firewallActive, PenaltyApplied(penaltyMs), penaltyMs, now)
      && if clock.remainingMs <= penaltyMs
         then
           && t.room.phase.state == FinalResults && t.room.winner == Some(HackersWin) && t.room.matchClock.status == Stopped
           && t.priv == w.priv && SameAdmin(w, t)
         else PlayGoesOn(w, t, clock.remainingMs - penaltyMs, now)
  }

  /**
    What a bomb is worth when its result is left, by the timer or by the host: a defused one raises the
    firewall and costs nothing; any other costs exactly the penalty and leaves the firewall alone, and it ends the match
    for the hackers exactly if the penalty is all the time there was, or more.
   */
  lemma BombSettled(w: World, e: Event, sender: Sender, d: Deps)
    requires Valid(w) && w.room.phase.state == SpecialGameResult && !CrossCutting(e) && Addressed(w, e, sender)
    ensures w.room.currentSpecialRound.Some? && w.room.currentSpecialRound.value.moduleState.Some?
    ensures var o := HandleEvent(w, e, sender, d);
            if e.TimerExpired? || HostDoes(e, Advance) then
              && o.Accepted?
              && BombPaid(w, o.world, w.room.currentSpecialRound.value.moduleState.value.status == BombProtocol.Success, d.now)
            else o == Rejected(w, InvalidEventForState)
  {
    hide Valid, HandleEvent, HandleInState, BombPaid, LeaveSpecial, TurnsInOrder;
    ResultShown(w);
    if w.room.playerOrder != [] {
      TurnFacts(w);
    }
    Reaches(w, e, sender, d);
    InState(w, e, d);
    if w.room.currentSpecialRound.value.moduleState.value.status == BombProtocol.Success {
      WonSettled(w, d);
    } else {
      LostSettled(w, d);
    }
  }

  lemma NotDueAgain(w: World, d: Deps)
    requires w.room.specialGameUsed
    ensures ResolveAfterRoundOrSpecial(w, d) == Transition(w, MinigameSelect, d)
  {
    hide Transition;
  }

  lemma WonSettled(w: World, d: Deps)
    requires w.room.specialRoundHistory != [] && w.room.specialRoundHistory[|w.room.specialRoundHistory| - 1].success
    requires w.room.matchClock.status == Paused && w.room.specialGameUsed
    requires w.room.playerOrder != [] ==> TurnsInOrder(w)
    ensures LeaveSpecial(w, d).Some? && BombPaid(w, LeaveSpecial(w, d).value, true, d.now)
  {
    hide ResolveAfterRoundOrSpecial, Transition, OneTurnMore, RosterOk, Rotation;
    var left := w.(room := w.room.(currentSpecialRound := None));
    var resumed := Resume(RaiseFirewall(left, d), d);
    NotDueAgain(resumed, d);
    TurnKeeps(resumed, d);
    if w.room.playerOrder != [] {
      NextTurn(w, resumed, d);
    }
  }

  lemma LostSettled(w: World, d: Deps)
    requires w.room.specialRoundHistory != [] && !w.room.specialRoundHistory[|w.room.specialRoundHistory| - 1].success
    requires w.room.matchClock.status == Paused && w.room.specialGameUsed
    requires w.room.playerOrder != [] ==> TurnsInOrder(w)
    ensures LeaveSpecial(w, d).Some? && BombPaid(w, LeaveSpecial(w, d).value, false, d.now)
  {
    hide ResolveAfterRoundOrSpecial, Transition, DurationFor, OneTurnMore, RosterOk, Rotation;
    var charged := Charge(w.(room := w.room.(currentSpecialRound := None)), d);
    if w.room.matchClock.remainingMs <= w.room.config.failPenaltyMs {
      PlainEntry(EndMatch(charged, HackersWin), FinalResults, d);
    } else {
      NotDueAgain(Resume(charged, d), d);
      TurnKeeps(Resume(charged, d), d);
      if w.room.playerOrder != [] {
        NextTurn(w, Resume(charged, d), d);
      }
    }
  }

  // ---- The way in ---------------------------------------------------------------------------------------------------

  /** Due once a match: at the end of a cycle, after any round, or never, as the schedule has it. */
  predicate Due(r: Room) {
    && !r.specialGameUsed
    && ((r.config.scheduleRule == EndOfCycleOnce && r.roundInCycle >= r.config.roundsPerCycle)
        || (r.config.scheduleRule == AfterFirstRoundOnce && r.roundInCycle > 0))
  }

  /** The pause: what is left until the deadline stays on the clock, which runs no longer. */
  ghost predicate PausedFor(clock: MatchClock, paused: MatchClock, now: int) {
    && clock.deadlineAt.Some? && paused.status == Paused && paused.deadlineAt.None?
    && paused.remainingMs == (if clock.deadlineAt.value > now then clock.deadlineAt.value - now else 0)
    && paused.totalPenaltyMs == clock.totalPenaltyMs && paused.startedAt == clock.startedAt
  }

  /** How many the rule asks for: four, or three to five by the size of the room, or as few as allowed. */
  function Wanted(c: Config, n: nat): int {
    match c.participantRule
    case FixedFour => 4
    case Scaling => if n < 6 then 3 else if n < 8 then 4 else 5
    case UnknownParticipantRule => c.minSpecial
  }

  /** The number wanted, or the bound it is beyond; never more than there are players. */
  ghost predicate GroupSize(c: Config, n: nat, size: nat) {
    var k := Wanted(c, n);
    size == Min(n, Max(0, if k < c.minSpecial || c.maxSpecial < c.minSpecial then c.minSpecial
                          else if k > c.maxSpecial then c.maxSpecial else k))
  }

  lemma SizeDrawn(c: Config, n: nat, wanted: int)
    requires wanted == Wanted(c, n)
    ensures GroupSize(c, n, Max(0, Min(Max(c.minSpecial, Min(c.maxSpecial, Min(wanted, n))), n)))
  {
    hide Wanted;
  }

  lemma GroupDrawn(r: Room, secret: map<PlayerId, PrivatePlayer>, d: Deps)
    requires RosterOk(r.playerOrder, r.players, secret)
    ensures var ids := SpecialParticipants(r, d);
            && Distinct(ids) && (forall id :: id in ids ==> id in r.playerOrder)
            && GroupSize(r.config, |r.playerOrder|, |ids|)
  {
    hide GroupSize, RandomSubset, EligibleIf, Distinct;
    EverybodyEligible(r, secret, r.config.eliminatedMayJoinSpecial);
    assert Distinct(r.playerOrder);
    hide RosterOk;
    SizeDrawn(r.config, |r.playerOrder|, SpecialParticipantCount(r));
  }

  /** The special game that a discussion ends in: everybody in it once, nothing of it played, and the clock paused. */
  ghost predicate GroupCalled(w: World, t: World, now: int) {
    && t.room.currentSpecialRound.Some?
    && var s := t.room.currentSpecialRound.value;
    && s == SpecialRound(w.room.cycle, s.participantIds, None, map[], map[], now)
    && Distinct(s.participantIds) && (forall id :: id in s.participantIds ==> id in w.room.playerOrder)
    && GroupSize(w.room.config, |w.room.playerOrder|, |s.participantIds|)
    && t.room.specialGameUsed && PausedFor(w.room.matchClock, t.room.matchClock, now)
    && t.room.matchLog == w.room.matchLog && t.room.firewallActive == w.room.firewallActive
  }

  /**
    Where a discussion leads: to the special game exactly if it is due, and otherwise to the turn of the next
    Admin, with the clock running as before.
   */
  ghost predicate DiscussionOver(w: World, t: World, now: int) {
    if Due(w.room) then t.room.phase.state == SpecialGameIntro && GroupCalled(w, t, now) && SameAdmin(w, t)
    else
      && t.room.phase.state == MinigameSelect && (w.room.playerOrder != [] ==> OneTurnMore(w, t)) && t.priv == w.priv
      && t.room == w.room.(phase := t.room.phase, submissions := {}, stateVersion := t.room.stateVersion,
                           adminId := t.room.adminId, adminQueue := t.room.adminQueue)
  }

  /** A discussion that is not cut short by the button ends by its timer or by the host. */
  lemma DiscussionAnswers(w: World, e: Event, sender: Sender, d: Deps)
    requires Valid(w) && w.room.phase.state == Discussion && !CrossCutting(e) && !e.PushButton? && Addressed(w, e, sender)
    ensures var o := HandleEvent(w, e, sender, d);
            if e.TimerExpired? || HostDoes(e, EndDiscussionEarly) then o.Accepted? && DiscussionOver(w, o.world, d.now)
            else o == Rejected(w, InvalidEventForState)
  {
    hide Valid, HandleEvent, HandleInState, ResolveAfterRoundOrSpecial, DiscussionOver;
    Dispatched(w, e, sender, d);
    InState(w, e, d);
    DiscussionLeads(w, d);
  }

  lemma DiscussionParts(w: World)
    requires Valid(w) && w.room.phase.state == Discussion
    ensures RosterOk(w.room.playerOrder, w.room.players, w.priv.players)
    ensures w.room.matchClock.status == Running && w.room.matchClock.deadlineAt.Some?
    ensures w.room.currentSpecialRound.None?
  {
    hide RosterOk, MatchOk, AdminOk, JudgedOk, RoundOk, SpecialOk, AccusationOk, HackLedger, FirewallLedger, VerdictOk,
         IdsFresh, InProgress, ResultOk, LobbyOk, Live;
  }

  lemma DiscussionLeads(w: World, d: Deps)
    requires Valid(w) && w.room.phase.state == Discussion
    ensures ResolveAfterRoundOrSpecial(w, d).Some? && DiscussionOver(w, ResolveAfterRoundOrSpecial(w, d).value, d.now)
  {
    hide Valid, RosterOk, SpecialParticipants, Transition, DurationFor, GroupSize, Distinct, OneTurnMore, TurnsInOrder;
    DiscussionParts(w);
    GroupDrawn(w.room, w.priv.players, d);
    PlainEntry(BeginSpecialGame(w, d), SpecialGameIntro, d);
    TurnKeeps(w, d);
    if w.room.playerOrder != [] {
      TurnFacts(w);
      NextTurn(w, w, d);
    }
  }

  // ---- The game -------------------------------------------------------------------------------------------------------

  /** A bomb nobody has touched, with one of the group at the board and the others holding the clues. */
  ghost predicate Untouched(s: BombProtocol.State, ids: seq<PlayerId>) {
    && s.participantIds == ids && s.status == BombProtocol.Active && s.strikes == 0 && s.progress == 0
    && s.currentModule == BombProtocol.Symbols
    && Distinct([s.config.operatorId] + s.config.analystIds)
    && forall id :: id in ids <==> id == s.config.operatorId || id in s.config.analystIds
  }

  lemma EverybodyHasAPart(ids: seq<PlayerId>, all: seq<PlayerId>)
    requires Distinct(ids) && Distinct(all) && |all| == |ids| && forall id :: id in all ==> id in ids
    ensures forall id :: id in ids <==> id in all
  {
    DistinctCounts(ids);
    DistinctCounts(all);
    assert Elements(all) <= Elements(ids);
    SameSize(Elements(all), Elements(ids));
    forall id | id in ids ensures id in all {
      assert id in Elements(ids);
    }
  }

  lemma {:induction false} SameSize<T>(a: set<T>, b: set<T>)
    requires a <= b && |a| == |b|
    ensures a == b
  {
    assert b == a + (b - a);
  }

  lemma StartedUntouched(ids: seq<PlayerId>, config: BombProtocol.Config)
    ensures BombProtocol.Start(ids, config).Some? ==> Untouched(BombProtocol.Start(ids, config).value, ids)
  {
    hide BombProtocol.ShapeFits, BombProtocol.InstructionsFit, BombProtocol.Solvable, Distinct;
    if BombProtocol.Start(ids, config).Some? {
      var all := [config.operatorId] + config.analystIds;
      assert forall id :: id in all <==> id == config.operatorId || id in config.analystIds;
      EverybodyHasAPart(ids, all);
    }
  }

  /** A fresh bomb is there for the group called, and nothing else has changed. */
  ghost predicate BombReady(w: World, t: World) {
    && w.room.currentSpecialRound.Some? && t.room.phase.state == SpecialGamePlay && t.room.currentSpecialRound.Some?
    && var s, m := w.room.currentSpecialRound.value, t.room.currentSpecialRound.value.moduleState;
    && m.Some? && Untouched(m.value, s.participantIds) && t.priv == w.priv && t.hist == w.hist
    && t.room == w.room.(currentSpecialRound := Some(s.(moduleState := m)), phase := t.room.phase, submissions := {},
                         stateVersion := t.room.stateVersion)
  }

  /** The introduction ends by its timer or by the host; it throws only where no bomb can be made for the group. */
  lemma SpecialIntroAnswers(w: World, e: Event, sender: Sender, d: Deps)
    requires Valid(w) && w.room.phase.state == SpecialGameIntro && !CrossCutting(e) && Addressed(w, e, sender)
    ensures w.room.currentSpecialRound.Some?
    ensures var o := HandleEvent(w, e, sender, d);
            if e.TimerExpired? || HostDoes(e, SkipSpecialIntro) then
              if 3 <= |w.room.currentSpecialRound.value.participantIds| <= 5 then o.Accepted? && BombReady(w, o.world) else o.Threw?
            else o == Rejected(w, InvalidEventForState)
  {
    hide Valid, HandleEvent, HandleInState, Shape, PlaySpecial, BombReady;
    PartsOf(w);
    Reaches(w, e, sender, d);
    InState(w, e, d);
    IntroHasRound(w.room);
    GroupDistinct(w);
    IntroLeads(w, d);
  }

  lemma GroupDistinct(w: World)
    requires Valid(w)
    ensures w.room.currentSpecialRound.Some? ==> Distinct(w.room.currentSpecialRound.value.participantIds)
  {
    hide RosterOk, MatchOk, AdminOk, JudgedOk, RoundOk, AccusationOk, HackLedger, FirewallLedger, VerdictOk, ClockOk, IdsFresh,
         Shape, InProgress, ResultOk, LobbyOk, Live, Distinct;
  }

  lemma IntroHasRound(r: Room)
    requires Shape(r, SpecialGameIntro)
    ensures r.currentSpecialRound.Some?
  {
  }

  lemma IntroLeads(w: World, d: Deps)
    requires w.room.currentSpecialRound.Some? && Distinct(w.room.currentSpecialRound.value.participantIds)
    ensures if 3 <= |w.room.currentSpecialRound.value.participantIds| <= 5
            then PlaySpecial(w, d).Some? && BombReady(w, PlaySpecial(w, d).value) else PlaySpecial(w, d).None?
  {
    hide Transition, SetPhase, BombContent.CreateConfig, BombProtocol.Start, Untouched, BombRngOf, Distinct;
    var s := w.room.currentSpecialRound.value;
    var ids := s.participantIds;
    NoneOutside(ids, d);
    if 3 <= |ids| <= 5 {
      SpecialStarts(ids, d);
      StartedUntouched(ids, BombContent.CreateConfig(ids, BombRngOf(d)).value);
      var t := w.(room := w.room.(currentSpecialRound := Some(s.(moduleState := StartSpecial(ids, d)))));
      PlainEntry(t, SpecialGamePlay, d);
      EntryFrame(t, SpecialGamePlay, d);
    }
  }

  lemma NoneOutside(ids: seq<PlayerId>, d: Deps)
    ensures !(3 <= |ids| <= 5) ==> StartSpecial(ids, d).None?
    ensures 3 <= |ids| <= 5 ==> BombContent.CreateConfig(ids, BombRngOf(d)).Some?
  {
    if 3 <= |ids| <= 5 {
      BombContent.ConfigGenerated(ids, BombRngOf(d));
    }
    hide BombContent.Generated;
  }

  /** The result is recorded as it is, and shown. */
  ghost predicate ResultFollows(w: World, t: World, s: SpecialRound, m: BombProtocol.State, now: int) {
    && t.room.phase.state == SpecialGameResult
    && t.room.currentSpecialRound.Some? && t.room.currentSpecialRound.value.moduleState == Some(m)
    && t.room.specialRoundHistory
         == w.room.specialRoundHistory
            + [SpecialRecord(s.cycle, s.participantIds, m.status == BombProtocol.Success, s.startedAt, now)]
    && t.room.matchClock == w.room.matchClock && t.room.matchLog == w.room.matchLog && t.room.firewallActive == w.room.firewallActive
  }

  /** The bomb after an action that counts: played on, or its result shown. */
  ghost predicate BombActed(w: World, t: World, s: SpecialRound, next: BombProtocol.State, now: int) {
    && t.room.currentSpecialRound.Some? && t.room.currentSpecialRound.value.moduleState == Some(next)
    && if next.status == BombProtocol.Active
       then t.room == w.room.(currentSpecialRound := t.room.currentSpecialRound) && t.priv == w.priv
       else ResultFollows(w, t, s, next, now)
  }

  /**
    While the bomb is played: an action that is not a repetition is taken if it is newer and valid, and does to the
    bomb what the module says; a bomb that is decided, out of time or given up shows its result, which is a
    success exactly if it was defused.
   */
  lemma BombAnswers(w: World, e: Event, sender: Sender, d: Deps)
    requires Valid(w) && w.room.phase.state == SpecialGamePlay && !CrossCutting(e) && Addressed(w, e, sender)
    ensures w.room.currentSpecialRound.Some? && w.room.currentSpecialRound.value.moduleState.Some?
    ensures var o := HandleEvent(w, e, sender, d);
            var s := w.room.currentSpecialRound.value;
            if e.SubmitAction? then ActionAnswer(w, o, s, e.playerId, e.seqNo, e.actionId, e.action, d.now)
            else if e.TimerExpired? || HostDoes(e, ForceEndSpecialGame)
            then o.Accepted? && ResultFollows(w, o.world, s, s.moduleState.value, d.now)
            else o == Rejected(w, InvalidEventForState)
  {
    hide Valid, HandleEvent, HandleInState, Shape, ResultFollows, CompleteSpecialGame, SpecialAction, ActionAnswer;
    PartsOf(w);
    BombIn(w.room);
    Reaches(w, e, sender, d);
    InState(w, e, d);
    var s := w.room.currentSpecialRound.value;
    ResultComes(w, w, s, d);
    if e.SubmitAction? {
      ActionComes(w, s, e.playerId, e.seqNo, e.actionId, e.action, d);
    }
  }

  /** How an action on the bomb is answered. */
  ghost predicate ActionAnswer(w: World, o: Outcome, s: SpecialRound, p: PlayerId, seqNo: int, actionId: nat, action: GameAction,
                               now: int) {
    && s.moduleState.Some?
    && if p !in s.participantIds then o == Rejected(w, NotParticipant)
       else if p in s.recentActionIds && actionId in s.recentActionIds[p] then o == Accepted(w)
       else if seqNo <= (if p in s.lastSeq then s.lastSeq[p] else 0) then o == Rejected(w, OutOfOrder)
       else if !action.Bomb? || !BombProtocol.ValidateAction(s.moduleState.value, p, action.bomb) then o == Rejected(w, InvalidAction)
       else o.Accepted? && BombActed(w, o.world, s, BombProtocol.HandleAction(s.moduleState.value, action.bomb), now)
  }

  lemma BombIn(r: Room)
    requires Shape(r, SpecialGamePlay)
    ensures r.currentSpecialRound.Some? && r.currentSpecialRound.value.moduleState.Some?
  {
  }

  lemma ResultComes(w: World, u: World, s: SpecialRound, d: Deps)
    requires s.moduleState.Some? && u == w.(room := w.room.(currentSpecialRound := Some(s)))
    ensures CompleteSpecialGame(u, d).Some? && ResultFollows(w, CompleteSpecialGame(u, d).value, s, s.moduleState.value, d.now)
  {
    PlainEntry(RecordSpecial(u, d), SpecialGameResult, d);
    hide Transition, DurationFor;
  }

  lemma ActionComes(w: World, s: SpecialRound, p: PlayerId, seqNo: int, actionId: nat, action: GameAction, d: Deps)
    requires w.room.currentSpecialRound == Some(s) && s.moduleState.Some?
    ensures ActionAnswer(w, SpecialAction(w, s, p, seqNo, actionId, action, d), s, p, seqNo, actionId, action, d.now)
  {
    hide CompleteSpecialGame, BombProtocol.ValidateAction, BombProtocol.HandleAction, LastTwenty;
    if action.Bomb? {
      var next := SpecialActed(s, p, seqNo, actionId, BombProtocol.HandleAction(s.moduleState.value, action.bomb));
      ResultComes(w, w.(room := w.room.(currentSpecialRound := Some(next))), next, d);
    }
  }
}
