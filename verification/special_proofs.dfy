/** The special game keeps the room's invariant: the pause, the game, its result and the way back. */
module SpecialProofs {
  import opened Collections
  import opened Random
  import opened SpeakingOrder
  import opened AdminRotation
  import opened MatchClocks
  import opened RoomState
  import opened Transitions
  import opened RoomInvariant
  import opened RoomProofs
  import opened StartProofs
  import opened RoundProofs
  import opened PhaseProofs
  import Minigames
  import BombProtocol

  // ---- The clock across the special game ---------------------------------------------------------------------

  lemma PausedClockOk(clock: MatchClock, h: History, totalMs: nat, now: int)
    requires ClockOk(clock, h, totalMs, false, now) && clock.status == Running
    ensures ClockOk(PauseMatchClock(clock, now), NotePause(h, clock, now), totalMs, true, now)
    ensures PauseMatchClock(clock, now).status == Paused && PauseMatchClock(clock, now).clockId == clock.clockId
  {
  }

  /** After the pause the deadline has moved by the time spent paused, less the penalty. */
  lemma ResumedClockOk(clock: MatchClock, h: History, totalMs: nat, used: bool, penaltyMs: nat, now: int, freshId: nat)
    requires ClockOk(clock, h, totalMs, used, now) && clock.status == Paused
    requires penaltyMs == 0 || clock.remainingMs > penaltyMs
    ensures used
    ensures ClockOk(ResumeMatchClock(ApplyPenalty(clock, penaltyMs), now, freshId),
                    NoteResume(h, ApplyPenalty(clock, penaltyMs), now), totalMs, used, now)
  {
  }

  lemma StoppedClockOk(clock: MatchClock, h: History, totalMs: nat, used: bool, penaltyMs: nat, now: int)
    requires ClockOk(clock, h, totalMs, used, now) && clock.status != Pending
    ensures ClockOk(StopMatchClock(ApplyPenalty(clock, penaltyMs)), h, totalMs, used, now)
    ensures ClockOk(StopMatchClock(clock), h, totalMs, used, now)
  {
  }

  // ---- After a round or the special game ------------------------------------------------------------------------

  lemma SpecialDrawn(r: Room, secret: map<PlayerId, PrivatePlayer>, d: Deps)
    requires RosterOk(r.playerOrder, r.players, secret) && r.config.minPlayers <= |r.playerOrder|
    ensures SpecialOk(r.config, SpecialRound(r.cycle, SpecialParticipants(r, d), None, map[], map[], d.now), r.playerOrder)
  {
    EverybodyEligible(r, secret, r.config.eliminatedMayJoinSpecial);
    assert Distinct(r.playerOrder);
    hide RosterOk, Distinct, RandomSubset, EligibleIf;
  }

  lemma PausedReady(w: World, s: SpecialRound, clock: MatchClock, h: History, latest: int)
    requires Ready(w, Discussion, {}, latest) && !w.room.specialGameUsed
    requires SpecialOk(w.room.config, s, w.room.playerOrder) && s.moduleState.None?
    requires ClockOk(clock, h, w.room.config.matchClockTotalMs, true, latest)
    requires clock.status == Paused && clock.clockId == w.room.matchClock.clockId && h.admins == w.hist.admins
    ensures Ready(w.(room := w.room.(currentSpecialRound := Some(s), specialGameUsed := true, matchClock := clock), hist := h),
                  SpecialGameIntro, {}, latest)
  {
    hide RosterOk, MatchOk, JudgedOk, RoundOk, SpecialOk, AccusationOk, HackLedger, VerdictOk, ClockOk, IdsFresh,
         Rotation, HackerIds, HacksIn, ActivationsIn, ConsumptionsIn;
  }

  lemma SpecialBegins(w: World, d: Deps)
    requires Ready(w, Discussion, {}, d.now) && SpecialGameDue(w.room)
    ensures Ready(BeginSpecialGame(w, d), SpecialGameIntro, {}, d.now)
  {
    SpecialDrawn(w.room, w.priv.players, d);
    PausedClockOk(w.room.matchClock, w.hist, w.room.config.matchClockTotalMs, d.now);
    var s := SpecialRound(w.room.cycle, SpecialParticipants(w.room, d), None, map[], map[], d.now);
    var clock, h := PauseMatchClock(w.room.matchClock, d.now), NotePause(w.hist, w.room.matchClock, d.now);
    assert !w.room.specialGameUsed && h.admins == w.hist.admins;
    hide Ready, SpecialOk, ClockOk, PauseMatchClock, NotePause, SpecialParticipants, SpecialGameDue;
    PausedReady(w, s, clock, h, d.now);
  }

  /** Play goes on with the next Admin, or with the special game once it is due. */
  lemma ResolveValid(w: World, d: Deps)
    requires Ready(w, Discussion, {}, d.now) && w.nextId > 0
    ensures Arrives(ResolveAfterRoundOrSpecial(w, d), if SpecialGameDue(w.room) then SpecialGameIntro else MinigameSelect, w)
  {
    if SpecialGameDue(w.room) {
      SpecialBegins(w, d);
      hide Ready, Valid, SpecialGameDue;
      Enter(BeginSpecialGame(w, d), SpecialGameIntro, d);
    } else {
      assert Ready(w, MinigameSelect, {}, d.now) by {
        hide RosterOk, MatchOk, AdminOk, JudgedOk, RoundOk, SpecialOk, AccusationOk, HackLedger, FirewallLedger,
             VerdictOk, ClockOk, IdsFresh;
      }
      hide Ready, Valid, SpecialGameDue;
      SelectValid(w, d);
    }
  }

  lemma DiscussionDone(w: World, d: Deps)
    requires Valid(w) && w.room.phase.state == Discussion && w.room.phase.startedAt <= d.now
    ensures Arrives(ResolveAfterRoundOrSpecial(w, d), if SpecialGameDue(w.room) then SpecialGameIntro else MinigameSelect, w)
  {
    ReadyLater(w, d.now);
    assert Ready(w, Discussion, {}, d.now) by {
      hide RosterOk, MatchOk, AdminOk, JudgedOk, RoundOk, SpecialOk, HackLedger, FirewallLedger, VerdictOk, ClockOk,
           IdsFresh;
    }
    hide Ready, Valid, SpecialGameDue;
    ResolveValid(w, d);
  }

  // ---- The special game itself ----------------------------------------------------------------------------------

  lemma SpecialStartReady(w: World, started: BombProtocol.State, latest: int)
    requires Ready(w, SpecialGameIntro, w.room.submissions, latest) && w.room.currentSpecialRound.Some?
    requires BombProtocol.Valid(started) && started.status == BombProtocol.Active
    ensures Ready(w.(room := w.room.(currentSpecialRound := Some(w.room.currentSpecialRound.value.(moduleState := Some(started))))),
                  SpecialGamePlay, {}, latest)
  {
    hide RosterOk, MatchOk, AdminOk, JudgedOk, RoundOk, AccusationOk, HackLedger, FirewallLedger, VerdictOk, ClockOk,
         IdsFresh, BombProtocol.Valid, PlayableConfig, Distinct;
  }

  lemma SpecialIntroDone(w: World, d: Deps)
    requires Valid(w) && w.room.phase.state == SpecialGameIntro && w.room.phase.startedAt <= d.now
    ensures PlayableConfig(w.room.config) ==> PlaySpecial(w, d).Some?
    ensures PlaySpecial(w, d).Some? ==> Arrives(PlaySpecial(w, d), SpecialGamePlay, w)
  {
    ReadyLater(w, d.now);
    var s := w.room.currentSpecialRound.value;
    assert Distinct(s.participantIds) && (PlayableConfig(w.room.config) ==> 3 <= |s.participantIds| <= 5);
    hide Valid, Ready, PlayableConfig, Distinct, StartSpecial, BombProtocol.Valid;
    SpecialStarts(s.participantIds, d);
    var started := StartSpecial(s.participantIds, d);
    if started.Some? {
      SpecialStartReady(w, started.value, d.now);
      Enter(w.(room := w.room.(currentSpecialRound := Some(s.(moduleState := started)))), SpecialGamePlay, d);
      hide Transition;
    }
  }

  /** A game that ends, completed or not, is recorded with its outcome; otherwise it goes on. */
  lemma SpecialPlayed(w: World, s: SpecialRound, latest: int, d: Deps)
    requires Ready(w, SpecialGamePlay, w.room.submissions, latest) && w.room.currentSpecialRound.Some?
    requires var was := w.room.currentSpecialRound.value;
             s == was.(moduleState := s.moduleState, lastSeq := s.lastSeq, recentActionIds := s.recentActionIds)
    requires s.moduleState.Some? && BombProtocol.Valid(s.moduleState.value)
    ensures var t := w.(room := w.room.(currentSpecialRound := Some(s)));
            && Ready(RecordSpecial(t, d), SpecialGameResult, {}, latest)
            && (s.moduleState.value.status == BombProtocol.Active ==> Ready(t, SpecialGamePlay, w.room.submissions, latest))
  {
    hide RosterOk, MatchOk, AdminOk, JudgedOk, RoundOk, AccusationOk, HackLedger, FirewallLedger, VerdictOk, ClockOk,
         IdsFresh, BombProtocol.Valid, PlayableConfig, Distinct;
  }

  lemma SpecialTimeoutValid(w: World, d: Deps)
    requires Valid(w) && w.room.phase.state == SpecialGamePlay && w.room.phase.startedAt <= d.now
    ensures Arrives(CompleteSpecialGame(w, d), SpecialGameResult, w)
  {
    ReadyLater(w, d.now);
    var s := w.room.currentSpecialRound.value;
    SpecialPlayed(w, s, d.now, d);
    assert w == w.(room := w.room.(currentSpecialRound := Some(s)));
    hide Valid, Ready, RecordSpecial;
    Enter(RecordSpecial(w, d), SpecialGameResult, d);
    hide Transition;
  }

  lemma SpecialActionValid(w: World, s: SpecialRound, d: Deps)
    requires Valid(w) && w.room.phase.state == SpecialGamePlay && w.room.phase.startedAt <= d.now
    requires w.room.currentSpecialRound.Some?
    requires var was := w.room.currentSpecialRound.value;
             s == was.(moduleState := s.moduleState, lastSeq := s.lastSeq, recentActionIds := s.recentActionIds)
    requires s.moduleState.Some? && BombProtocol.Valid(s.moduleState.value)
    ensures var t := AfterSpecialAction(w, s, d); t.Accepted? && Valid(t.world)
  {
    ReadyLater(w, d.now);
    var t := w.(room := w.room.(currentSpecialRound := Some(s)));
    SpecialPlayed(w, s, d.now, d);
    SpecialPlayed(w, s, w.room.phase.startedAt, d);
    if s.moduleState.value.status == BombProtocol.Active {
      hide Ready, BombProtocol.Valid, RecordSpecial, CompleteSpecialGame;
      StaysValid(w, t);
    } else {
      hide Ready, Valid, BombProtocol.Valid, RecordSpecial;
      Enter(RecordSpecial(t, d), SpecialGameResult, d);
      hide Transition;
    }
  }

  // ---- The way back -----------------------------------------------------------------------------------------------

  /** With the clock running again under a new id, play is as after a discussion. */
  lemma ResumedReady(w: World, firewall: bool, log: seq<LogEntry>, clock: MatchClock, h: History, freshId: nat,
                     latest: int)
    requires Ready(w, SpecialGameResult, w.room.submissions, latest)
    requires HacksIn(log) == HacksIn(w.room.matchLog)
    requires FirewallLedger(ActivationsIn(log), ConsumptionsIn(log), firewall, w.room.specialGameUsed, false)
    requires ClockOk(clock, h, w.room.config.matchClockTotalMs, w.room.specialGameUsed, latest)
    requires clock.status == Running && w.nextId <= clock.clockId < freshId && h.admins == w.hist.admins
    ensures Ready(w.(room := w.room.(currentSpecialRound := None, firewallActive := firewall, matchLog := log, matchClock := clock),
                     hist := h, nextId := freshId), Discussion, {}, latest)
  {
    hide RosterOk, MatchOk, JudgedOk, RoundOk, SpecialOk, AccusationOk, HackLedger, VerdictOk, ClockOk, Rotation,
         HackerIds, HacksIn, ActivationsIn, ConsumptionsIn, FirewallLedger;
  }

  lemma RaisedReady(w: World, d: Deps)
    requires Ready(w, SpecialGameResult, w.room.submissions, d.now) && w.nextId > 0
    ensures var left := w.(room := w.room.(currentSpecialRound := None));
            Ready(Resume(RaiseFirewall(left, d), d), Discussion, {}, d.now) && Resume(RaiseFirewall(left, d), d).nextId > w.nextId
  {
    var entry := LogEntry(d.now, FirewallActivated);
    var clock := w.room.matchClock;
    LogGrows(w.room.matchLog, entry);
    ResumedClockOk(clock, w.hist, w.room.config.matchClockTotalMs, w.room.specialGameUsed, 0, d.now, w.nextId);
    assert ApplyPenalty(clock, 0) == clock && clock.status == Paused;
    var log := w.room.matchLog + [entry];
    assert FirewallLedger(ActivationsIn(log), ConsumptionsIn(log), true, w.room.specialGameUsed, false);
    hide Ready, ClockOk, HacksIn, ActivationsIn, ConsumptionsIn, FirewallLedger;
    ResumedReady(w, true, log, ResumeMatchClock(clock, d.now, w.nextId), NoteResume(w.hist, clock, d.now), w.nextId + 1, d.now);
  }

  lemma ChargedReady(w: World, d: Deps)
    requires Ready(w, SpecialGameResult, w.room.submissions, d.now) && w.nextId > 0
    ensures var charged := Charge(w.(room := w.room.(currentSpecialRound := None)), d);
            charged.room.matchClock.remainingMs > 0 ==>
              Ready(Resume(charged, d), Discussion, {}, d.now) && Resume(charged, d).nextId > w.nextId
  {
    var entry := LogEntry(d.now, PenaltyApplied(w.room.config.failPenaltyMs));
    var clock := w.room.matchClock;
    var charged := ApplyPenalty(clock, w.room.config.failPenaltyMs);
    LogGrows(w.room.matchLog, entry);
    if charged.remainingMs > 0 {
      ResumedClockOk(clock, w.hist, w.room.config.matchClockTotalMs, w.room.specialGameUsed, w.room.config.failPenaltyMs, d.now,
                     w.nextId);
      assert clock.status == Paused;
      var log := w.room.matchLog + [entry];
      assert FirewallLedger(ActivationsIn(log), ConsumptionsIn(log), w.room.firewallActive, w.room.specialGameUsed, false);
      hide Ready, ClockOk, HacksIn, ActivationsIn, ConsumptionsIn, FirewallLedger;
      ResumedReady(w, w.room.firewallActive, log, ResumeMatchClock(charged, d.now, w.nextId), NoteResume(w.hist, charged, d.now),
                   w.nextId + 1, d.now);
    }
  }

  /** A match that ends for the hackers, whatever it was in the middle of. */
  lemma EndedForHackers(w: World, log: seq<LogEntry>, clock: MatchClock, latest: int)
    requires Ready(w, w.room.phase.state, w.room.submissions, latest) && w.room.winner.None?
    requires Live(w.room.phase.state, w.room.matchClock.status)
    requires HacksIn(log) == HacksIn(w.room.matchLog)
    requires ActivationsIn(log) == ActivationsIn(w.room.matchLog) && ConsumptionsIn(log) == ConsumptionsIn(w.room.matchLog)
    requires ClockOk(clock, w.hist, w.room.config.matchClockTotalMs, w.room.specialGameUsed, latest)
    requires clock.status == Stopped && clock.clockId == w.room.matchClock.clockId
    ensures Ready(w.(room := w.room.(currentRound := None, currentSpecialRound := None, currentAccusation := None, matchLog := log,
                                     matchClock := clock, winner := Some(HackersWin))), FinalResults, {}, latest)
  {
    hide RosterOk, MatchOk, AdminOk, JudgedOk, RoundOk, SpecialOk, AccusationOk, HackLedger, ClockOk, IdsFresh,
         HackerIds, HacksIn, ActivationsIn, ConsumptionsIn;
  }

  lemma PenaltyEndsReady(w: World, d: Deps)
    requires Ready(w, SpecialGameResult, w.room.submissions, d.now) && w.room.phase.state == SpecialGameResult
    ensures Ready(EndMatch(Charge(w.(room := w.room.(currentSpecialRound := None)), d), HackersWin), FinalResults, {}, d.now)
  {
    var entry := LogEntry(d.now, PenaltyApplied(w.room.config.failPenaltyMs));
    var clock := StopMatchClock(ApplyPenalty(w.room.matchClock, w.room.config.failPenaltyMs));
    LogGrows(w.room.matchLog, entry);
    StoppedClockOk(w.room.matchClock, w.hist, w.room.config.matchClockTotalMs, w.room.specialGameUsed, w.room.config.failPenaltyMs, d.now);
    assert w.room.winner.None? && w.room.currentRound.None? && w.room.currentAccusation.None?;
    hide Ready, ClockOk, HacksIn, ActivationsIn, ConsumptionsIn;
    EndedForHackers(w, w.room.matchLog + [entry], clock, d.now);
  }

  /** The room as it leaves the special game, with the round over. */
  function Left(w: World): World {
    w.(room := w.room.(currentSpecialRound := None))
  }

  lemma WonAndOn(w: World, d: Deps)
    requires Ready(w, SpecialGameResult, w.room.submissions, d.now) && w.room.specialGameUsed && w.nextId > 0
    ensures Arrives(ResolveAfterRoundOrSpecial(Resume(RaiseFirewall(Left(w), d), d), d), MinigameSelect, w)
  {
    hide Ready, Valid, ResolveAfterRoundOrSpecial;
    RaisedReady(w, d);
    ResolveValid(Resume(RaiseFirewall(Left(w), d), d), d);
  }

  lemma ChargedAndOn(w: World, d: Deps)
    requires Ready(w, SpecialGameResult, w.room.submissions, d.now) && w.room.specialGameUsed && w.nextId > 0
    requires Charge(Left(w), d).room.matchClock.remainingMs > 0
    ensures Arrives(ResolveAfterRoundOrSpecial(Resume(Charge(Left(w), d), d), d), MinigameSelect, w)
  {
    hide Ready, Valid, ResolveAfterRoundOrSpecial;
    ChargedReady(w, d);
    ResolveValid(Resume(Charge(Left(w), d), d), d);
  }

  lemma TimeUsedUp(w: World, d: Deps)
    requires Ready(w, SpecialGameResult, w.room.submissions, d.now) && w.room.phase.state == SpecialGameResult && w.nextId > 0
    ensures Arrives(Transition(EndMatch(Charge(Left(w), d), HackersWin), FinalResults, d), FinalResults, w)
  {
    hide Ready, Valid, Transition;
    PenaltyEndsReady(w, d);
    Enter(EndMatch(Charge(Left(w), d), HackersWin), FinalResults, d);
  }

  lemma ResultRecorded(w: World, latest: int)
    requires Ready(w, SpecialGameResult, w.room.submissions, latest)
    ensures w.room.specialRoundHistory != [] && w.room.specialGameUsed
  {
    hide RosterOk, MatchOk, AdminOk, JudgedOk, RoundOk, SpecialOk, AccusationOk, HackLedger, VerdictOk, ClockOk, IdsFresh,
         InProgress, LobbyOk, Live, ActivationsIn, ConsumptionsIn;
  }

  /** The result leads on to the next Admin, or ends the match when the penalty used up the time left. */
  lemma SpecialResultDone(w: World, d: Deps)
    requires Valid(w) && w.room.phase.state == SpecialGameResult && w.room.phase.startedAt <= d.now
    ensures var t := LeaveSpecial(w, d);
            t.Some? && (Arrives(t, MinigameSelect, w) || Arrives(t, FinalResults, w))
  {
    hide Valid, Ready, Resume, RaiseFirewall, Charge, EndMatch, Transition, ResolveAfterRoundOrSpecial;
    ReadyLater(w, d.now);
    ResultRecorded(w, d.now);
    var history := w.room.specialRoundHistory;
    if history[|history| - 1].success {
      WonAndOn(w, d);
    } else if Charge(Left(w), d).room.matchClock.remainingMs <= 0 {
      TimeUsedUp(w, d);
    } else {
      ChargedAndOn(w, d);
    }
  }
}
