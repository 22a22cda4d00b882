/** Accusations keep the room's invariant: opened, locked, voted on, and either play resumes or the match ends. */
module AccusationProofs {
  import opened Collections
  import opened SpeakingOrder
  import opened AdminRotation
  import opened MatchClocks
  import opened RoomState
  import opened Transitions
  import opened RoomInvariant
  import opened RoomProofs
  import opened RoundProofs
  import opened PhaseProofs
  import opened SpecialProofs

  /** A log entry that is neither a hack nor about the firewall leaves the ledgers alone. */
  lemma PlainEntryKeepsLedgers(log: seq<LogEntry>, entry: LogEntry)
    requires !entry.kind.HackAccepted? && !entry.kind.FirewallActivated? && !entry.kind.FirewallConsumed?
    ensures HacksIn(log + [entry]) == HacksIn(log)
    ensures ActivationsIn(log + [entry]) == ActivationsIn(log) && ConsumptionsIn(log + [entry]) == ConsumptionsIn(log)
  {
    LogGrows(log, entry);
  }

  /** Only the accusation and the log change. */
  lemma AccusationReady(w: World, from: GameState, state: GameState, acc: Option<Accusation>, log: seq<LogEntry>,
                        submissions: set<PlayerId>, latest: int)
    requires Ready(w, from, w.room.submissions, latest)
    requires from in {Discussion, MinigameSelect, AccusationSelect} && state in {Discussion, MinigameSelect, AccusationSelect, AccusationVote}
    requires acc.Some? <==> InAccusation(state)
    requires acc.Some? ==>
               && (acc.value.suspectIds.Some? <==> state == AccusationVote)
               && AccusationOk(acc.value, state, w.room.playerOrder, w.room.hackerCount, submissions)
    requires HacksIn(log) == HacksIn(w.room.matchLog)
    requires ActivationsIn(log) == ActivationsIn(w.room.matchLog) && ConsumptionsIn(log) == ConsumptionsIn(w.room.matchLog)
    ensures Ready(w.(room := w.room.(currentAccusation := acc, matchLog := log)), state, submissions, latest)
  {
    hide RosterOk, MatchOk, AdminOk, JudgedOk, RoundOk, SpecialOk, AccusationOk, HackLedger, FirewallLedger,
         VerdictOk, ClockOk, IdsFresh, HacksIn, ActivationsIn, ConsumptionsIn, HackerIds;
  }

  lemma ButtonPushed(w: World, playerId: PlayerId, d: Deps)
    requires Valid(w) && (w.room.phase.state == Discussion || w.room.phase.state == MinigameSelect)
    requires w.room.phase.startedAt <= d.now && playerId in EligibleVoterIds(w.room)
    ensures Arrives(Transition(OpenAccusation(w, playerId, d), AccusationSelect, d), AccusationSelect, w)
  {
    ReadyLater(w, d.now);
    EverybodyEligible(w.room, w.priv.players, w.room.config.eliminatedMayVote);
    var t := OpenAccusation(w, playerId, d);
    PlainEntryKeepsLedgers(w.room.matchLog, t.room.matchLog[|w.room.matchLog|]);
    hide Ready, Valid, EligibleIf, HacksIn, ActivationsIn, ConsumptionsIn;
    AccusationReady(w, w.room.phase.state, AccusationSelect, t.room.currentAccusation, t.room.matchLog, {}, d.now);
    Enter(t, AccusationSelect, d);
  }

  lemma OpenAccusationOk(w: World)
    requires Valid(w)
    ensures RosterOk(w.room.playerOrder, w.room.players, w.priv.players)
    ensures w.room.currentAccusation.Some? ==>
              AccusationOk(w.room.currentAccusation.value, w.room.phase.state, w.room.playerOrder, w.room.hackerCount, w.room.submissions)
  {
    hide RosterOk, MatchOk, AdminOk, JudgedOk, RoundOk, SpecialOk, AccusationOk, HackLedger, FirewallLedger,
         VerdictOk, ClockOk, IdsFresh, Shape, InProgress, ResultOk, LobbyOk, Live;
  }

  lemma LockedOk(acc: Accusation, ids: seq<PlayerId>, order: seq<PlayerId>, hackerCount: nat,
                 submissions: set<PlayerId>)
    requires AccusationOk(acc, AccusationSelect, order, hackerCount, submissions)
    requires Distinct(ids) && |ids| == acc.requiredSuspectCount && forall id :: id in ids ==> id in order
    ensures AccusationOk(acc.(suspectIds := Some(ids), eligibleVoterIds := order), AccusationVote, order, hackerCount, {})
  {
    assert acc.initiatorId in order;
  }

  lemma SuspectsLocked(w: World, acc: Accusation, ids: seq<PlayerId>, d: Deps)
    requires Valid(w) && w.room.phase.state == AccusationSelect && w.room.phase.startedAt <= d.now
    requires w.room.currentAccusation == Some(acc)
    requires Distinct(ids) && |ids| == acc.requiredSuspectCount && forall id :: id in ids ==> id in EligibleVoterIds(w.room)
    ensures Arrives(Transition(LockSuspects(w, acc, ids, d), AccusationVote, d), AccusationVote, w)
  {
    hide Ready, Valid, EligibleIf, HacksIn, ActivationsIn, ConsumptionsIn, AccusationOk, Distinct, RosterOk;
    ReadyLater(w, d.now);
    OpenAccusationOk(w);
    EverybodyEligible(w.room, w.priv.players, w.room.config.eliminatedMayVote);
    LockedOk(acc, ids, w.room.playerOrder, w.room.hackerCount, w.room.submissions);
    var t := LockSuspects(w, acc, ids, d);
    PlainEntryKeepsLedgers(w.room.matchLog, t.room.matchLog[|w.room.matchLog|]);
    AccusationReady(w, AccusationSelect, AccusationVote, t.room.currentAccusation, t.room.matchLog, {}, d.now);
    Enter(t, AccusationVote, d);
  }

  /** Play resumes with the Admin it interrupted, or with the next one after a discussion. */
  lemma ReturnValid(w: World, d: Deps, origin: Origin)
    requires Ready(w, MinigameSelect, {}, d.now) && w.nextId > 0
    ensures Arrives(ReturnToGameplay(w, d, origin), MinigameSelect, w)
  {
    if origin == FromMinigameSelect {
      EnterValid(w, MinigameSelect, d);
      hide Ready, Valid;
    } else {
      hide Ready, Valid;
      SelectValid(w, d);
    }
  }

  lemma SelectionTimedOut(w: World, acc: Accusation, d: Deps)
    requires Valid(w) && w.room.phase.state == AccusationSelect && w.room.phase.startedAt <= d.now
    ensures Arrives(ReturnToGameplay(CancelAccusation(w, acc, d), d, acc.origin), MinigameSelect, w)
  {
    ReadyLater(w, d.now);
    var t := CancelAccusation(w, acc, d);
    PlainEntryKeepsLedgers(w.room.matchLog, t.room.matchLog[|w.room.matchLog|]);
    hide Ready, Valid, HacksIn, ActivationsIn, ConsumptionsIn;
    AccusationReady(w, AccusationSelect, MinigameSelect, None, t.room.matchLog, {}, d.now);
    ReturnValid(t, d, acc.origin);
    hide ReturnToGameplay;
  }

  // ---- The vote ------------------------------------------------------------------------------------------------

  /** Before the verdict every record is of a rejected accusation; the new one is too. */
  lemma RejectedReady(w: World, record: AccusationRecord, log: seq<LogEntry>, cooldown: Option<int>,
                      submissions: set<PlayerId>, latest: int)
    requires Ready(w, AccusationVote, w.room.submissions, latest) && !record.approved
    requires HacksIn(log) == HacksIn(w.room.matchLog)
    requires ActivationsIn(log) == ActivationsIn(w.room.matchLog) && ConsumptionsIn(log) == ConsumptionsIn(w.room.matchLog)
    ensures Ready(w.(room := w.room.(currentAccusation := None, matchLog := log, accusationCooldownUntil := cooldown,
                                     submissions := submissions, accusationHistory := w.room.accusationHistory + [record])),
                  MinigameSelect, {}, latest)
  {
    hide RosterOk, MatchOk, AdminOk, RoundOk, SpecialOk, AccusationOk, HackLedger, FirewallLedger, ClockOk, IdsFresh,
         HacksIn, ActivationsIn, ConsumptionsIn, HackerIds;
  }

  lemma ConvictedReady(w: World, record: AccusationRecord, log: seq<LogEntry>, clock: MatchClock,
                       submissions: set<PlayerId>, latest: int)
    requires Ready(w, AccusationVote, w.room.submissions, latest) && record.approved
    requires record.correct == Some(HackerIds(w.priv.players) == Elements(record.suspectIds))
    requires HacksIn(log) == HacksIn(w.room.matchLog)
    requires ActivationsIn(log) == ActivationsIn(w.room.matchLog) && ConsumptionsIn(log) == ConsumptionsIn(w.room.matchLog)
    requires ClockOk(clock, w.hist, w.room.config.matchClockTotalMs, w.room.specialGameUsed, latest)
    requires clock.status == Stopped && clock.clockId == w.room.matchClock.clockId
    ensures Ready(w.(room := w.room.(currentAccusation := None, matchLog := log, matchClock := clock, submissions := submissions,
                                     accusationHistory := w.room.accusationHistory + [record],
                                     winner := Some(if record.correct == Some(true) then CrewWins else HackersWin))),
                  FinalResults, {}, latest)
  {
    hide RosterOk, MatchOk, AdminOk, RoundOk, SpecialOk, AccusationOk, HackLedger, FirewallLedger, ClockOk, IdsFresh,
         HacksIn, ActivationsIn, ConsumptionsIn, HackerIds, Elements;
  }

  lemma VoteRejects(w: World, acc: Accusation, submissions: set<PlayerId>, d: Deps)
    requires Ready(w, AccusationVote, w.room.submissions, d.now) && w.nextId > 0
    requires acc.suspectIds.Some? && !IsApproved(acc)
    ensures var t := ResolveAccusationVote(w.(room := w.room.(submissions := submissions, currentAccusation := Some(acc))), d);
            Arrives(t, MinigameSelect, w)
  {
    hide HacksIn, ActivationsIn, ConsumptionsIn, Approvals, Ready, Valid;
    var counted := w.(room := w.room.(submissions := submissions, currentAccusation := Some(acc)));
    var t := RejectAccusation(counted, acc, acc.suspectIds.value, d);
    PlainEntryKeepsLedgers(w.room.matchLog, t.room.matchLog[|w.room.matchLog|]);
    RejectedReady(w, t.room.accusationHistory[|w.room.accusationHistory|], t.room.matchLog, t.room.accusationCooldownUntil,
                  submissions, d.now);
    ReturnValid(t, d, acc.origin);
    hide ReturnToGameplay;
  }

  lemma ConvictReady(w: World, acc: Accusation, suspects: seq<PlayerId>, submissions: set<PlayerId>, d: Deps)
    requires Ready(w, AccusationVote, w.room.submissions, d.now) && IsApproved(acc)
    ensures var counted := w.(room := w.room.(submissions := submissions, currentAccusation := Some(acc)));
            Ready(Convict(counted, acc, suspects, d), FinalResults, {}, d.now)
  {
    StoppedClockOk(w.room.matchClock, w.hist, w.room.config.matchClockTotalMs, w.room.specialGameUsed, 0, d.now);
    var correct := HackerIds(w.priv.players) == Elements(suspects);
    var entry := LogEntry(d.now, AccusationResolved(correct));
    PlainEntryKeepsLedgers(w.room.matchLog, entry);
    hide HacksIn, ActivationsIn, ConsumptionsIn, HackerIds, Elements, IsApproved, Ready, ClockOk, ApplyPenalty;
    ConvictedReady(w, RecordOf(acc, suspects, Some(correct), d), w.room.matchLog + [entry], StopMatchClock(w.room.matchClock),
                   submissions, d.now);
  }

  lemma VoteApproves(w: World, acc: Accusation, submissions: set<PlayerId>, d: Deps)
    requires Ready(w, AccusationVote, w.room.submissions, d.now) && w.nextId > 0
    requires acc.suspectIds.Some? && IsApproved(acc)
    ensures var t := ResolveAccusationVote(w.(room := w.room.(submissions := submissions, currentAccusation := Some(acc))), d);
            Arrives(t, FinalResults, w)
  {
    hide Ready, Valid, IsApproved, HackerIds, RecordOf;
    var counted := w.(room := w.room.(submissions := submissions, currentAccusation := Some(acc)));
    var t := Convict(counted, acc, acc.suspectIds.value, d);
    ConvictReady(w, acc, acc.suspectIds.value, submissions, d);
    assert t.nextId == w.nextId;
    hide Convict;
    Enter(t, FinalResults, d);
    hide Transition;
  }

  /** A vote that closes, by its last ballot, its timer or the host, sends play on or ends the match. */
  lemma VoteCloses(w: World, acc: Accusation, submissions: set<PlayerId>, d: Deps)
    requires Ready(w, AccusationVote, w.room.submissions, d.now) && w.nextId > 0 && acc.suspectIds.Some?
    ensures var t := ResolveAccusationVote(w.(room := w.room.(submissions := submissions, currentAccusation := Some(acc))), d);
            Arrives(t, if IsApproved(acc) then FinalResults else MinigameSelect, w)
  {
    hide Ready, Valid, ResolveAccusationVote, IsApproved;
    if IsApproved(acc) {
      VoteApproves(w, acc, submissions, d);
    } else {
      VoteRejects(w, acc, submissions, d);
    }
  }

  lemma VotedOk(acc: Accusation, playerId: PlayerId, vote: Vote, order: seq<PlayerId>, hackerCount: nat,
                submissions: set<PlayerId>)
    requires AccusationOk(acc, AccusationVote, order, hackerCount, submissions) && playerId in acc.eligibleVoterIds
    ensures var voted := acc.(votes := acc.votes[playerId := vote]);
            !AllVoted(voted) ==> AccusationOk(voted, AccusationVote, order, hackerCount, submissions + {playerId})
  {
    assert acc.votes[playerId := vote].Keys == acc.votes.Keys + {playerId};
  }

  lemma BallotReady(w: World, acc: Accusation, playerId: PlayerId, vote: Vote)
    requires Valid(w) && w.room.phase.state == AccusationVote && w.room.currentAccusation == Some(acc)
    requires playerId in acc.eligibleVoterIds
    ensures var voted := acc.(votes := acc.votes[playerId := vote]);
            !AllVoted(voted) ==>
              Valid(w.(room := w.room.(submissions := w.room.submissions + {playerId}, currentAccusation := Some(voted))))
  {
    hide RosterOk, MatchOk, AdminOk, JudgedOk, RoundOk, SpecialOk, AccusationOk, HackLedger, FirewallLedger,
         VerdictOk, ClockOk, IdsFresh, AllVoted;
    VotedOk(acc, playerId, vote, w.room.playerOrder, w.room.hackerCount, w.room.submissions);
  }

  lemma BallotValid(w: World, acc: Accusation, playerId: PlayerId, vote: Vote, d: Deps)
    requires Valid(w) && w.room.phase.state == AccusationVote && w.room.phase.startedAt <= d.now
    requires w.room.currentAccusation == Some(acc) && playerId in acc.eligibleVoterIds
    ensures var t := CountVote(w, acc.(votes := acc.votes[playerId := vote]), playerId, d); t.Accepted? && Valid(t.world)
  {
    ReadyLater(w, d.now);
    assert acc.suspectIds.Some?;
    var voted := acc.(votes := acc.votes[playerId := vote]);
    BallotReady(w, acc, playerId, vote);
    hide Ready, Valid, AllVoted, ResolveAccusationVote, IsApproved;
    VoteCloses(w, voted, w.room.submissions + {playerId}, d);
  }

  lemma VoteEnds(w: World, d: Deps)
    requires Valid(w) && w.room.phase.state == AccusationVote && w.room.phase.startedAt <= d.now
    ensures w.room.currentAccusation.Some?
    ensures Arrives(ResolveAccusationVote(w, d), if IsApproved(w.room.currentAccusation.value) then FinalResults else MinigameSelect, w)
  {
    ReadyLater(w, d.now);
    var acc := w.room.currentAccusation.value;
    assert acc.suspectIds.Some?;
    assert w == w.(room := w.room.(submissions := w.room.submissions, currentAccusation := Some(acc)));
    hide Ready, Valid, ResolveAccusationVote, IsApproved;
    VoteCloses(w, acc, w.room.submissions, d);
  }
}
