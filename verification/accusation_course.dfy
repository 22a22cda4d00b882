/** How an accusation opens, goes on to a vote or is cancelled, and whose turn it is when play resumes. */
module AccusationCourse {
  import opened Collections
  import opened Random
  import opened SpeakingOrder
  import opened AdminRotation
  import opened MatchClocks
  import opened RoomState
  import opened Transitions
  import opened RoomInvariant
  import opened RoomProofs
  import opened RoundProofs
  import opened PhaseProofs
  import opened AccusationProofs
  import opened MatchProofs
  import opened StepProofs
  import opened Frames
  import opened Runs
  import opened Dispatch
  import opened MatchCourse
  import opened Turns
  import opened AccusationRuns

  // ---- Whose turn -----------------------------------------------------------------------------------------------------

  /** An accusation that was raised in the discussion of `w` is open. */
  predicate Discussing(w: World, t: World) {
    && InAccusation(t.room.phase.state)
    && t.room.currentAccusation.Some? && t.room.currentAccusation.value.origin == FromDiscussion
    && SameAdmin(w, t) && t.room.playerOrder == w.room.playerOrder
  }

  ghost predicate LeadsToTurn(w: World, o: Outcome) {
    o.Accepted? ==>
      && (InAccusation(o.world.room.phase.state) ==> Discussing(w, o.world))
      && (o.world.room.phase.state == MinigameSelect ==> OneTurnMore(w, o.world))
  }

  lemma EntryDiscussing(w: World, s: World, next: GameState, d: Deps)
    requires next !in {RoleAssignment, MinigameSelect, HackerCorruption}
    requires SameAdmin(w, s) && s.room.playerOrder == w.room.playerOrder
    requires InAccusation(next) ==> s.room.currentAccusation.Some? && s.room.currentAccusation.value.origin == FromDiscussion
    ensures LeadsToTurn(w, Accept(Transition(s, next, d)))
  {
    hide Transition, SetPhase, OneTurnMore;
    PlainEntry(s, next, d);
    EntryFrame(s, next, d);
  }

  lemma SelectLeads(w: World, u: World, e: Event, d: Deps)
    requires Discussing(w, u) && u.room.phase.state == AccusationSelect && TurnsInOrder(u)
    ensures LeadsToTurn(w, HandleAccusationSelect(u, e, d))
  {
    hide Transition, EligibleVoterIds, Distinct, OneTurnMore, RosterOk, AdminOk;
    var acc := u.room.currentAccusation.value;
    NextTurn(w, CancelAccusation(u, acc, d), d);
    if e.SubmitAccusation? {
      EntryDiscussing(w, LockSuspects(u, acc, e.suspectIds, d), AccusationVote, d);
    }
  }

  lemma ResolveLeads(w: World, u: World, s: World, d: Deps)
    requires Discussing(w, u) && TurnsInOrder(u) && s.room.currentAccusation.Some? && s.room.currentAccusation.value.suspectIds.Some?
    requires s == u.(room := u.room.(submissions := s.room.submissions, currentAccusation := s.room.currentAccusation))
    requires s.room.currentAccusation.value.origin == FromDiscussion
    ensures LeadsToTurn(w, Accept(ResolveAccusationVote(s, d)))
  {
    hide Transition, IsApproved, HackerIds, Elements, Approvals, OneTurnMore, RosterOk, AdminOk;
    var acc := s.room.currentAccusation.value;
    NextTurn(w, RejectAccusation(s, acc, acc.suspectIds.value, d), d);
    EntryDiscussing(w, Convict(s, acc, acc.suspectIds.value, d), FinalResults, d);
  }

  lemma VoteLeads(w: World, u: World, e: Event, d: Deps)
    requires Discussing(w, u) && u.room.phase.state == AccusationVote && TurnsInOrder(u)
    ensures LeadsToTurn(w, HandleAccusationVote(u, e, d))
  {
    hide ResolveAccusationVote, AllVoted, OneTurnMore, TurnsInOrder;
    var acc := u.room.currentAccusation.value;
    if acc.suspectIds.Some? {
      ResolveLeads(w, u, u, d);
      if e.SubmitAccusationVote? {
        var voted := acc.(votes := acc.votes[e.playerId := e.vote]);
        ResolveLeads(w, u, u.(room := u.room.(submissions := u.room.submissions + {e.playerId}, currentAccusation := Some(voted))), d);
      }
    }
  }

  lemma CrossCuttingLeads(w: World, u: World, e: Event, sender: Sender, d: Deps)
    requires Discussing(w, u) && CrossCutting(e)
    ensures LeadsToTurn(w, HandleEvent(u, e, sender, d))
  {
    hide Transition, ResetMatch, HandleMatchClockExpired, CheckSender, IsStalePhase, SetPhase, SetConnected, Disconnect,
         HandleInState, HandlePushButton, OneTurnMore;
    if e.PlayerDisconnected? || e.PlayerReconnected? {
      ConnectionOnly(u, e.playerId, e.PlayerReconnected?);
    } else if e.MatchClockExpired? {
      TimeIsUp(u, e.clockId, sender, d);
    } else {
      EntryDiscussing(w, u, Abandoned, d);
    }
  }

  lemma EventLeads(w: World, u: World, e: Event, sender: Sender, d: Deps)
    requires Discussing(w, u) && TurnsInOrder(u)
    ensures LeadsToTurn(w, HandleEvent(u, e, sender, d))
  {
    hide HandleEvent, HandleInState, HandlePushButton, HandleAccusationSelect, HandleAccusationVote, LeadsToTurn, TurnsInOrder;
    if CrossCutting(e) {
      CrossCuttingLeads(w, u, e, sender, d);
    } else {
      Dispatched(u, e, sender, d);
      InState(u, e, d);
      ButtonElsewhere(u, e, d);
      NotAccepted(w);
      if u.room.phase.state == AccusationSelect {
        SelectLeads(w, u, e, d);
      } else {
        VoteLeads(w, u, e, d);
      }
    }
  }

  lemma NotAccepted(w: World)
    ensures forall o: Outcome :: o.Rejected? ==> LeadsToTurn(w, o)
  {
    hide OneTurnMore, Discussing;
  }

  /**
    An accusation raised in a discussion hands the next turn on, whatever happens in it and however it ends: when play
    resumes, the next in the queue is in charge, and exactly one turn has been added.
   */
  lemma {:induction false} EpisodeTakesTurn(w: World, u: World, episode: seq<Input>, from: int)
    requires Valid(u) && u.room.phase.startedAt <= from && Ticking(episode, from)
    requires w.room.playerOrder != [] && Discussing(w, u) && AccusationLasts(u, episode)
    requires RunOf(u, episode).room.phase.state == MinigameSelect
    ensures OneTurnMore(w, RunOf(u, episode))
    decreases |episode|
  {
    hide Valid, Step, OneTurnMore;
    var t := Step(u, episode[0]);
    StepKeepsTime(u, episode[0], from);
    StepValid(u, episode[0]);
    StepLeads(w, u, episode[0]);
    if t.room.phase.state == MinigameSelect {
      assert episode[1..] == [];
    } else {
      EpisodeTakesTurn(w, t, episode[1..], Later(episode[0], from));
    }
  }

  lemma StepLeads(w: World, u: World, input: Input)
    requires Valid(u) && Discussing(w, u) && w.room.playerOrder != []
    ensures var t := Step(u, input);
            && (InAccusation(t.room.phase.state) ==> Discussing(w, t))
            && (t.room.phase.state == MinigameSelect ==> OneTurnMore(w, t))
  {
    hide Valid, HandleEvent, OneTurnMore;
    TurnFacts(u);
    hide TurnsInOrder;
    if input.Receive? {
      EventLeads(w, u, input.event, input.sender, input.deps);
    }
  }

  // ---- Opening, naming, giving up ---------------------------------------------------------------------------------------

  /** Nobody may push the button before the cooldown is over. */
  predicate StillCooling(r: Room, now: int) {
    r.accusationCooldownUntil.Some? && now < r.accusationCooldownUntil.value
  }

  /** A new accusation by `p`: as many suspects to be named as there are hackers, nobody named, nobody asked. */
  ghost predicate Opened(w: World, t: World, p: PlayerId, now: int) {
    var origin := if w.room.phase.state == Discussion then FromDiscussion else FromMinigameSelect;
    && t.room.phase.state == AccusationSelect && t.priv == w.priv && t.hist == w.hist
    && t.room == w.room.(
         currentAccusation := Some(Accusation(p, |HackerIds(w.priv.players)|, None, [], map[], origin, now)),
         matchLog := w.room.matchLog + [LogEntry(now, AccusationStarted(p, |HackerIds(w.priv.players)|, origin))],
         phase := t.room.phase, submissions := {}, stateVersion := t.room.stateVersion)
  }

  /** The button, pushed by whom the event names and for the present phase: what it leads to, in every case. */
  lemma ButtonAnswers(w: World, p: PlayerId, d: Deps)
    requires Valid(w)
    ensures var o := HandleEvent(w, PushButton(w.room.phase.phaseId, p), PlayerSender(p), d);
            if w.room.winner.Some? || (w.room.phase.state != Discussion && w.room.phase.state != MinigameSelect)
            then o == Rejected(w, InvalidEventForState)
            else if StillCooling(w.room, d.now) then o == Rejected(w, AccusationOnCooldown)
            else if p !in w.room.playerOrder then o == Rejected(w, NotEligibleVoter)
            else o.Accepted? && Opened(w, o.world, p, d.now)
  {
    hide Valid, HandleEvent, HandleInState, Transition, SetPhase, EligibleIf, HackerIds;
    var e := PushButton(w.room.phase.phaseId, p);
    Dispatched(w, e, PlayerSender(p), d);
    AccusersKnown(w);
    PlainEntry(OpenAccusation(w, p, d), AccusationSelect, d);
    EntryFrame(OpenAccusation(w, p, d), AccusationSelect, d);
  }

  lemma AccusersKnown(w: World)
    requires Valid(w)
    ensures EligibleVoterIds(w.room) == w.room.playerOrder
    ensures w.room.phase.state == Discussion || w.room.phase.state == MinigameSelect || InAccusation(w.room.phase.state) ==>
              w.room.hackerCount == |HackerIds(w.priv.players)|
  {
    EverybodyEligible(w.room, w.priv.players, w.room.config.eliminatedMayVote);
    hide RosterOk, AdminOk, JudgedOk, RoundOk, SpecialOk, AccusationOk, HackLedger, FirewallLedger, VerdictOk, ClockOk,
         IdsFresh, EligibleIf, Shape, InProgress, ResultOk, LobbyOk, HackerIds;
  }

  /** The suspects are named: everybody on the roster is asked, and nobody has voted. */
  ghost predicate Asked(w: World, t: World, ids: seq<PlayerId>, now: int) {
    && w.room.currentAccusation.Some? && t.room.phase.state == AccusationVote && t.priv == w.priv && t.hist == w.hist
    && t.room == w.room.(
         currentAccusation := Some(w.room.currentAccusation.value.(suspectIds := Some(ids), eligibleVoterIds := w.room.playerOrder)),
         matchLog := w.room.matchLog + [LogEntry(now, AccusationLocked(ids))],
         phase := t.room.phase, submissions := {}, stateVersion := t.room.stateVersion)
  }

  /** Nobody was named in time: play resumes, no cooldown begins and no record is made. */
  ghost predicate GivenUp(w: World, t: World, now: int) {
    && w.room.currentAccusation.Some? && t.room.phase.state == MinigameSelect && t.priv == w.priv
    && t.room == w.room.(
         currentAccusation := None,
         matchLog := w.room.matchLog + [LogEntry(now, AccusationCancelled(w.room.currentAccusation.value.initiatorId))],
         phase := t.room.phase, submissions := {}, stateVersion := t.room.stateVersion,
         adminId := t.room.adminId, adminQueue := t.room.adminQueue)
  }

  /** The suspects an accusation may name: as many as there are hackers, all of the roster, none twice. */
  ghost predicate MayName(w: World, ids: seq<PlayerId>) {
    Distinct(ids) && |ids| == |HackerIds(w.priv.players)| && forall id :: id in ids ==> id in w.room.playerOrder
  }

  /** While suspects are being chosen only the accuser can name any, and the timer gives up. */
  lemma SuspectsChosen(w: World, e: Event, sender: Sender, d: Deps)
    requires Valid(w) && w.room.phase.state == AccusationSelect && !CrossCutting(e)
    requires SentByWhomItNames(e, sender) && ForPhase(e, w.room.phase.phaseId)
    ensures w.room.currentAccusation.Some?
    ensures var o := HandleEvent(w, e, sender, d);
            match e
            case SubmitAccusation(_, p, ids) =>
              if p != w.room.currentAccusation.value.initiatorId then o == Rejected(w, NotInitiator)
              else if !MayName(w, ids) then o == Rejected(w, InvalidSuspects)
              else o.Accepted? && Asked(w, o.world, ids, d.now)
            case TimerExpired(_) => o.Accepted? && GivenUp(w, o.world, d.now)
            case _ => o == Rejected(w, InvalidEventForState)
  {
    hide Valid, HandleEvent, HandleInState, HandleAccusationSelect, EligibleVoterIds, HackerIds, Shape, AccusationOk, RosterOk,
         MayName, Asked, GivenUp;
    Dispatched(w, e, sender, d);
    InState(w, e, d);
    PushedElsewhere(w, e, d);
    OpenAccusationOk(w);
    PartsOf(w);
    ChoiceOpen(w);
    AccusersKnown(w);
    ChosenAs(w, e, d);
  }

  lemma PushedElsewhere(w: World, e: Event, d: Deps)
    requires w.room.phase.state == AccusationSelect
    ensures e.PushButton? ==> HandlePushButton(w, e.playerId, d) == Rejected(w, InvalidEventForState)
  {
    hide Transition, OpenAccusation, EligibleVoterIds;
  }

  lemma ChosenAs(w: World, e: Event, d: Deps)
    requires w.room.currentAccusation.Some? && EligibleVoterIds(w.room) == w.room.playerOrder
    requires w.room.currentAccusation.value.requiredSuspectCount == |HackerIds(w.priv.players)|
    ensures var o := HandleAccusationSelect(w, e, d);
            match e
            case SubmitAccusation(_, p, ids) =>
              if p != w.room.currentAccusation.value.initiatorId then o == Rejected(w, NotInitiator)
              else if !MayName(w, ids) then o == Rejected(w, InvalidSuspects)
              else o.Accepted? && Asked(w, o.world, ids, d.now)
            case TimerExpired(_) => o.Accepted? && GivenUp(w, o.world, d.now)
            case _ => o == Rejected(w, InvalidEventForState)
  {
    hide Transition, SetPhase, EligibleVoterIds, HackerIds, Distinct, ReturnToGameplay;
    var acc := w.room.currentAccusation.value;
    if e.TimerExpired? {
      Resumes(CancelAccusation(w, acc, d), acc.origin, d);
    } else if e.SubmitAccusation? {
      PlainEntry(LockSuspects(w, acc, e.suspectIds, d), AccusationVote, d);
      EntryFrame(LockSuspects(w, acc, e.suspectIds, d), AccusationVote, d);
    }
  }

  lemma ChoiceOpen(w: World)
    requires Shape(w.room, AccusationSelect)
    requires w.room.currentAccusation.Some? ==>
               AccusationOk(w.room.currentAccusation.value, AccusationSelect, w.room.playerOrder, w.room.hackerCount, w.room.submissions)
    ensures w.room.currentAccusation.Some? && w.room.currentAccusation.value.requiredSuspectCount == w.room.hackerCount
  {
  }

  lemma Resumes(w: World, origin: Origin, d: Deps)
    ensures var t := ReturnToGameplay(w, d, origin);
            && t.Some? && t.value.room.phase.state == MinigameSelect && t.value.priv == w.priv
            && t.value.room == w.room.(phase := t.value.room.phase, submissions := {}, stateVersion := t.value.room.stateVersion,
                                       adminId := t.value.room.adminId, adminQueue := t.value.room.adminQueue)
  {
    hide Transition, SetPhase;
    TurnKeeps(w, d);
    EntryFrame(w, MinigameSelect, d);
  }

  /** How many approve. */
  function Yes(votes: map<PlayerId, Vote>): nat {
    |set id | id in votes && votes[id] == Approve|
  }

  /** The record of a vote that is over. */
  function RecordFor(acc: Accusation, votes: map<PlayerId, Vote>, approved: bool, correct: Option<bool>, now: int): AccusationRecord
    requires acc.suspectIds.Some?
  {
    AccusationRecord(acc.initiatorId, acc.suspectIds.value, votes, approved, correct, acc.startedAt, now)
  }

  /**
    A vote that is over with these ballots. More than half of everybody approving ends the match, for the crew
    exactly if the suspects are the hackers; otherwise play resumes and the cooldown begins.
   */
  ghost predicate Judged(w: World, t: World, votes: map<PlayerId, Vote>, now: int) {
    && w.room.currentAccusation.Some? && w.room.currentAccusation.value.suspectIds.Some? && t.priv == w.priv
    && var acc, r, n := w.room.currentAccusation.value, w.room, |w.room.playerOrder|;
    if 2 * Yes(votes) > n then
      && var correct := HackerIds(w.priv.players) == Elements(acc.suspectIds.value);
      && t.room.phase.state == FinalResults
      && t.room == r.(
           winner := Some(if correct then CrewWins else HackersWin), currentAccusation := None,
           matchClock := r.matchClock.(status := Stopped, deadlineAt := None),
           matchLog := r.matchLog + [LogEntry(now, AccusationResolved(correct))],
           accusationHistory := r.accusationHistory + [RecordFor(acc, votes, true, Some(correct), now)],
           phase := t.room.phase, submissions := {}, stateVersion := t.room.stateVersion)
    else
      && t.room.phase.state == MinigameSelect
      && t.room == r.(
           currentAccusation := None, accusationCooldownUntil := Some(now + r.config.accusationCooldownMs),
           matchLog := r.matchLog + [LogEntry(now, AccusationRejected(Yes(votes), n))],
           accusationHistory := r.accusationHistory + [RecordFor(acc, votes, false, None, now)],
           phase := t.room.phase, submissions := {}, stateVersion := t.room.stateVersion,
           adminId := t.room.adminId, adminQueue := t.room.adminQueue)
  }

  lemma YesAre(votes: map<PlayerId, Vote>)
    ensures |Approvals(votes)| == Yes(votes)
  {
    assert Approvals(votes) == set id | id in votes && votes[id] == Approve;
  }

  /** The accusation of `s` is that of `w`, with these ballots; nothing else but the submissions differs. */
  ghost predicate Polled(w: World, s: World, votes: map<PlayerId, Vote>) {
    && w.room.currentAccusation.Some? && w.room.currentAccusation.value.suspectIds.Some?
    && w.room.currentAccusation.value.eligibleVoterIds == w.room.playerOrder && w.room.playerOrder != []
    && s == w.(room := w.room.(submissions := s.room.submissions,
                               currentAccusation := Some(w.room.currentAccusation.value.(votes := votes))))
  }

  lemma ConvictedAs(w: World, s: World, votes: map<PlayerId, Vote>, d: Deps)
    requires Polled(w, s, votes) && 2 * Yes(votes) > |w.room.playerOrder|
    ensures ResolveAccusationVote(s, d).Some? && Judged(w, ResolveAccusationVote(s, d).value, votes, d.now)
  {
    hide Transition, SetPhase, HackerIds, Elements, ReturnToGameplay, Approvals, Yes, RejectAccusation;
    YesAre(votes);
    var acc := s.room.currentAccusation.value;
    var t := Convict(s, acc, acc.suspectIds.value, d);
    PlainEntry(t, FinalResults, d);
    EntryFrame(t, FinalResults, d);
  }

  lemma RejectedAs(w: World, s: World, votes: map<PlayerId, Vote>, d: Deps)
    requires Polled(w, s, votes) && 2 * Yes(votes) <= |w.room.playerOrder|
    ensures ResolveAccusationVote(s, d).Some? && Judged(w, ResolveAccusationVote(s, d).value, votes, d.now)
  {
    hide Transition, SetPhase, HackerIds, Elements, ReturnToGameplay, Approvals, Yes, Convict;
    YesAre(votes);
    var acc := s.room.currentAccusation.value;
    Resumes(RejectAccusation(s, acc, acc.suspectIds.value, d), acc.origin, d);
  }

  lemma ResolvedAs(w: World, s: World, votes: map<PlayerId, Vote>, d: Deps)
    requires Polled(w, s, votes)
    ensures ResolveAccusationVote(s, d).Some? && Judged(w, ResolveAccusationVote(s, d).value, votes, d.now)
  {
    hide ResolveAccusationVote, Judged, Polled, Yes;
    if 2 * Yes(votes) > |w.room.playerOrder| {
      ConvictedAs(w, s, votes, d);
    } else {
      RejectedAs(w, s, votes, d);
    }
  }

  /**
    While a vote is open: one ballot for each player of the roster; the last one closes the vote, as do the timer and
    the host, with the ballots there are.
   */
  lemma VoteAnswers(w: World, e: Event, sender: Sender, d: Deps)
    requires Valid(w) && w.room.phase.state == AccusationVote && !CrossCutting(e)
    requires SentByWhomItNames(e, sender) && ForPhase(e, w.room.phase.phaseId)
    ensures w.room.currentAccusation.Some?
    ensures var o := HandleEvent(w, e, sender, d);
            var votes := w.room.currentAccusation.value.votes;
            match e
            case SubmitAccusationVote(_, p, vote) =>
              if p !in w.room.playerOrder then o == Rejected(w, NotEligibleVoter)
              else if p in votes then o == Rejected(w, DuplicateAction)
              else if forall id :: id in w.room.playerOrder ==> id in votes || id == p then
                o.Accepted? && Judged(w, o.world, votes[p := vote], d.now)
              else
                o == Accepted(w.(room := w.room.(
                  submissions := w.room.submissions + {p},
                  currentAccusation := Some(w.room.currentAccusation.value.(votes := votes[p := vote])))))
            case TimerExpired(_) => o.Accepted? && Judged(w, o.world, votes, d.now)
            case HostPhaseAction(_, action) =>
              if action == EndVoteEarly then o.Accepted? && Judged(w, o.world, votes, d.now)
              else o == Rejected(w, InvalidEventForState)
            case _ => o == Rejected(w, InvalidEventForState)
  {
    hide Valid, HandleEvent, HandleInState, ResolveAccusationVote, Judged;
    Dispatched(w, e, sender, d);
    InState(w, e, d);
    OpenVote(w);
    ButtonElsewhere(w, e, d);
    var acc := w.room.currentAccusation.value;
    assert w.room.playerOrder != [];
    ResolvedAs(w, w, acc.votes, d);
    if e.SubmitAccusationVote? {
      var voted := acc.(votes := acc.votes[e.playerId := e.vote]);
      assert e.playerId in w.room.submissions <==> e.playerId in acc.votes.Keys;
      ResolvedAs(w, w.(room := w.room.(submissions := w.room.submissions + {e.playerId}, currentAccusation := Some(voted))), voted.votes, d);
      assert AllVoted(voted) <==> forall id :: id in w.room.playerOrder ==> id in acc.votes || id == e.playerId;
    }
  }

  /**
    The counterpart of an accusation in an Admin's turn: one that is raised in a discussion, however it goes and
    whatever else happens meanwhile, ends with the turn of the next in the queue, the only one it adds.
   */
  lemma AccusationTakesOneTurn(w: World, p: PlayerId, sender: Sender, d: Deps, episode: seq<Input>)
    requires Valid(w) && w.room.phase.state == Discussion && w.room.phase.startedAt <= d.now && Ticking(episode, d.now)
    requires var o := HandleEvent(w, PushButton(w.room.phase.phaseId, p), sender, d);
             && o.Accepted? && AccusationLasts(o.world, episode)
             && RunOf(o.world, episode).room.phase.state == MinigameSelect
    ensures var t := RunOf(HandleEvent(w, PushButton(w.room.phase.phaseId, p), sender, d).world, episode);
            && t.room.adminId.Some? && t.hist.admins == w.hist.admins + [t.room.adminId.value]
            && if w.room.adminQueue != [] then t.room.adminId.value == w.room.adminQueue[0] && t.room.adminQueue == w.room.adminQueue[1..]
               else Permutation([t.room.adminId.value] + t.room.adminQueue, w.room.playerOrder)
  {
    hide Valid, HandleEvent, RunOf, AccusationLasts, Permutation;
    var e := PushButton(w.room.phase.phaseId, p);
    AcceptedIsAddressed(w, e, sender, d);
    ButtonAnswers(w, p, d);
    EventValid(w, e, sender, d);
    EventFrame(w, e, sender, d);
    hide RoundContinues, SpecialContinues, Follows;
    EpisodeTakesTurn(w, HandleEvent(w, e, sender, d).world, episode, d.now);
  }
}
