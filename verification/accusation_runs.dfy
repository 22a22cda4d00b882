/** Accusations over whole runs: what they leave alone, and what decides the vote. */
module AccusationRuns {
  import opened Collections
  import opened SpeakingOrder
  import opened MatchClocks
  import opened RoomState
  import opened Transitions
  import opened RoomInvariant
  import opened RoomProofs
  import opened PhaseProofs
  import opened AccusationProofs
  import opened Frames
  import opened Runs
  import opened Turns

  // ---- The interrupted Admin -------------------------------------------------------------------------------------------

  /** An accusation raised in the Admin's turn is open. */
  predicate Interrupting(w: World) {
    InAccusation(w.room.phase.state) && w.room.currentAccusation.Some? && w.room.currentAccusation.value.origin == FromMinigameSelect
  }

  ghost predicate SparesAdmin(w: World, o: Outcome) {
    o.Accepted? ==> SameAdmin(w, o.world) && (InAccusation(o.world.room.phase.state) ==> Interrupting(o.world))
  }

  lemma EntrySparesAdmin(w: World, next: GameState, d: Deps)
    requires next !in {RoleAssignment, MinigameSelect, HackerCorruption}
    ensures Transition(w, next, d).Some? && SameAdmin(w, Transition(w, next, d).value)
    ensures Transition(w, next, d).value.room.phase.state == next
    ensures Transition(w, next, d).value.room.currentAccusation == w.room.currentAccusation
  {
    PlainEntry(w, next, d);
    hide Transition, DurationFor;
  }

  lemma SelectSparesAdmin(w: World, e: Event, d: Deps)
    requires Interrupting(w) && w.room.phase.state == AccusationSelect
    ensures SparesAdmin(w, HandleAccusationSelect(w, e, d))
  {
    hide Transition, EligibleVoterIds, DurationFor, Distinct;
    if e.SubmitAccusation? {
      EntrySparesAdmin(LockSuspects(w, w.room.currentAccusation.value, e.suspectIds, d), AccusationVote, d);
    }
  }

  lemma ResolveSparesAdmin(w: World, s: World, d: Deps)
    requires Interrupting(w) && s.room.currentAccusation.Some? && s.room.currentAccusation.value.suspectIds.Some?
    requires s.room.currentAccusation.value.origin == FromMinigameSelect && SameAdmin(w, s)
    ensures SparesAdmin(w, Accept(ResolveAccusationVote(s, d)))
  {
    hide Transition, DurationFor, IsApproved, HackerIds, Elements, Approvals;
    var acc := s.room.currentAccusation.value;
    EntrySparesAdmin(Convict(s, acc, acc.suspectIds.value, d), FinalResults, d);
  }

  lemma VoteSparesAdmin(w: World, e: Event, d: Deps)
    requires Interrupting(w) && w.room.phase.state == AccusationVote
    ensures SparesAdmin(w, HandleAccusationVote(w, e, d))
  {
    hide ResolveAccusationVote, AllVoted;
    var acc := w.room.currentAccusation.value;
    if acc.suspectIds.Some? {
      ResolveSparesAdmin(w, w, d);
      if e.SubmitAccusationVote? {
        var voted := acc.(votes := acc.votes[e.playerId := e.vote]);
        ResolveSparesAdmin(w, w.(room := w.room.(submissions := w.room.submissions + {e.playerId}, currentAccusation := Some(voted))), d);
      }
    }
  }

  lemma ExpirySparesAdmin(w: World, clockId: nat, d: Deps)
    ensures SparesAdmin(w, HandleMatchClockExpired(w, clockId, d))
  {
    hide Transition;
    var logged := if w.room.currentAccusation.None? then w.room
                  else Log(w.room, d, AccusationAbandonedByClock(w.room.currentAccusation.value.initiatorId));
    var cleared := w.(room := logged.(currentRound := None, currentSpecialRound := None, currentAccusation := None));
    EntrySparesAdmin(EndMatch(cleared, HackersWin), FinalResults, d);
  }

  lemma EventSparesAdmin(w: World, e: Event, sender: Sender, d: Deps)
    requires Interrupting(w)
    ensures SparesAdmin(w, HandleEvent(w, e, sender, d))
  {
    hide HandleInState, HandlePushButton, HandleMatchClockExpired, CheckSender, IsStalePhase, CloseTheRoom, Transition,
         ResetMatch, SetConnected, Disconnect;
    if CrossCutting(e) {
      CrossCuttingSparesAdmin(w, e, sender, d);
    } else {
      InAccusationSparesAdmin(w, e, d);
    }
  }

  lemma CrossCuttingSparesAdmin(w: World, e: Event, sender: Sender, d: Deps)
    requires Interrupting(w) && CrossCutting(e)
    ensures SparesAdmin(w, HandleEvent(w, e, sender, d))
  {
    hide Transition, ResetMatch, HandleMatchClockExpired, CheckSender, IsStalePhase, SetPhase, SetConnected, Disconnect,
         HandleInState, HandlePushButton;
    if e.PlayerDisconnected? || e.PlayerReconnected? {
      ConnectionOnly(w, e.playerId, e.PlayerReconnected?);
    } else if e.MatchClockExpired? {
      ExpirySparesAdmin(w, e.clockId, d);
    } else {
      EntrySparesAdmin(w, Abandoned, d);
    }
  }

  lemma InAccusationSparesAdmin(w: World, e: Event, d: Deps)
    requires Interrupting(w)
    ensures SparesAdmin(w, HandleInState(w, e, d)) && (e.PushButton? ==> HandlePushButton(w, e.playerId, d).Rejected?)
  {
    hide HandleAccusationSelect, HandleAccusationVote, EligibleVoterIds, Transition, OpenAccusation;
    if w.room.phase.state == AccusationSelect {
      SelectSparesAdmin(w, e, d);
    } else {
      VoteSparesAdmin(w, e, d);
    }
  }

  lemma StepSparesAdmin(w: World, input: Input)
    requires Interrupting(w)
    ensures SameAdmin(w, Step(w, input))
    ensures InAccusation(Step(w, input).room.phase.state) ==> Interrupting(Step(w, input))
  {
    hide HandleEvent;
    if input.Receive? {
      EventSparesAdmin(w, input.event, input.sender, input.deps);
    }
  }

  /** Every world but perhaps the last of the run is in an accusation. */
  ghost predicate AccusationLasts(w: World, inputs: seq<Input>)
    decreases |inputs|
  {
    inputs == [] || (InAccusation(w.room.phase.state) && AccusationLasts(Step(w, inputs[0]), inputs[1..]))
  }

  lemma {:induction false} EpisodeSparesAdmin(w: World, inputs: seq<Input>)
    requires Interrupting(w) && AccusationLasts(w, inputs)
    ensures SameAdmin(w, RunOf(w, inputs))
    decreases |inputs|
  {
    hide Step;
    if inputs != [] {
      StepSparesAdmin(w, inputs[0]);
      if InAccusation(Step(w, inputs[0]).room.phase.state) {
        EpisodeSparesAdmin(Step(w, inputs[0]), inputs[1..]);
      } else {
        assert inputs[1..] == [];
      }
    }
  }

  /**
    An accusation that interrupts an Admin's turn, however it goes and ends, takes no turn: the same
    Admin is in charge, the queue is the same, and the sequence of turns has not grown.
   */
  lemma AccusationTakesNoTurn(w: World, playerId: PlayerId, sender: Sender, d: Deps, episode: seq<Input>)
    requires w.room.phase.state == MinigameSelect
    requires var o := HandleEvent(w, PushButton(w.room.phase.phaseId, playerId), sender, d);
             o.Accepted? && AccusationLasts(o.world, episode)
    ensures var t := HandleEvent(w, PushButton(w.room.phase.phaseId, playerId), sender, d).world;
            Interrupting(t) && SameAdmin(w, t) && SameAdmin(w, RunOf(t, episode))
  {
    hide Transition, HandleInState, HandleMatchClockExpired, ResetMatch, RunOf, AccusationLasts, EligibleVoterIds,
         CheckSender;
    EntrySparesAdmin(OpenAccusation(w, playerId, d), AccusationSelect, d);
    EpisodeSparesAdmin(HandleEvent(w, PushButton(w.room.phase.phaseId, playerId), sender, d).world, episode);
  }

  // ---- The vote ------------------------------------------------------------------------------------------------------------

  /** The ballot that an input carries for `p` in this phase, if it is one and comes from `p`. */
  function BallotIn(input: Input, phaseId: nat, p: PlayerId): Option<Vote> {
    if input.Receive? && input.event.SubmitAccusationVote? && input.event.phaseId == phaseId && input.event.playerId == p
       && input.sender == PlayerSender(p)
    then Some(input.event.vote) else None
  }

  /** The first ballot counts; later ones, strangers', stale ones and everything else do not. */
  function CountBallot(votes: map<PlayerId, Vote>, voters: seq<PlayerId>, phaseId: nat, input: Input): map<PlayerId,
                       Vote> {
    if input.Receive? && input.event.SubmitAccusationVote? then
      var p := input.event.playerId;
      if BallotIn(input, phaseId, p).Some? && p in voters && p !in votes then votes[p := input.event.vote] else votes
    else votes
  }

  function TimeOf(input: Input): int {
    if input.Receive? then input.deps.now else 0
  }

  /** How the step that closes a vote may close it: by the vote itself, not by the room or the match ending. */
  predicate ClosedByVote(input: Input) {
    input.Receive? && !CrossCutting(input.event)
  }

  lemma OpenVote(w: World)
    requires Valid(w) && w.room.phase.state == AccusationVote
    ensures w.room.currentAccusation.Some? && w.room.currentAccusation.value.suspectIds.Some?
    ensures w.room.currentAccusation.value.votes.Keys == w.room.submissions
    ensures w.room.submissions <= Elements(w.room.playerOrder)
    ensures w.room.currentAccusation.value.eligibleVoterIds == w.room.playerOrder
    ensures exists id :: id in w.room.playerOrder && id !in w.room.submissions
    ensures w.room.phase.phaseId < w.nextId
  {
    hide RosterOk, MatchOk, AdminOk, JudgedOk, RoundOk, SpecialOk, HackLedger, FirewallLedger, VerdictOk, ClockOk,
         IdsFresh;
    assert w.room.currentAccusation.value.initiatorId in w.room.playerOrder;
  }

  /** The record a closed vote leaves, and where it leads. */
  ghost predicate Decided(w: World, t: World, votes: map<PlayerId, Vote>, voters: seq<PlayerId>, now: int) {
    var n := |w.room.accusationHistory|;
    && |t.room.accusationHistory| == n + 1 && t.room.accusationHistory[..n] == w.room.accusationHistory
    && t.priv == w.priv
    && t.room.accusationHistory[n].votes == votes
    && w.room.currentAccusation.Some? && Some(t.room.accusationHistory[n].suspectIds) == w.room.currentAccusation.value.suspectIds
    && (t.room.accusationHistory[n].approved <==> 2 * |Approvals(votes)| > |voters|)
    && t.room.phase.state == (if t.room.accusationHistory[n].approved then FinalResults else MinigameSelect)
    && (!t.room.accusationHistory[n].approved ==>
          t.room.accusationCooldownUntil == Some(now + w.room.config.accusationCooldownMs))
  }

  lemma EntryKeepsHistory(w: World, next: GameState, d: Deps)
    requires next == MinigameSelect || next == FinalResults
    ensures var t := Transition(w, next, d);
            t.Some? && t.value.room.accusationHistory == w.room.accusationHistory && t.value.room.phase.state == next
            && t.value.room.accusationCooldownUntil == w.room.accusationCooldownUntil && t.value.priv == w.priv
            && t.value.room.phase.phaseId == w.nextId
  {
    hide NextQueue, DurationFor;
  }

  lemma ResolveDecides(w: World, s: World, d: Deps)
    requires s.room.currentAccusation.Some? && s.room.currentAccusation.value.suspectIds.Some?
    requires s.room.currentAccusation.value.eligibleVoterIds != []
    requires s.room.accusationHistory == w.room.accusationHistory && s.nextId == w.nextId && s.room.config == w.room.config
    requires w.room.currentAccusation.Some? && s.priv == w.priv
    requires w.room.currentAccusation.value.suspectIds == s.room.currentAccusation.value.suspectIds
    ensures var acc := s.room.currentAccusation.value;
            var t := ResolveAccusationVote(s, d);
            t.Some? && t.value.room.phase.phaseId == w.nextId && Decided(w, t.value, acc.votes, acc.eligibleVoterIds, d.now)
  {
    hide Transition, DurationFor, HackerIds, Elements, Approvals;
    var acc := s.room.currentAccusation.value;
    EntryKeepsHistory(Convict(s, acc, acc.suspectIds.value, d), FinalResults, d);
    EntryKeepsHistory(RejectAccusation(s, acc, acc.suspectIds.value, d), MinigameSelect, d);
  }

  /** An open vote either stays open with the ballot counted, or is decided on exactly the ballots counted so far. */
  ghost predicate VoteStep(w: World, t: World, votes: map<PlayerId, Vote>, now: int) {
    w.room.currentAccusation.Some?
    && if t.room.phase.phaseId == w.room.phase.phaseId
       then
         && t.room.phase == w.room.phase && t.room.config == w.room.config && t.priv == w.priv
         && t.room.currentAccusation == Some(w.room.currentAccusation.value.(votes := votes))
         && t.room.accusationHistory == w.room.accusationHistory
       else Decided(w, t, votes, w.room.currentAccusation.value.eligibleVoterIds, now)
  }

  lemma VoteEvent(w: World, e: Event, sender: Sender, d: Deps)
    requires Valid(w) && w.room.phase.state == AccusationVote && !IsStalePhase(w.room, e) && CheckSender(e, sender).None?
    requires !CrossCutting(e)
    ensures w.room.currentAccusation.Some?
    ensures var acc := w.room.currentAccusation.value;
            var o := HandleAccusationVote(w, e, d);
            var t := if o.Accepted? then o.world else w;
            VoteStep(w, t, CountBallot(acc.votes, acc.eligibleVoterIds, w.room.phase.phaseId, Receive(e, sender, d)), d.now)
  {
    hide Valid, ResolveAccusationVote, AllVoted, Decided;
    OpenVote(w);
    var acc := w.room.currentAccusation.value;
    ResolveDecides(w, w, d);
    if e.SubmitAccusationVote? {
      var voted := acc.(votes := acc.votes[e.playerId := e.vote]);
      assert e.playerId in w.room.submissions <==> e.playerId in acc.votes;
      ResolveDecides(w, w.(room := w.room.(submissions := w.room.submissions + {e.playerId}, currentAccusation := Some(voted))), d);
    }
  }

  lemma DispatchToVote(w: World, e: Event, sender: Sender, d: Deps)
    requires w.room.phase.state == AccusationVote && !CrossCutting(e)
    ensures HandleEvent(w, e, sender, d) ==
            if CheckSender(e, sender).Some? then Rejected(w, CheckSender(e, sender).value)
            else if IsStalePhase(w.room, e) then Rejected(w, StalePhase)
            else if e.PushButton? then Rejected(w, InvalidEventForState)
            else HandleAccusationVote(w, e, d)
  {
    hide HandleAccusationVote, CheckSender, IsStalePhase, Transition;
  }

  lemma OtherEventsStay(w: World, e: Event, sender: Sender, d: Deps)
    requires Valid(w) && w.room.phase.state == AccusationVote && CrossCutting(e)
    ensures var o := HandleEvent(w, e, sender, d);
            o.Accepted? && o.world.room.phase.phaseId == w.room.phase.phaseId ==>
              o.world.room.currentAccusation == w.room.currentAccusation && o.world.room.phase == w.room.phase
              && o.world.room.accusationHistory == w.room.accusationHistory && o.world.room.config == w.room.config
              && o.world.priv == w.priv
  {
    hide Valid, Transition, ResetMatch, HandleMatchClockExpired, CheckSender, HandleInState, HandlePushButton,
         IsStalePhase, SetConnected, Disconnect;
    if e.PlayerDisconnected? || e.PlayerReconnected? {
      ConnectionOnly(w, e.playerId, e.PlayerReconnected?);
    }
    OpenVote(w);
    ClockFrame(w, if e.MatchClockExpired? then e.clockId else 0, d);
    ExpiryCloses(w, if e.MatchClockExpired? then e.clockId else 0, d);
    TransitionMoves(w, w, Abandoned, d);
    hide Stayed;
  }

  lemma ExpiryCloses(w: World, clockId: nat, d: Deps)
    ensures var o := HandleMatchClockExpired(w, clockId, d); o.Accepted? ==> Moved(w, o.world, d.now)
  {
    hide Transition;
    var logged := if w.room.currentAccusation.None? then w.room
                  else Log(w.room, d, AccusationAbandonedByClock(w.room.currentAccusation.value.initiatorId));
    var cleared := w.(room := logged.(currentRound := None, currentSpecialRound := None, currentAccusation := None));
    TransitionMoves(w, EndMatch(cleared, HackersWin), FinalResults, d);
  }

  /** One input of any kind, offered to an open vote. */
  lemma VoteInput(w: World, input: Input)
    requires Valid(w) && w.room.phase.state == AccusationVote
    ensures w.room.currentAccusation.Some?
    ensures var acc := w.room.currentAccusation.value;
            Step(w, input).room.phase.phaseId == w.room.phase.phaseId || ClosedByVote(input) ==>
              VoteStep(w, Step(w, input), CountBallot(acc.votes, acc.eligibleVoterIds, w.room.phase.phaseId, input), TimeOf(input))
  {
    hide Valid, HandleEvent, HandleAccusationVote, Decided;
    OpenVote(w);
    if !input.Receive? {
      assert Step(w, input) == w;
    } else if CrossCutting(input.event) {
      OtherEventsStay(w, input.event, input.sender, input.deps);
    } else {
      DispatchToVote(w, input.event, input.sender, input.deps);
      if CheckSender(input.event, input.sender).None? && !IsStalePhase(w.room, input.event) {
        VoteEvent(w, input.event, input.sender, input.deps);
      }
    }
  }

  // ---- A whole vote ----------------------------------------------------------------------------------------------------------

  function Ballots(votes: map<PlayerId, Vote>, voters: seq<PlayerId>, phaseId: nat,
                   inputs: seq<Input>): map<PlayerId, Vote>
    decreases |inputs|
  {
    if inputs == [] then votes else Ballots(CountBallot(votes, voters, phaseId, inputs[0]), voters, phaseId, inputs[1..])
  }

  /** The first ballot among the inputs that comes from `p` in this phase. */
  function FirstBallot(inputs: seq<Input>, phaseId: nat, p: PlayerId): Option<Vote> {
    if inputs == [] then None
    else if BallotIn(inputs[0], phaseId, p).Some? then BallotIn(inputs[0], phaseId, p)
    else FirstBallot(inputs[1..], phaseId, p)
  }

  /** The voters listed who approve in their first ballot. */
  function Approvers(voters: seq<PlayerId>, inputs: seq<Input>, phaseId: nat): set<PlayerId> {
    set p | p in voters && FirstBallot(inputs, phaseId, p) == Some(Approve)
  }

  lemma {:induction false} BallotsAreFirst(votes: map<PlayerId, Vote>, voters: seq<PlayerId>, phaseId: nat,
                                           inputs: seq<Input>, p: PlayerId)
    ensures var counted := Ballots(votes, voters, phaseId, inputs);
            && (p in votes ==> p in counted && counted[p] == votes[p])
            && (p !in votes ==>
                  && (p in counted <==> p in voters && FirstBallot(inputs, phaseId, p).Some?)
                  && (p in counted ==> Some(counted[p]) == FirstBallot(inputs, phaseId, p)))
    decreases |inputs|
  {
    if inputs != [] {
      BallotsAreFirst(CountBallot(votes, voters, phaseId, inputs[0]), voters, phaseId, inputs[1..], p);
    }
  }

  /** The inputs leave the vote open until the last one, which closes it. */
  ghost predicate ClosesAtLast(w: World, phaseId: nat, inputs: seq<Input>)
    decreases |inputs|
  {
    inputs != [] && w.room.phase.phaseId == phaseId
    && if |inputs| == 1 then ClosedByVote(inputs[0]) && Step(w, inputs[0]).room.phase.phaseId != phaseId
       else ClosesAtLast(Step(w, inputs[0]), phaseId, inputs[1..])
  }

  lemma {:induction false} WholeVote(w: World, inputs: seq<Input>, from: int)
    requires Valid(w) && w.room.phase.state == AccusationVote && w.room.currentAccusation.Some?
    requires w.room.phase.startedAt <= from && Ticking(inputs, from)
    requires ClosesAtLast(w, w.room.phase.phaseId, inputs)
    ensures var acc := w.room.currentAccusation.value;
            Decided(w, RunOf(w, inputs), Ballots(acc.votes, acc.eligibleVoterIds, w.room.phase.phaseId, inputs), acc.eligibleVoterIds,
                    TimeOf(inputs[|inputs| - 1]))
    decreases |inputs|
  {
    hide Valid, Step, CountBallot, Decided, ClosedByVote, TimeOf;
    var input := inputs[0];
    VoteInput(w, input);
    if |inputs| == 1 {
      assert inputs[1..] == [];
    } else {
      StepKeepsTime(w, input, from);
      StepValid(w, input);
      var t := Step(w, input);
      assert t.room.phase.phaseId == w.room.phase.phaseId;
      WholeVote(t, inputs[1..], Later(input, from));
      DecidedEarlier(w, t, RunOf(t, inputs[1..]));
    }
  }

  lemma DecidedEarlier(w: World, s: World, t: World)
    requires s.room.accusationHistory == w.room.accusationHistory && s.room.config == w.room.config
    requires w.room.currentAccusation.Some? && s.room.currentAccusation.Some? && s.priv == w.priv
    requires w.room.currentAccusation.value.suspectIds == s.room.currentAccusation.value.suspectIds
    ensures forall votes, voters, now :: Decided(s, t, votes, voters, now) ==> Decided(w, t, votes, voters, now)
  {
  }

  /**
    What decides an accusation: with the vote just opened and any inputs until it closes (ballots in
    any order, repeated, stale, from strangers or under a false name, connections coming and going),
    it is approved exactly when more than half of the voters listed approve in their first ballot. A
    rejection starts the cooldown at the moment the vote closed.
   */
  lemma VoteDecidedByFirstBallots(w: World, inputs: seq<Input>, from: int)
    requires Valid(w) && w.room.phase.state == AccusationVote && w.room.submissions == {}
    requires w.room.phase.startedAt <= from && Ticking(inputs, from)
    requires ClosesAtLast(w, w.room.phase.phaseId, inputs)
    ensures var voters, t := w.room.playerOrder, RunOf(w, inputs);
            var approvals := Approvers(voters, inputs, w.room.phase.phaseId);
            && t.room.accusationHistory != []
            && (t.room.accusationHistory[|t.room.accusationHistory| - 1].approved <==> 2 * |approvals| > |voters|)
            && t.room.phase.state == (if 2 * |approvals| > |voters| then FinalResults else MinigameSelect)
            && (2 * |approvals| <= |voters| ==>
                  t.room.accusationCooldownUntil
                    == Some(TimeOf(inputs[|inputs| - 1]) + w.room.config.accusationCooldownMs))
  {
    hide Valid, RunOf, Ballots, FirstBallot, ClosesAtLast;
    OpenVote(w);
    var acc := w.room.currentAccusation.value;
    var phaseId := w.room.phase.phaseId;
    WholeVote(w, inputs, from);
    var counted := Ballots(acc.votes, acc.eligibleVoterIds, phaseId, inputs);
    forall p ensures p in Approvals(counted) <==> p in Approvers(w.room.playerOrder, inputs, phaseId) {
      BallotsAreFirst(acc.votes, acc.eligibleVoterIds, phaseId, inputs, p);
      assert p !in acc.votes.Keys;
    }
    assert Approvals(counted) == Approvers(w.room.playerOrder, inputs, phaseId);
  }

  // ---- The cooldown ----------------------------------------------------------------------------------------------------

  /** No accusation may be raised before `until`. */
  predicate Cooling(w: World, until: int) {
    w.room.accusationCooldownUntil.Some? && until <= w.room.accusationCooldownUntil.value
  }

  lemma CoolingStep(w: World, input: Input, until: int, from: int)
    requires Cooling(w, until) && !MatchOver(w.room.phase.state)
    requires until <= from + w.room.config.accusationCooldownMs && (input.Receive? ==> from <= input.deps.now)
    ensures Cooling(Step(w, input), until) && Step(w, input).room.config == w.room.config
  {
    hide Step, RoundContinues, SpecialContinues, ClockFollows;
    StepFrame(w, input);
  }

  /** The match of the first world goes on until the last. */
  ghost predicate MatchLasts(w: World, inputs: seq<Input>)
    decreases |inputs|
  {
    inputs == [] || (!MatchOver(w.room.phase.state) && MatchLasts(Step(w, inputs[0]), inputs[1..]))
  }

  lemma {:induction false} StaysCooling(w: World, inputs: seq<Input>, until: int, from: int)
    requires Cooling(w, until) && until <= from + w.room.config.accusationCooldownMs
    requires Ticking(inputs, from) && MatchLasts(w, inputs)
    ensures Cooling(RunOf(w, inputs), until)
    decreases |inputs|
  {
    hide Step, Cooling;
    if inputs != [] {
      CoolingStep(w, inputs[0], until, from);
      StaysCooling(Step(w, inputs[0]), inputs[1..], until, Later(inputs[0], from));
    }
  }

  /**
    Once an accusation has been rejected, no other is accepted in that match before the cooldown is
    over, through whatever phases the match goes in between.
   */
  lemma NoAccusationWhileCooling(w: World, inputs: seq<Input>, from: int, phaseId: nat, p: PlayerId, sender: Sender, d: Deps)
    requires w.room.accusationCooldownUntil == Some(from + w.room.config.accusationCooldownMs)
    requires Ticking(inputs, from) && MatchLasts(w, inputs)
    requires d.now < from + w.room.config.accusationCooldownMs
    ensures !HandleEvent(RunOf(w, inputs), PushButton(phaseId, p), sender, d).Accepted?
  {
    hide RunOf, MatchLasts, Ticking, HandleEvent;
    StaysCooling(w, inputs, from + w.room.config.accusationCooldownMs, from);
    ButtonCooling(RunOf(w, inputs), from + w.room.config.accusationCooldownMs, phaseId, p, sender, d);
  }

  lemma ButtonCooling(w: World, until: int, phaseId: nat, p: PlayerId, sender: Sender, d: Deps)
    requires Cooling(w, until) && d.now < until
    ensures !HandleEvent(w, PushButton(phaseId, p), sender, d).Accepted?
  {
    hide HandleInState, Transition, CloseTheRoom, ResetMatch, SetConnected, HandleMatchClockExpired, OpenAccusation,
         EligibleVoterIds;
  }
}
