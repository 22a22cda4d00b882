/** What every accepted event leaves alone, whatever the room looks like. */
module Frames {
  import opened Collections
  import opened SpeakingOrder
  import opened MatchClocks
  import opened RoomState
  import opened Transitions
  import Minigames
  import BombProtocol

  /** A clock that runs is the one that ran before, or has a fresh id. */
  ghost predicate ClockFollows(before: MatchClock, after: MatchClock, nextId: nat) {
    after.status == Running ==> after.clockId >= nextId || (before.status == Running && after.clockId == before.clockId)
  }

  /** The cooldown changes when it starts anew, and when a match that is over is reset. */
  ghost predicate CooldownFollows(r: Room, after: Option<int>, now: int) {
    || after == r.accusationCooldownUntil
    || after == Some(now + r.config.accusationCooldownMs)
    || (after.None? && (r.phase.state == FinalResults || r.phase.state == RematchLobby))
  }

  /** The same round at a later point: what it began with stands. */
  predicate SameRound(before: Round, after: Round) {
    && after.cycle == before.cycle && after.roundInCycle == before.roundInCycle && after.minigameId == before.minigameId
    && after.adminId == before.adminId && after.adminSelectedIds == before.adminSelectedIds
    && after.participantIds == before.participantIds && after.startedAt == before.startedAt
  }

  /** A round goes on as the one it is, or began in the Admin's turn. */
  ghost predicate GameFollows(r: Room, after: Option<Round>) {
    after.None? || r.phase.state == MinigameSelect || (r.currentRound.Some? && SameRound(r.currentRound.value, after.value))
  }

  /** Ids are never handed out twice, versions do not go back, and the configuration stays. */
  ghost predicate Follows(w: World, t: World, now: int) {
    && t.nextId >= w.nextId && t.room.stateVersion >= w.room.stateVersion && t.room.config == w.room.config
    && ClockFollows(w.room.matchClock, t.room.matchClock, w.nextId)
    && CooldownFollows(w.room, t.room.accusationCooldownUntil, now)
    && GameFollows(w.room, t.room.currentRound)
  }

  /** A new phase has begun, now, under a fresh id and for its time, and the version shows it. */
  ghost predicate Moved(w: World, t: World, now: int) {
    && Follows(w, t, now) && t.room.phase.phaseId >= w.nextId && t.room.phase.startedAt == now
    && t.room.phase.durationMs == DurationFor(t.room.phase.state, t.room)
    && t.room.stateVersion > w.room.stateVersion
  }

  /** How long a phase lasts depends on the configuration and what is played, not on the phase there is. */
  lemma SameDuration(r: Room, t: Room, state: GameState)
    requires t.config == r.config && t.currentRound == r.currentRound && t.currentSpecialRound == r.currentSpecialRound
    ensures DurationFor(state, t) == DurationFor(state, r)
  {
  }

  /** Sequence numbers only grow. */
  ghost predicate SeqsGrow(before: map<PlayerId, int>, after: map<PlayerId, int>) {
    forall id {:trigger LastSeqOf(after, id)} {:trigger LastSeqOf(before, id)} :: LastSeqOf(before, id) <= LastSeqOf(after, id)
  }

  ghost predicate RoundContinues(before: Option<Round>, after: Option<Round>) {
    && (before.Some? <==> after.Some?)
    && (before.Some? ==>
          && SameRound(before.value, after.value)
          && SeqsGrow(before.value.lastSeq, after.value.lastSeq))
  }

  ghost predicate SpecialContinues(before: Option<SpecialRound>, after: Option<SpecialRound>) {
    && (before.Some? <==> after.Some?)
    && (before.Some? ==> SeqsGrow(before.value.lastSeq, after.value.lastSeq))
  }

  /** The phase goes on, with its round, its clock, its Admin and everything the match has recorded about winning. */
  ghost predicate Stayed(w: World, t: World) {
    && t.nextId >= w.nextId && t.room.config == w.room.config && t.room.phase == w.room.phase
    && t.room.stateVersion == w.room.stateVersion
    && t.room.matchClock == w.room.matchClock && t.hist == w.hist
    && t.room.adminId == w.room.adminId && t.room.adminQueue == w.room.adminQueue
    && t.room.winner == w.room.winner && t.room.accusationHistory == w.room.accusationHistory
    && t.room.accusationCooldownUntil == w.room.accusationCooldownUntil
    && RoundContinues(w.room.currentRound, t.room.currentRound)
    && SpecialContinues(w.room.currentSpecialRound, t.room.currentSpecialRound)
  }

  lemma FollowsThenMoves(w: World, s: World, t: World, now: int)
    requires Follows(w, s, now) && Moved(s, t, now)
    requires t.room.accusationCooldownUntil == s.room.accusationCooldownUntil && t.room.currentRound == s.room.currentRound
    ensures Moved(w, t, now)
  {
  }

  lemma MovesThenFollows(w: World, s: World, t: World, now: int)
    requires Moved(w, s, now) && Follows(s, t, now) && t.room.phase == s.room.phase
    requires t.room.accusationCooldownUntil == s.room.accusationCooldownUntil && t.room.currentRound == s.room.currentRound
    requires t.room.currentSpecialRound == s.room.currentSpecialRound
    ensures Moved(w, t, now)
  {
    SameDuration(s.room, t.room, s.room.phase.state);
    hide DurationFor;
  }

  lemma SetPhaseMoves(w: World, next: GameState, d: Deps)
    ensures Moved(w, SetPhase(w, next, d), d.now)
    ensures SetPhase(w, next, d).room.accusationCooldownUntil == w.room.accusationCooldownUntil
    ensures SetPhase(w, next, d).room.currentRound == w.room.currentRound
  {
    SameDuration(w.room, SetPhase(w, next, d).room, next);
    hide DurationFor;
  }

  /** Whatever was prepared before it, a transition begins a new phase. */
  lemma TransitionMoves(w: World, prep: World, next: GameState, d: Deps)
    requires Follows(w, prep, d.now)
    ensures Transition(prep, next, d).Some? ==> Moved(w, Transition(prep, next, d).value, d.now)
    decreases match next case RoleAssignment => 3 case HackerCorruption => 2 case _ => 0
  {
    var entered := SetPhase(prep, next, d);
    SetPhaseMoves(prep, next, d);
    FollowsThenMoves(w, prep, entered, d.now);
    assert Follows(w, entered, d.now);
    hide SetPhase, Moved, Follows;
    match next
    case RoleAssignment =>
      RolesFollow(w, entered, d);
      var roles := PerformRoleAssignment(entered, d);
      hide PerformRoleAssignment;
      if roles.Some? {
        TransitionMoves(w, roles.value, RoleReveal, d);
      }
    case MinigameSelect =>
      AdminFollows(entered, d);
      hide AssignNextAdmin;
      MovesThenFollows(w, entered, AssignNextAdmin(entered, d), d.now);
    case HackerCorruption =>
      if entered.room.firewallActive {
        FirewallFollows(w, entered, d);
        hide ResolveFirewallBlock;
        var resolved := ResolveFirewallBlock(entered, d);
        if resolved.room.currentRound.Some? {
          ProceedMoves(w, resolved, d);
        } else {
          FirewallKeepsPhase(entered, d);
          MovesThenFollows(w, entered, resolved, d.now);
        }
        hide ProceedToInstructions;
      }
    case _ =>
  }

  lemma RolesFollow(w: World, s: World, d: Deps)
    requires Follows(w, s, d.now)
    ensures PerformRoleAssignment(s, d).Some? ==> Follows(w, PerformRoleAssignment(s, d).value, d.now)
  {
  }

  lemma AdminFollows(w: World, d: Deps)
    ensures Follows(w, AssignNextAdmin(w, d), d.now) && AssignNextAdmin(w, d).room.phase == w.room.phase
    ensures AssignNextAdmin(w, d).room.accusationCooldownUntil == w.room.accusationCooldownUntil
    ensures AssignNextAdmin(w, d).room.currentRound == w.room.currentRound
    ensures AssignNextAdmin(w, d).room.currentSpecialRound == w.room.currentSpecialRound
  {
    hide NextQueue;
  }

  lemma FirewallFollows(w: World, s: World, d: Deps)
    requires Follows(w, s, d.now)
    ensures Follows(w, ResolveFirewallBlock(s, d), d.now)
  {
  }

  lemma FirewallKeepsPhase(w: World, d: Deps)
    ensures Follows(w, ResolveFirewallBlock(w, d), d.now) && ResolveFirewallBlock(w, d).room.phase == w.room.phase
    ensures ResolveFirewallBlock(w, d).room.accusationCooldownUntil == w.room.accusationCooldownUntil
    ensures ResolveFirewallBlock(w, d).room.currentRound == w.room.currentRound
    ensures ResolveFirewallBlock(w, d).room.currentSpecialRound == w.room.currentSpecialRound
    ensures w.room.currentRound.None? ==> ProceedToInstructions(ResolveFirewallBlock(w, d), d) == Some(ResolveFirewallBlock(w, d))
  {
  }

  lemma ProceedMoves(w: World, s: World, d: Deps)
    requires Follows(w, s, d.now) && s.room.currentRound.Some?
    ensures ProceedToInstructions(s, d).Some? ==> Moved(w, ProceedToInstructions(s, d).value, d.now)
    decreases 1
  {
    hide StartModule;
    var round := s.room.currentRound.value;
    var revealed := round.hackedRevealed || s.room.config.revealPolicy == OnInstructions;
    var t := s.(room := s.room.(currentRound := Some(round.(hackedRevealed := revealed, moduleState := StartModule(round, d)))));
    TransitionMoves(w, t, MinigameInstructions, d);
    hide Transition;
  }

  // ---- The handlers -----------------------------------------------------------------------------------------------

  /** An accepted event either begins a new phase or goes on with this one. */
  ghost predicate Frame(w: World, o: Outcome, now: int) {
    o.Accepted? ==> Moved(w, o.world, now) || Stayed(w, o.world)
  }

  lemma StaysPut(w: World)
    ensures Stayed(w, w)
  {
  }

  lemma LobbyFrame(w: World, e: Event, d: Deps)
    ensures Frame(w, HandleLobby(w, e, d), d.now)
  {
    TransitionMoves(w, w, RoleAssignment, d);
    hide Transition;
  }

  lemma RevealFrame(w: World, e: Event, d: Deps)
    ensures Frame(w, HandleRoleReveal(w, e, d), d.now)
  {
    hide Transition, EverybodyAcknowledged, LastSeqOf, Moved;
    TransitionMoves(w, w, GameIntro, d);
    if e.AcknowledgeReveal? {
      TransitionMoves(w, w.(room := w.room.(submissions := w.room.submissions + {e.playerId})), GameIntro, d);
    }
  }

  lemma IntroFrame(w: World, e: Event, d: Deps)
    ensures Frame(w, HandleGameIntro(w, e, d), d.now)
  {
    hide Transition, Moved, Stayed;
    TransitionMoves(w, w.(room := w.room.(matchClock := StartMatchClock(w.room.config.matchClockTotalMs, d.now, w.nextId)),
                          nextId := w.nextId + 1), MinigameSelect, d);
  }

  lemma BegunMoves(w: World, id: Minigames.MinigameId, participants: seq<PlayerId>, selected: seq<PlayerId>, d: Deps)
    requires w.room.phase.state == MinigameSelect
    ensures var t := Transition(BeginNormalRound(w, id, participants, selected, d), HackerCorruption, d);
            t.Some? ==> Moved(w, t.value, d.now)
  {
    hide Transition, Moved;
    TransitionMoves(w, BeginNormalRound(w, id, participants, selected, d), HackerCorruption, d);
  }

  lemma SelectFrame(w: World, e: Event, d: Deps)
    requires w.room.phase.state == MinigameSelect
    ensures Frame(w, HandleMinigameSelect(w, e, d), d.now)
  {
    hide Transition, ExpandParticipants, AutoSelectMinigame, AutoSelectParticipants, EligibleMinigameIds, Distinct,
         Moved, Stayed, BeginNormalRound;
    var id := AutoSelectMinigame(w.room, d);
    var selected := AutoSelectParticipants(w.room, id, d);
    BegunMoves(w, id, ExpandParticipants(w.room, id, selected), selected, d);
    if e.AdminSelectMinigame? && e.minigame.Some? {
      var ids := e.participantIds;
      BegunMoves(w, e.minigame.value, ExpandParticipants(w.room, e.minigame.value, ids), ids, d);
    }
  }

  lemma HackFrame(w: World, e: Event, d: Deps)
    ensures Frame(w, HandleHackWindow(w, e, d), d.now)
  {
    if w.room.currentRound.Some? {
      ProceedMoves(w, w, d);
    }
    hide ProceedToInstructions, HackerIds;
  }

  lemma InstructionsFrame(w: World, e: Event, d: Deps)
    ensures Frame(w, HandleMinigameInstructions(w, e, d), d.now)
  {
    TransitionMoves(w, w, MinigamePlay, d);
    hide Transition;
  }

  lemma CompleteMoves(w: World, s: World, d: Deps)
    requires Follows(w, s, d.now) && s.room.currentRound.Some?
    ensures CompleteMinigame(s, d).Some? ==> Moved(w, CompleteMinigame(s, d).value, d.now)
  {
    TransitionMoves(w, RecordRound(s, d), ResultsReveal, d);
    hide Transition;
  }

  lemma TimeoutMoves(w: World, d: Deps)
    requires w.room.currentRound.Some?
    ensures PlayTimeout(w, w.room.currentRound.value, d).Some? ==> Moved(w, PlayTimeout(w, w.room.currentRound.value, d).value, d.now)
  {
    var round := w.room.currentRound.value;
    CompleteMoves(w, w, d);
    if round.moduleState.Some? && Minigames.HandleTimeout(round.moduleState.value).Some? {
      var after := Minigames.HandleTimeout(round.moduleState.value).value;
      var applied := w.(room := w.room.(currentRound := Some(round.(moduleState := Some(after)))));
      CompleteMoves(w, applied, d);
      TransitionMoves(w, applied, MinigamePlay, d);
    }
    hide CompleteMinigame, Transition, Minigames.HandleTimeout, Minigames.IsComplete;
  }

  lemma ActionFrame(w: World, after: Round, d: Deps)
    requires w.room.currentRound.Some? && w.room.currentRound.value.moduleState.Some? && after.moduleState.Some?
    requires SeqsGrow(w.room.currentRound.value.lastSeq, after.lastSeq)
    requires SameRound(w.room.currentRound.value, after)
    ensures Frame(w, AfterAction(w, w.room.currentRound.value, after, d), d.now)
  {
    var applied := w.(room := w.room.(currentRound := Some(after)));
    CompleteMoves(w, applied, d);
    TransitionMoves(w, applied, MinigamePlay, d);
    hide CompleteMinigame, Transition, Minigames.IsComplete, SeqsGrow, LastSeqOf;
  }

  lemma SeqApplied(lastSeq: map<PlayerId, int>, playerId: PlayerId, seqNo: int)
    requires seqNo > LastSeqOf(lastSeq, playerId)
    ensures SeqsGrow(lastSeq, lastSeq[playerId := seqNo])
  {
  }

  lemma PlayActionFrame(w: World, playerId: PlayerId, seqNo: int, actionId: nat, action: GameAction, d: Deps)
    requires w.room.currentRound.Some?
    ensures Frame(w, PlayAction(w, w.room.currentRound.value, playerId, seqNo, actionId, action, d), d.now)
  {
    var round := w.room.currentRound.value;
    StaysPut(w);
    hide AfterAction, RecentOf, LastTwenty, Minigames.ValidateAction, Minigames.HandleAction, LastSeqOf, Stayed;
    if PlayAction(w, round, playerId, seqNo, actionId, action, d).Accepted? && actionId !in RecentOf(round.recentActionIds, playerId) {
      SeqApplied(round.lastSeq, playerId, seqNo);
      var after := Minigames.HandleAction(round.moduleState.value, playerId, action.action);
      ActionFrame(w, Acted(round, playerId, seqNo, actionId, after), d);
    }
  }

  lemma PlayFrame(w: World, e: Event, d: Deps)
    ensures Frame(w, HandleMinigamePlay(w, e, d), d.now)
  {
    hide CompleteMinigame, PlayTimeout, PlayAction, Moved, Stayed;
    if w.room.currentRound.Some? {
      CompleteMoves(w, w, d);
      TimeoutMoves(w, d);
      if e.SubmitAction? {
        PlayActionFrame(w, e.playerId, e.seqNo, e.actionId, e.action, d);
      }
    }
  }

  lemma ResultsFrame(w: World, e: Event, d: Deps)
    ensures Frame(w, HandleResultsReveal(w, e, d), d.now)
  {
    TransitionMoves(w, w.(room := w.room.(currentRound := None)), Discussion, d);
    hide Transition;
  }

  lemma ResolveMoves(w: World, s: World, d: Deps)
    requires Follows(w, s, d.now)
    ensures ResolveAfterRoundOrSpecial(s, d).Some? ==> Moved(w, ResolveAfterRoundOrSpecial(s, d).value, d.now)
  {
    TransitionMoves(w, s, MinigameSelect, d);
    TransitionMoves(w, BeginSpecialGame(s, d), SpecialGameIntro, d);
    hide Transition, SpecialGameDue;
  }

  lemma DiscussionFrame(w: World, e: Event, d: Deps)
    ensures Frame(w, HandleDiscussion(w, e, d), d.now)
  {
    ResolveMoves(w, w, d);
    hide ResolveAfterRoundOrSpecial;
  }

  lemma ButtonFrame(w: World, playerId: PlayerId, d: Deps)
    ensures Frame(w, HandlePushButton(w, playerId, d), d.now)
  {
    TransitionMoves(w, OpenAccusation(w, playerId, d), AccusationSelect, d);
    hide Transition, EligibleVoterIds;
  }

  lemma ReturnMoves(w: World, s: World, origin: Origin, d: Deps)
    requires Follows(w, s, d.now)
    ensures ReturnToGameplay(s, d, origin).Some? ==> Moved(w, ReturnToGameplay(s, d, origin).value, d.now)
  {
    TransitionMoves(w, s, MinigameSelect, d);
    SetPhaseMoves(s, MinigameSelect, d);
    hide Transition, SetPhase;
  }

  lemma AccusationSelectFrame(w: World, e: Event, d: Deps)
    ensures Frame(w, HandleAccusationSelect(w, e, d), d.now)
  {
    if w.room.currentAccusation.Some? {
      var acc := w.room.currentAccusation.value;
      ReturnMoves(w, CancelAccusation(w, acc, d), acc.origin, d);
      if e.SubmitAccusation? {
        TransitionMoves(w, LockSuspects(w, acc, e.suspectIds, d), AccusationVote, d);
      }
    }
    hide Transition, EligibleVoterIds, ReturnToGameplay, Distinct;
  }

  lemma VoteMoves(w: World, s: World, d: Deps)
    requires Follows(w, s, d.now) && s.room.currentAccusation.Some? && s.room.currentAccusation.value.suspectIds.Some?
    ensures ResolveAccusationVote(s, d).Some? ==> Moved(w, ResolveAccusationVote(s, d).value, d.now)
  {
    var acc := s.room.currentAccusation.value;
    ReturnMoves(w, RejectAccusation(s, acc, acc.suspectIds.value, d), acc.origin, d);
    TransitionMoves(w, Convict(s, acc, acc.suspectIds.value, d), FinalResults, d);
    hide Transition, ReturnToGameplay, IsApproved, HackerIds;
  }

  lemma BallotFrame(w: World, voted: Accusation, playerId: PlayerId, d: Deps)
    requires voted.suspectIds.Some?
    ensures Frame(w, CountVote(w, voted, playerId, d), d.now)
  {
    VoteMoves(w, w.(room := w.room.(submissions := w.room.submissions + {playerId}, currentAccusation := Some(voted))), d);
    hide ResolveAccusationVote, AllVoted, LastSeqOf;
  }

  lemma AccusationVoteFrame(w: World, e: Event, d: Deps)
    ensures Frame(w, HandleAccusationVote(w, e, d), d.now)
  {
    hide ResolveAccusationVote, CountVote, Stayed, Moved;
    if w.room.currentAccusation.Some? && w.room.currentAccusation.value.suspectIds.Some? {
      var acc := w.room.currentAccusation.value;
      VoteMoves(w, w, d);
      if e.SubmitAccusationVote? {
        BallotFrame(w, acc.(votes := acc.votes[e.playerId := e.vote]), e.playerId, d);
      }
    }
  }

  lemma PlaySpecialMoves(w: World, d: Deps)
    ensures PlaySpecial(w, d).Some? ==> Moved(w, PlaySpecial(w, d).value, d.now)
  {
    hide StartSpecial;
    if w.room.currentSpecialRound.None? {
      TransitionMoves(w, w, SpecialGamePlay, d);
    } else {
      var s := w.room.currentSpecialRound.value;
      var prep := w.(room := w.room.(currentSpecialRound := Some(s.(moduleState := StartSpecial(s.participantIds, d)))));
      assert Follows(w, prep, d.now);
      hide Follows, Moved;
      TransitionMoves(w, prep, SpecialGamePlay, d);
    }
    hide Transition;
  }

  lemma SpecialIntroFrame(w: World, e: Event, d: Deps)
    ensures Frame(w, HandleSpecialGameIntro(w, e, d), d.now)
  {
    PlaySpecialMoves(w, d);
    hide PlaySpecial, Moved, Stayed;
  }

  lemma SpecialCompleteMoves(w: World, s: World, d: Deps)
    requires Follows(w, s, d.now) && s.room.currentSpecialRound.Some?
    ensures CompleteSpecialGame(s, d).Some? ==> Moved(w, CompleteSpecialGame(s, d).value, d.now)
  {
    TransitionMoves(w, RecordSpecial(s, d), SpecialGameResult, d);
    hide Transition;
  }

  lemma SpecialActionFrame(w: World, playerId: PlayerId, seqNo: int, actionId: nat, action: GameAction, d: Deps)
    requires w.room.currentSpecialRound.Some?
    ensures Frame(w, SpecialAction(w, w.room.currentSpecialRound.value, playerId, seqNo, actionId, action, d), d.now)
  {
    var s := w.room.currentSpecialRound.value;
    StaysPut(w);
    hide RecentOf, LastTwenty, BombProtocol.ValidateAction, BombProtocol.HandleAction, LastSeqOf, CompleteSpecialGame;
    if SpecialAction(w, s, playerId, seqNo, actionId, action, d).Accepted? && actionId !in RecentOf(s.recentActionIds, playerId) {
      SeqApplied(s.lastSeq, playerId, seqNo);
      var after := SpecialActed(s, playerId, seqNo, actionId, BombProtocol.HandleAction(s.moduleState.value, action.bomb));
      SpecialCompleteMoves(w, w.(room := w.room.(currentSpecialRound := Some(after))), d);
    }
  }

  lemma SpecialPlayFrame(w: World, e: Event, d: Deps)
    ensures Frame(w, HandleSpecialGamePlay(w, e, d), d.now)
  {
    if w.room.currentSpecialRound.Some? {
      SpecialCompleteMoves(w, w, d);
      if e.SubmitAction? {
        SpecialActionFrame(w, e.playerId, e.seqNo, e.actionId, e.action, d);
      }
    }
    hide CompleteSpecialGame, SpecialAction, Stayed;
  }

  lemma LeavingFollows(w: World, d: Deps)
    ensures var left := w.(room := w.room.(currentSpecialRound := None));
            && Follows(w, Resume(left, d), d.now) && Follows(w, Resume(RaiseFirewall(left, d), d), d.now)
            && Follows(w, Resume(Charge(left, d), d), d.now) && Follows(w, EndMatch(Charge(left, d), HackersWin), d.now)
  {
  }

  lemma LeaveMoves(w: World, d: Deps)
    ensures LeaveSpecial(w, d).Some? ==> Moved(w, LeaveSpecial(w, d).value, d.now)
  {
    var left := w.(room := w.room.(currentSpecialRound := None));
    LeavingFollows(w, d);
    hide Follows, Moved, Resume, RaiseFirewall, EndMatch;
    ResolveMoves(w, Resume(left, d), d);
    ResolveMoves(w, Resume(RaiseFirewall(left, d), d), d);
    ResolveMoves(w, Resume(Charge(left, d), d), d);
    TransitionMoves(w, EndMatch(Charge(left, d), HackersWin), FinalResults, d);
    hide Transition, ResolveAfterRoundOrSpecial, Charge;
  }

  lemma SpecialResultFrame(w: World, e: Event, d: Deps)
    ensures Frame(w, HandleSpecialGameResult(w, e, d), d.now)
  {
    LeaveMoves(w, d);
    hide LeaveSpecial, Stayed;
  }

  lemma FinalFrame(w: World, e: Event, d: Deps)
    ensures Frame(w, HandleFinalResults(w, e, d), d.now)
  {
    TransitionMoves(w, w, RematchLobby, d);
    hide Transition, LastSeqOf;
  }

  lemma RematchFrame(w: World, e: Event, d: Deps)
    requires w.room.phase.state == RematchLobby
    ensures Frame(w, HandleRematchLobby(w, e, d), d.now)
  {
    TransitionMoves(w, ResetMatch(w), RoleAssignment, d);
    hide Transition;
  }

  lemma StateFrame(w: World, e: Event, d: Deps)
    ensures Frame(w, HandleInState(w, e, d), d.now)
  {
    hide Stayed, Moved, HandleLobby, HandleRoleReveal, HandleGameIntro, HandleMinigameSelect, HandleHackWindow,
         HandleMinigameInstructions, HandleMinigamePlay, HandleResultsReveal, HandleDiscussion,
         HandleAccusationSelect, HandleAccusationVote, HandleSpecialGameIntro, HandleSpecialGamePlay,
         HandleSpecialGameResult, HandleFinalResults, HandleRematchLobby;
    match w.room.phase.state
    case Lobby => LobbyFrame(w, e, d);
    case RoleReveal => RevealFrame(w, e, d);
    case GameIntro => IntroFrame(w, e, d);
    case MinigameSelect => SelectFrame(w, e, d);
    case HackerCorruption => HackFrame(w, e, d);
    case MinigameInstructions => InstructionsFrame(w, e, d);
    case MinigamePlay => PlayFrame(w, e, d);
    case ResultsReveal => ResultsFrame(w, e, d);
    case Discussion => DiscussionFrame(w, e, d);
    case AccusationSelect => AccusationSelectFrame(w, e, d);
    case AccusationVote => AccusationVoteFrame(w, e, d);
    case SpecialGameIntro => SpecialIntroFrame(w, e, d);
    case SpecialGamePlay => SpecialPlayFrame(w, e, d);
    case SpecialGameResult => SpecialResultFrame(w, e, d);
    case FinalResults => FinalFrame(w, e, d);
    case RematchLobby => RematchFrame(w, e, d);
    case _ =>
  }

  lemma ClockFrame(w: World, clockId: nat, d: Deps)
    ensures Frame(w, HandleMatchClockExpired(w, clockId, d), d.now)
  {
    var logged := if w.room.currentAccusation.None? then w.room
                  else Log(w.room, d, AccusationAbandonedByClock(w.room.currentAccusation.value.initiatorId));
    var cleared := w.(room := logged.(currentRound := None, currentSpecialRound := None, currentAccusation := None));
    TransitionMoves(w, EndMatch(cleared, HackersWin), FinalResults, d);
    hide Transition;
  }

  lemma CloseFrame(w: World, d: Deps)
    ensures Frame(w, Accept(CloseTheRoom(w, d)), d.now)
  {
    TransitionMoves(w, w, Abandoned, d);
    StaysPut(w);
    hide Transition;
  }

  lemma RestartFrame(w: World, d: Deps)
    requires w.room.phase.state == FinalResults || w.room.phase.state == RematchLobby
    ensures Frame(w, Accept(Transition(ResetMatch(w), Lobby, d)), d.now)
  {
    TransitionMoves(w, ResetMatch(w), Lobby, d);
    hide Transition;
  }

  lemma ConnectionFrame(w: World, playerId: PlayerId, connected: bool, host: bool)
    ensures Stayed(w, SetConnected(w, playerId, connected)) && Stayed(w, w.(room := w.room.(hostConnected := host)))
  {
    hide LastSeqOf;
  }

  lemma ConnectionOnly(w: World, playerId: PlayerId, connected: bool)
    ensures var t := SetConnected(w, playerId, connected); t == w.(room := w.room.(players := t.room.players))
    ensures Disconnect(w, playerId).Some? ==> Disconnect(w, playerId).value == SetConnected(w, playerId, false)
  {
  }

  /** The events that are handled whatever the phase. */
  predicate CrossCutting(e: Event) {
    e.PlayerDisconnected? || e.PlayerReconnected? || e.HostDisconnected? || e.HostReconnected? || e.CloseRoom? || e.GraceExpired?
    || e.MatchClockExpired? || e.RestartMatch?
  }

  lemma CrossCuttingFrame(w: World, e: Event, sender: Sender, d: Deps)
    requires CrossCutting(e)
    ensures Frame(w, HandleEvent(w, e, sender, d), d.now)
  {
    hide Stayed, Moved, HandleMatchClockExpired, CloseTheRoom, Transition, ResetMatch, SetConnected, CheckSender,
         HandleInState, HandlePushButton, IsStalePhase;
    match e
    case PlayerDisconnected(playerId) => ConnectionFrame(w, playerId, false, true);
    case PlayerReconnected(playerId) => ConnectionFrame(w, playerId, true, true);
    case HostDisconnected => ConnectionFrame(w, 0, true, false);
    case HostReconnected => ConnectionFrame(w, 0, true, true);
    case MatchClockExpired(clockId) => ClockFrame(w, clockId, d);
    case RestartMatch =>
      if w.room.phase.state == FinalResults || w.room.phase.state == RematchLobby {
        RestartFrame(w, d);
      }
    case _ => CloseFrame(w, d);
  }

  /** Every accepted event, in every state: a new phase under a fresh id, or this phase goes on. */
  lemma EventFrame(w: World, e: Event, sender: Sender, d: Deps)
    ensures Frame(w, HandleEvent(w, e, sender, d), d.now)
  {
    hide Stayed, Moved, HandleInState, HandlePushButton, CheckSender, IsStalePhase, HandleMatchClockExpired,
         CloseTheRoom, Transition, ResetMatch, SetConnected;
    if CrossCutting(e) {
      CrossCuttingFrame(w, e, sender, d);
    } else {
      StateFrame(w, e, d);
      if e.PushButton? {
        ButtonFrame(w, e.playerId, d);
      }
    }
  }

  lemma RosterFrame(w: World, input: Input)
    requires !input.Receive?
    ensures Offer(w, input).Accepted? ==> Stayed(w, Offer(w, input).world)
  {
    hide Filter, LastSeqOf;
  }
}
