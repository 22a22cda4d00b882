/** The game can be won: a crew that names the hackers and agrees always wins, whatever happened before. */
module CrewWinning {
  import opened Collections
  import opened SpeakingOrder
  import opened RoomState
  import opened Transitions
  import opened RoomInvariant
  import opened RoomProofs
  import opened RoundProofs
  import opened PhaseProofs
  import opened AccusationProofs
  import opened Runs
  import opened AccusationRuns

  function Ballot(phaseId: nat, p: PlayerId, d: Deps): Input {
    Receive(SubmitAccusationVote(phaseId, p, Approve), PlayerSender(p), d)
  }

  function Approvals(phaseId: nat, voters: seq<PlayerId>, d: Deps): seq<Input> {
    if voters == [] then [] else [Ballot(phaseId, voters[0], d)] + Approvals(phaseId, voters[1..], d)
  }

  /** A ballot of a voter who has not voted closes the vote exactly when it is the last one missing. */
  lemma BallotCloses(w: World, p: PlayerId, d: Deps)
    requires Valid(w) && w.room.phase.state == AccusationVote && w.room.currentAccusation.Some?
    requires p in w.room.currentAccusation.value.eligibleVoterIds && p !in w.room.submissions
    ensures var acc := w.room.currentAccusation.value;
            Step(w, Ballot(w.room.phase.phaseId, p, d)).room.phase.phaseId == w.room.phase.phaseId <==>
            !AllVoted(acc.(votes := acc.votes[p := Approve]))
  {
    hide Valid, HandleEvent, ResolveAccusationVote, AllVoted, Decided;
    OpenVote(w);
    var acc := w.room.currentAccusation.value;
    var voted := acc.(votes := acc.votes[p := Approve]);
    DispatchToVote(w, SubmitAccusationVote(w.room.phase.phaseId, p, Approve), PlayerSender(p), d);
    ResolveDecides(w, w.(room := w.room.(submissions := w.room.submissions + {p}, currentAccusation := Some(voted))), d);
  }

  /** When the voters still missing approve one after the other, the last of them closes the vote. */
  lemma {:induction false} ApprovalsClose(w: World, rest: seq<PlayerId>, d: Deps)
    requires Valid(w) && w.room.phase.state == AccusationVote && w.room.phase.startedAt <= d.now
    requires rest != [] && Distinct(rest)
    requires Elements(rest) == Elements(w.room.playerOrder) - w.room.submissions
    ensures ClosesAtLast(w, w.room.phase.phaseId, Approvals(w.room.phase.phaseId, rest, d))
    ensures Ticking(Approvals(w.room.phase.phaseId, rest, d), d.now)
    decreases |rest|
  {
    hide Valid, Step, Decided, AllVoted;
    OpenVote(w);
    var phaseId, p := w.room.phase.phaseId, rest[0];
    var input := Ballot(phaseId, p, d);
    var acc := w.room.currentAccusation.value;
    assert p in Elements(rest);
    BallotCloses(w, p, d);
    VoteInput(w, input);
    LastMissing(acc, w.room.playerOrder, w.room.submissions, rest);
    assert Approvals(phaseId, rest, d)[1..] == Approvals(phaseId, rest[1..], d);
    if |rest| > 1 {
      var t := Step(w, input);
      StepKeepsTime(w, input, d.now);
      StepValid(w, input);
      OpenVote(t);
      RestMissing(w.room.playerOrder, w.room.submissions, rest);
      assert t.room.currentAccusation.value.votes.Keys == w.room.submissions + {p};
      ApprovalsClose(t, rest[1..], d);
    }
  }

  lemma LastMissing(acc: Accusation, order: seq<PlayerId>, submissions: set<PlayerId>, rest: seq<PlayerId>)
    requires acc.eligibleVoterIds == order && acc.votes.Keys == submissions && rest != [] && Distinct(rest)
    requires Elements(rest) == Elements(order) - submissions
    ensures AllVoted(acc.(votes := acc.votes[rest[0] := Approve])) <==> |rest| == 1
  {
    var voted := acc.votes[rest[0] := Approve];
    assert voted.Keys == submissions + {rest[0]};
    assert rest[0] in Elements(rest);
    if |rest| > 1 {
      assert rest[1] in Elements(rest) && rest[1] in order && rest[1] !in voted;
    } else {
      forall id | id in order ensures id in voted {
        assert id in submissions || id in Elements(rest);
      }
    }
  }

  lemma RestMissing(order: seq<PlayerId>, submissions: set<PlayerId>, rest: seq<PlayerId>)
    requires rest != [] && Distinct(rest) && Elements(rest) == Elements(order) - submissions
    ensures Elements(rest[1..]) == Elements(order) - (submissions + {rest[0]})
  {
    assert rest == [rest[0]] + rest[1..];
    assert rest[0] !in rest[1..];
    assert Elements(rest) == {rest[0]} + Elements(rest[1..]);
  }

  lemma {:induction false} EverybodyApproves(voters: seq<PlayerId>, phaseId: nat, d: Deps, p: PlayerId)
    requires p in voters
    ensures FirstBallot(Approvals(phaseId, voters, d), phaseId, p) == Some(Approve)
  {
    if voters[0] != p {
      EverybodyApproves(voters[1..], phaseId, d, p);
    }
  }

  /** The members of a set in some order, once each. */
  lemma {:induction false} Listing(members: set<PlayerId>) returns (ids: seq<PlayerId>)
    ensures Distinct(ids) && Elements(ids) == members && |ids| == |members|
    decreases |members|
  {
    if members == {} {
      ids := [];
    } else {
      var id :| id in members;
      var rest := Listing(members - {id});
      ids := [id] + rest;
      assert forall x :: x in rest ==> x in Elements(rest);
      assert Elements(ids) == {id} + Elements(rest);
    }
  }

  /** The hackers of a match that is on are on the roster, as many as everybody is told. */
  lemma HackersKnown(w: World)
    requires Valid(w) && (w.room.phase.state == Discussion || w.room.phase.state == MinigameSelect)
    ensures HackerIds(w.priv.players) <= Elements(w.room.playerOrder)
    ensures |HackerIds(w.priv.players)| == w.room.hackerCount && w.room.winner.None?
  {
    hide AdminOk, JudgedOk, RoundOk, SpecialOk, AccusationOk, HackLedger, FirewallLedger, VerdictOk, ClockOk, IdsFresh,
         Elements;
  }

  function Button(w: World, p: PlayerId, d: Deps): Input {
    Receive(PushButton(w.room.phase.phaseId, p), PlayerSender(p), d)
  }

  function Naming(w: World, p: PlayerId, ids: seq<PlayerId>, d: Deps): Input {
    Receive(SubmitAccusation(w.room.phase.phaseId, p, ids), PlayerSender(p), d)
  }

  lemma AccusationOpens(w: World, p: PlayerId, d: Deps)
    requires Valid(w) && (w.room.phase.state == Discussion || w.room.phase.state == MinigameSelect)
    requires w.room.phase.startedAt <= d.now && p in w.room.playerOrder
    requires w.room.accusationCooldownUntil.None? || w.room.accusationCooldownUntil.value <= d.now
    ensures var t := Step(w, Button(w, p, d));
            && Valid(t) && t.room.phase.state == AccusationSelect && t.room.phase.startedAt <= d.now
            && t.priv == w.priv && t.room.playerOrder == w.room.playerOrder
            && t.room.currentAccusation.Some? && t.room.currentAccusation.value.initiatorId == p
            && t.room.currentAccusation.value.requiredSuspectCount == w.room.hackerCount
  {
    hide Valid, HandleInState, HandleMatchClockExpired, Transition, CloseTheRoom, ResetMatch, SetConnected, EligibleIf,
         RosterOk, HackerIds, DurationFor;
    OpenAccusationOk(w);
    HackersKnown(w);
    EverybodyEligible(w.room, w.priv.players, w.room.config.eliminatedMayVote);
    ButtonPushed(w, p, d);
    PlainEntry(OpenAccusation(w, p, d), AccusationSelect, d);
  }

  lemma SuspectsNamed(w: World, p: PlayerId, ids: seq<PlayerId>, d: Deps)
    requires Valid(w) && w.room.phase.state == AccusationSelect && w.room.phase.startedAt <= d.now
    requires w.room.currentAccusation.Some? && w.room.currentAccusation.value.initiatorId == p
    requires Distinct(ids) && |ids| == w.room.currentAccusation.value.requiredSuspectCount
    requires forall id :: id in ids ==> id in w.room.playerOrder
    ensures var t := Step(w, Naming(w, p, ids, d));
            && Valid(t) && t.room.phase.state == AccusationVote && t.room.phase.startedAt <= d.now
            && t.priv == w.priv && t.room.playerOrder == w.room.playerOrder && t.room.submissions == {}
            && t.room.currentAccusation.Some? && t.room.currentAccusation.value.suspectIds == Some(ids)
  {
    hide Valid, HandleMatchClockExpired, Transition, CloseTheRoom, ResetMatch, SetConnected, EligibleIf, RosterOk,
         DurationFor, Distinct, HandleLobby, HandleRoleReveal, HandleGameIntro, HandleMinigameSelect, HandleHackWindow,
         HandleMinigameInstructions, HandleMinigamePlay, HandleResultsReveal, HandleDiscussion, HandleAccusationVote,
         HandleSpecialGameIntro, HandleSpecialGamePlay, HandleSpecialGameResult, HandleFinalResults, HandleRematchLobby,
         ReturnToGameplay, HandlePushButton;
    var acc := w.room.currentAccusation.value;
    OpenAccusationOk(w);
    EverybodyEligible(w.room, w.priv.players, w.room.config.eliminatedMayVote);
    SuspectsLocked(w, acc, ids, d);
    PlainEntry(LockSuspects(w, acc, ids, d), AccusationVote, d);
  }

  lemma VerdictOfValid(w: World)
    requires Valid(w) && w.room.phase.state == FinalResults
    ensures w.room.winner.Some? && VerdictOk(w.room.accusationHistory, w.room.winner)
    ensures JudgedOk(w.room.accusationHistory, HackerIds(w.priv.players))
  {
    hide RosterOk, MatchOk, AdminOk, JudgedOk, RoundOk, SpecialOk, AccusationOk, HackLedger, FirewallLedger, VerdictOk,
         ClockOk, IdsFresh, HackerIds;
  }

  /** With the real hackers locked, the votes of everybody make the crew win. */
  lemma UnanimityWins(w: World, ids: seq<PlayerId>, d: Deps)
    requires Valid(w) && w.room.phase.state == AccusationVote && w.room.submissions == {}
    requires w.room.phase.startedAt <= d.now && w.room.playerOrder != [] && Distinct(w.room.playerOrder)
    requires w.room.currentAccusation.Some? && w.room.currentAccusation.value.suspectIds == Some(ids)
    requires Elements(ids) == HackerIds(w.priv.players)
    ensures var inputs := Approvals(w.room.phase.phaseId, w.room.playerOrder, d);
            && Ticking(inputs, d.now)
            && RunOf(w, inputs).room.winner == Some(CrewWins) && RunOf(w, inputs).room.phase.state == FinalResults
  {
    hide Valid, RunOf, HackerIds, Ballots, FirstBallot, ClosesAtLast, Approvals, Ticking;
    var order, phaseId := w.room.playerOrder, w.room.phase.phaseId;
    var inputs := Approvals(phaseId, order, d);
    OpenVote(w);
    ApprovalsClose(w, order, d);
    WholeVote(w, inputs, d.now);
    VoteDecidedByFirstBallots(w, inputs, d.now);
    RunValid(w, inputs, d.now);
    assert Approvers(order, inputs, phaseId) == Elements(order) by {
      forall p | p in order ensures p in Approvers(order, inputs, phaseId) {
        EverybodyApproves(order, phaseId, d, p);
      }
    }
    DistinctCounts(order);
    hide Approvers, Elements, Distinct;
    VerdictOfValid(RunOf(w, inputs));
  }

  /**
    In every discussion and every Admin's turn outside the cooldown, whoever pushes the button, names
    the hackers and is followed by everybody wins the match for the crew.
   */
  lemma CrewCanWin(w: World, p: PlayerId, d: Deps) returns (inputs: seq<Input>)
    requires Valid(w) && (w.room.phase.state == Discussion || w.room.phase.state == MinigameSelect)
    requires w.room.phase.startedAt <= d.now && p in w.room.playerOrder
    requires w.room.accusationCooldownUntil.None? || w.room.accusationCooldownUntil.value <= d.now
    ensures Ticking(inputs, d.now)
    ensures RunOf(w, inputs).room.winner == Some(CrewWins) && RunOf(w, inputs).room.phase.state == FinalResults
  {
    hide Valid, Step, HackerIds;
    HackersKnown(w);
    OpenAccusationOk(w);
    assert Distinct(w.room.playerOrder);
    hide RosterOk, Distinct;
    var ids := Listing(HackerIds(w.priv.players));
    assert forall id :: id in ids ==> id in Elements(ids);
    AccusationOpens(w, p, d);
    var accused := Step(w, Button(w, p, d));
    SuspectsNamed(accused, p, ids, d);
    var named := Step(accused, Naming(accused, p, ids, d));
    UnanimityWins(named, ids, d);
    var votes := Approvals(named.room.phase.phaseId, named.room.playerOrder, d);
    inputs := [Button(w, p, d), Naming(accused, p, ids, d)] + votes;
    assert inputs[1..] == [Naming(accused, p, ids, d)] + votes && inputs[1..][1..] == votes;
  }
}
