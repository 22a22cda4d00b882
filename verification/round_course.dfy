/** The course of a regular round: what is selected is what is played, hacked, recorded and then cleared away. */
module RoundCourse {
  import opened Collections
  import opened Random
  import opened SpeakingOrder
  import opened AdminRotation
  import opened RoomState
  import opened Transitions
  import opened RoomInvariant
  import opened RoomProofs
  import opened StartProofs
  import opened RoundProofs
  import opened PhaseProofs
  import opened StepProofs
  import opened Frames
  import opened Runs
  import opened Dispatch
  import opened MatchCourse
  import Minigames

  // ---- The selection --------------------------------------------------------------------------------------------------

  /** How many the Admin may select for each game. An inherited name has no bounds. */
  predicate SizeAllowed(game: Minigames.MinigameId, n: nat) {
    match game
    case DrawIt => 2 <= n <= 4
    case CompleteIt => 2 <= n <= 5
    case PredictThemGame => 2 <= n <= 4
    case DefendItGame => 2 <= n <= 4
    case DescribeItGame => 3 <= n <= 5
    case RankIt => 2 <= n <= 5
    case InheritedName => true
  }

  /** The players selected, and for PREDICT_THEM everybody else behind them. */
  ghost predicate Playing(game: Minigames.MinigameId, selected: seq<PlayerId>, order: seq<PlayerId>, all: seq<PlayerId>) {
    if game == Minigames.PredictThemGame
    then selected <= all && Distinct(all) && forall id :: id in all <==> id in order
    else all == selected
  }

  /** A round of this game for these players is on, with nothing of it hacked or played yet. */
  ghost predicate RoundOn(w: World, t: World, game: Minigames.MinigameId, selected: seq<PlayerId>, now: int) {
    && t.room.currentRound.Some?
    && var r := t.room.currentRound.value;
    && r.minigameId == game && r.adminId == w.room.adminId && r.adminSelectedIds == selected
    && Playing(game, selected, w.room.playerOrder, r.participantIds)
    && r.cycle == w.room.cycle && r.roundInCycle == w.room.roundInCycle + 1 == t.room.roundInCycle && r.startedAt == now
    && r.hackedIds == [] && r.actionsUsed == {} && r.lastSeq == map[] && r.recentActionIds == map[]
    && t.priv == w.priv && t.hist == w.hist && t.room.matchClock == w.room.matchClock && t.room.adminQueue == w.room.adminQueue
    && if w.room.firewallActive
       then
         && t.room.phase.state == MinigameInstructions && !t.room.firewallActive
         && r.moduleState.Some? && Fresh(r, r.moduleState.value)
         && t.room.matchLog == w.room.matchLog + [LogEntry(now, FirewallConsumed)]
         && (r.hackedRevealed <==> w.room.config.revealPolicy == OnInstructions)
       else
         && t.room.phase.state == HackerCorruption && !t.room.firewallActive && r.moduleState.None?
         && t.room.matchLog == w.room.matchLog && !r.hackedRevealed
  }

  lemma LimitsAre(game: Minigames.MinigameId, n: nat)
    ensures Minigames.WithinLimit(game, n) <==> SizeAllowed(game, n)
  {
  }

  lemma ExpandsTo(w: World, game: Minigames.MinigameId, selected: seq<PlayerId>)
    requires RosterOk(w.room.playerOrder, w.room.players, w.priv.players)
    requires Distinct(selected) && forall id :: id in selected ==> id in w.room.playerOrder
    ensures var all := ExpandParticipants(w.room, game, selected);
            Playing(game, selected, w.room.playerOrder, all)
            && (game == Minigames.PredictThemGame ==> |all| == |w.room.playerOrder|)
  {
    assert Distinct(w.room.playerOrder);
    EverybodyEligible(w.room, w.priv.players, w.room.config.eliminatedMayPlay);
    hide RosterOk, EligibleIf, Distinct;
    if game == Minigames.PredictThemGame {
      Expanded(w.room.playerOrder, selected);
      var others := Filter(w.room.playerOrder, (p: PlayerId) => p !in selected);
      assert forall id :: id in selected + others <==> id in selected || id in others;
    }
  }

  lemma BeginsRound(w: World, game: Minigames.MinigameId, selected: seq<PlayerId>, d: Deps)
    requires RosterOk(w.room.playerOrder, w.room.players, w.priv.players)
    requires Distinct(selected) && forall id :: id in selected ==> id in w.room.playerOrder
    ensures var begun := BeginNormalRound(w, game, ExpandParticipants(w.room, game, selected), selected, d);
            var t := Transition(begun, HackerCorruption, d);
            && (t.Some? ==> RoundOn(w, t.value, game, selected, d.now))
            && (!w.room.firewallActive ==> t.Some?)
  {
    hide RosterOk, ExpandParticipants, Playing, Distinct, SetPhase, ProceedToInstructions;
    ExpandsTo(w, game, selected);
    var begun := BeginNormalRound(w, game, ExpandParticipants(w.room, game, selected), selected, d);
    var entered := SetPhase(begun, HackerCorruption, d);
    EntryFrame(begun, HackerCorruption, d);
    if w.room.firewallActive {
      ProceedsWith(ResolveFirewallBlock(entered, d), d);
    }
  }

  /** The instructions: the game is started for the round there is, and whether the hacks are shown is settled. */
  lemma ProceedsWith(w: World, d: Deps)
    requires w.room.currentRound.Some?
    ensures var t := ProceedToInstructions(w, d);
            t.Some? ==>
              && t.value.room.phase.state == MinigameInstructions && t.value.room.currentRound.Some?
              && var was, round := w.room.currentRound.value, t.value.room.currentRound.value;
              && round.moduleState.Some? && Fresh(round, round.moduleState.value)
              && round == was.(moduleState := round.moduleState,
                               hackedRevealed := was.hackedRevealed || w.room.config.revealPolicy == OnInstructions)
              && t.value.room == w.room.(currentRound := Some(round), phase := t.value.room.phase, submissions := {},
                                         stateVersion := t.value.room.stateVersion)
              && t.value.priv == w.priv && t.value.hist == w.hist
  {
    hide StartModule, SetPhase, Transition, Fresh;
    FreshStart(w.room.currentRound.value, d);
    var round := w.room.currentRound.value;
    var revealed := round.hackedRevealed || w.room.config.revealPolicy == OnInstructions;
    var s := w.(room := w.room.(currentRound := Some(round.(hackedRevealed := revealed, moduleState := StartModule(round, d)))));
    PlainEntry(s, MinigameInstructions, d);
    EntryFrame(s, MinigameInstructions, d);
    if StartModule(round, d).Some? {
      FreshStays(round, s.room.currentRound.value, StartModule(round, d).value);
    }
  }

  lemma FreshStays(round: Round, after: Round, m: Minigames.ModuleState)
    requires SameRound(round, after)
    ensures Fresh(round, m) <==> Fresh(after, m)
  {
    hide Minigames.Valid;
  }

  /** Whom and how many the Admin may select for a game: nobody twice, nobody from outside, an audience where one is needed. */
  ghost predicate MaySelect(w: World, p: PlayerId, game: Minigames.MinigameId, ids: seq<PlayerId>) {
    && Distinct(ids) && SizeAllowed(game, |ids|) && (forall id :: id in ids ==> id in w.room.playerOrder)
    && (p in ids ==> w.room.config.adminMaySelectSelf)
    && (game == Minigames.PredictThemGame ==> |ids| < |w.room.playerOrder|)
  }

  lemma SelectFacts(w: World)
    requires Valid(w)
    ensures RosterOk(w.room.playerOrder, w.room.players, w.priv.players)
    ensures EligibleMinigameIds(w.room) == w.room.playerOrder
  {
    EverybodyEligible(w.room, w.priv.players, w.room.config.eliminatedMayPlay);
    hide RosterOk, MatchOk, AdminOk, JudgedOk, RoundOk, SpecialOk, AccusationOk, HackLedger, FirewallLedger, VerdictOk,
         ClockOk, IdsFresh, EligibleIf, Shape, InProgress, ResultOk, LobbyOk, Live;
  }

  /**
    The Admin's turn answers only the Admin, and the timer. What the Admin selects within the rules is what the round
    is: the game named, for the players named. Behind the firewall the game is started at once, or the event throws.
   */
  lemma SelectionHonoured(w: World, p: PlayerId, minigame: Option<Minigames.MinigameId>, ids: seq<PlayerId>, d: Deps)
    requires Valid(w) && w.room.phase.state == MinigameSelect
    ensures var o := HandleEvent(w, AdminSelectMinigame(w.room.phase.phaseId, p, minigame, ids), PlayerSender(p), d);
            if w.room.adminId != Some(p) then o == Rejected(w, NotAdmin)
            else if minigame.None? then o == Rejected(w, InvalidMinigameId)
            else if !MaySelect(w, p, minigame.value, ids) then o == Rejected(w, InvalidParticipants)
            else if o.Threw? then w.room.firewallActive
            else o.Accepted? && RoundOn(w, o.world, minigame.value, ids, d.now)
  {
    hide Valid, HandleEvent, HandleInState, HandleMinigameSelect, RosterOk, EligibleMinigameIds, RoundOn, MaySelect;
    var e := AdminSelectMinigame(w.room.phase.phaseId, p, minigame, ids);
    Dispatched(w, e, PlayerSender(p), d);
    InState(w, e, d);
    SelectFacts(w);
    SelectsAs(w, e, d);
  }

  lemma SelectsAs(w: World, e: Event, d: Deps)
    requires RosterOk(w.room.playerOrder, w.room.players, w.priv.players)
    requires EligibleMinigameIds(w.room) == w.room.playerOrder && e.AdminSelectMinigame?
    ensures var o := HandleMinigameSelect(w, e, d);
            var minigame, p, ids := e.minigame, e.playerId, e.participantIds;
            if w.room.adminId != Some(p) then o == Rejected(w, NotAdmin)
            else if minigame.None? then o == Rejected(w, InvalidMinigameId)
            else if !MaySelect(w, p, minigame.value, ids) then o == Rejected(w, InvalidParticipants)
            else if o.Threw? then w.room.firewallActive
            else o.Accepted? && RoundOn(w, o.world, minigame.value, ids, d.now)
  {
    hide RosterOk, Transition, BeginNormalRound, ExpandParticipants, RoundOn, EligibleMinigameIds, Distinct, AutoSelect,
         SizeAllowed, Minigames.WithinLimit, Playing;
    if e.minigame.Some? {
      LimitsAre(e.minigame.value, |e.participantIds|);
      if Distinct(e.participantIds) && forall id :: id in e.participantIds ==> id in w.room.playerOrder {
        ExpandsTo(w, e.minigame.value, e.participantIds);
        BeginsRound(w, e.minigame.value, e.participantIds, d);
      }
    }
  }

  /** The game a timeout picks: the one configured, or one of the six. */
  predicate Picked(c: Config, game: Minigames.MinigameId) {
    match c.selectionRule
    case PickAny => game != Minigames.InheritedName
    case Only(only) => game == only
    case UnknownSelectionRule => game == Minigames.RankIt
  }

  /** How many a timeout selects: as many as the game takes, but one predictor where else nobody were left to watch. */
  predicate PickedSize(game: Minigames.MinigameId, n: nat, size: nat) {
    match game
    case DrawIt => size == Min(n, 4)
    case CompleteIt => size == Min(n, 5)
    case PredictThemGame => size == if n > 4 then 4 else Min(n, 1)
    case DefendItGame => size == Min(n, 4)
    case DescribeItGame => size == Min(n, 5)
    case RankIt => size == Min(n, 5)
    case InheritedName => false
  }

  lemma PicksPlayers(r: Room, secret: map<PlayerId, PrivatePlayer>, game: Minigames.GameName, d: Deps)
    requires RosterOk(r.playerOrder, r.players, secret)
    ensures var ids := AutoSelectParticipants(r, game, d);
            && Distinct(ids) && (forall id :: id in ids ==> id in r.playerOrder)
            && PickedSize(game, |r.playerOrder|, |ids|)
  {
    assert Distinct(r.playerOrder);
    EverybodyEligible(r, secret, r.config.eliminatedMayPlay);
    hide RosterOk, EligibleIf, RandomSubset;
  }

  /** When the Admin's time runs out a round begins all the same, of a game and for players within the configuration. */
  lemma TimeoutSelects(w: World, d: Deps, sender: Sender)
    requires Valid(w) && w.room.phase.state == MinigameSelect
    ensures var o := HandleEvent(w, TimerExpired(w.room.phase.phaseId), sender, d);
            if o.Threw? then w.room.firewallActive
            else
              && o.Accepted? && o.world.room.currentRound.Some?
              && var r := o.world.room.currentRound.value;
              && RoundOn(w, o.world, r.minigameId, r.adminSelectedIds, d.now)
              && Picked(w.room.config, r.minigameId)
              && Distinct(r.adminSelectedIds) && (forall id :: id in r.adminSelectedIds ==> id in w.room.playerOrder)
              && PickedSize(r.minigameId, |w.room.playerOrder|, |r.adminSelectedIds|)
  {
    hide Valid, HandleEvent, HandleInState, RosterOk, EligibleMinigameIds, Transition, BeginNormalRound, ExpandParticipants,
         AutoSelectParticipants, PickedSize, Distinct, Playing;
    var e := TimerExpired(w.room.phase.phaseId);
    Dispatched(w, e, sender, d);
    InState(w, e, d);
    SelectFacts(w);
    var game := AutoSelectMinigame(w.room, d);
    PicksPlayers(w.room, w.priv.players, game, d);
    BeginsRound(w, game, AutoSelectParticipants(w.room, game, d), d);
  }

  // ---- The hack window --------------------------------------------------------------------------------------------------

  /** One charge of this hacker is spent on this player; nobody else's, and nothing else happens. */
  ghost predicate Hacked(w: World, t: World, hacker: PlayerId, target: PlayerId, now: int) {
    && w.room.currentRound.Some? && hacker in w.priv.hacksRemaining && w.priv.hacksRemaining[hacker] > 0
    && var round := w.room.currentRound.value;
    t == w.(
      room := w.room.(
        currentRound := Some(round.(hackedIds := round.hackedIds + [target], actionsUsed := round.actionsUsed + {hacker})),
        matchLog := w.room.matchLog + [LogEntry(now, HackAccepted(hacker, target))]),
      priv := w.priv.(hacksRemaining := w.priv.hacksRemaining[hacker := w.priv.hacksRemaining[hacker] - 1]))
  }

  /** The hack window answers hackers, each once, and the timer, which starts the game. */
  lemma HackAnswers(w: World, e: Event, sender: Sender, d: Deps)
    requires Valid(w) && w.room.phase.state == HackerCorruption && !CrossCutting(e)
    requires SentByWhomItNames(e, sender) && ForPhase(e, w.room.phase.phaseId)
    ensures w.room.currentRound.Some?
    ensures var o := HandleEvent(w, e, sender, d);
            var round := w.room.currentRound.value;
            match e
            case SubmitHack(_, p, target) =>
              if p !in w.priv.players || w.priv.players[p].role != Some(Hacker) then o == Rejected(w, NotHacker)
              else if p !in w.priv.hacksRemaining || w.priv.hacksRemaining[p] == 0 then o == Rejected(w, NoHacksRemaining)
              else if p in round.actionsUsed then o == Rejected(w, AlreadyHackedThisRound)
              else if target !in round.participantIds then o == Rejected(w, InvalidTarget)
              else if target in round.hackedIds then o == Rejected(w, TargetAlreadyHacked)
              else o.Accepted? && Hacked(w, o.world, p, target, d.now)
            case TimerExpired(_) => o.Threw? || (o.Accepted? && GameBegins(w, o.world))
            case _ => o == Rejected(w, InvalidEventForState)
  {
    hide Valid, HandleEvent, HandleInState, HandleHackWindow, Shape, GameBegins, Hacked;
    Dispatched(w, e, sender, d);
    InState(w, e, d);
    PushedNowhere(w, e, d);
    PartsOf(w);
    WindowOpen(w);
    WindowAnswers(w, e, d);
  }

  /** The instructions of the round's game, started for the players it has; of the hacks only whether they are shown changes. */
  ghost predicate GameBegins(w: World, t: World) {
    && w.room.currentRound.Some? && t.room.currentRound.Some?
    && var was, round := w.room.currentRound.value, t.room.currentRound.value;
    && t.room.phase.state == MinigameInstructions && round.moduleState.Some? && Fresh(round, round.moduleState.value)
    && round == was.(moduleState := round.moduleState,
                     hackedRevealed := was.hackedRevealed || w.room.config.revealPolicy == OnInstructions)
    && t.room == w.room.(currentRound := Some(round), phase := t.room.phase, submissions := {}, stateVersion := t.room.stateVersion)
    && t.priv == w.priv && t.hist == w.hist
  }

  lemma WindowOpen(w: World)
    requires Valid(w) && w.room.phase.state == HackerCorruption && Shape(w.room, HackerCorruption)
    ensures w.room.currentRound.Some? && !w.room.firewallActive
  {
    hide Ready;
  }

  lemma PushedNowhere(w: World, e: Event, d: Deps)
    requires w.room.phase.state != Discussion && w.room.phase.state != MinigameSelect
    ensures e.PushButton? ==> HandlePushButton(w, e.playerId, d) == Rejected(w, InvalidEventForState)
  {
    hide Transition, OpenAccusation, EligibleVoterIds;
  }

  lemma WindowAnswers(w: World, e: Event, d: Deps)
    requires w.room.currentRound.Some? && !w.room.firewallActive
    ensures var o := HandleHackWindow(w, e, d);
            var round := w.room.currentRound.value;
            match e
            case SubmitHack(_, p, target) =>
              if p !in w.priv.players || w.priv.players[p].role != Some(Hacker) then o == Rejected(w, NotHacker)
              else if p !in w.priv.hacksRemaining || w.priv.hacksRemaining[p] == 0 then o == Rejected(w, NoHacksRemaining)
              else if p in round.actionsUsed then o == Rejected(w, AlreadyHackedThisRound)
              else if target !in round.participantIds then o == Rejected(w, InvalidTarget)
              else if target in round.hackedIds then o == Rejected(w, TargetAlreadyHacked)
              else o.Accepted? && Hacked(w, o.world, p, target, d.now)
            case TimerExpired(_) => o.Threw? || (o.Accepted? && GameBegins(w, o.world))
            case _ => o == Rejected(w, InvalidEventForState)
  {
    hide ProceedToInstructions;
    ProceedsWith(w, d);
  }

  // ---- The game -----------------------------------------------------------------------------------------------------------

  /** The instructions are left by the timer or the host, for play. */
  lemma InstructionsAnswer(w: World, e: Event, sender: Sender, d: Deps)
    requires w.room.phase.state == MinigameInstructions && !CrossCutting(e) && Addressed(w, e, sender)
    ensures var o := HandleEvent(w, e, sender, d);
            if e.TimerExpired? || HostDoes(e, SkipInstructions) then o.Accepted? && OnlyPhase(w, o.world, MinigamePlay)
            else o == Rejected(w, InvalidEventForState)
  {
    hide HandleEvent, HandleInState, Transition, OnlyPhase;
    Reaches(w, e, sender, d);
    InState(w, e, d);
    PlainMoves(w, w, MinigamePlay, d);
  }

  /** The results are left by the timer or the host, for a discussion, and the round is cleared away. */
  lemma ResultsAnswer(w: World, e: Event, sender: Sender, d: Deps)
    requires w.room.phase.state == ResultsReveal && !CrossCutting(e) && Addressed(w, e, sender)
    ensures var o := HandleEvent(w, e, sender, d);
            if e.TimerExpired? || HostDoes(e, SkipResultsReveal)
            then o.Accepted? && OnlyPhase(w.(room := w.room.(currentRound := None)), o.world, Discussion)
            else o == Rejected(w, InvalidEventForState)
  {
    hide HandleEvent, HandleInState, Transition, OnlyPhase;
    Reaches(w, e, sender, d);
    InState(w, e, d);
    var cleared := w.(room := w.room.(currentRound := None));
    PlainMoves(cleared, cleared, Discussion, d);
  }

  /** When a round's game counts as a success. */
  predicate GameWon(m: Minigames.ModuleState) {
    match m
    case Submissions(s) => forall id :: id in s.participantIds ==> id in s.submitted
    case Predicting(_) => true
    case Describing(s) => s.step.Completed?
    case Defending(s) => s.step.Completed?
  }

  /** The round is over with this state of its game: it is recorded as it was, and its results are shown. */
  ghost predicate RoundOver(w: World, t: World, round: Round, now: int) {
    && round.moduleState.Some? && t.room.phase.state == ResultsReveal
    && var shown := round.hackedRevealed || w.room.config.revealPolicy == OnResults;
    && t.priv == w.priv && t.hist == w.hist
    && t.room == w.room.(
         currentRound := Some(round.(hackedRevealed := shown)),
         roundHistory := w.room.roundHistory + [RoundRecord(
           round.cycle, round.roundInCycle, round.minigameId, round.adminId, round.hackedIds, shown,
           GameWon(round.moduleState.value), round.startedAt, now)],
         phase := t.room.phase, submissions := {}, stateVersion := t.room.stateVersion)
  }

  lemma Completes(w: World, s: World, round: Round, d: Deps)
    requires round.moduleState.Some? && s == w.(room := w.room.(currentRound := Some(round)))
    ensures CompleteMinigame(s, d).Some? && RoundOver(w, CompleteMinigame(s, d).value, round, d.now)
  {
    hide Transition, SetPhase, Minigames.Succeeded, GameWon;
    PlainEntry(RecordRound(s, d), ResultsReveal, d);
    EntryFrame(RecordRound(s, d), ResultsReveal, d);
    WonAsRecorded(round.moduleState.value);
  }

  lemma WonAsRecorded(m: Minigames.ModuleState)
    ensures Minigames.Succeeded(m) <==> GameWon(m)
  {
  }

  /** The game goes on in a new phase, for its next internal step. */
  ghost predicate NextStep(w: World, t: World, round: Round) {
    OnlyPhase(w.(room := w.room.(currentRound := Some(round))), t, MinigamePlay)
  }

  /** The round with one more action applied and remembered. */
  ghost predicate Applied(round: Round, after: Round, p: PlayerId, seqNo: int, actionId: nat, m: Minigames.ModuleState) {
    && after == round.(moduleState := Some(m), lastSeq := round.lastSeq[p := seqNo], recentActionIds := after.recentActionIds)
    && after.recentActionIds.Keys == round.recentActionIds.Keys + {p}
    && (forall id :: id in round.recentActionIds && id != p ==> after.recentActionIds[id] == round.recentActionIds[id])
    && |after.recentActionIds[p]| <= 20
    && actionId in after.recentActionIds[p]
  }

  /** How an action in a round's game is answered. */
  ghost predicate PlayAnswer(w: World, o: Outcome, round: Round, p: PlayerId, seqNo: int, actionId: nat, action: GameAction,
                             now: int) {
    && round.moduleState.Some?
    && if p !in round.participantIds then o == Rejected(w, NotParticipant)
       else if p in round.recentActionIds && actionId in round.recentActionIds[p] then o == Accepted(w)
       else if seqNo <= (if p in round.lastSeq then round.lastSeq[p] else 0) then o == Rejected(w, OutOfOrder)
       else if !action.Regular? || !Minigames.ValidateAction(round.minigameId, round.moduleState.value, p, action.action)
       then o == Rejected(w, InvalidAction)
       else
         && o.Accepted?
         && ActionTaken(w, o.world, round, p, seqNo, actionId,
                        Minigames.HandleAction(round.moduleState.value, p, action.action), now)
  }

  /**
    While a game is played a participant's action that is not a repetition is taken if it is newer and valid, and
    does to the game what its module says; the round is over when the game is complete, and the phase begins anew when it
    reaches another step. The timer is a step of its own, or the end.
   */
  lemma PlayAnswers(w: World, e: Event, sender: Sender, d: Deps)
    requires Valid(w) && w.room.phase.state == MinigamePlay && !CrossCutting(e) && Addressed(w, e, sender)
    ensures w.room.currentRound.Some? && w.room.currentRound.value.moduleState.Some?
    ensures var o := HandleEvent(w, e, sender, d);
            var round := w.room.currentRound.value;
            if e.SubmitAction? then PlayAnswer(w, o, round, e.playerId, e.seqNo, e.actionId, e.action, d.now)
            else if e.TimerExpired? then o.Accepted? && StepTimedOut(w, o.world, round, d.now)
            else if HostDoes(e, ForceEndMinigame) then o.Accepted? && RoundOver(w, o.world, round, d.now)
            else o == Rejected(w, InvalidEventForState)
  {
    hide Valid, HandleEvent, HandleInState, Shape, RoundOver, CompleteMinigame, PlayAction, PlayTimeout, PlayAnswer, StepTimedOut;
    PartsOf(w);
    PlayOn(w.room);
    Reaches(w, e, sender, d);
    InState(w, e, d);
    var round := w.room.currentRound.value;
    assert w == w.(room := w.room.(currentRound := Some(round)));
    Completes(w, w, round, d);
    TimesOut(w, round, d);
    if e.SubmitAction? {
      Acts(w, round, e.playerId, e.seqNo, e.actionId, e.action, d);
    }
  }

  lemma PlayOn(r: Room)
    requires Shape(r, MinigamePlay)
    ensures r.currentRound.Some? && r.currentRound.value.moduleState.Some?
  {
  }

  /** What an applied action leads to. */
  ghost predicate ActionTaken(w: World, t: World, round: Round, p: PlayerId, seqNo: int, actionId: nat,
                              m: Minigames.ModuleState, now: int) {
    && round.moduleState.Some?
    && exists after: Round ::
         && Applied(round, after, p, seqNo, actionId, m)
         && if Minigames.IsComplete(m) then RoundOver(w, t, after, now)
            else if Minigames.InternalStep(m) != Minigames.InternalStep(round.moduleState.value) then NextStep(w, t, after)
            else t == w.(room := w.room.(currentRound := Some(after)))
  }

  /** What the timer leads to: the game's own timeout if it has one, and the end of the round otherwise. */
  ghost predicate StepTimedOut(w: World, t: World, round: Round, now: int) {
    && round.moduleState.Some?
    && var next := Minigames.HandleTimeout(round.moduleState.value);
    if next.None? then RoundOver(w, t, round, now)
    else if Minigames.IsComplete(next.value) || Minigames.InternalStep(next.value) == Minigames.InternalStep(round.moduleState.value)
    then RoundOver(w, t, round.(moduleState := next), now)
    else NextStep(w, t, round.(moduleState := next))
  }

  lemma Remembered(recent: seq<nat>, actionId: nat)
    ensures var kept := LastTwenty(recent + [actionId]); |kept| <= 20 && actionId in kept
  {
    var all := recent + [actionId];
    var kept := LastTwenty(all);
    assert kept[|kept| - 1] == all[|all| - 1] == actionId;
  }

  lemma StepNamed(m: Minigames.ModuleState, after: Minigames.ModuleState)
    requires Minigames.InternalStep(m).None?
    requires m.Submissions? <==> after.Submissions?
    ensures Minigames.InternalStep(after).None?
  {
  }

  lemma Acts(w: World, round: Round, p: PlayerId, seqNo: int, actionId: nat, action: GameAction, d: Deps)
    requires w.room.currentRound == Some(round) && round.moduleState.Some?
    ensures PlayAnswer(w, PlayAction(w, round, p, seqNo, actionId, action, d), round, p, seqNo, actionId, action, d.now)
  {
    hide AfterAction, Minigames.ValidateAction, Minigames.HandleAction, LastTwenty, ActionTaken;
    if action.Regular? {
      var after := Minigames.HandleAction(round.moduleState.value, p, action.action);
      SameGame(round.moduleState.value, p, action.action);
      Taken(w, round, p, seqNo, actionId, after, d);
    }
  }

  lemma SameGame(m: Minigames.ModuleState, p: PlayerId, action: Minigames.Action)
    ensures Minigames.HandleAction(m, p, action).Submissions? <==> m.Submissions?
  {
  }

  lemma Taken(w: World, round: Round, p: PlayerId, seqNo: int, actionId: nat, m: Minigames.ModuleState, d: Deps)
    requires w.room.currentRound == Some(round) && round.moduleState.Some?
    requires m.Submissions? <==> round.moduleState.value.Submissions?
    ensures var o := AfterAction(w, round, Acted(round, p, seqNo, actionId, m), d);
            o.Accepted? && ActionTaken(w, o.world, round, p, seqNo, actionId, m, d.now)
  {
    hide CompleteMinigame, Transition, Minigames.IsComplete, Minigames.InternalStep, LastTwenty, RoundOver, OnlyPhase;
    var after := Acted(round, p, seqNo, actionId, m);
    Remembered(RecentOf(round.recentActionIds, p), actionId);
    assert Applied(round, after, p, seqNo, actionId, m);
    hide Acted, Applied;
    var s := w.(room := w.room.(currentRound := Some(after)));
    Completes(w, s, after, d);
    PlainMoves(s, s, MinigamePlay, d);
    if Minigames.InternalStep(round.moduleState.value).None? {
      StepNamed(round.moduleState.value, m);
    }
  }

  lemma TimesOut(w: World, round: Round, d: Deps)
    requires w.room.currentRound == Some(round) && round.moduleState.Some?
    ensures PlayTimeout(w, round, d).Some? && StepTimedOut(w, PlayTimeout(w, round, d).value, round, d.now)
  {
    hide CompleteMinigame, Transition, Minigames.IsComplete, Minigames.InternalStep, Minigames.HandleTimeout, RoundOver, OnlyPhase;
    var m := round.moduleState.value;
    assert w == w.(room := w.room.(currentRound := Some(round)));
    Completes(w, w, round, d);
    if Minigames.HandleTimeout(m).Some? {
      var after := round.(moduleState := Minigames.HandleTimeout(m));
      var s := w.(room := w.room.(currentRound := Some(after)));
      Completes(w, s, after, d);
      PlainMoves(s, s, MinigamePlay, d);
      TimedSteps(m);
    }
  }

  lemma TimedSteps(m: Minigames.ModuleState)
    ensures Minigames.HandleTimeout(m).Some? ==> Minigames.InternalStep(m).Some?
  {
  }

  // ---- From the selection to the record ---------------------------------------------------------------------------------

  /** Every world but perhaps the last has a round, and is past the Admin's turn. */
  ghost predicate RoundLasts(w: World, inputs: seq<Input>)
    decreases |inputs|
  {
    inputs == []
    || (w.room.currentRound.Some? && w.room.phase.state != MinigameSelect && RoundLasts(Step(w, inputs[0]), inputs[1..]))
  }

  lemma StepStands(w: World, input: Input)
    requires w.room.currentRound.Some? && w.room.phase.state != MinigameSelect
    ensures Step(w, input).room.currentRound.Some? ==> SameRound(w.room.currentRound.value, Step(w, input).room.currentRound.value)
  {
    hide Step, SeqsGrow, SpecialContinues, ClockFollows, CooldownFollows;
    StepFrame(w, input);
  }

  /** What a round began with stands for as long as it lasts. */
  lemma {:induction false} RoundStands(w: World, inputs: seq<Input>)
    requires w.room.currentRound.Some? && RoundLasts(w, inputs) && RunOf(w, inputs).room.currentRound.Some?
    ensures SameRound(w.room.currentRound.value, RunOf(w, inputs).room.currentRound.value)
    decreases |inputs|
  {
    hide Step;
    if inputs != [] {
      StepStands(w, inputs[0]);
      assert inputs[1..] == [] || Step(w, inputs[0]).room.currentRound.Some?;
      RoundStands(Step(w, inputs[0]), inputs[1..]);
    }
  }

  /** One record more, of a round that began as this one did. */
  ghost predicate RecordMade(w: World, t: World, round: Round) {
    && |t.room.roundHistory| == |w.room.roundHistory| + 1 && w.room.roundHistory <= t.room.roundHistory
    && var made := t.room.roundHistory[|w.room.roundHistory|];
    && made.minigameId == round.minigameId && made.adminId == round.adminId && made.cycle == round.cycle
    && made.roundInCycle == round.roundInCycle && made.startedAt == round.startedAt
  }

  lemma OverIsRecorded(w: World, t: World, round: Round, after: Round, now: int)
    requires RoundOver(w, t, after, now) && SameRound(round, after)
    ensures RecordMade(w, t, round)
  {
    hide GameWon;
  }

  lemma EndIsRecorded(w: World, input: Input)
    requires Valid(w) && w.room.phase.state == MinigamePlay && Step(w, input).room.phase.state == ResultsReveal
    ensures w.room.currentRound.Some? && RecordMade(w, Step(w, input), w.room.currentRound.value)
  {
    hide Valid, HandleEvent, RoundOver, RecordMade, PlayAnswer, StepTimedOut;
    if input.Receive? && !CrossCutting(input.event) {
      var e, d, t := input.event, input.deps, Step(w, input);
      AcceptedIsAddressed(w, e, input.sender, d);
      PlayAnswers(w, e, input.sender, d);
      var round := w.room.currentRound.value;
      OverlookedEnds(w, t, round, round, d.now);
      if e.TimerExpired? {
        TimeoutIsRecorded(w, t, round, d.now);
      } else if e.SubmitAction? {
        ActionIsRecorded(w, HandleEvent(w, e, input.sender, d), round, e.playerId, e.seqNo, e.actionId, e.action, d.now);
      }
    } else {
      ConnectionsStay(w, input);
    }
  }

  lemma TimeoutIsRecorded(w: World, t: World, round: Round, now: int)
    requires StepTimedOut(w, t, round, now) && t.room.phase.state == ResultsReveal
    ensures RecordMade(w, t, round)
  {
    hide RoundOver, RecordMade, Minigames.HandleTimeout, Minigames.IsComplete, Minigames.InternalStep;
    OverlookedEnds(w, t, round, round, now);
    OverlookedEnds(w, t, round, round.(moduleState := Minigames.HandleTimeout(round.moduleState.value)), now);
  }

  lemma ActionIsRecorded(w: World, o: Outcome, round: Round, p: PlayerId, seqNo: int, actionId: nat, action: GameAction,
                         now: int)
    requires PlayAnswer(w, o, round, p, seqNo, actionId, action, now) && o.Accepted?
    requires w.room.phase.state == MinigamePlay && o.world.room.phase.state == ResultsReveal
    ensures RecordMade(w, o.world, round)
  {
    hide ActionTaken, RecordMade, Minigames.HandleAction, Minigames.ValidateAction;
    var m := Minigames.HandleAction(round.moduleState.value, p, action.action);
    TakenIsRecorded(w, o.world, round, p, seqNo, actionId, m, now);
  }

  lemma OverlookedEnds(w: World, t: World, round: Round, after: Round, now: int)
    requires SameRound(round, after)
    ensures RoundOver(w, t, after, now) ==> RecordMade(w, t, round)
  {
    if RoundOver(w, t, after, now) {
      OverIsRecorded(w, t, round, after, now);
    }
    hide RoundOver, RecordMade;
  }

  lemma TakenIsRecorded(w: World, t: World, round: Round, p: PlayerId, seqNo: int, actionId: nat, m: Minigames.ModuleState, now: int)
    requires ActionTaken(w, t, round, p, seqNo, actionId, m, now)
    requires w.room.phase.state == MinigamePlay && t.room.phase.state == ResultsReveal
    ensures RecordMade(w, t, round)
  {
    hide Minigames.IsComplete, Minigames.InternalStep, RoundOver, RecordMade;
    var after: Round :|
      && Applied(round, after, p, seqNo, actionId, m)
      && if Minigames.IsComplete(m) then RoundOver(w, t, after, now)
         else if Minigames.InternalStep(m) != Minigames.InternalStep(round.moduleState.value) then NextStep(w, t, after)
         else t == w.(room := w.room.(currentRound := Some(after)));
    OverlookedEnds(w, t, round, after, now);
  }

  /** No roster step and no event that is handled in every phase shows results. */
  lemma ConnectionsStay(w: World, input: Input)
    requires w.room.phase.state == MinigamePlay && (input.Receive? ==> CrossCutting(input.event))
    ensures Step(w, input).room.phase.state != ResultsReveal
  {
    hide Transition, HandleInState, HandlePushButton, ResetMatch, CheckSender, IsStalePhase, HandleMatchClockExpired, SetPhase,
         RemovePlayer;
    if input.Receive? && input.event.MatchClockExpired? {
      TimeIsUp(w, input.event.clockId, input.sender, input.deps);
    } else if input.Receive? {
      PlainMoves(w, w, Abandoned, input.deps);
    }
  }

  /**
    What is selected is what is recorded: from the Admin's selection over all that happens in its round to the step
    that ends it, the record made is of the game and the Admin of that selection.
   */
  lemma RecordedAsSelected(w: World, p: PlayerId, game: Minigames.MinigameId, ids: seq<PlayerId>, d: Deps,
                           inputs: seq<Input>, last: Input)
    requires Valid(w) && w.room.phase.state == MinigameSelect && w.room.phase.startedAt <= d.now && Ticking(inputs, d.now)
    requires var o := HandleEvent(w, AdminSelectMinigame(w.room.phase.phaseId, p, Some(game), ids), PlayerSender(p), d);
             && o.Accepted? && RoundLasts(o.world, inputs)
             && RunOf(o.world, inputs).room.phase.state == MinigamePlay
             && Step(RunOf(o.world, inputs), last).room.phase.state == ResultsReveal
    ensures var t := HandleEvent(w, AdminSelectMinigame(w.room.phase.phaseId, p, Some(game), ids), PlayerSender(p), d).world;
            var u := RunOf(t, inputs);
            var v := Step(u, last);
            && v.room.roundHistory != [] && v.room.roundHistory[..|v.room.roundHistory| - 1] == u.room.roundHistory
            && var made := v.room.roundHistory[|v.room.roundHistory| - 1];
            && made.minigameId == game && made.adminId == Some(p) && made.startedAt == d.now
            && made.cycle == w.room.cycle && made.roundInCycle == w.room.roundInCycle + 1
  {
    hide Valid, HandleEvent, Step, RunOf, RoundLasts, Playing, RecordMade;
    var e := AdminSelectMinigame(w.room.phase.phaseId, p, Some(game), ids);
    SelectionHonoured(w, p, Some(game), ids, d);
    EventValid(w, e, PlayerSender(p), d);
    EventFrame(w, e, PlayerSender(p), d);
    hide Follows, Stayed;
    var t := HandleEvent(w, e, PlayerSender(p), d).world;
    RunValid(t, inputs, d.now);
    var u := RunOf(t, inputs);
    EndIsRecorded(u, last);
    RoundStands(t, inputs);
    RecordIs(u, Step(u, last), u.room.currentRound.value);
  }

  lemma RecordIs(w: World, t: World, round: Round)
    requires RecordMade(w, t, round)
    ensures t.room.roundHistory != [] && t.room.roundHistory[..|t.room.roundHistory| - 1] == w.room.roundHistory
    ensures var made := t.room.roundHistory[|t.room.roundHistory| - 1];
            && made.minigameId == round.minigameId && made.adminId == round.adminId && made.cycle == round.cycle
            && made.roundInCycle == round.roundInCycle && made.startedAt == round.startedAt
  {
  }
}
