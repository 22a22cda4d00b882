/** The phases of a regular round keep the room's invariant. */
module RoundProofs {
  import opened Collections
  import opened Random
  import opened SpeakingOrder
  import opened AdminRotation
  import opened MatchClocks
  import opened RoomState
  import opened Transitions
  import opened RoomInvariant
  import opened RoomProofs
  import opened StartProofs
  import Minigames

  /** Nobody is eliminated, so everybody is eligible for everything. */
  lemma EverybodyEligible(r: Room, secret: map<PlayerId, PrivatePlayer>, everybody: bool)
    requires RosterOk(r.playerOrder, r.players, secret)
    ensures EligibleIf(r, everybody) == r.playerOrder
  {
    forall id | id in r.playerOrder ensures IsAlive(r, id) {
      assert id in Elements(r.playerOrder);
    }
    FilterAll(r.playerOrder, (id: PlayerId) => IsAlive(r, id));
  }

  /** Whoever heads the next queue continues the rotation; with anybody to choose from there is a head. */
  lemma NextInRotation(taken: seq<PlayerId>, queue: seq<PlayerId>, order: seq<PlayerId>, rng: Stream)
    requires Rotation(taken, queue, order)
    ensures var next := NextQueue(queue, order, rng);
            && (next == [] <==> order == [])
            && (next == [] ==> queue == [])
            && (next != [] ==> Rotation(taken + [next[0]], next[1..], order))
  {
    FilterAll(queue, (id: PlayerId) => id in order);
    var shuffled := Shuffle(order, rng);
    if queue != [] {
      TakeQueued(taken, queue, order);
    } else if order != [] {
      TakeFresh(taken, shuffled, order);
    }
  }

  lemma NextAdmin(w: World, d: Deps)
    requires RosterOk(w.room.playerOrder, w.room.players, w.priv.players)
    requires AdminOk(w.hist, w.room.adminId, w.room.adminQueue, w.room.playerOrder)
    ensures var t := AssignNextAdmin(w, d);
            && AdminOk(t.hist, t.room.adminId, t.room.adminQueue, t.room.playerOrder)
            && (w.room.playerOrder != [] ==>
                  t.room.adminId.Some? && t.hist.admins == w.hist.admins + [t.room.adminId.value])
            && (w.room.playerOrder == [] ==> t.hist.admins == w.hist.admins)
  {
    hide RosterOk, NextQueue, Rotation, EligibleIf;
    EverybodyEligible(w.room, w.priv.players, w.room.config.eliminatedMayPlay);
    NextInRotation(w.hist.admins, w.room.adminQueue, w.room.playerOrder, d.rng(AdminShuffle));
  }

  /** What assigning an Admin touches. */
  lemma AdminFrame(w: World, d: Deps)
    ensures var t := AssignNextAdmin(w, d);
            && t == w.(room := w.room.(adminId := t.room.adminId, adminQueue := t.room.adminQueue),
                       hist := w.hist.(admins := t.hist.admins))
  {
  }

  /** The Admin's turn is entered with the next Admin in charge. */
  lemma SelectValid(w: World, d: Deps)
    requires Ready(w, MinigameSelect, {}, d.now) && w.nextId > 0
    ensures Transition(w, MinigameSelect, d).Some?
    ensures var t := Transition(w, MinigameSelect, d).value;
            && Valid(t) && t.room.phase.state == MinigameSelect && t.room.phase.phaseId == w.nextId
            && t.room.phase.startedAt == d.now && t.room.firewallActive == w.room.firewallActive
            && (w.room.playerOrder != [] ==>
                  t.room.adminId.Some? && t.hist.admins == w.hist.admins + [t.room.adminId.value])
  {
    hide AssignNextAdmin, RosterOk, MatchOk, AdminOk, JudgedOk, RoundOk, SpecialOk, AccusationOk,
         HackLedger, FirewallLedger, VerdictOk, IdsFresh, DurationFor;
    var entered := SetPhase(w, MinigameSelect, d);
    EnterValid(w, MinigameSelect, d);
    NextAdmin(entered, d);
    AdminFrame(entered, d);
    var t := AssignNextAdmin(entered, d);
    assert Transition(w, MinigameSelect, d) == Some(t);
    SameClock(entered, t);
    hide ClockOk;
  }

  lemma SameClock(w: World, t: World)
    requires t.room.matchClock == w.room.matchClock && t.room.config == w.room.config
    requires t.hist == w.hist.(admins := t.hist.admins)
    ensures forall used, latest ::
              ClockOk(w.room.matchClock, w.hist, w.room.config.matchClockTotalMs, used, latest) ==>
                ClockOk(t.room.matchClock, t.hist, t.room.config.matchClockTotalMs, used, latest)
  {
  }

  // ---- Entering the instructions ---------------------------------------------------------------------------

  /** With the module started, the round is ready for its instructions. */
  lemma InstructionsReady(w: World, revealed: bool, m: Minigames.ModuleState, latest: int)
    requires Ready(w, HackerCorruption, w.room.submissions, latest) && w.room.currentRound.Some?
    requires Minigames.Valid(w.room.currentRound.value.minigameId, m, w.room.currentRound.value.participantIds)
    requires !Minigames.IsComplete(m)
    ensures var round := w.room.currentRound.value.(hackedRevealed := revealed, moduleState := Some(m));
            Ready(w.(room := w.room.(currentRound := Some(round))), MinigameInstructions, {}, latest)
  {
    hide RosterOk, MatchOk, AdminOk, JudgedOk, SpecialOk, AccusationOk, HackLedger, FirewallLedger, VerdictOk,
         ClockOk, IdsFresh, Minigames.Valid, Minigames.IsComplete, SizesFit, PlayableConfig, Distinct;
  }

  /**
    The instructions follow the hack window. With a playable configuration that throws exactly for a round of an
    inherited name.
   */
  lemma ProceedValid(w: World, d: Deps)
    requires Ready(w, HackerCorruption, w.room.submissions, d.now) && w.room.currentRound.Some? && w.nextId > 0
    ensures var t := ProceedToInstructions(w, d);
            && (PlayableConfig(w.room.config) && OwnGame(w.room) ==> t.Some?)
            && (!OwnGame(w.room) ==> t.None?)
            && (t.Some? ==>
                  && Valid(t.value) && t.value.room.phase.state == MinigameInstructions
                  && t.value.room.phase.phaseId == w.nextId && t.value.room.config == w.room.config
                  && OwnGame(t.value.room))
  {
    var round := w.room.currentRound.value;
    ModuleStarts(round, d);
    hide StartModule, SizesFit, Minigames.Valid, Minigames.IsComplete, Minigames.TimeoutsLeft;
    var m := StartModule(round, d);
    if m.Some? {
      var revealed := round.hackedRevealed || w.room.config.revealPolicy == OnInstructions;
      InstructionsReady(w, revealed, m.value, d.now);
      var t := w.(room := w.room.(currentRound := Some(round.(hackedRevealed := revealed, moduleState := m))));
      hide Ready, StartsWell, SetPhase, Distinct;
      EnterValid(t, MinigameInstructions, d);
      PlainEntry(t, MinigameInstructions, d);
      hide Valid;
    } else {
      assert PlayableConfig(w.room.config) && OwnGame(w.room) ==> SizesMatch(round);
    }
  }

  // ---- Beginning a round -------------------------------------------------------------------------------------

  /** The selection and the audience are everybody, once each. */
  lemma Expanded(order: seq<PlayerId>, selected: seq<PlayerId>)
    requires Distinct(order) && Distinct(selected) && forall id :: id in selected ==> id in order
    ensures var all := selected + Filter(order, (p: PlayerId) => p !in selected);
            && Distinct(all) && (forall id :: id in all ==> id in order)
            && |all| == |order|
  {
    var keep := (p: PlayerId) => p !in selected;
    FilterDistinct(order, keep);
    var audience := Filter(order, keep);
    var all := selected + audience;
    forall i, j | 0 <= i < j < |all| ensures all[i] != all[j] {
      assert i < |selected| && j >= |selected| ==> all[i] in selected && all[j] in audience;
    }
    assert forall id :: id in all <==> id in order by {
      forall id | id in order ensures id in all {
        assert id in selected || id in audience;
      }
    }
    DistinctCounts(all);
    DistinctCounts(order);
    assert Elements(all) == Elements(order);
  }

  /** The participants a round may begin with. */
  ghost predicate Selectable(c: Config, order: seq<PlayerId>, id: Minigames.MinigameId,
                             selected: seq<PlayerId>, participants: seq<PlayerId>) {
    && Distinct(participants) && (forall p :: p in participants ==> p in order)
    && (PlayableConfig(c) && Minigames.Registered(id) ==> SizesFit(id, selected, participants))
  }

  lemma BeginReady(w: World, id: Minigames.MinigameId, participants: seq<PlayerId>, selected: seq<PlayerId>, d: Deps)
    requires Valid(w) && w.room.phase.state == MinigameSelect && w.room.phase.startedAt <= d.now
    requires Selectable(w.room.config, w.room.playerOrder, id, selected, participants)
    ensures Ready(BeginNormalRound(w, id, participants, selected, d), HackerCorruption, {}, d.now)
  {
    ClockLater(w, d.now);
    hide RosterOk, MatchOk, AdminOk, JudgedOk, SpecialOk, AccusationOk, HackLedger, FirewallLedger, VerdictOk,
         ClockOk, IdsFresh, SizesFit, PlayableConfig;
  }

  /** A round that begins waits for hacks, or goes straight to its instructions behind the firewall. */
  lemma CorruptionValid(w: World, d: Deps)
    requires Ready(w, HackerCorruption, {}, d.now) && w.room.currentRound.Some? && w.nextId > 0
    ensures var t := Transition(w, HackerCorruption, d);
            && (PlayableConfig(w.room.config) && OwnGame(w.room) ==> t.Some?)
            && (!OwnGame(w.room) ==> (t.Some? <==> !w.room.firewallActive))
            && (t.Some? ==>
                  && Valid(t.value)
                  && t.value.room.phase.state == (if w.room.firewallActive then MinigameInstructions else HackerCorruption)
                  && t.value.room.phase.phaseId >= w.nextId
                  && (OwnGame(t.value.room) <==> OwnGame(w.room)))
  {
    hide Ready, Valid, ProceedToInstructions, PlayableConfig;
    var entered := SetPhase(w, HackerCorruption, d);
    if w.room.firewallActive {
      FirewallConsumedReady(w, d);
      ProceedValid(ResolveFirewallBlock(entered, d), d);
    } else {
      EnterValid(w, HackerCorruption, d);
    }
  }

  lemma FirewallConsumedReady(w: World, d: Deps)
    requires Ready(w, HackerCorruption, {}, d.now) && w.room.currentRound.Some? && w.room.firewallActive && w.nextId > 0
    ensures var t := ResolveFirewallBlock(SetPhase(w, HackerCorruption, d), d);
            && Ready(t, HackerCorruption, t.room.submissions, d.now)
            && t.room.currentRound == w.room.currentRound && t.nextId > w.nextId && t.room.config == w.room.config
  {
    LogGrows(w.room.matchLog, LogEntry(d.now, FirewallConsumed));
    hide RosterOk, MatchOk, AdminOk, JudgedOk, RoundOk, SpecialOk, AccusationOk, HackLedger, VerdictOk, ClockOk,
         HacksIn, ActivationsIn, ConsumptionsIn, DurationFor;
  }

  /** The Admin's own selection. */
  lemma AdminSelectValid(w: World, id: Minigames.MinigameId, ids: seq<PlayerId>, d: Deps)
    requires Valid(w) && w.room.phase.state == MinigameSelect && w.room.phase.startedAt <= d.now
    requires Distinct(ids) && forall p :: p in ids ==> p in EligibleMinigameIds(w.room)
    requires Minigames.WithinLimit(id, |ids|)
    requires id.PredictThemGame? ==> |ExpandParticipants(w.room, id, ids)| - |ids| >= 1
    ensures var t := Transition(BeginNormalRound(w, id, ExpandParticipants(w.room, id, ids), ids, d), HackerCorruption, d);
            && (t.Some? ==> Valid(t.value))
            && (!Minigames.Registered(id) ==>
                  && (t.Some? <==> !w.room.firewallActive)
                  && (t.Some? ==> t.value.room.phase.state == HackerCorruption && !OwnGame(t.value.room)))
            && (Minigames.Registered(id) ==>
                  && (PlayableConfig(w.room.config) ==> t.Some?)
                  && (t.Some? ==> OwnGame(t.value.room)))
  {
    EverybodyEligible(w.room, w.priv.players, w.room.config.eliminatedMayPlay);
    SelectionSelectable(w, id, ids);
    var participants := ExpandParticipants(w.room, id, ids);
    BeginReady(w, id, participants, ids, d);
    hide Ready, RosterOk, Transition, Valid, ExpandParticipants, EligibleIf, Distinct, Selectable;
    CorruptionValid(BeginNormalRound(w, id, participants, ids, d), d);
  }

  lemma SelectionSelectable(w: World, id: Minigames.MinigameId, ids: seq<PlayerId>)
    requires RosterOk(w.room.playerOrder, w.room.players, w.priv.players)
    requires Distinct(ids) && (forall p :: p in ids ==> p in w.room.playerOrder)
    requires Minigames.WithinLimit(id, |ids|)
    requires id.PredictThemGame? ==> |ExpandParticipants(w.room, id, ids)| - |ids| >= 1
    ensures Selectable(w.room.config, w.room.playerOrder, id, ids, ExpandParticipants(w.room, id, ids))
  {
    EverybodyEligible(w.room, w.priv.players, w.room.config.eliminatedMayPlay);
    if id.PredictThemGame? {
      Expanded(w.room.playerOrder, ids);
    }
    hide RosterOk, EligibleIf;
  }

  /** The selection made when the Admin's time runs out. */
  lemma AutoSelectValid(w: World, d: Deps)
    requires Valid(w) && w.room.phase.state == MinigameSelect && w.room.phase.startedAt <= d.now
    ensures PlayableConfig(w.room.config) ==> AutoSelect(w, d).Some?
    ensures AutoSelect(w, d).Some? ==>
              var t := AutoSelect(w, d).value;
              && Valid(t) && t.room.phase.phaseId >= w.nextId
              && t.room.phase.state == (if w.room.firewallActive then MinigameInstructions else HackerCorruption)
              && OwnGame(t.room)
  {
    var id := AutoSelectMinigame(w.room, d);
    var selected := AutoSelectParticipants(w.room, id, d);
    AutoSelectable(w, id, d);
    var participants := ExpandParticipants(w.room, id, selected);
    BeginReady(w, id, participants, selected, d);
    hide Ready, Transition, Valid, ExpandParticipants, EligibleIf, Distinct, Selectable, PlayableConfig,
         AutoSelectMinigame, AutoSelectParticipants;
    CorruptionValid(BeginNormalRound(w, id, participants, selected, d), d);
  }

  lemma AutoSelectable(w: World, id: Minigames.GameName, d: Deps)
    requires RosterOk(w.room.playerOrder, w.room.players, w.priv.players)
    requires w.room.config.minPlayers <= |w.room.playerOrder|
    ensures var selected := AutoSelectParticipants(w.room, id, d);
            Selectable(w.room.config, w.room.playerOrder, id, selected, ExpandParticipants(w.room, id, selected))
  {
    var order := w.room.playerOrder;
    assert Distinct(order);
    EverybodyEligible(w.room, w.priv.players, w.room.config.eliminatedMayPlay);
    hide RosterOk, EligibleIf;
    var selected := AutoSelectParticipants(w.room, id, d);
    PrefixDistinct(order, selected, w.room, id, d);
    ExpandedFits(w.room.config, order, id, selected, ExpandParticipants(w.room, id, selected));
    hide *;
  }

  /**
    When the Admin's time runs out the selection keeps to the game's own limits exactly if there are
    players enough, and for PREDICT_THEM exactly if there are more than four: with four or fewer a
    single predictor is picked.
   */
  lemma AutoSelectionWithinLimits(w: World, id: Minigames.GameName, d: Deps)
    requires RosterOk(w.room.playerOrder, w.room.players, w.priv.players)
    ensures var n, limit := |w.room.playerOrder|, Minigames.ParticipantLimit(id);
            limit.least <= |AutoSelectParticipants(w.room, id, d)| <= limit.most <==>
            if id.PredictThemGame? then n > 4 else n >= limit.least
  {
    hide RosterOk, RandomSubset, EligibleIf;
    EverybodyEligible(w.room, w.priv.players, w.room.config.eliminatedMayPlay);
  }

  lemma ExpandedFits(c: Config, order: seq<PlayerId>, id: Minigames.GameName, selected: seq<PlayerId>,
                     all: seq<PlayerId>)
    requires Distinct(order) && Distinct(selected) && forall p :: p in selected ==> p in order
    requires c.minPlayers <= |order|
    requires 4 <= |order| ==>
               if id.PredictThemGame? then 1 <= |selected| <= 4 && |selected| < |order|
               else Minigames.ParticipantLimit(id).least <= |selected| <= Minigames.ParticipantLimit(id).most
    requires all == if id.PredictThemGame? then selected + Filter(order, (p: PlayerId) => p !in selected) else selected
    ensures Selectable(c, order, id, selected, all)
  {
    if id.PredictThemGame? {
      Expanded(order, selected);
    }
    hide Distinct;
  }

  lemma PrefixDistinct(order: seq<PlayerId>, selected: seq<PlayerId>, r: Room, id: Minigames.GameName, d: Deps)
    requires Distinct(order) && EligibleMinigameIds(r) == order && selected == AutoSelectParticipants(r, id, d)
    ensures Distinct(selected) && forall p :: p in selected ==> p in order
    ensures 4 <= |order| ==>
              if id.PredictThemGame? then 1 <= |selected| <= 4 && |selected| < |order|
              else Minigames.ParticipantLimit(id).least <= |selected| <= Minigames.ParticipantLimit(id).most
  {
    hide RandomSubset;
  }
}
