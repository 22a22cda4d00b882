/** What is left to chance: every outcome within the rules comes up for some random numbers. */
module Draws {
  import opened Collections
  import opened Random
  import opened SpeakingOrder
  import opened RoomState
  import opened Transitions
  import opened RoomInvariant
  import opened RoomProofs
  import opened RoundProofs
  import opened StartProofs
  import opened PhaseProofs
  import opened MatchProofs
  import opened Frames
  import opened Dispatch
  import opened MatchCourse
  import opened Turns
  import opened RoundCourse
  import opened SpecialOutcomes
  import Minigames
  import DescribeIt
  import DefendIt

  function NumbersIn(d: Deps, site: Site, rng: Stream, other: Site): Stream {
    if other == site then rng else d.rng(other)
  }

  /** The same moment, with other numbers in one place. */
  function With(d: Deps, site: Site, rng: Stream): Deps {
    d.(rng := (other: Site) => NumbersIn(d, site, rng, other))
  }

  /** Some of the players, nobody twice. */
  ghost predicate Among(ids: seq<PlayerId>, pool: seq<PlayerId>) {
    Distinct(ids) && forall id :: id in ids ==> id in pool
  }

  /** Any such selection can come first in a shuffle of all. */
  lemma ComesFirst(pool: seq<PlayerId>, ids: seq<PlayerId>) returns (rng: Stream)
    requires Among(ids, pool)
    ensures |ids| <= |pool| && Shuffle(pool, rng)[..|ids|] == ids
  {
    DistinctCounts(ids);
    forall x ensures multiset(ids)[x] <= multiset(pool)[x] {
      if x in ids {
        assert x in pool;
      }
    }
    var left := Listing(multiset(pool) - multiset(ids));
    var order := ids + left;
    assert multiset(order) == multiset(ids) + multiset(left) == multiset(pool);
    PermutationLength(order, pool);
    rng := ShuffleReaches(pool, order);
  }

  // ---- The roles ----------------------------------------------------------------------------------------------------------

  /** The rule leaves one number only. */
  lemma RuledNumber(c: Config, n: nat, count: nat)
    requires HackersFor(c, n, count)
    ensures count == Max(0, Min(HackerCountFor(c, n), n))
  {
  }

  lemma DealtAs(w: World, hackers: seq<PlayerId>, d: Deps, rng: Stream)
    requires w.room.config.roleRule != UnknownRoleRule
    requires forall id :: id in w.priv.players <==> id in w.room.playerOrder
    requires Among(hackers, w.room.playerOrder) && HackersFor(w.room.config, |w.room.playerOrder|, |hackers|)
    requires |hackers| <= |w.room.playerOrder| && Shuffle(w.room.playerOrder, rng)[..|hackers|] == hackers
    ensures var t := PerformRoleAssignment(w, With(d, RoleDraw, rng));
            t.Some? && HackerIds(t.value.priv.players) == Elements(hackers)
  {
    RuledNumber(w.room.config, |w.room.playerOrder|, |hackers|);
    hide HackerCountFor, HackersFor, Shuffle, Distinct;
    assert forall id :: id in Elements(hackers) ==> id in w.room.playerOrder;
  }

  lemma LobbyEnds(w: World, d: Deps)
    requires w.room.phase.state == Lobby && w.room.config.minPlayers <= |w.room.playerOrder| <= w.room.config.maxPlayers
    ensures HandleEvent(w, StartGame(w.room.phase.phaseId), HostSender, d) == Accept(Transition(w, RoleAssignment, d))
  {
    hide HandleEvent, HandleInState, Transition;
    Reaches(w, StartGame(w.room.phase.phaseId), HostSender, d);
    InState(w, StartGame(w.room.phase.phaseId), d);
  }

  lemma RolesShown(w: World, d: Deps)
    requires PerformRoleAssignment(SetPhase(w, RoleAssignment, d), d).Some?
    ensures var t := Transition(w, RoleAssignment, d);
            t.Some? && t.value.priv == PerformRoleAssignment(SetPhase(w, RoleAssignment, d), d).value.priv
  {
    hide PerformRoleAssignment, SetPhase;
    var roles := PerformRoleAssignment(SetPhase(w, RoleAssignment, d), d).value;
    EntryFrame(roles, RoleReveal, d);
    PlainEntry(roles, RoleReveal, d);
  }

  /** Any team of the right number can be the hackers of a match. */
  lemma AnyTeam(w: World, hackers: seq<PlayerId>, d: Deps)
    requires Valid(w) && w.room.phase.state == Lobby && w.room.config.roleRule != UnknownRoleRule
    requires w.room.config.minPlayers <= |w.room.playerOrder| <= w.room.config.maxPlayers
    requires Among(hackers, w.room.playerOrder) && HackersFor(w.room.config, |w.room.playerOrder|, |hackers|)
    ensures exists rng :: var o := HandleEvent(w, StartGame(w.room.phase.phaseId), HostSender, With(d, RoleDraw, rng));
                          o.Accepted? && HackerIds(o.world.priv.players) == Elements(hackers)
  {
    hide Valid, HandleEvent, HackersFor, PerformRoleAssignment, Among, HackerIds, Elements, SetPhase, Blank, With, Transition;
    var rng := ComesFirst(w.room.playerOrder, hackers);
    hide Shuffle;
    var d' := With(d, RoleDraw, rng);
    LobbyEnds(w, d');
    LobbyBlank(w, d.now);
    BlankRosters(w, d.now);
    EntryFrame(w, RoleAssignment, d');
    DealtAs(SetPhase(w, RoleAssignment, d'), hackers, d, rng);
    RolesShown(w, d');
  }

  lemma BlankRosters(w: World, now: int)
    requires Blank(w, now)
    ensures forall id :: id in w.priv.players <==> id in w.room.playerOrder
  {
  }

  // ---- The turns ------------------------------------------------------------------------------------------------------------

  /** When a new order of turns is drawn it can be any. */
  lemma AnyOrderOfTurns(w: World, order: seq<PlayerId>, d: Deps)
    requires TurnsInOrder(w) && w.room.adminQueue == [] && Permutation(order, w.room.playerOrder)
    ensures exists rng :: var t := Transition(w, MinigameSelect, With(d, AdminShuffle, rng));
                          t.Some? && t.value.room.adminId.Some? && [t.value.room.adminId.value] + t.value.room.adminQueue == order
  {
    hide TurnsInOrder, SetPhase, EligibleIf, Shuffle, Permutation, NextQueue, With;
    PermutationLength(order, w.room.playerOrder);
    var rng := ShuffleReaches(w.room.playerOrder, order);
    var d' := With(d, AdminShuffle, rng);
    assert d'.rng(AdminShuffle) == rng by {
      WithIs(d, AdminShuffle, rng);
    }
    EntryFrame(w, MinigameSelect, d');
    EverybodyIn(w, SetPhase(w, MinigameSelect, d'));
    FreshQueue(w.room.playerOrder, order, rng);
    assert [order[0]] + order[1..] == order;
  }

  lemma WithIs(d: Deps, site: Site, rng: Stream)
    ensures With(d, site, rng).rng(site) == rng && With(d, site, rng).now == d.now
  {
  }

  lemma FreshQueue(ids: seq<PlayerId>, order: seq<PlayerId>, rng: Stream)
    requires ids != [] && Shuffle(ids, rng) == order
    ensures NextQueue([], ids, rng) == order
  {
    hide Shuffle;
  }

  /** The clock is running. */
  function Timed(w: World, now: int): World {
    w.(room := w.room.(matchClock := MatchClocks.StartMatchClock(w.room.config.matchClockTotalMs, now, w.nextId)), nextId := w.nextId + 1)
  }

  lemma IntroEnds(w: World, sender: Sender, d: Deps)
    requires w.room.phase.state == GameIntro
    ensures HandleEvent(w, TimerExpired(w.room.phase.phaseId), sender, d) == Accept(Transition(Timed(w, d.now), MinigameSelect, d))
  {
    hide HandleEvent, HandleInState, Transition;
    Reaches(w, TimerExpired(w.room.phase.phaseId), sender, d);
    InState(w, TimerExpired(w.room.phase.phaseId), d);
  }

  /** So the introduction can end with anybody's turn, and any order after it. */
  lemma AnyFirstOrder(w: World, order: seq<PlayerId>, sender: Sender, d: Deps)
    requires Valid(w) && w.room.phase.state == GameIntro && w.room.adminQueue == [] && w.room.playerOrder != []
    requires Permutation(order, w.room.playerOrder)
    ensures exists rng :: var o := HandleEvent(w, TimerExpired(w.room.phase.phaseId), sender, With(d, AdminShuffle, rng));
                          o.Accepted? && o.world.room.adminId.Some? && [o.world.room.adminId.value] + o.world.room.adminQueue == order
  {
    hide Valid, HandleEvent, Transition, TurnsInOrder, Permutation, With;
    TurnFacts(w);
    var s := Timed(w, d.now);
    SameTurns(w, s);
    AnyOrderOfTurns(s, order, d);
    hide Timed;
    var rng :| var t := Transition(s, MinigameSelect, With(d, AdminShuffle, rng));
               t.Some? && t.value.room.adminId.Some? && [t.value.room.adminId.value] + t.value.room.adminQueue == order;
    WithIs(d, AdminShuffle, rng);
    IntroEnds(w, sender, With(d, AdminShuffle, rng));
  }

  lemma SameTurns(w: World, s: World)
    requires TurnsInOrder(w) && SameAdmin(w, s) && s.room.playerOrder == w.room.playerOrder && s.room.players == w.room.players
    requires s.priv == w.priv && s.hist == w.hist
    ensures TurnsInOrder(s)
  {
  }

  // ---- The rounds of the timeout --------------------------------------------------------------------------------------------

  lemma PicksGame(r: Room, game: Minigames.MinigameId, d: Deps) returns (rng: Stream)
    requires Picked(r.config, game)
    ensures AutoSelectMinigame(r, With(d, MinigameChoice, rng)) == game
  {
    if r.config.selectionRule.PickAny? {
      var all := Minigames.ALL_MINIGAMES;
      assert all == [Minigames.RankIt, Minigames.CompleteIt, Minigames.PredictThemGame, Minigames.DrawIt, Minigames.DescribeItGame,
                     Minigames.DefendItGame];
      assert game in all by {
        assert all[match game case RankIt => 0 case CompleteIt => 1 case PredictThemGame => 2 case DrawIt => 3
                   case DescribeItGame => 4 case _ => 5] == game;
      }
      rng := ChoiceReaches(all, game);
    } else {
      rng := d.rng(MinigameChoice);
    }
  }

  lemma PicksThese(r: Room, secret: map<PlayerId, PrivatePlayer>, game: Minigames.GameName, ids: seq<PlayerId>, d: Deps) returns (rng: Stream)
    requires RosterOk(r.playerOrder, r.players, secret)
    requires Among(ids, r.playerOrder) && PickedSize(game, |r.playerOrder|, |ids|)
    ensures AutoSelectParticipants(r, game, With(d, ParticipantDraw, rng)) == ids
  {
    hide RosterOk, EligibleIf, Among, Shuffle, RandomSubset, PickedSize;
    EverybodyEligible(r, secret, r.config.eliminatedMayPlay);
    rng := ComesFirst(r.playerOrder, ids);
    var order, limit := Shuffle(r.playerOrder, rng), Minigames.ParticipantLimit(game);
    var k := Max(limit.least, Min(limit.most, |order|));
    SubsetComesFirst(r.playerOrder, k, rng);
    CutsTo(game, order, ids);
  }

  lemma SubsetComesFirst(pool: seq<PlayerId>, k: nat, rng: Stream)
    ensures RandomSubset(pool, k, rng) == Shuffle(pool, rng)[..Min(k, |pool|)]
  {
    hide Shuffle;
  }

  /** What is left of a first part that is cut down once more. */
  lemma CutsTo(game: Minigames.GameName, order: seq<PlayerId>, ids: seq<PlayerId>)
    requires |ids| <= |order| && order[..|ids|] == ids && PickedSize(game, |order|, |ids|)
    ensures var limit := Minigames.ParticipantLimit(game);
            var selected := order[..Min(Max(limit.least, Min(limit.most, |order|)), |order|)];
            ids == if game == Minigames.PredictThemGame && |selected| > 0 && |order| - |selected| < 1
                   then selected[..Min(|selected|, limit.least - 1)] else selected
  {
    var limit := Minigames.ParticipantLimit(game);
    var selected := order[..Min(Max(limit.least, Min(limit.most, |order|)), |order|)];
    if game == Minigames.PredictThemGame && |selected| > 0 && |order| - |selected| < 1 {
      assert |ids| == 1;
      assert selected[..1] == order[..1];
    }
  }

  /** A timeout can bring any game the configuration allows, for any players in the right number. */
  lemma AnyTimeoutRound(w: World, game: Minigames.MinigameId, ids: seq<PlayerId>, sender: Sender, d: Deps)
    requires Valid(w) && w.room.phase.state == MinigameSelect
    requires Picked(w.room.config, game) && Among(ids, w.room.playerOrder) && PickedSize(game, |w.room.playerOrder|, |ids|)
    ensures exists first, second ::
              var o := HandleEvent(w, TimerExpired(w.room.phase.phaseId), sender,
                                   With(With(d, MinigameChoice, first), ParticipantDraw, second));
              if o.Threw? then w.room.firewallActive
              else o.Accepted? && RoundOn(w, o.world, game, ids, d.now)
  {
    hide Valid, HandleEvent, HandleInState, RosterOk, Transition, BeginNormalRound, ExpandParticipants, AutoSelectParticipants,
         AutoSelectMinigame, PickedSize, Picked, Among, RoundOn;
    SelectFacts(w);
    var first := PicksGame(w.room, game, d);
    var d' := With(d, MinigameChoice, first);
    assert game != Minigames.InheritedName by {
      assert AutoSelectMinigame(w.room, d') == game;
    }
    var second := PicksThese(w.room, w.priv.players, game, ids, d');
    var d'' := With(d', ParticipantDraw, second);
    assert AutoSelectMinigame(w.room, d'') == AutoSelectMinigame(w.room, d') by {
      SameChoice(w.room, d', second);
    }
    var e := TimerExpired(w.room.phase.phaseId);
    Dispatched(w, e, sender, d'');
    InState(w, e, d'');
    assert Distinct(ids) && forall id :: id in ids ==> id in w.room.playerOrder by {
      AmongMeans(ids, w.room.playerOrder);
    }
    BeginsRound(w, game, ids, d'');
    assert With(With(d, MinigameChoice, first), ParticipantDraw, second) == d'';
  }

  lemma AmongMeans(ids: seq<PlayerId>, pool: seq<PlayerId>)
    requires Among(ids, pool)
    ensures Distinct(ids) && forall id :: id in ids ==> id in pool
  {
  }

  lemma SameChoice(r: Room, d: Deps, rng: Stream)
    ensures AutoSelectMinigame(r, With(d, ParticipantDraw, rng)) == AutoSelectMinigame(r, d)
  {
  }

  // ---- The group of the special game ----------------------------------------------------------------------------------------

  lemma DrawsGroup(r: Room, secret: map<PlayerId, PrivatePlayer>, ids: seq<PlayerId>, d: Deps) returns (rng: Stream)
    requires RosterOk(r.playerOrder, r.players, secret)
    requires Among(ids, r.playerOrder) && GroupSize(r.config, |r.playerOrder|, |ids|)
    ensures SpecialParticipants(r, With(d, SpecialDraw, rng)) == ids
  {
    EverybodyEligible(r, secret, r.config.eliminatedMayJoinSpecial);
    rng := ComesFirst(r.playerOrder, ids);
    GroupDrawn(r, secret, With(d, SpecialDraw, rng));
    hide RosterOk, EligibleIf, Among, Shuffle;
  }

  /** Any group of the right number can be called to the special game. */
  lemma AnyGroup(w: World, ids: seq<PlayerId>, sender: Sender, d: Deps)
    requires Valid(w) && w.room.phase.state == Discussion && Due(w.room)
    requires Among(ids, w.room.playerOrder) && GroupSize(w.room.config, |w.room.playerOrder|, |ids|)
    ensures exists rng ::
              var o := HandleEvent(w, TimerExpired(w.room.phase.phaseId), sender, With(d, SpecialDraw, rng));
              o.Accepted? && o.world.room.currentSpecialRound.Some? && o.world.room.currentSpecialRound.value.participantIds == ids
  {
    hide Valid, HandleEvent, HandleInState, RosterOk, SpecialParticipants, Transition, GroupSize, Among;
    DiscussionParts(w);
    var rng := DrawsGroup(w.room, w.priv.players, ids, d);
    var d' := With(d, SpecialDraw, rng);
    var e := TimerExpired(w.room.phase.phaseId);
    Dispatched(w, e, sender, d');
    InState(w, e, d');
    var begun := BeginSpecialGame(w, d');
    PlainEntry(begun, SpecialGameIntro, d');
    EntryFrame(begun, SpecialGameIntro, d');
  }

  // ---- The order of speakers ------------------------------------------------------------------------------------------------

  /** DESCRIBE_IT can begin with any order of its players. */
  lemma AnySpeakers(round: Round, order: seq<PlayerId>, d: Deps)
    requires round.minigameId == Minigames.DescribeItGame && Distinct(round.participantIds) && 3 <= |round.participantIds| <= 5
    requires Permutation(order, round.participantIds)
    ensures exists rng :: var m := StartModule(round, With(d, SpeakerShuffle, rng));
                          m.Some? && m.value.Describing? && m.value.description.speakerOrder == order
  {
    var rng := ShuffleReaches(round.participantIds, order);
    hide Shuffle, Permutation, Distinct, Elements;
    DescribeIt.StartAccepts(round.participantIds, DescribeIt.Config(order, Elements(round.participantIds)));
    assert StartModule(round, With(d, SpeakerShuffle, rng)).Some?;
  }

  ghost function NumbersAt(d: Deps, speakers: Stream, order: seq<PlayerId>, askers: map<PlayerId, PlayerId>, site: Site): Stream {
    match site
    case SpeakerShuffle => speakers
    case Asker(id) =>
      if id in askers && askers[id] in order && askers[id] != id then DefendIt.AskerNumbers(order, id, askers[id]) else d.rng(site)
    case _ => d.rng(site)
  }

  /** The same moment, with numbers that give these speakers and these askers. */
  ghost function Asking(d: Deps, speakers: Stream, order: seq<PlayerId>, askers: map<PlayerId, PlayerId>): Deps {
    d.(rng := (site: Site) => NumbersAt(d, speakers, order, askers, site))
  }

  lemma AsksThem(d: Deps, speakers: Stream, order: seq<PlayerId>, askers: map<PlayerId, PlayerId>)
    requires Distinct(order) && |order| >= 2 && DefendIt.AskersOf(order, askers)
    ensures DefendIt.SelectFollowUpAskers(order, AskerRng(Asking(d, speakers, order, askers))) == askers
  {
    hide DefendIt.AskersOf, DefendIt.SelectFollowUpAskers, DefendIt.GivesOne, Distinct, Asking, AskerRng;
    forall id | id in order ensures DefendIt.GivesOne(order, askers, AskerRng(Asking(d, speakers, order, askers)), id) {
      AsksThis(d, speakers, order, askers, id);
    }
    DefendIt.AnyAskers(order, askers, AskerRng(Asking(d, speakers, order, askers)));
  }

  lemma AsksThis(d: Deps, speakers: Stream, order: seq<PlayerId>, askers: map<PlayerId, PlayerId>, id: PlayerId)
    requires DefendIt.AskersOf(order, askers) && id in order
    ensures DefendIt.GivesOne(order, askers, AskerRng(Asking(d, speakers, order, askers)), id)
  {
    hide DefendIt.AskersOf, DefendIt.AskerNumbers;
    DefendIt.AskerOf(order, askers, id);
  }

  lemma AskersPass(ids: seq<PlayerId>, order: seq<PlayerId>, askers: map<PlayerId, PlayerId>)
    requires Permutation(order, ids) && DefendIt.AskersOf(order, askers)
    ensures DefendIt.AskersDrawn(ids, askers)
  {
    PermutationMembers(order, ids);
    hide Permutation;
    forall id {:trigger askers[id]} | id in askers ensures askers[id] in askers && askers[id] != id {
      DefendIt.AskerOf(order, askers, id);
      DefendIt.AskerOf(order, askers, askers[id]);
    }
    assert askers.Keys == Elements(ids);
  }

  /** DEFEND_IT can begin with any order of its players, and anybody else asking each of them. */
  lemma AnyDefence(round: Round, order: seq<PlayerId>, askers: map<PlayerId, PlayerId>, d: Deps)
    requires round.minigameId == Minigames.DefendItGame && Distinct(round.participantIds) && 2 <= |round.participantIds| <= 4
    requires Permutation(order, round.participantIds) && DefendIt.AskersOf(order, askers)
    ensures exists other: Deps ::
              var m := StartModule(round, other);
              && other.now == d.now && m.Some? && m.value.Defending?
              && m.value.defence.speakerOrder == order && m.value.defence.followUpAskerIds == askers
  {
    hide Shuffle, Permutation, Distinct, Elements, DefendIt.AskersOf, DefendIt.AskersDrawn, DefendIt.SelectFollowUpAskers, DefendIt.Valid,
         DefendIt.AskersFit, AskerRng, DefendIt.AskerNumbers;
    var speakers := ShuffleReaches(round.participantIds, order);
    PermutationLength(order, round.participantIds);
    PermutationDistinct(order, round.participantIds);
    AskersPass(round.participantIds, order, askers);
    AsksThem(d, speakers, order, askers);
    DefendIt.StartAccepts(round.participantIds, DefendIt.Config(order, Elements(round.participantIds), askers));
    var other := Asking(d, speakers, order, askers);
    assert StartConfigFor(round, other) == Minigames.DefendItConfig(DefendIt.Config(order, Elements(round.participantIds), askers));
    hide StartConfigFor;
    assert StartModule(round, other).Some?;
  }
}
