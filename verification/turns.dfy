/** The Admin's turns: whose is next, and that there is exactly one more. */
module Turns {
  import opened Collections
  import opened Random
  import opened SpeakingOrder
  import opened AdminRotation
  import opened RoomState
  import opened Transitions
  import opened RoomInvariant
  import opened RoomProofs
  import opened RoundProofs
  import opened Dispatch

  /** Same Admin, same queue, and no turn added. */
  predicate SameAdmin(w: World, t: World) {
    t.room.adminId == w.room.adminId && t.room.adminQueue == w.room.adminQueue && t.hist.admins == w.hist.admins
  }

  /** The head of the queue is in charge or, with an empty queue, the head of a fresh order of everybody; one turn more. */
  ghost predicate OneTurnMore(w: World, t: World) {
    && t.room.adminId.Some? && t.hist.admins == w.hist.admins + [t.room.adminId.value]
    && if w.room.adminQueue != [] then [t.room.adminId.value] + t.room.adminQueue == w.room.adminQueue
       else Permutation([t.room.adminId.value] + t.room.adminQueue, w.room.playerOrder)
  }

  /** What the order of turns rests on. */
  ghost predicate TurnsInOrder(w: World) {
    && RosterOk(w.room.playerOrder, w.room.players, w.priv.players) && w.room.playerOrder != []
    && AdminOk(w.hist, w.room.adminId, w.room.adminQueue, w.room.playerOrder)
  }

  lemma NextTurn(w: World, s: World, d: Deps)
    requires TurnsInOrder(s) && SameAdmin(w, s) && s.room.playerOrder == w.room.playerOrder
    ensures var t := Transition(s, MinigameSelect, d);
            t.Some? && t.value.room.phase.state == MinigameSelect && OneTurnMore(w, t.value)
  {
    hide SetPhase, NextQueue, EligibleIf, Permutation, TurnsInOrder;
    EntryFrame(s, MinigameSelect, d);
    EverybodyIn(s, SetPhase(s, MinigameSelect, d));
    QueuedKnown(s);
    QueueOrFresh(s.room.adminQueue, s.room.playerOrder, d.rng(AdminShuffle));
    var queue := NextQueue(s.room.adminQueue, s.room.playerOrder, d.rng(AdminShuffle));
    assert queue == [queue[0]] + queue[1..];
  }

  lemma EverybodyIn(w: World, t: World)
    requires TurnsInOrder(w) && t.room.playerOrder == w.room.playerOrder && t.room.players == w.room.players
    ensures EligibleMinigameIds(t.room) == w.room.playerOrder && w.room.playerOrder != []
  {
    EverybodyEligible(t.room, w.priv.players, t.room.config.eliminatedMayPlay);
    hide RosterOk, AdminOk, EligibleIf;
  }

  lemma QueuedKnown(w: World)
    requires TurnsInOrder(w)
    ensures forall id :: id in w.room.adminQueue ==> id in w.room.playerOrder
  {
  }

  lemma QueueOrFresh(queue: seq<PlayerId>, order: seq<PlayerId>, rng: Stream)
    requires order != [] && forall id :: id in queue ==> id in order
    ensures var next := NextQueue(queue, order, rng);
            next != [] && if queue != [] then next == queue else Permutation(next, order)
  {
    FilterAll(queue, (id: PlayerId) => id in order);
    PermutationLength(Shuffle(order, rng), order);
  }

  lemma TurnFacts(w: World)
    requires Valid(w) && Live(w.room.phase.state, w.room.matchClock.status) && w.room.playerOrder != []
    ensures TurnsInOrder(w)
  {
    hide RosterOk, MatchOk, AdminOk, JudgedOk, RoundOk, SpecialOk, AccusationOk, HackLedger, FirewallLedger, VerdictOk,
         ClockOk, IdsFresh, Shape, InProgress, ResultOk, LobbyOk, Live;
  }
}
