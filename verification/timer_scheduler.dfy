/**
  The timers of all rooms, one slot for each: the scheduler that runs on the clock and the one that is
  driven by hand.
 */
module TimerSchedulers {
  import opened Collections

  type RoomId = nat

  /** `id` is the phase, or the stretch of the match clock, that the timer is for. */
  datatype Entry = Entry(id: nat, deadline: int)

  type Timetable = map<RoomId, Entry>

  // ---- On the clock ------------------------------------------------------------------------------------------------

  datatype Armed = Armed(roomId: RoomId, id: nat)
  datatype Slot = Slot(entry: Entry, handle: nat)

  function Entries(timers: map<RoomId, Slot>): Timetable {
    map room | room in timers :: timers[room].entry
  }

  lemma EntriesWith(timers: map<RoomId, Slot>, roomId: RoomId, slot: Slot)
    ensures Entries(timers[roomId := slot]) == Entries(timers)[roomId := slot.entry]
    ensures roomId !in timers <==> roomId !in Entries(timers)
  {
  }

  /**
    `timers` is the scheduler's own table, `timeouts` what the runtime has armed. A timeout's callback
    clears the slot of its room without asking whose timer that is, so the two must match.
   */
  class RealTimerScheduler {
    var timers: map<RoomId, Slot>
    var timeouts: map<nat, Armed>
    var nextHandle: nat

    /** Exactly the timers in the table are armed, each once and for its own room. */
    ghost predicate Valid()
      reads this
    {
      && (forall room {:trigger timers[room]} :: room in timers ==>
            timers[room].handle in timeouts && timeouts[timers[room].handle] == Armed(room, timers[room].entry.id))
      && (forall h {:trigger timeouts[h]} :: h in timeouts ==>
            h < nextHandle && timeouts[h].roomId in timers && timers[timeouts[h].roomId].handle == h)
    }

    ghost function Scheduled(): Timetable
      reads this
    {
      Entries(timers)
    }

    constructor ()
      ensures Valid() && Scheduled() == map[]
    {
      timers, timeouts, nextHandle := map[], map[], 0;
    }

    method Cancel(roomId: RoomId)
      requires Valid()
      modifies this
      ensures Valid() && Scheduled() == old(Scheduled()) - {roomId}
    {
      if roomId !in timers {
        return;
      }
      timeouts := timeouts - {timers[roomId].handle};
      timers := timers - {roomId};
    }

    /** The newer timer of a room takes the place of the older. */
    method Schedule(roomId: RoomId, id: nat, deadline: int)
      requires Valid()
      modifies this
      ensures Valid() && Scheduled() == old(Scheduled())[roomId := Entry(id, deadline)]
    {
      hide Entries;
      Cancel(roomId);
      EntriesWith(timers, roomId, Slot(Entry(id, deadline), nextHandle));
      timeouts := timeouts[nextHandle := Armed(roomId, id)];
      timers := timers[roomId := Slot(Entry(id, deadline), nextHandle)];
      nextHandle := nextHandle + 1;
      assert (old(Scheduled()) - {roomId})[roomId := Entry(id, deadline)] == old(Scheduled())[roomId := Entry(id, deadline)];
    }

    /** The runtime calls back: what fires is what was scheduled, and it is one-shot. */
    method Fire(handle: nat) returns (roomId: RoomId, id: nat)
      requires Valid() && handle in timeouts
      modifies this
      ensures Valid()
      ensures roomId in old(Scheduled()) && old(Scheduled())[roomId].id == id
      ensures Scheduled() == old(Scheduled()) - {roomId}
    {
      roomId, id := timeouts[handle].roomId, timeouts[handle].id;
      timeouts := timeouts - {handle};
      timers := timers - {roomId};
    }

    method GetScheduled(roomId: RoomId) returns (entry: Option<Entry>)
      ensures entry == if roomId in Scheduled() then Some(Scheduled()[roomId]) else None
    {
      entry := if roomId in timers then Some(timers[roomId].entry) else None;
    }

    method Shutdown()
      modifies this
      ensures Valid() && Scheduled() == map[]
    {
      timers, timeouts := map[], map[];
    }
  }

  // ---- By hand -------------------------------------------------------------------------------------------------------

  datatype Due = Due(roomId: RoomId, entry: Entry)

  /** A map that is iterated in the order in which its keys were added, as in the runtime. */
  datatype Listing = Listing(order: seq<RoomId>, timers: Timetable)

  predicate InStep(l: Listing) {
    Distinct(l.order) && Elements(l.order) == l.timers.Keys
  }

  type Agenda = l: Listing | InStep(l) witness Listing([], map[])

  /** A room that has a timer keeps its place. */
  function Put(a: Agenda, roomId: RoomId, entry: Entry): Agenda {
    var order := if roomId in a.timers then a.order else a.order + [roomId];
    assert roomId !in a.timers ==> roomId !in a.order && Elements(order) == Elements(a.order) + {roomId};
    Listing(order, a.timers[roomId := entry])
  }

  function Drop(a: Agenda, roomId: RoomId): Agenda {
    var order := Filter(a.order, (room: RoomId) => room != roomId);
    FilterDistinct(a.order, (room: RoomId) => room != roomId);
    assert Elements(order) == Elements(a.order) - {roomId};
    Listing(order, a.timers - {roomId})
  }

  /** What the callback of a timer that fires makes of the schedule, by scheduling and cancelling. */
  type Reaction = (Agenda, RoomId, nat) -> Agenda

  /** Still there with the deadline it was collected with. */
  predicate StillDue(a: Agenda, t: Due) {
    t.roomId in a.timers && a.timers[t.roomId].deadline == t.entry.deadline
  }

  function FireOne(a: Agenda, t: Due, react: Reaction): Agenda {
    if StillDue(a, t) then react(Drop(a, t.roomId), t.roomId, t.entry.id) else a
  }

  /** The schedule after the collected timers have been fired in turn. */
  function FireAll(a: Agenda, due: seq<Due>, react: Reaction): Agenda
    decreases |due|
  {
    if due == [] then a else FireAll(FireOne(a, due[0], react), due[1..], react)
  }

  function Fired(a: Agenda, due: seq<Due>, react: Reaction): seq<Due>
    decreases |due|
  {
    if due == [] then []
    else (if StillDue(a, due[0]) then [due[0]] else []) + Fired(FireOne(a, due[0], react), due[1..], react)
  }

  /** Behind every timer that is not later: what a stable sort by deadline does with one more. */
  function Insert(due: seq<Due>, t: Due): (r: seq<Due>)
    ensures forall u :: u in r <==> u in due || u == t
  {
    if due == [] || t.entry.deadline < due[0].entry.deadline then [t] + due else [due[0]] + Insert(due[1..], t)
  }

  /** The timers due among those of the first `n` rooms of the listing. */
  function DueOf(a: Agenda, now: int, n: nat): seq<Due>
    requires n <= |a.order|
  {
    if n == 0 then []
    else
      var room := a.order[n - 1];
      assert room in Elements(a.order);
      var t := Due(room, a.timers[room]);
      if t.entry.deadline <= now then Insert(DueOf(a, now, n - 1), t) else DueOf(a, now, n - 1)
  }

  /** One room is listed before the other. */
  predicate Before(order: seq<RoomId>, first: RoomId, second: RoomId) {
    exists i, j :: 0 <= i < j < |order| && order[i] == first && order[j] == second
  }

  /** The earlier deadline comes first and, of equal ones, the room listed first. */
  predicate Precedes(order: seq<RoomId>, t: Due, u: Due) {
    t.entry.deadline < u.entry.deadline || (t.entry.deadline == u.entry.deadline && Before(order, t.roomId, u.roomId))
  }

  ghost predicate Sorted(order: seq<RoomId>, due: seq<Due>) {
    forall i, j :: 0 <= i < j < |due| ==> Precedes(order, due[i], due[j]) && due[i].roomId != due[j].roomId
  }

  lemma {:induction false} InsertSorted(order: seq<RoomId>, due: seq<Due>, t: Due)
    requires Sorted(order, due)
    requires forall u :: u in due ==> Before(order, u.roomId, t.roomId) && u.roomId != t.roomId
    ensures Sorted(order, Insert(due, t))
  {
    hide Before;
    if due == [] || t.entry.deadline < due[0].entry.deadline {
      forall i | 0 <= i < |due| ensures Precedes(order, t, due[i]) && due[i].roomId != t.roomId {
        assert due[i] in due;
        assert i > 0 ==> Precedes(order, due[0], due[i]);
      }
    } else {
      var rest := Insert(due[1..], t);
      InsertSorted(order, due[1..], t);
      forall i | 0 <= i < |rest| ensures Precedes(order, due[0], rest[i]) && due[0].roomId != rest[i].roomId {
        assert rest[i] in rest && due[0] in due;
        if rest[i] in due[1..] {
          var k :| 0 <= k < |due[1..]| && due[1..][k] == rest[i];
          assert due[k + 1] == rest[i];
        }
      }
    }
  }

  /** Exactly the timers due are collected, each once, and in their order. */
  lemma {:induction false} DueInOrder(a: Agenda, now: int, n: nat)
    requires n <= |a.order|
    ensures Sorted(a.order, DueOf(a, now, n))
    ensures forall t :: t in DueOf(a, now, n) <==>
              t.roomId in a.order[..n] && a.timers[t.roomId] == t.entry && t.entry.deadline <= now
  {
    if n > 0 {
      DueInOrder(a, now, n - 1);
      var room := a.order[n - 1];
      assert room in Elements(a.order);
      var t := Due(room, a.timers[room]);
      var rest := DueOf(a, now, n - 1);
      assert a.order[..n] == a.order[..n - 1] + [room];
      forall u | u in rest ensures Before(a.order, u.roomId, room) && u.roomId != room {
        var i :| 0 <= i < n - 1 && a.order[..n - 1][i] == u.roomId;
        assert a.order[i] == u.roomId && a.order[n - 1] == room;
      }
      InsertSorted(a.order, rest, t);
    }
  }

  class FakeTimerScheduler {
    var agenda: Agenda

    constructor ()
      ensures agenda == Listing([], map[])
    {
      agenda := Listing([], map[]);
    }

    method Schedule(roomId: RoomId, id: nat, deadline: int)
      modifies this
      ensures agenda == Put(old(agenda), roomId, Entry(id, deadline))
    {
      agenda := Put(agenda, roomId, Entry(id, deadline));
    }

    method Cancel(roomId: RoomId)
      modifies this
      ensures agenda == Drop(old(agenda), roomId)
    {
      agenda := Drop(agenda, roomId);
    }

    /** The timers due, sorted by deadline and otherwise in the order they are listed in. */
    method CollectDue(now: int) returns (due: seq<Due>)
      ensures due == DueOf(agenda, now, |agenda.order|)
      ensures Sorted(agenda.order, due)
      ensures forall t :: t in due <==>
                t.roomId in agenda.timers && agenda.timers[t.roomId] == t.entry && t.entry.deadline <= now
    {
      due := [];
      for i := 0 to |agenda.order|
        invariant due == DueOf(agenda, now, i)
      {
        var room := agenda.order[i];
        assert room in Elements(agenda.order);
        var t := Due(room, agenda.timers[room]);
        if t.entry.deadline <= now {
          due := Insert(due, t);
        }
      }
      DueInOrder(agenda, now, |agenda.order|);
      assert agenda.order[..|agenda.order|] == agenda.order;
      assert forall room :: room in agenda.order <==> room in Elements(agenda.order);
    }

    /** Fires every timer that is due, in that order, each before the callback of the next. */
    method AdvanceTo(now: int, react: Reaction) returns (fired: seq<Due>)
      modifies this
      ensures var due := DueOf(old(agenda), now, |old(agenda).order|);
              agenda == FireAll(old(agenda), due, react) && fired == Fired(old(agenda), due, react)
    {
      hide FireAll, Fired, Sorted;
      var rest := CollectDue(now);
      ghost var due := rest;
      fired := [];
      while rest != []
        invariant FireAll(agenda, rest, react) == FireAll(old(agenda), due, react)
        invariant fired + Fired(agenda, rest, react) == Fired(old(agenda), due, react)
        decreases |rest|
      {
        var t := rest[0];
        OneFired(agenda, rest, react);
        rest := rest[1..];
        if t.roomId in agenda.timers && agenda.timers[t.roomId].deadline == t.entry.deadline {
          agenda := Drop(agenda, t.roomId);
          fired := fired + [t];
          agenda := react(agenda, t.roomId, t.entry.id);
        }
      }
      NoneFired(agenda, react);
    }
  }

  lemma OneFired(a: Agenda, due: seq<Due>, react: Reaction)
    requires due != []
    ensures var t := due[0];
            var after := if StillDue(a, t) then react(Drop(a, t.roomId), t.roomId, t.entry.id) else a;
            && FireAll(a, due, react) == FireAll(after, due[1..], react)
            && Fired(a, due, react) == (if StillDue(a, t) then [t] else []) + Fired(after, due[1..], react)
  {
    hide Drop;
  }

  lemma NoneFired(a: Agenda, react: Reaction)
    ensures FireAll(a, [], react) == a && Fired(a, [], react) == []
  {
  }

  // ---- What a batch does -----------------------------------------------------------------------------------------------

  /** Whatever the callbacks do, timers fire in their order, only those that were due, and no room twice. */
  lemma {:induction false} BatchInOrder(a: Agenda, order: seq<RoomId>, due: seq<Due>, react: Reaction)
    requires Sorted(order, due)
    ensures var fired := Fired(a, due, react); Sorted(order, fired) && forall t :: t in fired ==> t in due
    decreases |due|
  {
    hide Drop, Precedes;
    if due != [] {
      BatchInOrder(FireOne(a, due[0], react), order, due[1..], react);
      var rest := Fired(FireOne(a, due[0], react), due[1..], react);
      forall t | t in rest ensures t.roomId != due[0].roomId && Precedes(order, due[0], t) {
        var k :| 0 <= k < |due[1..]| && due[1..][k] == t;
        assert due[k + 1] == t;
      }
    }
  }

  /** A callback keeps the timers of other rooms. */
  ghost predicate MindsItsOwn(react: Reaction) {
    forall a: Agenda, room, id, other {:trigger react(a, room, id), other in a.timers} :: other != room ==>
      (other in a.timers <==> other in react(a, room, id).timers)
      && (other in a.timers ==> react(a, room, id).timers[other] == a.timers[other])
  }

  /** When callbacks mind their own room, every timer due fires, and a timer a callback sets is there afterwards. */
  lemma {:induction false} BatchComplete(a: Agenda, due: seq<Due>, react: Reaction)
    requires MindsItsOwn(react)
    requires forall i, j :: 0 <= i < j < |due| ==> due[i].roomId != due[j].roomId
    requires forall t :: t in due ==> t.roomId in a.timers && a.timers[t.roomId] == t.entry
    ensures Fired(a, due, react) == due
    ensures forall room :: (forall t :: t in due ==> t.roomId != room) ==>
              (room in FireAll(a, due, react).timers <==> room in a.timers)
              && (room in a.timers ==> FireAll(a, due, react).timers[room] == a.timers[room])
    decreases |due|
  {
    if due != [] {
      var t := due[0];
      assert t in due;
      var next := FireOne(a, t, react);
      assert next == react(Drop(a, t.roomId), t.roomId, t.entry.id) && Drop(a, t.roomId).timers == a.timers - {t.roomId};
      hide Drop, FireOne;
      forall u | u in due[1..] ensures u.roomId in next.timers && next.timers[u.roomId] == u.entry {
        var k :| 0 <= k < |due[1..]| && due[1..][k] == u;
        assert due[k + 1] == u && u in due;
        assert u.roomId in Drop(a, t.roomId).timers;
      }
      BatchComplete(next, due[1..], react);
      forall room | forall u :: u in due ==> u.roomId != room
        ensures (room in FireAll(a, due, react).timers <==> room in a.timers)
                && (room in a.timers ==> FireAll(a, due, react).timers[room] == a.timers[room])
      {
        assert forall u :: u in due[1..] ==> u in due;
        assert room in Drop(a, t.roomId).timers <==> room in a.timers;
      }
    }
  }
}
