/** What the actor keeps in memory, whatever fails to be saved, is a room that a run of events leads to. */
module ActorRuns {
  import opened Collections
  import opened RoomState
  import opened Transitions
  import opened RoomInvariant
  import opened Runs
  import opened RoomActors

  /** All of a world but its public half. */
  datatype Rest = Rest(priv: Priv, nextId: nat, hist: History)

  function WorldOf(room: Room, rest: Rest): World {
    World(room, rest.priv, rest.nextId, rest.hist)
  }

  /** An event or a roster step as an operation of the actor. */
  function Operate(room: Room, rest: Rest, input: Input): Result<Room, Rest> {
    match Offer(WorldOf(room, rest), input)
    case Accepted(w) => Result.Accepted(w.room, Rest(w.priv, w.nextId, w.hist))
    case Rejected(_, _) => Result.Rejected
    case Threw => Result.Threw
  }

  datatype Delivery = Delivery(input: Input, io: Io)

  function JobOf(d: Delivery): Job<Room, Rest> {
    Job((room: Room, rest: Rest) => Operate(room, rest, d.input), d.io)
  }

  function Jobs(ds: seq<Delivery>): seq<Job<Room, Rest>> {
    seq(|ds|, i requires 0 <= i < |ds| => JobOf(ds[i]))
  }

  function Holding(w: World, store: Store<Room, Rest>): State<Room, Rest> {
    State(store, Loaded(w.room, Rest(w.priv, w.nextId, w.hist)))
  }

  /** The deliveries whose commit, if they came to one, went through. */
  function Saved(ds: seq<Delivery>): seq<Input> {
    if ds == [] then []
    else
      var d := ds[|ds| - 1];
      Saved(ds[..|ds| - 1]) + if d.io.publicOk && d.io.privateOk then [d.input] else []
  }

  lemma {:induction false} RunAppend(w: World, inputs: seq<Input>, input: Input)
    ensures RunOf(w, inputs + [input]) == Step(RunOf(w, inputs), input)
    decreases |inputs|
  {
    hide Step;
    if inputs == [] {
      assert RunOf(Step(w, input), ([] + [input])[1..]) == Step(w, input);
    } else {
      RunAppend(Step(w, inputs[0]), inputs[1..], input);
      assert (inputs + [input])[1..] == inputs[1..] + [input];
    }
  }

  /** One operation moves the kept room by one step, or leaves it when it is not saved. */
  lemma OneDelivery(w: World, store: Store<Room, Rest>, d: Delivery)
    ensures var st := Perform(Holding(w, store), JobOf(d)).0;
            st.memory == Holding(if d.io.publicOk && d.io.privateOk then Step(w, d.input) else w, store).memory
  {
    hide Offer;
    assert JobOf(d).op(w.room, Rest(w.priv, w.nextId, w.hist)) == Operate(w.room, Rest(w.priv, w.nextId, w.hist), d.input);
    assert WorldOf(w.room, Rest(w.priv, w.nextId, w.hist)) == w;
  }

  /**
    Memory after any deliveries is the run of those that were saved; rejected and throwing ones are
    steps that change nothing.
   */
  lemma {:induction false} MemoryIsARun(w: World, store: Store<Room, Rest>, ds: seq<Delivery>, n: nat)
    requires n <= |ds|
    ensures After(Holding(w, store), Jobs(ds), n).memory == Holding(RunOf(w, Saved(ds[..n])), store).memory
  {
    hide Perform, JobOf, Step;
    if n > 0 {
      MemoryIsARun(w, store, ds, n - 1);
      var before := After(Holding(w, store), Jobs(ds), n - 1);
      var u := RunOf(w, Saved(ds[..n - 1]));
      assert before == Holding(u, before.store);
      OneDelivery(u, before.store, ds[n - 1]);
      assert ds[..n][..n - 1] == ds[..n - 1] && ds[..n][n - 1] == ds[n - 1];
      assert Jobs(ds)[n - 1] == JobOf(ds[n - 1]);
      assert Saved(ds[..n - 1]) + [] == Saved(ds[..n - 1]);
      RunAppend(w, Saved(ds[..n - 1]), ds[n - 1].input);
    }
  }

  /** Readings of a clock that never goes back, in the index form. */
  predicate InOrder(inputs: seq<Input>, from: int) {
    && (forall i :: 0 <= i < |inputs| && inputs[i].Receive? ==> from <= inputs[i].deps.now)
    && (forall i, j :: 0 <= i < j < |inputs| && inputs[i].Receive? && inputs[j].Receive? ==> inputs[i].deps.now <= inputs[j].deps.now)
  }

  lemma {:induction false} InOrderTicks(inputs: seq<Input>, from: int)
    requires InOrder(inputs, from)
    ensures Ticking(inputs, from)
  {
    if inputs != [] {
      var later := if inputs[0].Receive? then inputs[0].deps.now else from;
      assert InOrder(inputs[1..], later);
      InOrderTicks(inputs[1..], later);
    }
  }

  lemma {:induction false} SavedInOrder(ds: seq<Delivery>, from: int)
    requires InOrder(seq(|ds|, i requires 0 <= i < |ds| => ds[i].input), from)
    ensures InOrder(Saved(ds), from)
    ensures forall x :: x in Saved(ds) ==> exists i :: 0 <= i < |ds| && ds[i].input == x
  {
    if ds != [] {
      var n := |ds| - 1;
      var all := seq(|ds|, i requires 0 <= i < |ds| => ds[i].input);
      var fewer := seq(n, i requires 0 <= i < n => ds[..n][i].input);
      assert fewer == all[..n];
      assert forall i :: 0 <= i < n ==> fewer[i] == all[i];
      SavedInOrder(ds[..n], from);
      var kept := Saved(ds[..n]);
      assert all[n] == ds[n].input;
      forall i | 0 <= i < |kept| && kept[i].Receive? && ds[n].input.Receive? ensures kept[i].deps.now <= ds[n].input.deps.now {
        assert kept[i] in kept;
        var k :| 0 <= k < n && ds[..n][k].input == kept[i];
        assert all[k] == kept[i] && all[n] == ds[n].input;
      }
      forall x | x in Saved(ds) ensures exists i :: 0 <= i < |ds| && ds[i].input == x {
        if x in kept {
          var k :| 0 <= k < n && ds[..n][k].input == x;
          assert ds[k].input == x;
        }
      }
    }
  }

  /**
    The actor's room is in order at every turn of its queue, whichever operations throw, are refused or
    are not saved.
   */
  lemma ActorKeepsValid(w: World, store: Store<Room, Rest>, ds: seq<Delivery>, from: int, n: nat)
    requires Valid(w) && w.room.phase.startedAt <= from && n <= |ds|
    requires InOrder(seq(|ds|, i requires 0 <= i < |ds| => ds[i].input), from)
    ensures var st := After(Holding(w, store), Jobs(ds), n);
            st.memory.Loaded? && Valid(WorldOf(st.memory.room, st.memory.priv))
  {
    hide Valid, RunOf, Perform, Jobs, After;
    MemoryIsARun(w, store, ds, n);
    var all := seq(|ds|, i requires 0 <= i < |ds| => ds[i].input);
    var first := seq(n, i requires 0 <= i < n => ds[..n][i].input);
    assert forall i :: 0 <= i < n ==> first[i] == all[i];
    SavedInOrder(ds[..n], from);
    InOrderTicks(Saved(ds[..n]), from);
    RunValid(w, Saved(ds[..n]), from);
    var u := RunOf(w, Saved(ds[..n]));
    assert WorldOf(u.room, Rest(u.priv, u.nextId, u.hist)) == u;
  }
}
