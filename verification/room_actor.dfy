/**
  The actor of one room: operations queued one behind the other, a load on first use, and a commit of
  two writes with a compensating delete. The operations, the public half `R` and the private half `P`
  are left open; an operation is any function of the two halves.
 */
module RoomActors {
  import opened Collections

  /** What an operation makes of a room: an accepted new version, a rejection, or an exception. */
  datatype Result<R, P> = Accepted(room: R, priv: P) | Rejected | Threw

  datatype Store<R, P> = Store(pub: Option<R>, priv: Option<P>)
  datatype Memory<R, P> = Unloaded | Loaded(room: R, priv: P)
  datatype State<R, P> = State(store: Store<R, P>, memory: Memory<R, P>)

  /** Which of the storage calls made for one operation succeed; a call that fails has no effect. */
  datatype Io = Io(loadOk: bool, publicOk: bool, privateOk: bool, deleteOk: bool)

  datatype Reply<R, P> = Done(room: R, priv: P) | Refused | OperationThrew | LoadFailed | RoomMissing | PublicMissing | PrivateMissing | PersistFailed

  /** One queued operation, with the storage outcomes it is going to meet. */
  datatype Job<!R, !P> = Job(op: (R, P) -> Result<R, P>, io: Io)

  // ---- One operation, start to finish -----------------------------------------------------------------------------

  /** The first use loads both halves, and fails when either is missing. */
  function Load<R, P>(st: State<R, P>, io: Io): (r: (State<R, P>, Option<Reply<R, P>>))
    ensures r.1.None? ==> r.0.memory.Loaded?
  {
    if st.memory.Loaded? then (st, None)
    else if !io.loadOk then (st, Some(LoadFailed))
    else match (st.store.pub, st.store.priv)
      case (Some(r), Some(p)) => (st.(memory := Loaded(r, p)), None)
      case (None, None) => (st, Some(RoomMissing))
      case (Some(_), None) => (st, Some(PrivateMissing))
      case (None, Some(_)) => (st, Some(PublicMissing))
  }

  /** The commit: public half, then private half, then memory; a failure in between takes the public half back out. */
  function Commit<R, P>(st: State<R, P>, room: R, priv: P, io: Io): (State<R, P>, Reply<R, P>) {
    if !io.publicOk then (st, PersistFailed)
    else if io.privateOk then (State(Store(Some(room), Some(priv)), Loaded(room, priv)), Done(room, priv))
    else if io.deleteOk then (st.(store := st.store.(pub := None)), PersistFailed)
    else (st.(store := st.store.(pub := Some(room))), PersistFailed)
  }

  function Perform<R, P>(st: State<R, P>, job: Job<R, P>): (State<R, P>, Reply<R, P>) {
    var (loaded, failure) := Load(st, job.io);
    if failure.Some? then (loaded, failure.value)
    else match job.op(loaded.memory.room, loaded.memory.priv)
      case Accepted(room, priv) => Commit(loaded, room, priv, job.io)
      case Rejected => (loaded, Refused)
      case Threw => (loaded, OperationThrew)
  }

  /** The state after the first `n` operations, done one by one in the order they were enqueued. */
  function After<R, P>(st: State<R, P>, jobs: seq<Job<R, P>>, n: nat): State<R, P>
    requires n <= |jobs|
  {
    if n == 0 then st else Perform(After(st, jobs, n - 1), jobs[n - 1]).0
  }

  function ReplyTo<R, P>(st: State<R, P>, jobs: seq<Job<R, P>>, k: nat): Reply<R, P>
    requires k < |jobs|
  {
    Perform(After(st, jobs, k), jobs[k]).1
  }

  /** The two halves an operation would work on: those in memory, or the stored ones if nothing is loaded yet. */
  predicate Available<R(==), P(==)>(st: State<R, P>, io: Io, room: R, priv: P) {
    st.memory == Loaded(room, priv)
    || (st.memory == Unloaded && io.loadOk && st.store == Store(Some(room), Some(priv)))
  }

  /**
    An operation answers with the version it has made when both halves of it are saved, and then that is what is kept;
    otherwise it answers why not and memory stays with the version before. Of a version that is not saved the store
    keeps at most the public half, and that only if neither the private half could be saved nor the public one deleted.
   */
  lemma OperationAnswers<R, P>(st: State<R, P>, job: Job<R, P>, room: R, priv: P)
    requires Available(st, job.io, room, priv)
    ensures var (after, reply) := Perform(st, job);
            match job.op(room, priv)
            case Rejected => reply == Refused && after == State(st.store, Loaded(room, priv))
            case Threw => reply == OperationThrew && after == State(st.store, Loaded(room, priv))
            case Accepted(r, p) =>
              if job.io.publicOk && job.io.privateOk
              then reply == Done(r, p) && after == State(Store(Some(r), Some(p)), Loaded(r, p))
              else && reply == PersistFailed && after.memory == Loaded(room, priv) && after.store.priv == st.store.priv
                   && (!job.io.publicOk ==> after.store.pub == st.store.pub)
                   && (job.io.publicOk && job.io.deleteOk ==> after.store.pub == None)
                   && (job.io.publicOk && !job.io.deleteOk ==> after.store.pub == Some(r))
  {
  }

  /** When there is nothing to work on the operation is not run, and the answer says what is missing. */
  lemma NothingToWorkOn<R, P>(st: State<R, P>, job: Job<R, P>)
    requires forall room, priv :: !Available(st, job.io, room, priv)
    ensures var (after, reply) := Perform(st, job);
            && after == st
            && (reply == LoadFailed <==> !job.io.loadOk)
            && (job.io.loadOk ==>
                  && (reply == RoomMissing <==> st.store.pub.None? && st.store.priv.None?)
                  && (reply == PrivateMissing <==> st.store.pub.Some? && st.store.priv.None?)
                  && (reply == PublicMissing <==> st.store.pub.None? && st.store.priv.Some?)
                  && (st.store.pub.None? || st.store.priv.None?))
  {
    if st.memory.Loaded? {
      assert Available(st, job.io, st.memory.room, st.memory.priv);
    } else if job.io.loadOk && st.store.pub.Some? && st.store.priv.Some? {
      assert Available(st, job.io, st.store.pub.value, st.store.priv.value);
    }
  }

  // ---- The same, suspended at every await --------------------------------------------------------------------------

  /** Where a task is suspended. The TTL refreshes after the second write are one await of their own. */
  datatype Stage<R, P> =
    | Waiting
    | Loading
    | SavingPublic(room: R, priv: P)
    | SavingPrivate(room: R, priv: P)
    | DeletingPublic
    | Refreshing(room: R, priv: P)
    | Settled(reply: Reply<R, P>)

  datatype Actor<!R, !P> = Actor(state: State<R, P>, jobs: seq<Job<R, P>>, stages: seq<Stage<R, P>>)

  /** What happens next: somebody enqueues an operation, or the event loop resumes one of the tasks. */
  datatype Move<!R, !P> = Enqueue(job: Job<R, P>) | Resume(task: nat)

  /** Each task is chained to the one enqueued before it and starts when that has settled. */
  predicate CanResume<R, P>(a: Actor<R, P>, k: nat)
    requires |a.stages| == |a.jobs|
  {
    k < |a.stages| && !a.stages[k].Settled?
    && (a.stages[k].Waiting? && k > 0 ==> a.stages[k - 1].Settled?)
  }

  /** A task runs from one await to the next without interruption. */
  function ResumeTask<R, P>(st: State<R, P>, job: Job<R, P>, stage: Stage<R, P>): (State<R, P>, Stage<R, P>) {
    match stage
    case Waiting => (st, Loading)
    case Loading =>
      (var (loaded, failure) := Load(st, job.io);
       if failure.Some? then (loaded, Settled(failure.value))
       else match job.op(loaded.memory.room, loaded.memory.priv)
         case Accepted(room, priv) => (loaded, SavingPublic(room, priv))
         case Rejected => (loaded, Settled(Refused))
         case Threw => (loaded, Settled(OperationThrew)))
    case SavingPublic(room, priv) =>
      if job.io.publicOk then (st.(store := st.store.(pub := Some(room))), SavingPrivate(room, priv))
      else (st, Settled(PersistFailed))
    case SavingPrivate(room, priv) =>
      if job.io.privateOk then (st.(store := st.store.(priv := Some(priv))), Refreshing(room, priv))
      else (st, DeletingPublic)
    case DeletingPublic =>
      (if job.io.deleteOk then st.(store := st.store.(pub := None)) else st, Settled(PersistFailed))
    case Refreshing(room, priv) => (st.(memory := Loaded(room, priv)), Settled(Done(room, priv)))
    case Settled(_) => (st, stage)
  }

  function Next<R, P>(a: Actor<R, P>, move: Move<R, P>): (b: Actor<R, P>)
    requires |a.stages| == |a.jobs|
    ensures |b.stages| == |b.jobs|
  {
    match move
    case Enqueue(job) => a.(jobs := a.jobs + [job], stages := a.stages + [Waiting])
    case Resume(k) =>
      if !CanResume(a, k) then a
      else
        var (st, stage) := ResumeTask(a.state, a.jobs[k], a.stages[k]);
        a.(state := st, stages := a.stages[k := stage])
  }

  function Play<R, P>(a: Actor<R, P>, moves: seq<Move<R, P>>): (b: Actor<R, P>)
    requires |a.stages| == |a.jobs|
    ensures |b.stages| == |b.jobs|
    decreases |moves|
  {
    if moves == [] then a else Play(Next(a, moves[0]), moves[1..])
  }

  function Idle<R, P>(st: State<R, P>): Actor<R, P> {
    Actor(st, [], [])
  }

  // ---- Serialization --------------------------------------------------------------------------------------------------

  /** The state is what it was before the task, plus what the task has done by this await. */
  ghost predicate Underway<R, P>(before: State<R, P>, job: Job<R, P>, stage: Stage<R, P>, now: State<R, P>) {
    var (loaded, failure) := Load(before, job.io);
    match stage
    case Waiting => now == before
    case Loading => now == before
    case SavingPublic(room, priv) =>
      failure.None? && job.op(loaded.memory.room, loaded.memory.priv) == Accepted(room, priv) && now == loaded
    case SavingPrivate(room, priv) =>
      failure.None? && job.op(loaded.memory.room, loaded.memory.priv) == Accepted(room, priv) && job.io.publicOk
      && now == loaded.(store := loaded.store.(pub := Some(room)))
    case DeletingPublic =>
      failure.None? && job.op(loaded.memory.room, loaded.memory.priv).Accepted? && job.io.publicOk && !job.io.privateOk
      && now == loaded.(store := loaded.store.(pub := Some(job.op(loaded.memory.room, loaded.memory.priv).room)))
    case Refreshing(room, priv) =>
      failure.None? && job.op(loaded.memory.room, loaded.memory.priv) == Accepted(room, priv) && job.io.publicOk && job.io.privateOk
      && now == loaded.(store := Store(Some(room), Some(priv)))
    case Settled(reply) => (now, reply) == Perform(before, job)
  }

  /** The first `done` tasks have settled as if done one by one, the next may be under way, the rest wait. */
  ghost predicate Serial<R, P>(start: State<R, P>, a: Actor<R, P>, done: nat) {
    && |a.stages| == |a.jobs| && done <= |a.jobs|
    && (forall k :: 0 <= k < done ==> a.stages[k] == Settled(ReplyTo(start, a.jobs, k)))
    && (forall k :: done < k < |a.jobs| ==> a.stages[k] == Waiting)
    && (if done < |a.jobs| then !a.stages[done].Settled? && Underway(After(start, a.jobs, done), a.jobs[done], a.stages[done], a.state)
        else a.state == After(start, a.jobs, done))
  }

  /** From one await to the next a task does what the whole operation does. */
  lemma ResumeUnderway<R, P>(before: State<R, P>, job: Job<R, P>, stage: Stage<R, P>, now: State<R, P>)
    requires Underway(before, job, stage, now)
    ensures var (st, next) := ResumeTask(now, job, stage); Underway(before, job, next, st)
  {
  }

  lemma {:induction false} AfterAppend<R, P>(start: State<R, P>, jobs: seq<Job<R, P>>, job: Job<R, P>, n: nat)
    requires n <= |jobs|
    ensures After(start, jobs + [job], n) == After(start, jobs, n)
  {
    if n > 0 {
      AfterAppend(start, jobs, job, n - 1);
      assert (jobs + [job])[n - 1] == jobs[n - 1];
    }
  }

  lemma NextSerial<R, P>(start: State<R, P>, a: Actor<R, P>, done: nat, move: Move<R, P>) returns (after: nat)
    requires Serial(start, a, done)
    ensures Serial(start, Next(a, move), after)
  {
    after := done;
    match move
    case Enqueue(job) =>
      forall n | 0 <= n <= |a.jobs| ensures After(start, a.jobs + [job], n) == After(start, a.jobs, n) {
        AfterAppend(start, a.jobs, job, n);
      }
      hide Perform;
      assert Serial(start, Next(a, move), done);
    case Resume(k) =>
      if CanResume(a, k) {
        OnlyOneRuns(start, a, done, k);
        ResumeUnderway(After(start, a.jobs, k), a.jobs[k], a.stages[k], a.state);
        var (st, stage) := ResumeTask(a.state, a.jobs[k], a.stages[k]);
        if stage.Settled? {
          after := done + 1;
        }
        hide Perform, ResumeTask, Load;
        assert Serial(start, Next(a, move), after);
      }
  }

  /** The queue lets no two tasks overlap. */
  lemma OnlyOneRuns<R, P>(start: State<R, P>, a: Actor<R, P>, done: nat, k: nat)
    requires Serial(start, a, done) && CanResume(a, k)
    ensures k == done
  {
  }

  lemma {:induction false} PlaySerial<R, P>(start: State<R, P>, a: Actor<R, P>, done: nat,
                                            moves: seq<Move<R, P>>) returns (after: nat)
    requires Serial(start, a, done)
    ensures Serial(start, Play(a, moves), after)
    decreases |moves|
  {
    if moves == [] {
      after := done;
    } else {
      var m := NextSerial(start, a, done, moves[0]);
      after := PlaySerial(start, Next(a, moves[0]), m, moves[1..]);
    }
  }

  /**
    Any interleaving is the fold: however the enqueued operations are suspended and resumed, and
    whichever of them throw or fail to be saved, at every moment the first `done` of them have answered
    and left behind exactly what they would have, done one by one in the order of enqueueing; the next
    may be under way and the others have not begun.
   */
  lemma AnyInterleavingIsTheFold<R, P>(start: State<R, P>, moves: seq<Move<R, P>>) returns (done: nat)
    ensures var a := Play(Idle(start), moves);
            && done <= |a.jobs|
            && (forall k :: 0 <= k < |a.jobs| ==> (a.stages[k].Settled? <==> k < done))
            && (forall k :: 0 <= k < done ==> a.stages[k] == Settled(ReplyTo(start, a.jobs, k)))
            && (forall k :: done < k < |a.jobs| ==> a.stages[k] == Waiting)
            && (done < |a.jobs| ==> Underway(After(start, a.jobs, done), a.jobs[done], a.stages[done], a.state))
            && (done == |a.jobs| ==> a.state == After(start, a.jobs, |a.jobs|))
  {
    assert Serial(start, Idle(start), 0);
    done := PlaySerial(start, Idle(start), 0, moves);
    hide Perform, Underway;
  }

  /** So once all have settled, nothing but the order of enqueueing matters. */
  lemma AtRestTheFold<R, P>(start: State<R, P>, moves: seq<Move<R, P>>)
    ensures var a := Play(Idle(start), moves);
            (forall k :: 0 <= k < |a.stages| ==> a.stages[k].Settled?) ==>
              && a.state == After(start, a.jobs, |a.jobs|)
              && forall k :: 0 <= k < |a.jobs| ==> a.stages[k] == Settled(ReplyTo(start, a.jobs, k))
  {
    hide Perform, Underway;
    var done := AnyInterleavingIsTheFold(start, moves);
  }

  // ---- What is stored ----------------------------------------------------------------------------------------------------

  /** What the store holds is what memory holds, but the public half may be missing. */
  predicate Durable<R(==), P(==)>(st: State<R, P>) {
    st.memory.Loaded? ==>
      st.store.priv == Some(st.memory.priv) && (st.store.pub == Some(st.memory.room) || st.store.pub == None)
  }

  /** The commit that fails half way and cannot be taken back. */
  predicate Stuck<R(==), P>(st: State<R, P>, job: Job<R, P>) {
    var (loaded, failure) := Load(st, job.io);
    failure.None?
    && match job.op(loaded.memory.room, loaded.memory.priv)
       case Accepted(room, _) => job.io.publicOk && !job.io.privateOk && !job.io.deleteOk && room != loaded.memory.room
       case _ => false
  }

  /** An operation leaves the store in step with memory exactly when it does not get stuck in its commit. */
  lemma DurableUnlessStuck<R, P>(st: State<R, P>, job: Job<R, P>)
    requires Durable(st)
    ensures Durable(Perform(st, job).0) <==> !Stuck(st, job)
  {
  }

  /** Such a commit exists: the public half is the new version, the private half and memory are the old one. */
  lemma FailedDeleteMixesVersions()
    ensures exists st: State<int, int>, job: Job<int, int> ::
              Durable(st) && Perform(st, job).0 == State(Store(Some(1), Some(0)), Loaded(0, 0))
  {
    var job: Job<int, int> := Job((r: int, p: int) => Accepted(r + 1, p + 1), Io(true, true, false, false));
    var st := State(Store(Some(0), Some(0)), Loaded(0, 0));
    assert Durable(st) && Perform(st, job).0 == State(Store(Some(1), Some(0)), Loaded(0, 0));
  }

  /** If no commit gets stuck, the store is in step with memory after every prefix of the operations. */
  lemma {:induction false} StaysDurable<R, P>(start: State<R, P>, jobs: seq<Job<R, P>>, n: nat)
    requires Durable(start) && n <= |jobs|
    requires forall k :: 0 <= k < n ==> !Stuck(After(start, jobs, k), jobs[k])
    ensures Durable(After(start, jobs, n))
  {
    hide Perform, Stuck, Durable;
    if n > 0 {
      StaysDurable(start, jobs, n - 1);
      DurableUnlessStuck(After(start, jobs, n - 1), jobs[n - 1]);
    }
  }

  /** A private half that cannot be saved does not meet a delete that does not work either. */
  predicate Recoverable(io: Io) {
    io.publicOk ==> io.privateOk || io.deleteOk
  }

  /** A task that has written to the store and has not settled. */
  predicate Committing<R, P>(stage: Stage<R, P>) {
    stage.SavingPrivate? || stage.DeletingPublic? || stage.Refreshing?
  }

  /**
    In the middle of a commit the public half is the new version, whose private half joins it last; memory
    is the old version, and so is the private half until then.
   */
  predicate MidCommit<R(==), P(==)>(st: State<R, P>, job: Job<R, P>, stage: Stage<R, P>) {
    st.memory.Loaded?
    && match job.op(st.memory.room, st.memory.priv)
       case Accepted(room, priv) =>
         && (stage.Refreshing? || stage.SavingPrivate? ==> stage.room == room && stage.priv == priv)
         && st.store == Store(Some(room), Some(if stage.Refreshing? then priv else st.memory.priv))
       case _ => false
  }

  /**
    With failed writes that have no effect and compensating deletes that work, in any interleaving and at every
    moment: the store holds what memory holds, but perhaps for the public half, unless a commit is half way, and then
    exactly the halves of the two versions it has reached.
   */
  lemma StoreFollowsMemory<R, P>(start: State<R, P>, moves: seq<Move<R, P>>)
    requires Durable(start)
    requires forall m :: m in moves && m.Enqueue? ==> Recoverable(m.job.io)
    ensures var a := Play(Idle(start), moves);
            && ((forall k :: 0 <= k < |a.stages| ==> !Committing(a.stages[k])) ==> Durable(a.state))
            && forall k :: 0 <= k < |a.stages| && Committing(a.stages[k]) ==> MidCommit(a.state, a.jobs[k], a.stages[k])
  {
    var a := Play(Idle(start), moves);
    var done := AnyInterleavingIsTheFold(start, moves);
    JobsCome(Idle(start), moves);
    forall k | 0 <= k < |a.jobs| ensures !Stuck(After(start, a.jobs, k), a.jobs[k]) {
    }
    hide Perform, Stuck, Durable, Underway, MidCommit, Committing;
    StaysDurable(start, a.jobs, done);
    if done < |a.jobs| {
      StoreUnderway(After(start, a.jobs, done), a.jobs[done], a.stages[done], a.state);
    }
    assert forall k :: 0 <= k < |a.stages| && k != done ==> !Committing(a.stages[k]) by {
      forall k | 0 <= k < |a.stages| && k != done ensures !Committing(a.stages[k]) {
        OnlyUnsettledCommit(a.stages[k]);
      }
    }
  }

  lemma OnlyUnsettledCommit<R, P>(stage: Stage<R, P>)
    requires stage.Settled? || stage.Waiting?
    ensures !Committing(stage)
  {
  }

  lemma StoreUnderway<R, P>(before: State<R, P>, job: Job<R, P>, stage: Stage<R, P>, now: State<R, P>)
    requires Durable(before) && Underway(before, job, stage, now) && !stage.Settled?
    ensures if Committing(stage) then MidCommit(now, job, stage) else Durable(now)
  {
  }

  lemma {:induction false} JobsCome<R, P>(a: Actor<R, P>, moves: seq<Move<R, P>>)
    requires |a.stages| == |a.jobs| && forall k :: 0 <= k < |a.jobs| ==> Recoverable(a.jobs[k].io)
    requires forall m :: m in moves && m.Enqueue? ==> Recoverable(m.job.io)
    ensures forall k :: 0 <= k < |Play(a, moves).jobs| ==> Recoverable(Play(a, moves).jobs[k].io)
    decreases |moves|
  {
    if moves != [] {
      assert moves[0] in moves;
      JobsCome(Next(a, moves[0]), moves[1..]);
    }
  }

  /** A reload from a store in step with memory brings back the version in memory, or fails; it never mixes two. */
  lemma ReloadNeverMixes<R, P>(st: State<R, P>, io: Io)
    requires Durable(st) && st.memory.Loaded?
    ensures var (reloaded, failure) := Load(st.(memory := Unloaded), io);
            if failure.None? then reloaded.memory == st.memory
            else !io.loadOk || (failure.value == PublicMissing && st.store.pub == None)
  {
  }

  // ---- Nothing is stuck -----------------------------------------------------------------------------------------------------

  /** The awaits a task still has before it at most. */
  function AwaitsLeft<R, P>(stage: Stage<R, P>): nat {
    match stage
    case Waiting => 5
    case Loading => 4
    case SavingPublic(_, _) => 3
    case SavingPrivate(_, _) => 2
    case DeletingPublic => 1
    case Refreshing(_, _) => 1
    case Settled(_) => 0
  }

  function TotalLeft<R, P>(stages: seq<Stage<R, P>>): nat {
    if stages == [] then 0 else TotalLeft(stages[..|stages| - 1]) + AwaitsLeft(stages[|stages| - 1])
  }

  lemma {:induction false} LessLeft<R, P>(stages: seq<Stage<R, P>>, k: nat, stage: Stage<R, P>)
    requires k < |stages|
    ensures TotalLeft(stages[k := stage]) + AwaitsLeft(stages[k]) == TotalLeft(stages) + AwaitsLeft(stage)
  {
    var n := |stages| - 1;
    if k == n {
      assert stages[k := stage][..n] == stages[..n];
    } else {
      assert stages[k := stage][..n] == stages[..n][k := stage];
      LessLeft(stages[..n], k, stage);
    }
  }

  /** However the run got there, resuming what can be resumed settles every task, whatever fails on the way. */
  lemma {:induction false} EverythingSettles<R, P>(start: State<R, P>, a: Actor<R, P>,
                                                   done: nat) returns (moves: seq<Move<R, P>>)
    requires Serial(start, a, done)
    ensures |moves| <= TotalLeft(a.stages) && Play(a, moves).jobs == a.jobs
    ensures forall k :: 0 <= k < |Play(a, moves).stages| ==> Play(a, moves).stages[k].Settled?
    decreases TotalLeft(a.stages)
  {
    if done == |a.jobs| {
      moves := [];
    } else {
      var move: Move<R, P> := Resume(done);
      var b := Next(a, move);
      var m := NextSerial(start, a, done, move);
      var stage := ResumeTask(a.state, a.jobs[done], a.stages[done]).1;
      assert AwaitsLeft(stage) < AwaitsLeft(a.stages[done]);
      LessLeft(a.stages, done, stage);
      var rest := EverythingSettles(start, b, m);
      moves := [move] + rest;
      assert moves[1..] == rest;
    }
  }

  // ---- The actor as an object ---------------------------------------------------------------------------------------------

  /** One stored half; a call that does not work leaves it as it was. */
  class Repository<T> {
    var saved: Option<T>

    constructor ()
      ensures saved == None
    {
      saved := None;
    }

    method Save(value: T, works: bool) returns (ok: bool)
      modifies this
      ensures ok == works && saved == if works then Some(value) else old(saved)
    {
      if works {
        saved := Some(value);
      }
      ok := works;
    }

    method Delete(works: bool)
      modifies this
      ensures saved == if works then None else old(saved)
    {
      if works {
        saved := None;
      }
    }
  }

  class RoomActor<!R, !P> {
    const publicRepo: Repository<R>
    const privateRepo: Repository<P>
    var room: Option<R>
    var priv: Option<P>
    var loaded: bool

    ghost predicate Valid()
      reads this
    {
      (publicRepo as object) != (privateRepo as object) && (loaded ==> room.Some? && priv.Some?)
    }

    ghost function Now(): State<R, P>
      requires Valid()
      reads this, publicRepo, privateRepo
    {
      State(Store(publicRepo.saved, privateRepo.saved), if loaded then Loaded(room.value, priv.value) else Unloaded)
    }

    constructor (publicRepo: Repository<R>, privateRepo: Repository<P>)
      requires (publicRepo as object) != (privateRepo as object)
      ensures Valid() && Now() == State(Store(publicRepo.saved, privateRepo.saved), Unloaded)
      ensures this.publicRepo == publicRepo && this.privateRepo == privateRepo
    {
      this.publicRepo, this.privateRepo := publicRepo, privateRepo;
      room, priv, loaded := None, None, false;
    }

    method EnsureLoaded(io: Io) returns (failure: Option<Reply<R, P>>)
      requires Valid()
      modifies this
      ensures Valid() && (Now(), failure) == Load(old(Now()), io)
    {
      if loaded {
        return None;
      }
      if !io.loadOk {
        return Some(LoadFailed);
      }
      var r, p := publicRepo.saved, privateRepo.saved;
      if r.None? && p.None? {
        return Some(RoomMissing);
      }
      if p.None? {
        return Some(PrivateMissing);
      }
      if r.None? {
        return Some(PublicMissing);
      }
      room := r;
      priv := p;
      loaded := true;
      failure := None;
    }

    /** Both writes, or neither as far as the store lets it. */
    method Persist(nextRoom: R, nextPriv: P, io: Io) returns (ok: bool)
      requires Valid()
      modifies publicRepo, privateRepo
      ensures ok == (io.publicOk && io.privateOk)
      ensures privateRepo.saved == if ok then Some(nextPriv) else old(privateRepo.saved)
      ensures publicRepo.saved ==
              if !io.publicOk then old(publicRepo.saved)
              else if io.privateOk || !io.deleteOk then Some(nextRoom)
              else None
    {
      var publicSaved := publicRepo.Save(nextRoom, io.publicOk);
      ok := false;
      if publicSaved {
        ok := privateRepo.Save(nextPriv, io.privateOk);
        if !ok {
          publicRepo.Delete(io.deleteOk);
        }
      }
    }

    /** One turn of the queue: memory changes only after both halves are saved. */
    method Dispatch(op: (R, P) -> Result<R, P>, io: Io) returns (reply: Reply<R, P>)
      requires Valid()
      modifies this, publicRepo, privateRepo
      ensures Valid() && (Now(), reply) == Perform(old(Now()), Job(op, io))
    {
      var failure := EnsureLoaded(io);
      if failure.Some? {
        return failure.value;
      }
      match op(room.value, priv.value)
      case Accepted(nextRoom, nextPriv) =>
        var ok := Persist(nextRoom, nextPriv, io);
        if !ok {
          return PersistFailed;
        }
        room := Some(nextRoom);
        priv := Some(nextPriv);
        reply := Done(nextRoom, nextPriv);
      case Rejected =>
        reply := Refused;
      case Threw =>
        reply := OperationThrew;
    }
  }
}
