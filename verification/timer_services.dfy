/**
  The phase timer and the match clock of one room beside its actor: what is scheduled, which expiries
  are on their way, and the room they are about.
 */
module TimerServices {
  import opened Collections
  import opened SpeakingOrder
  import opened MatchClocks
  import opened RoomState
  import opened Transitions
  import opened RoomInvariant
  import opened RoomProofs
  import opened PhaseProofs
  import opened MatchProofs
  import opened StepProofs
  import opened Frames
  import opened Runs
  import opened Progress
  import opened GameNames
  import opened TimerSchedulers

  /** What the phase timer service schedules for a room: the deadline of a phase that has a duration. */
  function PhaseEntry(r: Room): Option<Entry> {
    if r.phase.durationMs.None? then None else Some(Entry(r.phase.phaseId, r.phase.startedAt + r.phase.durationMs.value))
  }

  /** What the match clock service schedules: the deadline of a clock that runs. */
  function ClockEntry(r: Room): Option<Entry> {
    if r.matchClock.status != Running || r.matchClock.deadlineAt.None? then None
    else Some(Entry(r.matchClock.clockId, r.matchClock.deadlineAt.value))
  }

  // ---- The services as objects ----------------------------------------------------------------------------------------

  /** One of the two services; each has a scheduler to itself, so neither can touch the other's timers. */
  class TimerService {
    const scheduler: RealTimerScheduler
    const entryOf: Room -> Option<Entry>

    constructor (entryOf: Room -> Option<Entry>)
      ensures fresh(scheduler) && scheduler.Valid() && scheduler.Scheduled() == map[] && this.entryOf == entryOf
    {
      this.entryOf := entryOf;
      scheduler := new RealTimerScheduler();
    }

    /** Whatever the room is in now is what gets scheduled, in place of anything scheduled before. */
    method SyncFromRoom(roomId: RoomId, room: Room)
      requires scheduler.Valid()
      modifies scheduler
      ensures scheduler.Valid()
      ensures scheduler.Scheduled() ==
              match entryOf(room)
              case None => old(scheduler.Scheduled()) - {roomId}
              case Some(entry) => old(scheduler.Scheduled())[roomId := entry]
    {
      match entryOf(room)
      case None => scheduler.Cancel(roomId);
      case Some(entry) => scheduler.Schedule(roomId, entry.id, entry.deadline);
    }

    /** A deadline that passed while nobody watched expires at once instead of being scheduled anew. */
    method RecoverRoom(roomId: RoomId, room: Room, now: int) returns (expired: Option<nat>)
      requires scheduler.Valid()
      modifies scheduler
      ensures scheduler.Valid()
      ensures expired == RecoveredExpiry(entryOf(room), now)
      ensures scheduler.Scheduled() ==
              match RecoveredEntry(entryOf(room), now)
              case None => if expired.Some? then old(scheduler.Scheduled()) else old(scheduler.Scheduled()) - {roomId}
              case Some(entry) => old(scheduler.Scheduled())[roomId := entry]
    {
      expired := None;
      match entryOf(room)
      case None => scheduler.Cancel(roomId);
      case Some(entry) =>
        if entry.deadline <= now {
          expired := Some(entry.id);
        } else {
          scheduler.Schedule(roomId, entry.id, entry.deadline);
        }
    }
  }

  function RecoveredEntry(entry: Option<Entry>, now: int): Option<Entry> {
    if entry.Some? && entry.value.deadline > now then entry else None
  }

  function RecoveredExpiry(entry: Option<Entry>, now: int): Option<nat> {
    if entry.Some? && entry.value.deadline <= now then Some(entry.value.id) else None
  }

  // ---- The protocol ----------------------------------------------------------------------------------------------------

  /**
    One room, its actor's queue, and for each service the slot in its scheduler and the expiries that
    have fired but not yet been checked against the room. A room that is `lost` is stored and cannot be read back.
   */
  datatype System = System(
    world: World, lost: bool, queue: seq<Input>,
    phaseTimer: Option<Entry>, phaseFired: multiset<nat>,
    clockTimer: Option<Entry>, clockFired: multiset<nat>)

  datatype Move =
    | Arrive(input: Input)
    | Process(deps: Deps)
    | FirePhase
    | CheckPhase(id: nat)
    | FireClock
    | CheckClock(id: nat)
    | Restart(now: int)

  /** The clock and the random numbers are read when the event is handled, not when it is queued. */
  function HandledAt(input: Input, d: Deps): Input {
    if input.Receive? then input.(deps := d) else input
  }

  function Queued(e: Event): Input {
    Receive(e, HostSender, Deps(0, (site: Site) => (i: nat) => 0.0))
  }

  function Next(s: System, move: Move): System {
    match move
    case Arrive(input) => s.(queue := s.queue + [input])
    case Process(d) =>
      if s.queue == [] then s
      else if s.lost then s.(queue := s.queue[1..])
      else
        var o := Offer(s.world, HandledAt(s.queue[0], d));
        if o.Accepted? then
          s.(world := o.world, queue := s.queue[1..], phaseTimer := PhaseEntry(o.world.room), clockTimer := ClockEntry(o.world.room))
        else s.(queue := s.queue[1..])
    case FirePhase =>
      if s.phaseTimer.None? then s
      else s.(phaseTimer := None, phaseFired := s.phaseFired + multiset{s.phaseTimer.value.id})
    case CheckPhase(id) =>
      if id !in s.phaseFired then s
      else
        var current := !s.lost && s.world.room.phase.phaseId == id && s.world.room.phase.durationMs.Some?;
        s.(phaseFired := s.phaseFired - multiset{id}, queue := s.queue + if current then [Queued(TimerExpired(id))] else [])
    case FireClock =>
      if s.clockTimer.None? then s
      else s.(clockTimer := None, clockFired := s.clockFired + multiset{s.clockTimer.value.id})
    case CheckClock(id) =>
      if id !in s.clockFired then s
      else
        var clock := s.world.room.matchClock;
        var current := !s.lost && clock.status == Running && clock.clockId == id;
        s.(clockFired := s.clockFired - multiset{id}, queue := s.queue + if current then [Queued(MatchClockExpired(id))] else [])
    case Restart(now) =>
      if ReadsBack(s.world.room) then Recovered(s.world, now)
      else System(s.world, true, [], None, multiset{}, None, multiset{})
  }

  /** Both services set up anew from the room as it was stored. */
  function Recovered(w: World, now: int): System {
    var phase, clock := PhaseEntry(w.room), ClockEntry(w.room);
    System(w, false, [],
           RecoveredEntry(phase, now), Singleton(RecoveredExpiry(phase, now)),
           RecoveredEntry(clock, now), Singleton(RecoveredExpiry(clock, now)))
  }

  /**
    What was stored passes the check it meets when it is read: a round needs the version of its game, and an
    inherited name has none.
   */
  predicate ReadsBack(r: Room) {
    OwnGame(r)
  }

  function Singleton(id: Option<nat>): multiset<nat> {
    if id.Some? then multiset{id.value} else multiset{}
  }

  /** A room just created, with both services in step. */
  function Created(config: Config, d: Deps): System {
    System(CreateRoom(config, d), false, [], None, multiset{}, None, multiset{})
  }

  // ---- Agreement -------------------------------------------------------------------------------------------------------

  predicate IsPhaseExpiry(input: Input, id: nat) {
    input.Receive? && input.event == TimerExpired(id)
  }

  predicate IsClockExpiry(input: Input, id: nat) {
    input.Receive? && input.event == MatchClockExpired(id)
  }

  ghost predicate PhaseExpiryQueued(queue: seq<Input>, id: nat) {
    exists i :: 0 <= i < |queue| && IsPhaseExpiry(queue[i], id)
  }

  ghost predicate ClockExpiryQueued(queue: seq<Input>, id: nat) {
    exists i :: 0 <= i < |queue| && IsClockExpiry(queue[i], id)
  }

  /**
    What is scheduled is the current phase's deadline and nothing else, and a timed phase has either
    that or an expiry of its own on the way, unless the round plays no game of the registry.
   */
  ghost predicate PhaseAgrees(s: System) {
    && (s.phaseTimer.Some? ==> s.phaseTimer == PhaseEntry(s.world.room))
    && (PhaseEntry(s.world.room).Some? && OwnGame(s.world.room) ==>
          s.phaseTimer.Some? || s.world.room.phase.phaseId in s.phaseFired
          || PhaseExpiryQueued(s.queue, s.world.room.phase.phaseId))
  }

  /** The same for the match clock, unless a restart has lost the room. */
  ghost predicate ClockAgrees(s: System) {
    && (s.clockTimer.Some? ==> s.clockTimer == ClockEntry(s.world.room))
    && (ClockEntry(s.world.room).Some? && !s.lost ==>
          s.clockTimer.Some? || s.world.room.matchClock.clockId in s.clockFired
          || ClockExpiryQueued(s.queue, s.world.room.matchClock.clockId))
  }

  /** Neither service has anything scheduled or on its way. */
  predicate Unscheduled(s: System) {
    s.phaseTimer.None? && s.phaseFired == multiset{} && s.clockTimer.None? && s.clockFired == multiset{}
  }

  ghost predicate Agreement(s: System) {
    && Valid(s.world) && PlayableConfig(s.world.room.config) && PhaseAgrees(s) && ClockAgrees(s)
    && (s.lost ==> !ReadsBack(s.world.room) && Unscheduled(s))
  }

  /** A later reading of the clock than the current phase began with. */
  predicate InTime(s: System, move: Move) {
    move.Process? ==> s.world.room.phase.startedAt <= move.deps.now
  }

  /** Taking the head off the queue takes no other expiry with it. */
  lemma Dequeued(queue: seq<Input>, id: nat)
    requires queue != []
    ensures PhaseExpiryQueued(queue, id) ==> IsPhaseExpiry(queue[0], id) || PhaseExpiryQueued(queue[1..], id)
    ensures ClockExpiryQueued(queue, id) ==> IsClockExpiry(queue[0], id) || ClockExpiryQueued(queue[1..], id)
  {
    hide IsPhaseExpiry, IsClockExpiry;
    assert forall i :: 0 < i < |queue| ==> queue[1..][i - 1] == queue[i];
  }

  lemma Enqueued(queue: seq<Input>, more: seq<Input>, id: nat)
    ensures PhaseExpiryQueued(queue, id) ==> PhaseExpiryQueued(queue + more, id)
    ensures ClockExpiryQueued(queue, id) ==> ClockExpiryQueued(queue + more, id)
    ensures more != [] && IsPhaseExpiry(more[0], id) ==> PhaseExpiryQueued(queue + more, id)
    ensures more != [] && IsClockExpiry(more[0], id) ==> ClockExpiryQueued(queue + more, id)
  {
    hide IsPhaseExpiry, IsClockExpiry;
    assert forall i :: 0 <= i < |queue| ==> (queue + more)[i] == queue[i];
    assert more != [] ==> (queue + more)[|queue|] == more[0];
  }

  /** The expiry of the current phase, once its turn comes, is accepted. */
  lemma CurrentExpiryAccepted(w: World, input: Input, d: Deps)
    requires Valid(w) && PlayableConfig(w.room.config) && w.room.phase.startedAt <= d.now && OwnGame(w.room)
    requires PhaseEntry(w.room).Some? && IsPhaseExpiry(input, w.room.phase.phaseId)
    ensures Offer(w, HandledAt(input, d)).Accepted?
  {
    hide Valid, PlayableConfig, HandleEvent;
    DurationMeansTimed(w);
    NoStall(w, input.sender, d);
    hide JoinPlayer, LeavePlayer, KickPlayer, SetPlayerProfile;
  }

  lemma DurationMeansTimed(w: World)
    requires Valid(w)
    ensures w.room.phase.durationMs.Some? <==> Timed(w.room.phase.state)
    ensures w.room.matchClock.status == Running ==> w.room.winner.None?
  {
    hide RosterOk, MatchOk, AdminOk, JudgedOk, RoundOk, SpecialOk, AccusationOk, HackLedger, FirewallLedger,
         VerdictOk, ClockOk, IdsFresh, InProgress, ResultOk, LobbyOk;
  }

  lemma CurrentClockExpiryAccepted(w: World, input: Input, d: Deps)
    requires Valid(w) && w.room.phase.startedAt <= d.now
    requires ClockEntry(w.room).Some? && IsClockExpiry(input, w.room.matchClock.clockId)
    ensures Offer(w, HandledAt(input, d)).Accepted?
  {
    hide Valid, HandleMatchClockExpired, HandleInState, Transition, IsStalePhase, CloseTheRoom, ResetMatch,
         SetConnected, HandlePushButton;
    DurationMeansTimed(w);
    ClockRunsOut(w, w.room.matchClock.clockId, d);
    hide JoinPlayer, LeavePlayer, KickPlayer, SetPlayerProfile;
  }

  lemma ProcessAgrees(s: System, d: Deps)
    requires Agreement(s) && s.world.room.phase.startedAt <= d.now
    ensures Agreement(Next(s, Process(d)))
  {
    hide Valid, PlayableConfig, Offer, Step, PhaseExpiryQueued, ClockExpiryQueued;
    if s.queue != [] {
      var input := HandledAt(s.queue[0], d);
      var o := Offer(s.world, input);
      if o.Accepted? {
        AcceptedKeepsPlayable(s.world, input);
      } else {
        if OwnGame(s.world.room) && PhaseEntry(s.world.room).Some? && IsPhaseExpiry(s.queue[0], s.world.room.phase.phaseId) {
          CurrentExpiryAccepted(s.world, s.queue[0], d);
        }
        if ClockEntry(s.world.room).Some? && IsClockExpiry(s.queue[0], s.world.room.matchClock.clockId) {
          CurrentClockExpiryAccepted(s.world, s.queue[0], d);
        }
        Dequeued(s.queue, s.world.room.phase.phaseId);
        Dequeued(s.queue, s.world.room.matchClock.clockId);
      }
    }
  }

  lemma AcceptedKeepsPlayable(w: World, input: Input)
    requires Valid(w) && PlayableConfig(w.room.config) && Timely(w, input)
    ensures Offer(w, input).Accepted? ==> Valid(Offer(w, input).world) && PlayableConfig(Offer(w, input).world.room.config)
  {
    hide Valid, PlayableConfig, Offer, RoundContinues, SpecialContinues, ClockFollows;
    StepValid(w, input);
    StepFrame(w, input);
  }

  lemma CheckPhaseAgrees(s: System, id: nat)
    requires Agreement(s)
    ensures Agreement(Next(s, CheckPhase(id)))
  {
    hide Valid, PlayableConfig, Offer, PhaseExpiryQueued, ClockExpiryQueued, OwnGame;
    Enqueued(s.queue, [], s.world.room.phase.phaseId);
    Enqueued(s.queue, [], s.world.room.matchClock.clockId);
    Enqueued(s.queue, [Queued(TimerExpired(id))], s.world.room.phase.phaseId);
    Enqueued(s.queue, [Queued(TimerExpired(id))], s.world.room.matchClock.clockId);
  }

  lemma CheckClockAgrees(s: System, id: nat)
    requires Agreement(s)
    ensures Agreement(Next(s, CheckClock(id)))
  {
    hide Valid, PlayableConfig, Offer, PhaseExpiryQueued, ClockExpiryQueued, OwnGame;
    Enqueued(s.queue, [], s.world.room.phase.phaseId);
    Enqueued(s.queue, [], s.world.room.matchClock.clockId);
    Enqueued(s.queue, [Queued(MatchClockExpired(id))], s.world.room.phase.phaseId);
    Enqueued(s.queue, [Queued(MatchClockExpired(id))], s.world.room.matchClock.clockId);
  }

  lemma ArriveAgrees(s: System, input: Input)
    requires Agreement(s)
    ensures Agreement(Next(s, Arrive(input)))
  {
    hide Valid, PlayableConfig, Offer, PhaseExpiryQueued, ClockExpiryQueued;
    Enqueued(s.queue, [input], s.world.room.phase.phaseId);
    Enqueued(s.queue, [input], s.world.room.matchClock.clockId);
  }

  lemma FireAgrees(s: System)
    requires Agreement(s)
    ensures Agreement(Next(s, FirePhase)) && Agreement(Next(s, FireClock))
  {
    hide Valid, PlayableConfig, Offer, PhaseExpiryQueued, ClockExpiryQueued;
  }

  /** An entry carries the id of the phase or the clock it is about. */
  lemma EntryIds(r: Room)
    ensures PhaseEntry(r).Some? ==> PhaseEntry(r).value.id == r.phase.phaseId
    ensures ClockEntry(r).Some? ==> ClockEntry(r).value.id == r.matchClock.clockId
  {
  }

  lemma RecoveredAgrees(w: World, now: int)
    ensures PhaseAgrees(Recovered(w, now)) && ClockAgrees(Recovered(w, now))
  {
    hide PhaseExpiryQueued, ClockExpiryQueued, OwnGame, PhaseEntry, ClockEntry;
    EntryIds(w.room);
  }

  lemma RestartAgrees(s: System, now: int)
    requires Agreement(s)
    ensures Agreement(Next(s, Restart(now)))
  {
    hide Valid, PlayableConfig, Offer, PhaseExpiryQueued, ClockExpiryQueued, PhaseEntry, ClockEntry;
    if OwnGame(s.world.room) {
      RecoveredAgrees(s.world, now);
      hide PhaseAgrees, ClockAgrees;
    }
  }

  /** Every move of the clients, the actor, the timers and a restart keeps the agreement. */
  lemma MoveAgrees(s: System, move: Move)
    requires Agreement(s) && InTime(s, move)
    ensures Agreement(Next(s, move))
  {
    hide Agreement, Next;
    match move
    case Arrive(input) => ArriveAgrees(s, input);
    case Process(d) => ProcessAgrees(s, d);
    case FirePhase => FireAgrees(s);
    case CheckPhase(id) => CheckPhaseAgrees(s, id);
    case FireClock => FireAgrees(s);
    case CheckClock(id) => CheckClockAgrees(s, id);
    case Restart(now) => RestartAgrees(s, now);
  }

  // ---- Whole runs --------------------------------------------------------------------------------------------------------

  function Play(s: System, moves: seq<Move>): System
    decreases |moves|
  {
    if moves == [] then s else Play(Next(s, moves[0]), moves[1..])
  }

  /** The clock readings of the handled events never go back. */
  predicate Ticking(moves: seq<Move>, from: int) {
    moves == []
    || if moves[0].Process? then from <= moves[0].deps.now && Ticking(moves[1..], moves[0].deps.now)
       else Ticking(moves[1..], from)
  }

  lemma MoveKeepsTime(s: System, move: Move, from: int)
    requires s.world.room.phase.startedAt <= from && (move.Process? ==> from <= move.deps.now)
    ensures Next(s, move).world.room.phase.startedAt <= if move.Process? then move.deps.now else from
  {
    hide Offer, Step, RoundContinues, SpecialContinues, ClockFollows, PhaseEntry, ClockEntry;
    if move.Process? && s.queue != [] {
      var input := HandledAt(s.queue[0], move.deps);
      StepFrame(s.world, input);
      assert Offer(s.world, input).Accepted? ==> Step(s.world, input) == Offer(s.world, input).world by {
        StepOfAccepted(s.world, input);
      }
    }
  }

  lemma {:induction false} PlayAgrees(s: System, moves: seq<Move>, from: int)
    requires Agreement(s) && s.world.room.phase.startedAt <= from && Ticking(moves, from)
    ensures Agreement(Play(s, moves))
    decreases |moves|
  {
    hide Agreement, Next;
    if moves != [] {
      MoveKeepsTime(s, moves[0], from);
      MoveAgrees(s, moves[0]);
      PlayAgrees(Next(s, moves[0]), moves[1..], if moves[0].Process? then moves[0].deps.now else from);
    }
  }

  lemma CreatedAgrees(config: Config, d: Deps)
    requires PlayableConfig(config)
    ensures Agreement(Created(config, d)) && Created(config, d).world.room.phase.startedAt == d.now
  {
    CreatedValid(config, d);
    hide Valid, PlayableConfig;
  }

  /**
    Timer agreement: from the room's creation on, whatever arrives, fires, is checked, handled or
    lost in a restart in whatever order, the schedulers agree with the room.
   */
  lemma TimersAlwaysAgree(config: Config, d: Deps, moves: seq<Move>)
    requires PlayableConfig(config) && Ticking(moves, d.now)
    ensures Agreement(Play(Created(config, d), moves))
  {
    hide Agreement, Play, Created, PlayableConfig;
    CreatedAgrees(config, d);
    PlayAgrees(Created(config, d), moves, d.now);
  }

  /** The deadline of the phase the room is in. */
  predicate IsPhaseDeadline(r: Room, entry: Entry) {
    && r.phase.durationMs.Some?
    && entry.id == r.phase.phaseId && entry.deadline == r.phase.startedAt + r.phase.durationMs.value
  }

  /** The deadline of the match clock as it runs now. */
  predicate IsClockDeadline(r: Room, entry: Entry) {
    && r.matchClock.status == Running
    && entry.id == r.matchClock.clockId && r.matchClock.deadlineAt == Some(entry.deadline)
  }

  /** So the only deadlines ever scheduled are those of the phase the room is in and of its clock as it runs, to the millisecond. */
  lemma DeadlinesAreCurrent(config: Config, d: Deps, moves: seq<Move>)
    requires PlayableConfig(config) && Ticking(moves, d.now)
    ensures var s := Play(Created(config, d), moves);
            && (s.phaseTimer.Some? ==> IsPhaseDeadline(s.world.room, s.phaseTimer.value))
            && (s.clockTimer.Some? ==> IsClockDeadline(s.world.room, s.clockTimer.value))
  {
    hide Play, Created, PlayableConfig, Valid, PhaseExpiryQueued, ClockExpiryQueued;
    TimersAlwaysAgree(config, d, moves);
  }

  /**
    After every handled operation that was accepted both slots hold what the room now asks for; a refused one, or one
    that throws, leaves both as they were.
   */
  lemma HandledIsScheduled(s: System, d: Deps)
    requires s.queue != [] && !s.lost
    ensures var t := Next(s, Process(d));
            var o := Offer(s.world, HandledAt(s.queue[0], d));
            && t.queue == s.queue[1..] && t.phaseFired == s.phaseFired && t.clockFired == s.clockFired && !t.lost
            && t.world == (if o.Accepted? then o.world else s.world)
            && (!o.Accepted? ==> t.phaseTimer == s.phaseTimer && t.clockTimer == s.clockTimer)
            && (o.Accepted? ==>
                  && (t.phaseTimer.Some? <==> t.world.room.phase.durationMs.Some?)
                  && (t.phaseTimer.Some? ==> IsPhaseDeadline(t.world.room, t.phaseTimer.value))
                  && (t.clockTimer.Some? <==> t.world.room.matchClock.status == Running && t.world.room.matchClock.deadlineAt.Some?)
                  && (t.clockTimer.Some? ==> IsClockDeadline(t.world.room, t.clockTimer.value)))
  {
    hide Offer;
  }

  /** What a restart makes of one deadline: overdue ones expire at once, later ones are scheduled as they were. */
  predicate SetUpAnew(timer: Option<Entry>, fired: multiset<nat>, deadline: Option<(nat, int)>, now: int) {
    if deadline.None? then timer.None? && fired == multiset{}
    else if deadline.value.1 <= now then timer.None? && fired == multiset{deadline.value.0}
    else timer == Some(Entry(deadline.value.0, deadline.value.1)) && fired == multiset{}
  }

  /** A restart changes nothing in a room it can read back and sets up its two deadlines anew. */
  lemma RestartRecovers(s: System, now: int)
    requires OwnGame(s.world.room)
    ensures var t := Next(s, Restart(now));
            var r := s.world.room;
            && t.world == s.world && !t.lost && t.queue == []
            && SetUpAnew(t.phaseTimer, t.phaseFired,
                         if r.phase.durationMs.None? then None else Some((r.phase.phaseId, r.phase.startedAt + r.phase.durationMs.value)), now)
            && SetUpAnew(t.clockTimer, t.clockFired,
                         if r.matchClock.status == Running && r.matchClock.deadlineAt.Some?
                         then Some((r.matchClock.clockId, r.matchClock.deadlineAt.value)) else None, now)
  {
    hide OwnGame;
    assert ReadsBack(s.world.room);
  }

  // ---- The two services are independent ------------------------------------------------------------------------------------

  /** A new phase leaves the scheduled match clock where it is, and a paused or resumed clock the phase's deadline. */
  lemma OtherScheduleKept(s: System, d: Deps)
    requires Agreement(s)
    ensures var t := Next(s, Process(d));
            && (s.clockTimer.Some? && t.world.room.matchClock == s.world.room.matchClock ==> t.clockTimer == s.clockTimer)
            && (s.phaseTimer.Some? && t.world.room.phase == s.world.room.phase ==> t.phaseTimer == s.phaseTimer)
  {
    hide Valid, PlayableConfig, Offer, PhaseExpiryQueued, ClockExpiryQueued;
  }

  // ---- A timed phase always comes to an end --------------------------------------------------------------------------------

  lemma SamePhaseId(s: System, d: Deps)
    requires Agreement(s) && s.queue != []
    ensures var t := Next(s, Process(d));
            t.world.room.phase.phaseId == s.world.room.phase.phaseId ==>
              t.world.room.phase == s.world.room.phase && (OwnGame(s.world.room) <==> OwnGame(t.world.room))
  {
    hide Valid, PlayableConfig, Offer, Step, PhaseExpiryQueued, ClockExpiryQueued, SeqsGrow, SpecialContinues,
         ClockFollows, PhaseEntry, ClockEntry, Shape;
    var input := HandledAt(s.queue[0], d);
    PartsOf(s.world);
    StepFrame(s.world, input);
    StepOfAccepted(s.world, input);
  }

  lemma ExpiryChangesPhase(s: System, d: Deps)
    requires Agreement(s) && s.world.room.phase.startedAt <= d.now && PhaseEntry(s.world.room).Some? && OwnGame(s.world.room)
    requires s.queue != [] && IsPhaseExpiry(s.queue[0], s.world.room.phase.phaseId)
    ensures Next(s, Process(d)).world.room.phase.phaseId != s.world.room.phase.phaseId
  {
    hide Valid, PlayableConfig, HandleEvent, PhaseExpiryQueued, ClockExpiryQueued, PhaseAgrees, ClockAgrees;
    DurationMeansTimed(s.world);
    NoStall(s.world, s.queue[0].sender, d);
    hide JoinPlayer, LeavePlayer, KickPlayer, SetPlayerProfile;
  }

  /** Once its expiry is queued, a phase is over when the queue has been worked off as far as that. */
  lemma {:induction false} QueueEndsPhase(s: System, d: Deps) returns (moves: seq<Move>)
    requires Agreement(s) && s.world.room.phase.startedAt <= d.now && PhaseEntry(s.world.room).Some? && OwnGame(s.world.room)
    requires PhaseExpiryQueued(s.queue, s.world.room.phase.phaseId)
    ensures |moves| <= |s.queue| && (forall m :: m in moves ==> m == Process(d))
    ensures Play(s, moves).world.room.phase.phaseId != s.world.room.phase.phaseId
    decreases |s.queue|
  {
    hide Agreement, PhaseEntry, Offer, ClockEntry, OwnGame;
    var phaseId := s.world.room.phase.phaseId;
    var move: Move := Process(d);
    assert s.queue != [];
    hide PhaseExpiryQueued;
    var t := Next(s, move);
    if t.world.room.phase.phaseId != phaseId {
      moves := [move];
      assert moves[1..] == [];
    } else {
      SamePhaseId(s, d);
      MoveAgrees(s, move);
      Dequeued(s.queue, phaseId);
      if IsPhaseExpiry(s.queue[0], phaseId) {
        ExpiryChangesPhase(s, d);
      }
      SamePhaseEntry(s.world.room, t.world.room);
      var rest := QueueEndsPhase(t, d);
      moves := [move] + rest;
      assert moves[1..] == rest;
    }
  }

  lemma SamePhaseEntry(r: Room, t: Room)
    requires r.phase == t.phase
    ensures PhaseEntry(r) == PhaseEntry(t)
  {
  }

  /**
    Wherever a timed phase is, in the scheduler, fired, or queued, firing, checking and handling what
    is there ends it, in no more moves than operations wait in the queue and three.
   */
  lemma TimedPhaseEnds(s: System, d: Deps) returns (moves: seq<Move>)
    requires Agreement(s) && s.world.room.phase.startedAt <= d.now && PhaseEntry(s.world.room).Some? && OwnGame(s.world.room)
    ensures |moves| <= |s.queue| + 3
    ensures forall m :: m in moves ==> m == Process(d) || m == FirePhase || m == CheckPhase(s.world.room.phase.phaseId)
    ensures Play(s, moves).world.room.phase.phaseId != s.world.room.phase.phaseId
  {
    hide Valid, PlayableConfig, Offer, PhaseExpiryQueued, ClockExpiryQueued;
    var phaseId := s.world.room.phase.phaseId;
    if PhaseExpiryQueued(s.queue, phaseId) {
      moves := QueueEndsPhase(s, d);
    } else if phaseId in s.phaseFired {
      moves := FiredEndsPhase(s, d);
    } else {
      var t := Next(s, FirePhase);
      MoveAgrees(s, FirePhase);
      var rest := FiredEndsPhase(t, d);
      moves := [FirePhase] + rest;
      assert moves[1..] == rest;
    }
  }

  lemma FiredEndsPhase(s: System, d: Deps) returns (moves: seq<Move>)
    requires Agreement(s) && s.world.room.phase.startedAt <= d.now && PhaseEntry(s.world.room).Some? && OwnGame(s.world.room)
    requires s.world.room.phase.phaseId in s.phaseFired
    ensures |moves| <= |s.queue| + 2
    ensures forall m :: m in moves ==> m == Process(d) || m == CheckPhase(s.world.room.phase.phaseId)
    ensures Play(s, moves).world.room.phase.phaseId != s.world.room.phase.phaseId
  {
    hide Valid, PlayableConfig, Offer, PhaseExpiryQueued, ClockExpiryQueued;
    var phaseId := s.world.room.phase.phaseId;
    var check: Move := CheckPhase(phaseId);
    var t := Next(s, check);
    MoveAgrees(s, check);
    Enqueued(s.queue, [Queued(TimerExpired(phaseId))], phaseId);
    var rest := QueueEndsPhase(t, d);
    moves := [check] + rest;
    assert moves[1..] == rest;
  }

  // ---- Rounds that play no game of the registry ---------------------------------------------------------------------------

  /** No selection of an inherited name was accepted, and none is waiting. */
  ghost predicate OwnSoFar(s: System) {
    OwnGame(s.world.room) && forall input :: input in s.queue ==> !SelectsInherited(input)
  }

  predicate BringsInherited(move: Move) {
    move.Arrive? && SelectsInherited(move.input)
  }

  lemma MoveKeepsOwn(s: System, move: Move)
    requires Agreement(s) && InTime(s, move) && OwnSoFar(s) && !BringsInherited(move)
    ensures OwnSoFar(Next(s, move))
  {
    hide Valid, PlayableConfig, Offer, Step, PhaseAgrees, ClockAgrees, OwnGame, PhaseEntry, ClockEntry;
    if move.Process? && s.queue != [] {
      var input := HandledAt(s.queue[0], move.deps);
      assert s.queue[0] in s.queue;
      StepGame(s.world, input);
      StepOfAccepted(s.world, input);
    }
  }

  lemma {:induction false} PlayKeepsOwn(s: System, moves: seq<Move>, from: int)
    requires Agreement(s) && OwnSoFar(s) && s.world.room.phase.startedAt <= from && Ticking(moves, from)
    requires forall move :: move in moves ==> !BringsInherited(move)
    ensures OwnSoFar(Play(s, moves))
    decreases |moves|
  {
    hide Agreement, Next, OwnSoFar, BringsInherited;
    if moves != [] {
      MoveKeepsTime(s, moves[0], from);
      MoveAgrees(s, moves[0]);
      MoveKeepsOwn(s, moves[0]);
      PlayKeepsOwn(Next(s, moves[0]), moves[1..], if moves[0].Process? then moves[0].deps.now else from);
    }
  }

  /** While nothing inherited is named, every timed phase has its deadline scheduled or its expiry on the way. */
  lemma TimedPhaseScheduled(config: Config, d: Deps, moves: seq<Move>)
    requires PlayableConfig(config) && Ticking(moves, d.now)
    requires forall move :: move in moves ==> !BringsInherited(move)
    ensures var s := Play(Created(config, d), moves);
            var r := s.world.room;
            PhaseEntry(r).Some? ==>
              s.phaseTimer == PhaseEntry(r) || r.phase.phaseId in s.phaseFired || PhaseExpiryQueued(s.queue, r.phase.phaseId)
  {
    hide Valid, PlayableConfig, Play, PhaseExpiryQueued, PhaseEntry, ClockAgrees, BringsInherited;
    var s := Created(config, d);
    assert OwnSoFar(s);
    TimersAlwaysAgree(config, d, moves);
    CreatedAgrees(config, d);
    hide Created;
    PlayKeepsOwn(s, moves, d.now);
  }

  /**
    The timer of a phase, fired, checked and handled, ends that phase exactly if the round plays a game of the
    registry. Otherwise the room is as before and nothing of the timer is left, neither scheduled nor on its way.
   */
  lemma TimerSpent(s: System, d: Deps)
    requires Agreement(s) && s.world.room.phase.startedAt <= d.now && PhaseEntry(s.world.room).Some?
    requires s.phaseTimer.Some? && s.world.room.phase.phaseId !in s.phaseFired && s.queue == []
    ensures var id := s.world.room.phase.phaseId;
            var t := Play(s, [FirePhase, CheckPhase(id), Process(d)]);
            if OwnGame(s.world.room) then t.world.room.phase.phaseId != id
            else t.world == s.world && t.phaseTimer.None? && id !in t.phaseFired && t.queue == []
  {
    hide Valid, PlayableConfig, HandleEvent, PhaseExpiryQueued, ClockExpiryQueued, ClockAgrees, JoinPlayer, LeavePlayer,
         KickPlayer, SetPlayerProfile, OwnGame, ClockEntry, TimerLeads, Play;
    var id := s.world.room.phase.phaseId;
    var check: Move := CheckPhase(id);
    var handle: Move := Process(d);
    DurationMeansTimed(s.world);
    NoStall(s.world, HostSender, d);
    var fired := Next(s, FirePhase);
    var queued := Next(fired, check);
    assert queued.queue == [Queued(TimerExpired(id))];
    PlayThree(s, FirePhase, check, handle);
  }

  lemma PlayThree(s: System, first: Move, second: Move, third: Move)
    ensures Play(s, [first, second, third]) == Next(Next(Next(s, first), second), third)
  {
    hide Next;
    assert [first, second, third][1..] == [second, third] && [second, third][1..] == [third] && [third][1..] == [];
    assert Play(s, [first, second, third]) == Play(Next(s, first), [second, third]);
    assert Play(Next(s, first), [second, third]) == Play(Next(Next(s, first), second), [third]);
  }

  /** A restart loses a room whose round is of an inherited name: nothing ever happens to it again. */
  lemma RestartLoses(s: System, now: int, moves: seq<Move>)
    requires !OwnGame(s.world.room)
    ensures var t := Play(Next(s, Restart(now)), moves);
            t.lost && t.world == s.world && Unscheduled(t)
  {
    hide Offer, Play, PhaseEntry, ClockEntry;
    LostForGood(Next(s, Restart(now)), moves);
  }

  lemma {:induction false} LostForGood(s: System, moves: seq<Move>)
    requires s.lost && Unscheduled(s) && !ReadsBack(s.world.room)
    ensures var t := Play(s, moves);
            t.lost && t.world == s.world && Unscheduled(t)
    decreases |moves|
  {
    hide Offer, PhaseEntry, ClockEntry;
    if moves != [] {
      LostForGood(Next(s, moves[0]), moves[1..]);
    }
  }
}
