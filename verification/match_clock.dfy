/** The match clock: a countdown held as a deadline, which the special game pauses and may shorten. */
module MatchClocks {
  import opened Collections

  datatype ClockStatus = Pending | Running | Paused | Stopped

  /** `clockId` names the current stretch of running; 0 stands for the empty id of a clock not yet started. */
  datatype MatchClock = MatchClock(
    status: ClockStatus, clockId: nat, startedAt: Option<int>, deadlineAt: Option<int>,
    remainingMs: int, totalPenaltyMs: int)

  function InitMatchClock(): MatchClock {
    MatchClock(Pending, 0, None, None, 0, 0)
  }

  function StartMatchClock(totalMs: int, now: int, freshId: nat): MatchClock {
    MatchClock(Running, freshId, Some(now), Some(now + totalMs), totalMs, 0)
  }

  function PauseMatchClock(clock: MatchClock, now: int): MatchClock {
    if clock.status != Running || clock.deadlineAt.None? then clock
    else clock.(status := Paused, deadlineAt := None, remainingMs := Max(0, clock.deadlineAt.value - now))
  }

  function ResumeMatchClock(clock: MatchClock, now: int, freshId: nat): MatchClock {
    if clock.status != Paused then clock
    else clock.(status := Running, clockId := freshId, deadlineAt := Some(now + clock.remainingMs))
  }

  function ApplyPenalty(clock: MatchClock, penaltyMs: int): MatchClock {
    clock.(remainingMs := Max(0, clock.remainingMs - penaltyMs), totalPenaltyMs := clock.totalPenaltyMs + penaltyMs)
  }

  function StopMatchClock(clock: MatchClock): MatchClock {
    clock.(status := Stopped, deadlineAt := None)
  }

  /** What one clock record on its own always satisfies. */
  ghost predicate WellFormed(clock: MatchClock, totalMs: int) {
    && (clock.status == Running <==> clock.deadlineAt.Some?)
    && 0 <= clock.remainingMs <= totalMs
    && (clock.status == Pending <==> clock.startedAt.None?)
    && 0 <= clock.totalPenaltyMs
  }

  /**
    A pause no later than the deadline, a penalty that leaves time over and a resume move the
    deadline by exactly the time spent paused minus the penalty: no match time is lost or gained.
   */
  lemma PauseCycleConservesTime(clock: MatchClock, pausedAt: int, penaltyMs: nat, resumedAt: int, freshId: nat)
    requires clock.status == Running && clock.deadlineAt.Some? && pausedAt <= clock.deadlineAt.value
    ensures var charged := ApplyPenalty(PauseMatchClock(clock, pausedAt), penaltyMs);
            if charged.remainingMs > 0 then
              ResumeMatchClock(charged, resumedAt, freshId).deadlineAt
                == Some(clock.deadlineAt.value + (resumedAt - pausedAt) - penaltyMs)
            else clock.deadlineAt.value - pausedAt <= penaltyMs
  {
  }
}
