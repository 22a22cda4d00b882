/**
  The sliding-window limiter of one socket. `Log` is the reference limiter, which remembers every
  accepted call; the class keeps only what it has not pruned, as the source does.
 */
module RateLimiting {
  import opened Collections

  /** One call of `tryConsume`: the two clock readings it makes, for the cutoff and for the record. */
  datatype Call = Call(checkedAt: int, recordedAt: int)

  /** The accepted calls in the half-open window of length `windowMs` that ends at `end`. */
  function Window(log: seq<int>, end: int, windowMs: nat): seq<int> {
    Filter(log, t => end - windowMs < t <= end)
  }

  /** The reference limiter over a whole history: it forgets nothing. */
  function Log(calls: seq<Call>, maxEvents: nat, windowMs: nat): (log: seq<int>)
  {
    if calls == [] then []
    else
      var log := Log(calls[..|calls| - 1], maxEvents, windowMs);
      var call := calls[|calls| - 1];
      if |Window(log, call.checkedAt, windowMs)| < maxEvents then log + [call.recordedAt] else log
  }

  /** The clock never runs backwards, within a call or between calls. */
  ghost predicate Monotone(calls: seq<Call>) {
    && (forall i :: 0 <= i < |calls| ==> calls[i].checkedAt <= calls[i].recordedAt)
    && (forall i, j :: 0 <= i < j < |calls| ==> calls[i].recordedAt <= calls[j].checkedAt)
  }

  lemma {:induction false} FilterAppend<T(!new)>(s: seq<T>, x: T, keep: T -> bool)
    ensures Filter(s + [x], keep) == Filter(s, keep) + if keep(x) then [x] else []
  {
    if s != [] {
      assert (s + [x])[1..] == s[1..] + [x];
      FilterAppend(s[1..], x, keep);
    }
  }

  lemma {:induction false} FilterNarrower<T(!new)>(s: seq<T>, narrow: T -> bool, wide: T -> bool)
    requires forall x :: x in s && narrow(x) ==> wide(x)
    ensures |Filter(s, narrow)| <= |Filter(s, wide)|
    ensures Filter(Filter(s, wide), narrow) == Filter(s, narrow)
  {
    if s != [] {
      FilterNarrower(s[1..], narrow, wide);
      if wide(s[0]) {
        var rest := Filter(s[1..], wide);
        assert ([s[0]] + rest)[1..] == rest;
      }
    }
  }

  lemma {:induction false} LogBefore(calls: seq<Call>, maxEvents: nat, windowMs: nat, t: int)
    requires Monotone(calls)
    requires t in Log(calls, maxEvents, windowMs)
    ensures exists i :: 0 <= i < |calls| && calls[i].recordedAt == t
  {
    var earlier := calls[..|calls| - 1];
    if t in Log(earlier, maxEvents, windowMs) {
      LogBefore(earlier, maxEvents, windowMs, t);
      var i :| 0 <= i < |earlier| && earlier[i].recordedAt == t;
      assert calls[i].recordedAt == t;
    }
  }

  /** No window of the given length, wherever it ends, ever holds more than `maxEvents` accepted calls. */
  lemma {:induction false} WindowBound(calls: seq<Call>, maxEvents: nat, windowMs: nat, end: int)
    requires Monotone(calls)
    ensures |Window(Log(calls, maxEvents, windowMs), end, windowMs)| <= maxEvents
  {
    if calls != [] {
      var earlier := calls[..|calls| - 1];
      var call := calls[|calls| - 1];
      var log := Log(earlier, maxEvents, windowMs);
      WindowBound(earlier, maxEvents, windowMs, end);
      var inside := (t: int) => end - windowMs < t <= end;
      FilterAppend(log, call.recordedAt, inside);
      if inside(call.recordedAt) {
        WindowAtCall(calls, maxEvents, windowMs, end);
      }
    }
  }

  /** A window that the last call falls into held no more, before that call, than the window the call looked at. */
  lemma WindowAtCall(calls: seq<Call>, maxEvents: nat, windowMs: nat, end: int)
    requires Monotone(calls) && calls != []
    requires end - windowMs < calls[|calls| - 1].recordedAt <= end
    ensures var log := Log(calls[..|calls| - 1], maxEvents, windowMs);
            |Window(log, end, windowMs)| <= |Window(log, calls[|calls| - 1].checkedAt, windowMs)|
  {
    var earlier := calls[..|calls| - 1];
    var call := calls[|calls| - 1];
    var log := Log(earlier, maxEvents, windowMs);
    forall t | t in log && end - windowMs < t <= end ensures call.checkedAt - windowMs < t <= call.checkedAt {
      LogBefore(earlier, maxEvents, windowMs, t);
    }
    hide Log, Monotone;
    FilterNarrower(log, t => end - windowMs < t <= end, t => call.checkedAt - windowMs < t <= call.checkedAt);
  }

  function After(s: seq<int>, cutoff: int): seq<int> {
    Filter(s, t => t > cutoff)
  }

  lemma AfterAppend(s: seq<int>, x: int, cutoff: int)
    ensures After(s + [x], cutoff) == After(s, cutoff) + if x > cutoff then [x] else []
  {
    FilterAppend(s, x, t => t > cutoff);
  }

  lemma AfterAfter(s: seq<int>, earlier: int, cutoff: int)
    requires earlier <= cutoff
    ensures After(After(s, earlier), cutoff) == After(s, cutoff)
  {
    FilterNarrower(s, t => t > cutoff, t => t > earlier);
  }

  /** With no call in the future, the window that ends now is all that follows the cutoff. */
  lemma {:induction false} WindowIsAfter(log: seq<int>, end: int, windowMs: nat)
    requires forall t :: t in log ==> t <= end
    ensures Window(log, end, windowMs) == After(log, end - windowMs)
  {
    if log != [] {
      assert forall t :: t in log[1..] ==> t in log;
      WindowIsAfter(log[1..], end, windowMs);
    }
  }

  /** `kept` still answers every question about `log` that starts at `floor` or later. */
  ghost predicate Covers(kept: seq<int>, log: seq<int>, floor: int) {
    forall cutoff :: floor <= cutoff ==> After(kept, cutoff) == After(log, cutoff)
  }

  lemma PruneCovers(kept: seq<int>, log: seq<int>, floor: int, cutoff: int)
    requires Covers(kept, log, floor) && floor <= cutoff
    ensures Covers(After(kept, cutoff), log, cutoff)
  {
    forall later | cutoff <= later ensures After(After(kept, cutoff), later) == After(log, later) {
      AfterAfter(kept, cutoff, later);
    }
  }

  lemma AppendCovers(kept: seq<int>, log: seq<int>, floor: int, x: int)
    requires Covers(kept, log, floor)
    ensures Covers(kept + [x], log + [x], floor)
  {
    forall cutoff | floor <= cutoff ensures After(kept + [x], cutoff) == After(log + [x], cutoff) {
      AfterAppend(kept, x, cutoff);
      AfterAppend(log, x, cutoff);
    }
  }

  lemma LogInPast(calls: seq<Call>, call: Call, maxEvents: nat, windowMs: nat)
    requires Monotone(calls) && Monotone(calls + [call])
    ensures forall t :: t in Log(calls, maxEvents, windowMs) ==> t <= call.checkedAt
    ensures calls != [] ==> calls[|calls| - 1].checkedAt <= call.checkedAt
  {
    var extended := calls + [call];
    forall i | 0 <= i < |calls| ensures calls[i].checkedAt <= calls[i].recordedAt <= call.checkedAt {
      assert extended[i] == calls[i] && extended[|calls|] == call;
    }
    forall t | t in Log(calls, maxEvents, windowMs) ensures t <= call.checkedAt {
      LogBefore(calls, maxEvents, windowMs, t);
    }
  }

  /** What was pruned can no longer matter: the kept list covers every window that can still be asked for. */
  ghost predicate Keeps(kept: seq<int>, calls: seq<Call>, maxEvents: nat, windowMs: nat) {
    && Monotone(calls)
    && (calls == [] ==> kept == [])
    && (calls != [] ==> Covers(kept, Log(calls, maxEvents, windowMs), calls[|calls| - 1].checkedAt - windowMs))
  }

  /**
    Pruning to the window that ends at the call answers the call as the full history would, and covers
    what follows.
   */
  lemma PrunedAnswers(kept: seq<int>, calls: seq<Call>, call: Call, maxEvents: nat, windowMs: nat)
    requires Keeps(kept, calls, maxEvents, windowMs) && Monotone(calls + [call])
    ensures var log := Log(calls, maxEvents, windowMs);
            var pruned := After(kept, call.checkedAt - windowMs);
            && pruned == Window(log, call.checkedAt, windowMs)
            && (if |pruned| < maxEvents then
                  Log(calls + [call], maxEvents, windowMs) == log + [call.recordedAt]
                  && Keeps(pruned + [call.recordedAt], calls + [call], maxEvents, windowMs)
                else
                  Log(calls + [call], maxEvents, windowMs) == log && Keeps(pruned, calls + [call], maxEvents, windowMs))
  {
    var log := Log(calls, maxEvents, windowMs);
    var cutoff := call.checkedAt - windowMs;
    LogInPast(calls, call, maxEvents, windowMs);
    WindowIsAfter(log, call.checkedAt, windowMs);
    assert (calls + [call])[..|calls|] == calls;
    var pruned := After(kept, cutoff);
    assert Covers(pruned, log, cutoff) && pruned == After(log, cutoff) by {
      if calls != [] {
        PruneCovers(kept, log, calls[|calls| - 1].checkedAt - windowMs, cutoff);
      }
    }
    AppendCovers(pruned, log, cutoff, call.recordedAt);
    hide Covers, After, Monotone, Window;
  }

  /** The accepted calls recorded after the cutoff, by their place in the log. */
  function Recent(log: seq<int>, cutoff: int): set<nat> {
    set i: nat | i < |log| && log[i] > cutoff
  }

  lemma {:induction false} RecentCounts(log: seq<int>, cutoff: int)
    ensures |Recent(log, cutoff)| == |After(log, cutoff)|
  {
    if log == [] {
      assert Recent(log, cutoff) == {};
    } else {
      var last := |log| - 1;
      RecentCounts(log[..last], cutoff);
      assert log == log[..last] + [log[last]];
      AfterAppend(log[..last], log[last], cutoff);
      assert Recent(log, cutoff) == Recent(log[..last], cutoff) + if log[last] > cutoff then {last} else {};
    }
  }

  /**
    A call is refused exactly when `maxEvents` accepted ones were recorded less than a window ago, and an accepted call
    is recorded; so with any allowance at all the first call of a socket goes through.
   */
  lemma RefusedWhenFull(calls: seq<Call>, call: Call, maxEvents: nat, windowMs: nat)
    requires Monotone(calls + [call])
    ensures var log := Log(calls, maxEvents, windowMs);
            Log(calls + [call], maxEvents, windowMs)
            == if |Recent(log, call.checkedAt - windowMs)| >= maxEvents then log else log + [call.recordedAt]
    ensures calls == [] && maxEvents > 0 ==> Log([call], maxEvents, windowMs) == [call.recordedAt]
  {
    var log := Log(calls, maxEvents, windowMs);
    MonotonePrefix(calls, call);
    LogInPast(calls, call, maxEvents, windowMs);
    WindowIsAfter(log, call.checkedAt, windowMs);
    RecentCounts(log, call.checkedAt - windowMs);
    assert (calls + [call])[..|calls|] == calls;
    if calls == [] {
      assert calls + [call] == [call];
    }
  }

  lemma MonotonePrefix(calls: seq<Call>, call: Call)
    requires Monotone(calls + [call])
    ensures Monotone(calls)
  {
    assert forall i :: 0 <= i < |calls| ==> (calls + [call])[i] == calls[i];
  }

  class RateLimiter {
    const maxEvents: nat
    const windowMs: nat
    var timestamps: seq<int>
    ghost var calls: seq<Call>

    /** What was pruned can no longer matter: the kept list covers every window that can still be asked for. */
    ghost predicate Valid()
      reads this
    {
      Keeps(timestamps, calls, maxEvents, windowMs)
    }

    constructor (maxEvents: nat, windowMs: nat)
      ensures Valid() && calls == []
      ensures this.maxEvents == maxEvents && this.windowMs == windowMs
    {
      this.maxEvents, this.windowMs := maxEvents, windowMs;
      timestamps, calls := [], [];
    }

    /**
      Accepts exactly when the full history holds fewer than `maxEvents` accepted calls in the
      window ending now, although only the pruned list is looked at.
     */
    method TryConsume(call: Call) returns (accepted: bool)
      requires Valid() && Monotone(calls + [call])
      modifies this
      ensures Valid() && calls == old(calls) + [call]
      ensures accepted <==> |Window(Log(old(calls), maxEvents, windowMs), call.checkedAt, windowMs)| < maxEvents
      ensures Log(calls, maxEvents, windowMs)
           == Log(old(calls), maxEvents, windowMs) + if accepted then [call.recordedAt] else []
    {
      hide Log, Window, After, Covers, Monotone;
      var cutoff := call.checkedAt - windowMs;
      PrunedAnswers(timestamps, calls, call, maxEvents, windowMs);
      timestamps := After(timestamps, cutoff);
      calls := calls + [call];
      if |timestamps| >= maxEvents {
        return false;
      }
      timestamps := timestamps + [call.recordedAt];
      return true;
    }
  }
}
