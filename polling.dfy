/** PollingMarker: the singleton that paces the bootstrap polling of all
    known feeds. A poll starts when the marked start time has passed, and
    the next one is then marked one period after the current time. */
module Polling {
  import opened Common
  import Config

  /** The marker's stored fields. */
  datatype Mark = Mark(lastStart: Option<int>, nextStart: int)

  /** should_progress at time `now`: whether a poll starts, and the marker
      afterwards. A start is recorded as the last start, and the next start
      moves to more than one period past the one just used. */
  function Step(m: Mark, period: int, now: int): (r: (bool, Mark))
    ensures r.0 <==> m.nextStart < now
    ensures r.0 ==> r.1.lastStart == Some(m.nextStart) && r.1.nextStart == now + period
                    && r.1.nextStart > m.nextStart + period
    ensures !r.0 ==> r.1 == m
  {
    if m.nextStart < now then (true, Mark(Some(m.nextStart), now + period)) else (false, m)
  }

  /** The times, among the calls of should_progress at `times`, at which
      a poll started. */
  function Starts(m: Mark, period: int, times: seq<int>): seq<int>
    decreases |times|
  {
    if times == [] then []
    else
      var s := Step(m, period, times[0]);
      (if s.0 then [times[0]] else []) + Starts(s.1, period, times[1..])
  }

  /** Every time in `s` is later than `bound` and among `times`. */
  predicate AllAfter(s: seq<int>, bound: int, times: seq<int>)
  {
    forall i :: 0 <= i < |s| ==> s[i] > bound && s[i] in times
  }

  /** Any two times in `s`, in order, are more than `period` apart. */
  predicate Spaced(s: seq<int>, period: int)
  {
    forall i, j :: 0 <= i < j < |s| ==> s[j] > s[i] + period
  }

  /** Polls are paced: every start lies after the marked start time, and
      any two starts are more than one period apart, whatever the times at
      which the marker is consulted. */
  lemma {:induction false} StartsAreSpaced(m: Mark, period: int, times: seq<int>)
    requires period >= 0
    ensures AllAfter(Starts(m, period, times), m.nextStart, times)
    ensures Spaced(Starts(m, period, times), period)
    decreases |times|
  {
    if times != [] {
      var step := Step(m, period, times[0]);
      StartsAreSpaced(step.1, period, times[1..]);
      var rest := Starts(step.1, period, times[1..]);
      var all := Starts(m, period, times);
      if step.0 {
        assert all == [times[0]] + rest;
        forall i, j | 0 <= i < j < |all| ensures all[j] > all[i] + period {
          if i > 0 {
            assert all[i] == rest[i - 1] && all[j] == rest[j - 1];
          } else {
            assert all[j] == rest[j - 1];
          }
        }
        forall i | 0 <= i < |all| ensures all[i] > m.nextStart && all[i] in times {
          if i > 0 {
            assert all[i] == rest[i - 1] && rest[i - 1] in times[1..];
          }
        }
      } else {
        assert all == rest;
        forall i | 0 <= i < |all| ensures all[i] in times {
          assert all[i] in times[1..];
        }
      }
    }
  }

  /** The datastore's PollingMarker entity. */
  class PollingMarker {
    var lastStart: Option<int>
    var nextStart: int

    /** The stored fields as a value. */
    function Current(): Mark
      reads this
    {
      Mark(lastStart, nextStart)
    }

    /** PollingMarker.get when no marker is stored: the first poll is due
        from one minute before creation. */
    constructor Get(now: int)
      ensures Current() == Mark(None, now - 60)
    {
      lastStart := None;
      nextStart := now - 60;
    }

    /** PollingMarker.should_progress. */
    method ShouldProgress(period: int, now: int) returns (r: bool)
      modifies this
      ensures (r, Current()) == Step(old(Current()), period, now)
    {
      if nextStart < now {
        lastStart := Some(nextStart);
        nextStart := now + period;
        return true;
      }
      return false;
    }
  }
}
