/** The polling gate of the control loops and the rate it guarantees. */
module Interval {

  /** A cell that the gate reads and writes through. */
  class Stamp {
    var last: real

    constructor (last: real)
      ensures this.last == last
    {
      this.last := last;
    }

    /** Runs when enough time has passed, and then remembers when. */
    method ShouldRun(now: real, interval: real) returns (run: bool)
      modifies this
      ensures run == Due(old(last), now, interval)
      ensures last == Stamped(old(last), now, interval)
    {
      if now - last < interval {
        return false;
      }
      last := now;
      return true;
    }
  }

  predicate Due(last: real, now: real, interval: real) {
    now - last >= interval
  }

  function Stamped(last: real, now: real, interval: real): real {
    if Due(last, now, interval) then now else last
  }

  /** The times at which a sequence of calls was let through, starting from a stamp. */
  function Accepted(last: real, calls: seq<real>, interval: real): seq<real>
    decreases |calls|
  {
    if calls == [] then []
    else
      var before, now := Accepted(last, calls[..|calls| - 1], interval), calls[|calls| - 1];
      if Due(Latest(last, before), now, interval) then before + [now] else before
  }

  /** The stamp that stands after the given calls were let through. */
  function Latest(last: real, accepted: seq<real>): real {
    if accepted == [] then last else accepted[|accepted| - 1]
  }

  /** Consecutive accepted calls are at least the interval apart. No clock
      assumption is needed: a clock that runs back only delays the next one. */
  lemma {:induction false} AcceptedAreSpaced(last: real, calls: seq<real>, interval: real)
    ensures var a := Accepted(last, calls, interval);
      && (a != [] ==> a[0] >= last + interval)
      && forall k :: 0 <= k < |a| - 1 ==> a[k + 1] >= a[k] + interval
    decreases |calls|
  {
    if calls != [] {
      AcceptedAreSpaced(last, calls[..|calls| - 1], interval);
    }
  }

  lemma SpanOfAccepted(last: real, calls: seq<real>, interval: real, i: nat, j: nat)
    requires interval > 0.0 && i <= j < |Accepted(last, calls, interval)|
    ensures var a := Accepted(last, calls, interval); a[j] - a[i] >= Times(j - i, interval)
    decreases j - i
  {
    AcceptedAreSpaced(last, calls, interval);
    if i < j {
      SpanOfAccepted(last, calls, interval, i, j - 1);
      OneMore(j - 1 - i, interval);
    }
  }

  function Times(n: nat, interval: real): real {
    n as real * interval
  }

  lemma OneMore(n: nat, interval: real)
    ensures Times(n + 1, interval) == Times(n, interval) + interval
  {
  }

  lemma FloorBound(n: nat, w: real, interval: real)
    requires interval > 0.0 && Times(n, interval) <= w
    ensures n <= (w / interval).Floor
  {
    assert n as real <= w / interval;
  }

  /** The rate bound: a window of length `w` sees at most floor(w / interval) + 1
      accepted calls. */
  lemma RateBound(last: real, calls: seq<real>, interval: real, start: real, w: real, i: nat, j: nat)
    requires interval > 0.0 && i <= j < |Accepted(last, calls, interval)|
    requires start <= Accepted(last, calls, interval)[i] && Accepted(last, calls, interval)[j] <= start + w
    ensures j - i + 1 <= (w / interval).Floor + 1
  {
    SpanOfAccepted(last, calls, interval, i, j);
    FloorBound(j - i, w, interval);
  }
}
