/**
 * The worker's `is_stopped` flag. The window's thread calls `DownloadThread.stop()` at a moment
 * the worker cannot see; the worker only notices the flag when it reads it. So the model
 * numbers the worker's reads and takes a schedule `requestAt`: when it is `Some(n)`, `stop()`
 * has happened just before read number n. Since nothing ever clears the flag, every timing of
 * `stop()` calls looks to the worker like one such schedule.
 */
module Cancellation {
  import opened Wrappers

  /** The flag as the worker sees it: its value, how many polls so far, and the schedule. */
  datatype Flag = Flag(stopped: bool, polls: nat, requestAt: Option<nat>)

  /** A flag that nobody has stopped yet. */
  function Fresh(requestAt: Option<nat>): Flag {
    Flag(false, 0, requestAt)
  }

  /** One read of `self.is_stopped`: the new flag state and the value read. */
  function Poll(f: Flag): (r: (Flag, bool))
    ensures r.1 == r.0.stopped && Later(f, r.0)
    ensures f.stopped ==> r.1
    ensures r.0.polls == f.polls + 1 && r.0.requestAt == f.requestAt
    ensures r.1 <==> f.stopped || f.requestAt == Some(f.polls)
  {
    var s := f.stopped || f.requestAt == Some(f.polls);
    (f.(stopped := s, polls := f.polls + 1), s)
  }

  /**
   * `g` is `f` after some reads: same schedule, more reads, a set flag stays set, and a flag
   * set in `g` was set in `f` already or by a request that fell due in between.
   */
  predicate Later(f: Flag, g: Flag) {
    && g.requestAt == f.requestAt && f.polls <= g.polls && (f.stopped ==> g.stopped)
    && (g.stopped ==> f.stopped || (f.requestAt.Some? && f.polls <= f.requestAt.value < g.polls))
  }

  /** No `stop()` will be observed from this state on. */
  predicate NeverStops(f: Flag) {
    !f.stopped && (f.requestAt.None? || f.requestAt.value < f.polls)
  }

  /** Once no stop can be observed, none ever is, however many reads follow. */
  lemma LaterNeverStops(f: Flag, g: Flag)
    requires NeverStops(f) && Later(f, g)
    ensures NeverStops(g)
  {
  }

  lemma PollNeverStops(f: Flag)
    requires NeverStops(f)
    ensures NeverStops(Poll(f).0) && !Poll(f).1
  {
  }

  /** The shared flag object. */
  class StopFlag {
    var stopped: bool
    var polls: nat
    const requestAt: Option<nat>

    function State(): Flag
      reads this
    {
      Flag(stopped, polls, requestAt)
    }

    constructor (requestAt: Option<nat>)
      ensures State() == Fresh(requestAt)
    {
      stopped := false;
      polls := 0;
      this.requestAt := requestAt;
    }

    /** `DownloadThread.stop()`: sets the flag; nothing ever resets it. */
    method Stop()
      modifies this
      ensures stopped && polls == old(polls)
    {
      stopped := true;
    }

    /** A read of `self.is_stopped` by the worker. */
    method Read() returns (b: bool)
      modifies this
      ensures (State(), b) == Poll(old(State()))
    {
      if !stopped && requestAt == Some(polls) {
        Stop();
      }
      polls := polls + 1;
      b := stopped;
    }
  }
}
