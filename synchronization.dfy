/** The counting semaphore of synchronization.py: a non-blocking try-acquire
    `wait`, a FIFO wait list, an audit log and `reset`. */
module Synchronization {
  import opened Models

  /** What one audit-log entry says. */
  datatype SemEvent =
    | Acquired(thread: string, semaphore: string)
    | BlockedOn(thread: string, semaphore: string)
    | UnblockedBy(thread: string, semaphore: string)
    | Released(semaphore: string, value: nat)

  /** The text of an audit-log entry. */
  function Text(e: SemEvent): (r: string)
    ensures !e.Released? ==>
      && |r| > |e.thread| + |e.semaphore|
      && r[..|e.thread|] == e.thread && r[|r| - |e.semaphore|..] == e.semaphore
    ensures e.Released? ==>
      && |r| > |e.semaphore| + |NatToString(e.value)|
      && r[..|e.semaphore|] == e.semaphore
      && r[|r| - |NatToString(e.value)|..] == NatToString(e.value)
  {
    match e
    case Acquired(t, s) => t + " acquired " + s
    case BlockedOn(t, s) => t + " blocked on " + s
    case UnblockedBy(t, s) => t + " unblocked by " + s
    case Released(s, v) => s + " released; value=" + NatToString(v)
  }

  /** A `(timestamp, entry)` pair of the audit log. */
  datatype LogEntry = LogEntry(time: real, event: SemEvent)

  class Semaphore {
    var value: int
    const name: string
    var waitingThreads: seq<Thread>
    var log: seq<LogEntry>
    const initialValue: nat
    /** Successful waits since construction or the last reset. */
    ghost var acquisitions: nat
    /** Signals that found the wait list empty, since construction or the last reset. */
    ghost var releases: nat

    /** The permits are never negative, they are exactly what the initial
        value, the successful waits and the releases leave, and a positive
        count never coexists with a waiting thread. */
    ghost predicate Valid()
      reads this
    {
      && value >= 0
      && value == initialValue - acquisitions + releases
      && (value > 0 ==> waitingThreads == [])
    }

    /** The initial value is clamped to be non-negative and kept for `reset`. */
    constructor (value: int, name: string)
      ensures Valid()
      ensures this.value == (if value > 0 then value else 0) && initialValue == this.value
      ensures this.name == name && waitingThreads == [] && log == []
      ensures acquisitions == 0 && releases == 0
    {
      this.value := if value > 0 then value else 0;
      this.name := name;
      waitingThreads := [];
      log := [];
      initialValue := if value > 0 then value else 0;
      acquisitions := 0;
      releases := 0;
    }

    method Log(now: real, e: SemEvent)
      modifies this`log
      ensures log == old(log) + [LogEntry(now, e)]
    {
      log := log + [LogEntry(now, e)];
    }

    /** Try to take a permit. With one free, take it and unblock the caller
        (a no-op unless it is Blocked); otherwise block the caller and append
        it to the wait list, even if it is queued already. */
    method Wait(thread: Thread, now: real) returns (acquired: bool)
      requires Valid() && thread.Valid() && thread.LastStamp() <= now
      modifies this, thread
      ensures Valid() && thread.Valid() && thread.LastStamp() <= now
      ensures acquired <==> old(value) > 0
      ensures acquired ==>
        && value == old(value) - 1
        && waitingThreads == old(waitingThreads)
        && acquisitions == old(acquisitions) + 1 && releases == old(releases)
        && thread.View() == UnblockStep(old(thread.View()), now)
        && log == old(log) + [LogEntry(now, Acquired(thread.name, name))]
      ensures !acquired ==>
        && value == old(value)
        && waitingThreads == old(waitingThreads) + [thread]
        && acquisitions == old(acquisitions) && releases == old(releases)
        && thread.View() == BlockStep(old(thread.View()), Some(name), now)
        && log == old(log) + [LogEntry(now, BlockedOn(thread.name, name))]
    {
      if value > 0 {
        value := value - 1;
        acquisitions := acquisitions + 1;
        if thread.state != Terminated {
          thread.Unblock(now);
        }
        Log(now, Acquired(thread.name, name));
        acquired := true;
      } else {
        thread.Block(Some(name), now);
        waitingThreads := waitingThreads + [thread];
        Log(now, BlockedOn(thread.name, name));
        acquired := false;
      }
    }

    /** Release: wake the head of the wait list if there is one, leaving the
        count alone; otherwise return the permit. Never both. */
    method Signal(now: real)
      requires Valid()
      requires waitingThreads != [] ==>
        waitingThreads[0].Valid() && waitingThreads[0].LastStamp() <= now
      modifies this, if waitingThreads != [] then {waitingThreads[0]} else {}
      ensures Valid() && acquisitions == old(acquisitions)
      ensures old(waitingThreads) != [] ==>
        && waitingThreads == old(waitingThreads)[1..]
        && value == old(value) && releases == old(releases)
        && old(waitingThreads)[0].View() == UnblockStep(old(waitingThreads[0].View()), now)
        && old(waitingThreads)[0].Valid() && old(waitingThreads)[0].LastStamp() <= now
        && log == old(log) + [LogEntry(now, UnblockedBy(old(waitingThreads)[0].name, name))]
      ensures old(waitingThreads) == [] ==>
        && waitingThreads == []
        && value == old(value) + 1 && releases == old(releases) + 1
        && log == old(log) + [LogEntry(now, Released(name, value))]
    {
      if waitingThreads != [] {
        var next := waitingThreads[0];
        waitingThreads := waitingThreads[1..];
        next.Unblock(now);
        Log(now, UnblockedBy(next.name, name));
      } else {
        value := value + 1;
        releases := releases + 1;
        Log(now, Released(name, value));
      }
    }

    /** Back to the initial count with an empty wait list and log; no
        thread is touched. */
    method Reset()
      modifies this
      ensures Valid()
      ensures value == initialValue && waitingThreads == [] && log == []
      ensures acquisitions == 0 && releases == 0
    {
      value := initialValue;
      waitingThreads := [];
      log := [];
      acquisitions := 0;
      releases := 0;
    }
  }

  /** An empty semaphore on which A, B and C have blocked, in that order. */
  method ThreeBlocked() returns (s: Semaphore, a: Thread, b: Thread, c: Thread)
    ensures fresh(s) && fresh(a) && fresh(b) && fresh(c)
    ensures a != b && b != c && a != c
    ensures s.Valid() && s.value == 0 && s.waitingThreads == [a, b, c]
    ensures a.Valid() && a.LastStamp() <= 1.0 && a.state == Blocked
    ensures b.Valid() && b.LastStamp() <= 1.0 && b.state == Blocked
    ensures c.Valid() && c.LastStamp() <= 1.0 && c.state == Blocked
  {
    var ids := new IdCounter();
    a := new Thread("A", ids, 0.0);
    b := new Thread("B", ids, 0.0);
    c := new Thread("C", ids, 0.0);
    s := new Semaphore(0, "S");
    var ok := s.Wait(a, 1.0);
    assert a.state == Blocked;
    ok := s.Wait(b, 1.0);
    assert b.state == Blocked;
    ok := s.Wait(c, 1.0);
  }

  /** Three threads that block on an empty semaphore in the order A, B, C
      are released by three signals in that same order. The results are the
      states of A, B and C after each signal. */
  method FifoRelease() returns (afterOne: seq<ThreadState>, afterTwo: seq<ThreadState>,
                                afterThree: seq<ThreadState>)
    ensures afterOne == [Ready, Blocked, Blocked]
    ensures afterTwo == [Ready, Ready, Blocked]
    ensures afterThree == [Ready, Ready, Ready]
  {
    var s, a, b, c := ThreeBlocked();
    s.Signal(2.0);
    afterOne := [a.state, b.state, c.state];
    s.Signal(3.0);
    afterTwo := [a.state, b.state, c.state];
    s.Signal(4.0);
    afterThree := [a.state, b.state, c.state];
  }

  /** A waiter that a signal wakes is not handed the permit: the signal
      leaves the count at zero, so the woken thread's next poll fails, and it
      is queued again, although nobody holds the permit any more. */
  method WokenWaiterRetryFails() returns (first: bool, second: bool, retry: bool,
                                          permits: int, queued: nat)
    ensures first && !second && !retry
    ensures permits == 0 && queued == 1
  {
    var ids := new IdCounter();
    var holder := new Thread("Holder", ids, 0.0);
    var waiter := new Thread("Waiter", ids, 0.0);
    var s := new Semaphore(1, "S");
    first := s.Wait(holder, 1.0);
    second := s.Wait(waiter, 1.0);
    s.Signal(2.0);
    retry := s.Wait(waiter, 3.0);
    permits := s.value;
    queued := |s.waitingThreads|;
  }
}
