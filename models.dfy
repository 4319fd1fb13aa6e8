/** The simulated user thread, its five-state life cycle and history log, and
    the Process that lists threads in insertion order (models.py).

    Every transition is first given as a pure step on a `ThreadView`, the
    record of all fields a transition reads or writes; the `Thread` class
    updates its fields in place and is proved to follow those steps. Time
    stamps are an abstract clock reading `now` passed by the caller, which
    never goes backwards. */
module Models {

  datatype Option<T> = None | Some(value: T)

  /** The five states of a simulated thread. */
  datatype ThreadState = New | Ready | Running | Blocked | Terminated

  /** The four ways of mapping user threads onto kernel threads. */
  datatype ThreadModelType = ManyToOne | OneToMany | ManyToMany | OneToOne

  /** One record of a thread's history: the state it entered and when. */
  datatype HistoryEntry = HistoryEntry(state: ThreadState, time: real)

  /** The fields of a thread that its transitions read or write. `name` is
      the display name; `blockedBy` is the name of the blocking resource. */
  datatype ThreadView = ThreadView(
    name: string,
    state: ThreadState,
    executionTime: real,
    startTime: Option<real>,
    endTime: Option<real>,
    progress: int,
    blockedBy: Option<string>,
    history: seq<HistoryEntry>)

  // ---------------------------------------------------------------------
  // Names

  function Digit(d: nat): char
    requires d < 10
  {
    "0123456789"[d]
  }

  /** The decimal spelling of `n`, as Python's f-string writes it. */
  function NatToString(n: nat): string
  {
    if n < 10 then [Digit(n)] else NatToString(n / 10) + [Digit(n % 10)]
  }

  /** `name or f"<prefix>-<id>"`: an empty or absent name gives the default. */
  function NameOrDefault(name: string, prefix: string, id: nat): (r: string)
    ensures name != "" ==> r == name
    ensures name == "" ==> r == prefix + "-" + NatToString(id)
  {
    if name != "" then name else prefix + "-" + NatToString(id)
  }

  // ---------------------------------------------------------------------
  // Histories and clock readings

  /** Python's truthiness of `start_time`: `None` and `0.0` are both false. */
  predicate Truthy(t: Option<real>)
  {
    t.Some? && t.value != 0.0
  }

  /** True iff the time stamps of `h` never decrease. */
  ghost predicate Chronological(h: seq<HistoryEntry>)
  {
    forall i, j :: 0 <= i < j < |h| ==> h[i].time <= h[j].time
  }

  /** The well-formed thread records: a non-empty chronological history, a
      non-negative execution time, and a start time no later than the last
      recorded transition. */
  ghost predicate ValidView(v: ThreadView)
  {
    && |v.history| > 0
    && Chronological(v.history)
    && v.executionTime >= 0.0
    && (v.startTime.Some? ==> v.startTime.value <= v.history[|v.history| - 1].time)
  }

  /** The time of the most recent transition. */
  function LastTime(v: ThreadView): real
    requires |v.history| > 0
  {
    v.history[|v.history| - 1].time
  }

  lemma ChronologicalAppend(h: seq<HistoryEntry>, e: HistoryEntry)
    requires Chronological(h)
    requires |h| > 0 ==> h[|h| - 1].time <= e.time
    ensures Chronological(h + [e])
  {
    var h' := h + [e];
    forall i, j | 0 <= i < j < |h'| ensures h'[i].time <= h'[j].time {
      if j == |h| && i < |h| - 1 {
        assert h[i].time <= h[|h| - 1].time;
      }
    }
  }

  // ---------------------------------------------------------------------
  // The transitions as pure steps

  /** `add_to_history(state)`: one entry appended at the clock reading `now`. */
  function Recorded(v: ThreadView, s: ThreadState, now: real): ThreadView
  {
    v.(history := v.history + [HistoryEntry(s, now)])
  }

  /** `start()`: Ready, whatever the prior state, and one entry. */
  function StartStep(v: ThreadView, now: real): (r: ThreadView)
    ensures r.state == Ready
    ensures r.history == v.history + [HistoryEntry(Ready, now)]
    ensures r == v.(state := Ready, history := r.history)
  {
    Recorded(v.(state := Ready), Ready, now)
  }

  /** The part of `run()` before the work function: Running, with the start
      time recorded, and one entry. */
  function EnterRunningStep(v: ThreadView, now: real): (r: ThreadView)
    ensures r.state == Running && r.startTime == Some(now)
    ensures r.history == v.history + [HistoryEntry(Running, now)]
    ensures r == v.(state := Running, startTime := Some(now), history := r.history)
  {
    Recorded(v.(state := Running, startTime := Some(now)), Running, now)
  }

  /** The thread's work function, abstracted to the progress it leaves. */
  function WorkStep(v: ThreadView, progress: int): ThreadView
  {
    v.(progress := progress)
  }

  /** `block(resource)`: a Terminated thread is left as it is; any other
      becomes Blocked on `resource`, with one entry. */
  function BlockStep(v: ThreadView, resource: Option<string>, now: real): (r: ThreadView)
    ensures v.state == Terminated ==> r == v
    ensures v.state != Terminated ==>
      r.state == Blocked && r.blockedBy == resource &&
      r.history == v.history + [HistoryEntry(Blocked, now)] &&
      r == v.(state := Blocked, blockedBy := resource, history := r.history)
  {
    if v.state != Terminated then
      Recorded(v.(state := Blocked, blockedBy := resource), Blocked, now)
    else
      v
  }

  /** `unblock()`: only a Blocked thread moves, to Ready, forgetting its
      resource, with one entry. */
  function UnblockStep(v: ThreadView, now: real): (r: ThreadView)
    ensures v.state != Blocked ==> r == v
    ensures v.state == Blocked ==>
      r.state == Ready && r.blockedBy == None &&
      r.history == v.history + [HistoryEntry(Ready, now)] &&
      r == v.(state := Ready, blockedBy := None, history := r.history)
  {
    if v.state == Blocked then
      Recorded(v.(state := Ready, blockedBy := None), Ready, now)
    else
      v
  }

  /** `terminate()`: Terminated from any state, end time `now`, one entry;
      the execution time is recomputed only when the start time is truthy. */
  function TerminateStep(v: ThreadView, now: real): (r: ThreadView)
    ensures r.state == Terminated && r.endTime == Some(now)
    ensures r.history == v.history + [HistoryEntry(Terminated, now)]
    ensures r.executionTime ==
      if Truthy(v.startTime) then now - v.startTime.value else v.executionTime
    ensures r == v.(state := Terminated, endTime := Some(now),
                    executionTime := r.executionTime, history := r.history)
  {
    var stopped := v.(state := Terminated, endTime := Some(now));
    var timed := if Truthy(v.startTime) then stopped.(executionTime := now - v.startTime.value)
                 else stopped;
    Recorded(timed, Terminated, now)
  }

  /** `run()`: enter Running at `start`, do the work, then terminate at `end`.
      The thread always ends Terminated with the work's progress, exactly a
      Running and a Terminated entry appended, and, unless the clock read
      zero at the start, an execution time equal to the span of the run. */
  function RunStep(v: ThreadView, start: real, progress: int, end: real): (r: ThreadView)
    ensures r.state == Terminated
    ensures r.progress == progress
    ensures r.startTime == Some(start) && r.endTime == Some(end)
    ensures r.history == v.history + [HistoryEntry(Running, start), HistoryEntry(Terminated, end)]
    ensures start != 0.0 ==> r.executionTime == end - start
    ensures start == 0.0 ==> r.executionTime == v.executionTime
    ensures r.name == v.name && r.blockedBy == v.blockedBy
  {
    TerminateStep(WorkStep(EnterRunningStep(v, start), progress), end)
  }

  // ---------------------------------------------------------------------
  // Sequences of transitions

  /** One call on a thread's interface, at clock reading `time`; a run ends
      at its own later reading `end`. */
  datatype Op = Start | Run(progress: int, end: real) | Block(resource: Option<string>) | Unblock | Terminate
  datatype Call = Call(op: Op, time: real)

  function Apply(v: ThreadView, c: Call): ThreadView
  {
    match c.op
    case Start => StartStep(v, c.time)
    case Run(p, end) => RunStep(v, c.time, p, end)
    case Block(res) => BlockStep(v, res, c.time)
    case Unblock => UnblockStep(v, c.time)
    case Terminate => TerminateStep(v, c.time)
  }

  /** The thread after the calls `cs`, in order. */
  function Replay(v: ThreadView, cs: seq<Call>): ThreadView
    decreases |cs|
  {
    if cs == [] then v else Replay(Apply(v, cs[0]), cs[1..])
  }

  /** The clock never goes backwards along `cs`, starting from `v`'s last entry. */
  ghost predicate OnTime(v: ThreadView, cs: seq<Call>)
    requires |v.history| > 0
    decreases |cs|
  {
    cs == [] ||
    (&& LastTime(v) <= cs[0].time
     && (cs[0].op.Run? ==> cs[0].time <= cs[0].op.end)
     && |Apply(v, cs[0]).history| > 0
     && OnTime(Apply(v, cs[0]), cs[1..]))
  }

  /** One call keeps a thread record well formed, given a clock reading no
      earlier than its last entry, and its last entry is then no later than
      the call ended. */
  lemma {:induction false} ApplyKeepsValid(v: ThreadView, c: Call)
    requires ValidView(v) && LastTime(v) <= c.time
    requires c.op.Run? ==> c.time <= c.op.end
    ensures ValidView(Apply(v, c))
    ensures LastTime(Apply(v, c)) <= (if c.op.Run? then c.op.end else c.time)
  {
    match c.op
    case Start =>
      ChronologicalAppend(v.history, HistoryEntry(Ready, c.time));
    case Run(p, end) =>
      var w := WorkStep(EnterRunningStep(v, c.time), p);
      ChronologicalAppend(v.history, HistoryEntry(Running, c.time));
      ChronologicalAppend(w.history, HistoryEntry(Terminated, end));
    case Block(res) =>
      if v.state != Terminated {
        ChronologicalAppend(v.history, HistoryEntry(Blocked, c.time));
      }
    case Unblock =>
      if v.state == Blocked {
        ChronologicalAppend(v.history, HistoryEntry(Ready, c.time));
      }
    case Terminate =>
      ChronologicalAppend(v.history, HistoryEntry(Terminated, c.time));
  }

  /** History only grows at the end: after any calls, the old history is a
      prefix of the new one, and each call adds at most two entries. */
  lemma {:induction false} HistoryOnlyGrows(v: ThreadView, cs: seq<Call>)
    ensures v.history <= Replay(v, cs).history
    ensures |Replay(v, cs).history| <= |v.history| + 2 * |cs|
    decreases |cs|
  {
    if cs != [] {
      var w := Apply(v, cs[0]);
      assert v.history <= w.history && |w.history| <= |v.history| + 2;
      HistoryOnlyGrows(w, cs[1..]);
    }
  }

  /** Along calls whose clock readings never go backwards, every thread
      record stays well formed, so the history stays chronological and the
      execution time non-negative. */
  lemma {:induction false} ReplayKeepsValid(v: ThreadView, cs: seq<Call>)
    requires ValidView(v) && OnTime(v, cs)
    ensures ValidView(Replay(v, cs))
    decreases |cs|
  {
    if cs != [] {
      ApplyKeepsValid(v, cs[0]);
      ReplayKeepsValid(Apply(v, cs[0]), cs[1..]);
    }
  }

  /** A Terminated thread stays Terminated under any mix of `block`,
      `unblock` and `terminate`; only `start` and `run` leave that state. */
  lemma {:induction false} TerminatedIsSticky(v: ThreadView, cs: seq<Call>)
    requires v.state == Terminated
    requires forall i :: 0 <= i < |cs| ==> !cs[i].op.Start? && !cs[i].op.Run?
    ensures Replay(v, cs).state == Terminated
    decreases |cs|
  {
    if cs != [] {
      TerminatedIsSticky(Apply(v, cs[0]), cs[1..]);
    }
  }

  // ---------------------------------------------------------------------
  // Identity counters

  /** A class-level `next_id` counter, shared by every object of one kind. */
  class IdCounter {
    var next: nat

    constructor ()
      ensures next == 1
    {
      next := 1;
    }
  }

  // ---------------------------------------------------------------------
  // Thread

  class Thread {
    const id: nat
    var name: string
    var state: ThreadState
    var executionTime: real
    var startTime: Option<real>
    var endTime: Option<real>
    var progress: int
    var blockedBy: Option<string>
    var history: seq<HistoryEntry>

    ghost function View(): ThreadView
      reads this
    {
      ThreadView(name, state, executionTime, startTime, endTime, progress, blockedBy, history)
    }

    ghost predicate Valid()
      reads this
    {
      ValidView(View())
    }

    /** The time of the most recent history entry. */
    function LastStamp(): real
      reads this
      requires |history| > 0
    {
      history[|history| - 1].time
    }

    /** A new thread takes the next id, is New and has one history entry. */
    constructor (name: string, ids: IdCounter, now: real)
      modifies ids
      ensures id == old(ids.next) && ids.next == old(ids.next) + 1
      ensures View() == ThreadView(NameOrDefault(name, "Thread", id), New, 0.0, None, None,
                                   0, None, [HistoryEntry(New, now)])
      ensures Valid() && LastStamp() == now
    {
      id := ids.next;
      ids.next := ids.next + 1;
      this.name := NameOrDefault(name, "Thread", ids.next - 1);
      state := New;
      executionTime := 0.0;
      startTime := None;
      endTime := None;
      progress := 0;
      blockedBy := None;
      history := [];
      new;
      AddToHistory(state, now);
    }

    method AddToHistory(s: ThreadState, now: real)
      requires Chronological(history)
      requires |history| > 0 ==> LastStamp() <= now
      modifies this
      ensures View() == Recorded(old(View()), s, now)
      ensures Chronological(history)
    {
      ChronologicalAppend(history, HistoryEntry(s, now));
      history := history + [HistoryEntry(s, now)];
    }

    method Start(now: real)
      requires Valid() && LastStamp() <= now
      modifies this
      ensures View() == StartStep(old(View()), now)
      ensures Valid() && LastStamp() == now
    {
      state := Ready;
      AddToHistory(state, now);
    }

    /** The first half of `run()`, before the work function is called. */
    method EnterRunning(now: real)
      requires Valid() && LastStamp() <= now
      modifies this
      ensures View() == EnterRunningStep(old(View()), now)
      ensures Valid() && LastStamp() == now
    {
      state := Running;
      startTime := Some(now);
      AddToHistory(state, now);
    }

    /** The work function, abstracted to the progress it leaves behind. */
    method DoWork(p: int)
      modifies this
      ensures View() == WorkStep(old(View()), p)
    {
      progress := p;
    }

    method Run(start: real, workProgress: int, end: real)
      requires Valid() && LastStamp() <= start <= end
      modifies this
      ensures View() == RunStep(old(View()), start, workProgress, end)
      ensures Valid() && LastStamp() == end
    {
      EnterRunning(start);
      DoWork(workProgress);
      Terminate(end);
    }

    method Block(resource: Option<string>, now: real)
      requires Valid() && LastStamp() <= now
      modifies this
      ensures View() == BlockStep(old(View()), resource, now)
      ensures Valid() && LastStamp() <= now
    {
      if state != Terminated {
        state := Blocked;
        blockedBy := resource;
        AddToHistory(state, now);
      }
    }

    method Unblock(now: real)
      requires Valid() && LastStamp() <= now
      modifies this
      ensures View() == UnblockStep(old(View()), now)
      ensures Valid() && LastStamp() <= now
    {
      if state == Blocked {
        state := Ready;
        blockedBy := None;
        AddToHistory(state, now);
      }
    }

    method Terminate(now: real)
      requires Valid() && LastStamp() <= now
      modifies this
      ensures View() == TerminateStep(old(View()), now)
      ensures Valid() && LastStamp() == now
    {
      state := Terminated;
      endTime := Some(now);
      if Truthy(startTime) {
        executionTime := now - startTime.value;
      }
      AddToHistory(state, now);
    }
  }

  // ---------------------------------------------------------------------
  // Process

  /** `list.remove(x)` guarded by `x in list`: the first occurrence of `x`
      goes, everything else stays in order. */
  function RemoveFirst<T(==)>(s: seq<T>, x: T): (r: seq<T>)
    ensures x !in s ==> r == s
    ensures x in s ==> |r| == |s| - 1 && multiset(r) == multiset(s) - multiset{x}
  {
    if s == [] then []
    else
      assert s == [s[0]] + s[1..];
      if s[0] == x then s[1..] else [s[0]] + RemoveFirst(s[1..], x)
  }

  /** Removing `x` splices out exactly its first occurrence, at `i`. */
  lemma {:induction false} RemoveFirstSplices<T>(s: seq<T>, x: T, i: nat)
    requires i < |s| && s[i] == x && x !in s[..i]
    ensures RemoveFirst(s, x) == s[..i] + s[i + 1..]
  {
    if i > 0 {
      assert s[0] in s[..i];
      var t := s[1..];
      assert t[..i - 1] == s[1..i];
      RemoveFirstSplices(t, x, i - 1);
      assert [s[0]] + t[..i - 1] == s[..i];
      assert t[i..] == s[i + 1..];
    }
  }

  class Process {
    const id: nat
    const name: string
    var threads: seq<Thread>

    constructor (name: string, ids: IdCounter)
      modifies ids
      ensures id == old(ids.next) && ids.next == old(ids.next) + 1
      ensures this.name == NameOrDefault(name, "Process", id) && threads == []
    {
      id := ids.next;
      ids.next := ids.next + 1;
      this.name := NameOrDefault(name, "Process", ids.next - 1);
      threads := [];
    }

    method AddThread(t: Thread)
      modifies this
      ensures threads == old(threads) + [t]
    {
      threads := threads + [t];
    }

    method RemoveThread(t: Thread)
      modifies this
      ensures threads == RemoveFirst(old(threads), t)
    {
      if t in threads {
        threads := RemoveFirst(threads, t);
      }
    }
  }
}
