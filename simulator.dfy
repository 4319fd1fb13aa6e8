/** The simulation engine of simulator.py: the collections it owns, the
    tracker that turns thread transitions into per-thread time buckets,
    global counters and a bounded event timeline, the statistics derived
    from them, and the run/pause/stop/reset life cycle. */
module Simulator {
  import opened Models
  import opened Synchronization

  // ---------------------------------------------------------------------
  // Performance records and the timeline

  const AllStates: set<ThreadState> := {New, Ready, Running, Blocked, Terminated}

  /** One entry of `thread_performance_data`. */
  datatype PerfData = PerfData(
    waitTime: real,
    runTime: real,
    blockedTime: real,
    contextSwitches: nat,
    startedAt: Option<real>,
    lastStateChange: real,
    stateDurations: Durations)

  /** `state_durations`: the time spent in each of the five states. */
  datatype Durations = Durations(
    whileNew: real, whileReady: real, whileRunning: real, whileBlocked: real,
    whileTerminated: real)

  function Duration(d: Durations, s: ThreadState): real
  {
    match s
    case New => d.whileNew
    case Ready => d.whileReady
    case Running => d.whileRunning
    case Blocked => d.whileBlocked
    case Terminated => d.whileTerminated
  }

  /** `state_durations[s] += x`: only the duration of `s` changes. */
  function AddDuration(d: Durations, s: ThreadState, x: real): (r: Durations)
    ensures Duration(r, s) == Duration(d, s) + x
    ensures forall u :: u != s ==> Duration(r, u) == Duration(d, u)
  {
    match s
    case New => d.(whileNew := d.whileNew + x)
    case Ready => d.(whileReady := d.whileReady + x)
    case Running => d.(whileRunning := d.whileRunning + x)
    case Blocked => d.(whileBlocked := d.whileBlocked + x)
    case Terminated => d.(whileTerminated := d.whileTerminated + x)
  }

  /** Every bucket and every state duration is non-negative. */
  predicate PerfValid(p: PerfData)
  {
    && p.waitTime >= 0.0 && p.runTime >= 0.0 && p.blockedTime >= 0.0
    && p.stateDurations.whileNew >= 0.0 && p.stateDurations.whileReady >= 0.0
    && p.stateDurations.whileRunning >= 0.0 && p.stateDurations.whileBlocked >= 0.0
    && p.stateDurations.whileTerminated >= 0.0
  }

  /** The record a thread gets when it is created or a run begins. */
  function FreshPerf(now: real): (p: PerfData)
    ensures PerfValid(p) && p.lastStateChange == now
    ensures p.waitTime == p.runTime == p.blockedTime == 0.0 && p.contextSwitches == 0
    ensures p.startedAt == None
    ensures forall s :: Duration(p.stateDurations, s) == 0.0
  {
    PerfData(0.0, 0.0, 0.0, 0, None, now, Durations(0.0, 0.0, 0.0, 0.0, 0.0))
  }

  datatype TimelineEvent =
    | ContextSwitch(time: real, fromThread: nat, toThread: nat)
    | ResourceContention(time: real, thread: nat, resource: string)

  /** The `maxlen` of the timeline deque. */
  const TimelineCapacity: nat := 1000

  /** Appending to a deque bounded by `TimelineCapacity`: the oldest event
      drops out when it is full. */
  function PushCapped(q: seq<TimelineEvent>, e: TimelineEvent): (r: seq<TimelineEvent>)
    requires |q| <= TimelineCapacity
    ensures |r| == if |q| < TimelineCapacity then |q| + 1 else TimelineCapacity
    ensures r == (q + [e])[|q| + 1 - |r|..]
  {
    if |q| < TimelineCapacity then q + [e] else q[1..] + [e]
  }

  /** `xs[-n:]`: the last `n` elements, or all of them when there are fewer. */
  function LastN<T>(xs: seq<T>, n: nat): (r: seq<T>)
    ensures |r| == if |xs| < n then |xs| else n
    ensures r == xs[|xs| - |r|..]
  {
    if |xs| <= n then xs else xs[|xs| - n..]
  }

  // ---------------------------------------------------------------------
  // The tracker

  /** The part of the engine that `_track_state_change` updates. */
  datatype Tracker = Tracker(
    perf: map<nat, PerfData>,
    contextSwitches: nat,
    resourceContentions: nat,
    lastActive: Thread?,
    timeline: seq<TimelineEvent>)

  ghost predicate TrackerValid(tr: Tracker)
  {
    && |tr.timeline| <= TimelineCapacity
    && forall id :: id in tr.perf ==> PerfValid(tr.perf[id])
  }

  /** No performance record was changed after the clock reading `now`. */
  ghost predicate RecordsNotAfter(perf: map<nat, PerfData>, now: real)
  {
    forall id :: id in perf ==> perf[id].lastStateChange <= now
  }

  /** The resource a contention event names: the blocking resource the
      thread had when the transition was observed. */
  function ResourceName(blockedBy: Option<string>): string
  {
    if blockedBy.Some? then blockedBy.value else "Unknown"
  }

  /** True for the three transitions whose elapsed time lands in a bucket:
      Ready to Running (waiting), Running to Blocked (running) and Blocked
      to Ready (blocked). */
  predicate Credited(from: ThreadState, to: ThreadState)
  {
    (from == Ready && to == Running) || (from == Running && to == Blocked)
      || (from == Blocked && to == Ready)
  }

  /** The record of a thread that leaves `from` for `to` at `now`: the time
      since the last change is added to the duration of `from` and, for a
      credited transition, to its bucket; the first entry into Running sets
      the start; a Ready-to-Running change counts as a context switch. */
  function Booked(p: PerfData, from: ThreadState, to: ThreadState, now: real): (q: PerfData)
    ensures q.lastStateChange == now
    ensures Duration(q.stateDurations, from) == Duration(p.stateDurations, from) + (now - p.lastStateChange)
    ensures TotalTime(q) == TotalTime(p) + (if Credited(from, to) then now - p.lastStateChange else 0.0)
    ensures q.contextSwitches == p.contextSwitches + (if from == Ready && to == Running then 1 else 0)
    ensures p.startedAt.Some? ==> q.startedAt == p.startedAt
    ensures to == Running && p.startedAt.None? ==> q.startedAt == Some(now)
    ensures to != Running ==> q.startedAt == p.startedAt
    ensures forall s :: s != from ==> Duration(q.stateDurations, s) == Duration(p.stateDurations, s)
    ensures !Credited(from, to) ==>
      q.waitTime == p.waitTime && q.runTime == p.runTime && q.blockedTime == p.blockedTime
    ensures from == Ready && to == Running ==>
      && q.waitTime == p.waitTime + (now - p.lastStateChange)
      && q.runTime == p.runTime && q.blockedTime == p.blockedTime
    ensures from == Running && to == Blocked ==>
      && q.runTime == p.runTime + (now - p.lastStateChange)
      && q.waitTime == p.waitTime && q.blockedTime == p.blockedTime
    ensures from == Blocked && to == Ready ==>
      && q.blockedTime == p.blockedTime + (now - p.lastStateChange)
      && q.waitTime == p.waitTime && q.runTime == p.runTime
    ensures PerfValid(p) && p.lastStateChange <= now ==> PerfValid(q)
  {
    var dt := now - p.lastStateChange;
    var switching := from == Ready && to == Running;
    PerfData(
      if switching then p.waitTime + dt else p.waitTime,
      if from == Running && to == Blocked then p.runTime + dt else p.runTime,
      if from == Blocked && to == Ready then p.blockedTime + dt else p.blockedTime,
      if switching then p.contextSwitches + 1 else p.contextSwitches,
      if to == Running && p.startedAt.None? then Some(now) else p.startedAt,
      now,
      AddDuration(p.stateDurations, from, dt))
  }

  /** The engine's side of a context switch onto `t`. */
  function Switched(tr: Tracker, t: Thread, now: real): (r: Tracker)
    requires |tr.timeline| <= TimelineCapacity
    ensures r.contextSwitches == tr.contextSwitches + 1 && r.lastActive == t
    ensures r.perf == tr.perf && r.resourceContentions == tr.resourceContentions
    ensures |r.timeline| <= TimelineCapacity
    ensures tr.lastActive != null && tr.lastActive != t ==>
      |r.timeline| > 0 && r.timeline[|r.timeline| - 1] == ContextSwitch(now, tr.lastActive.id, t.id)
    ensures tr.lastActive == null || tr.lastActive == t ==> r.timeline == tr.timeline
    ensures tr.lastActive != null && tr.lastActive != t ==>
      r.timeline == PushCapped(tr.timeline, ContextSwitch(now, tr.lastActive.id, t.id))
  {
    tr.(contextSwitches := tr.contextSwitches + 1,
        timeline := if tr.lastActive != null && tr.lastActive != t
                    then PushCapped(tr.timeline, ContextSwitch(now, tr.lastActive.id, t.id))
                    else tr.timeline,
        lastActive := t)
  }

  /** The engine's side of `t` blocking on a resource. */
  function Contended(tr: Tracker, t: Thread, blockedBy: Option<string>, now: real): (r: Tracker)
    requires |tr.timeline| <= TimelineCapacity
    ensures r.resourceContentions == tr.resourceContentions + 1
    ensures r.perf == tr.perf && r.contextSwitches == tr.contextSwitches
    ensures r.lastActive == tr.lastActive
    ensures |r.timeline| <= TimelineCapacity
    ensures r.timeline == PushCapped(tr.timeline, ResourceContention(now, t.id, ResourceName(blockedBy)))
    ensures |r.timeline| > 0
    ensures r.timeline[|r.timeline| - 1] == ResourceContention(now, t.id, ResourceName(blockedBy))
  {
    tr.(resourceContentions := tr.resourceContentions + 1,
        timeline := PushCapped(tr.timeline, ResourceContention(now, t.id, ResourceName(blockedBy))))
  }

  /** `_track_state_change(t, to)` at clock reading `now`, where `from` and
      `blockedBy` are the thread's state and blocking resource at that moment. */
  function TrackStep(tr: Tracker, t: Thread, from: ThreadState, blockedBy: Option<string>,
                     to: ThreadState, now: real): (r: Tracker)
    requires |tr.timeline| <= TimelineCapacity
    ensures r.perf.Keys == tr.perf.Keys && |r.timeline| <= TimelineCapacity
    ensures forall id :: id in tr.perf && id != t.id ==> r.perf[id] == tr.perf[id]
    ensures t.id in tr.perf && from != to ==> r.perf[t.id] == Booked(tr.perf[t.id], from, to, now)
    ensures !(from == Ready && to == Running) && !(from == Running && to == Blocked) ==>
      && r.contextSwitches == tr.contextSwitches && r.resourceContentions == tr.resourceContentions
      && r.lastActive == tr.lastActive && r.timeline == tr.timeline
  {
    if t.id !in tr.perf || from == to then tr
    else
      var booked := tr.(perf := tr.perf[t.id := Booked(tr.perf[t.id], from, to, now)]);
      if from == Ready && to == Running then Switched(booked, t, now)
      else if from == Running && to == Blocked then Contended(booked, t, blockedBy, now)
      else booked
  }

  /** A thread without a performance record, or a "transition" to the
      state the thread is already in, changes nothing. */
  lemma TrackIgnores(tr: Tracker, t: Thread, from: ThreadState, b: Option<string>,
                     to: ThreadState, now: real)
    requires TrackerValid(tr)
    requires t.id !in tr.perf || from == to
    ensures TrackStep(tr, t, from, b, to, now) == tr
  {
  }

  /** Ready to Running: the thread's and the engine's context-switch
      counters each rise by one, the elapsed time goes to the wait bucket, a
      context-switch event is added exactly when another thread was the last
      one active, and this thread becomes the last one active. */
  lemma TrackReadyToRunning(tr: Tracker, t: Thread, b: Option<string>, now: real)
    requires TrackerValid(tr) && t.id in tr.perf
    ensures var r := TrackStep(tr, t, Ready, b, Running, now);
      var p, q := tr.perf[t.id], r.perf[t.id];
      && r.contextSwitches == tr.contextSwitches + 1
      && q.contextSwitches == p.contextSwitches + 1
      && q.waitTime == p.waitTime + (now - p.lastStateChange)
      && q.runTime == p.runTime && q.blockedTime == p.blockedTime
      && r.resourceContentions == tr.resourceContentions
      && r.lastActive == t
      && (tr.lastActive != null && tr.lastActive != t ==>
            r.timeline == PushCapped(tr.timeline, ContextSwitch(now, tr.lastActive.id, t.id)))
      && (tr.lastActive == null || tr.lastActive == t ==> r.timeline == tr.timeline)
  {
  }

  /** Running to Blocked: one more resource contention, the elapsed time
      goes to the run bucket, and one contention event enters the bounded
      timeline, naming the resource the thread had before blocking. */
  lemma TrackRunningToBlocked(tr: Tracker, t: Thread, b: Option<string>, now: real)
    requires TrackerValid(tr) && t.id in tr.perf
    ensures var r := TrackStep(tr, t, Running, b, Blocked, now);
      var p, q := tr.perf[t.id], r.perf[t.id];
      && r.resourceContentions == tr.resourceContentions + 1
      && r.contextSwitches == tr.contextSwitches
      && q.runTime == p.runTime + (now - p.lastStateChange)
      && q.waitTime == p.waitTime && q.blockedTime == p.blockedTime
      && r.timeline == PushCapped(tr.timeline, ResourceContention(now, t.id, ResourceName(b)))
      && r.lastActive == tr.lastActive
  {
  }

  /** Blocked to Ready: the elapsed time goes to the blocked bucket and no
      counter or event changes. */
  lemma TrackBlockedToReady(tr: Tracker, t: Thread, b: Option<string>, now: real)
    requires TrackerValid(tr) && t.id in tr.perf
    ensures var r := TrackStep(tr, t, Blocked, b, Ready, now);
      var p, q := tr.perf[t.id], r.perf[t.id];
      && q.blockedTime == p.blockedTime + (now - p.lastStateChange)
      && q.waitTime == p.waitTime && q.runTime == p.runTime
      && r.contextSwitches == tr.contextSwitches
      && r.resourceContentions == tr.resourceContentions
      && r.timeline == tr.timeline && r.lastActive == tr.lastActive
  {
  }

  /** With a clock that does not go backwards for the tracked thread,
      tracking keeps every bucket non-negative, the timeline within its
      bound, and the set of tracked threads the same. */
  lemma TrackKeepsRecords(tr: Tracker, t: Thread, from: ThreadState, b: Option<string>,
                          to: ThreadState, now: real)
    requires TrackerValid(tr) && (t.id in tr.perf ==> tr.perf[t.id].lastStateChange <= now)
    ensures var r := TrackStep(tr, t, from, b, to, now);
      && TrackerValid(r) && r.perf.Keys == tr.perf.Keys
      && (t.id in r.perf ==> r.perf[t.id].lastStateChange <= now)
  {
    if t.id in tr.perf && from != to {
      var p := tr.perf[t.id];
      assert PerfValid(p) && p.lastStateChange <= now;
      assert PerfValid(Booked(p, from, to, now));
    }
  }

  /** The same for a clock that does not go backwards for any thread. */
  lemma TrackKeepsValid(tr: Tracker, t: Thread, from: ThreadState, b: Option<string>,
                        to: ThreadState, now: real)
    requires TrackerValid(tr) && RecordsNotAfter(tr.perf, now)
    ensures var r := TrackStep(tr, t, from, b, to, now);
      TrackerValid(r) && RecordsNotAfter(r.perf, now) && r.perf.Keys == tr.perf.Keys
  {
    TrackKeepsRecords(tr, t, from, b, to, now);
  }

  /** One observed transition: the thread, its state and blocking resource
      at that moment, the target state and the clock reading. */
  datatype Observed = Observed(t: Thread, from: ThreadState, blockedBy: Option<string>,
                               to: ThreadState, time: real)

  /** The clock readings of `obs` never go backwards, starting from `now`. */
  ghost predicate Ascending(obs: seq<Observed>, now: real)
    decreases |obs|
  {
    obs == [] || (now <= obs[0].time && Ascending(obs[1..], obs[0].time))
  }

  ghost function TrackAll(tr: Tracker, obs: seq<Observed>): (r: Tracker)
    requires TrackerValid(tr)
    requires exists now :: RecordsNotAfter(tr.perf, now) && Ascending(obs, now)
    ensures TrackerValid(r)
    decreases |obs|
  {
    if obs == [] then tr
    else
      var now :| RecordsNotAfter(tr.perf, now) && Ascending(obs, now);
      TrackKeepsValid(tr, obs[0].t, obs[0].from, obs[0].blockedBy, obs[0].to, obs[0].time);
      assert RecordsNotAfter(tr.perf, obs[0].time);
      var next := TrackStep(tr, obs[0].t, obs[0].from, obs[0].blockedBy, obs[0].to, obs[0].time);
      assert Ascending(obs[1..], obs[0].time);
      TrackAll(next, obs[1..])
  }

  /** The transitions of `obs` that count as context switches, or as
      resource contentions, for threads that have a record in `perf`. */
  function Switches(obs: seq<Observed>, perf: map<nat, PerfData>): nat
  {
    if obs == [] then 0
    else (if obs[0].t.id in perf && obs[0].from == Ready && obs[0].to == Running then 1 else 0)
         + Switches(obs[1..], perf)
  }

  function Contentions(obs: seq<Observed>, perf: map<nat, PerfData>): nat
  {
    if obs == [] then 0
    else (if obs[0].t.id in perf && obs[0].from == Running && obs[0].to == Blocked then 1 else 0)
         + Contentions(obs[1..], perf)
  }

  /** Over any run of observed transitions, the global counters grow by
      exactly the number of Ready-to-Running and Running-to-Blocked
      transitions of tracked threads, and the timeline stays bounded. */
  lemma {:induction false} CountersCountTransitions(tr: Tracker, obs: seq<Observed>, now: real)
    requires TrackerValid(tr) && RecordsNotAfter(tr.perf, now) && Ascending(obs, now)
    ensures var r := TrackAll(tr, obs);
      && r.contextSwitches == tr.contextSwitches + Switches(obs, tr.perf)
      && r.resourceContentions == tr.resourceContentions + Contentions(obs, tr.perf)
      && |r.timeline| <= TimelineCapacity
      && r.perf.Keys == tr.perf.Keys
    decreases |obs|
  {
    if obs != [] {
      var o := obs[0];
      TrackKeepsValid(tr, o.t, o.from, o.blockedBy, o.to, o.time);
      assert RecordsNotAfter(tr.perf, o.time);
      var next := TrackStep(tr, o.t, o.from, o.blockedBy, o.to, o.time);
      assert Ascending(obs[1..], o.time);
      TrackStepCounts(tr, o);
      CountersCountTransitions(next, obs[1..], o.time);
      assert TrackAll(tr, obs) == TrackAll(next, obs[1..]);
      SwitchesDependOnKeysOnly(obs[1..], next.perf, tr.perf);
    }
  }

  /** A tracked `run` of a Ready thread is one context switch, if the thread
      is tracked, and no contention. */
  lemma TrackedRunCounts(tr: Tracker, t: Thread, b: Option<string>, now: real)
    requires TrackerValid(tr) && RecordsNotAfter(tr.perf, now)
    ensures var r := TrackStep(TrackStep(tr, t, Ready, b, Running, now), t, Running, b,
                               Terminated, now);
      && TrackerValid(r) && RecordsNotAfter(r.perf, now) && r.perf.Keys == tr.perf.Keys
      && r.contextSwitches == tr.contextSwitches + (if t.id in tr.perf then 1 else 0)
      && r.resourceContentions == tr.resourceContentions
  {
    TrackKeepsValid(tr, t, Ready, b, Running, now);
    var mid := TrackStep(tr, t, Ready, b, Running, now);
    TrackStepCounts(tr, Observed(t, Ready, b, Running, now));
    TrackKeepsValid(mid, t, Running, b, Terminated, now);
    TrackStepCounts(mid, Observed(t, Running, b, Terminated, now));
  }

  /** No thread occurs twice in `ts`. */
  predicate Distinct(ts: seq<Thread>)
  {
    forall i, j :: 0 <= i < j < |ts| ==> ts[i] != ts[j]
  }

  /** The last thread of `ts` with a record in `perf`, or `none` when no
      thread of `ts` has one. */
  function LastTracked(ts: seq<Thread>, perf: map<nat, PerfData>, none: Thread?): Thread?
  {
    if ts == [] then none
    else if ts[|ts| - 1].id in perf then ts[|ts| - 1]
    else LastTracked(ts[..|ts| - 1], perf, none)
  }

  /** How many of `ts` have a record in `perf`. */
  function TrackedCount(ts: seq<Thread>, perf: map<nat, PerfData>): nat
  {
    if ts == [] then 0
    else TrackedCount(ts[..|ts| - 1], perf) + (if ts[|ts| - 1].id in perf then 1 else 0)
  }

  /** One observed transition moves each counter by at most one. */
  lemma TrackStepCounts(tr: Tracker, o: Observed)
    requires TrackerValid(tr)
    ensures var r := TrackStep(tr, o.t, o.from, o.blockedBy, o.to, o.time);
      && r.contextSwitches == tr.contextSwitches
           + (if o.t.id in tr.perf && o.from == Ready && o.to == Running then 1 else 0)
      && r.resourceContentions == tr.resourceContentions
           + (if o.t.id in tr.perf && o.from == Running && o.to == Blocked then 1 else 0)
      && r.perf.Keys == tr.perf.Keys
  {
  }

  lemma {:induction false} SwitchesDependOnKeysOnly(obs: seq<Observed>, a: map<nat, PerfData>,
                                                    b: map<nat, PerfData>)
    requires a.Keys == b.Keys
    ensures Switches(obs, a) == Switches(obs, b) && Contentions(obs, a) == Contentions(obs, b)
    decreases |obs|
  {
    if obs != [] {
      SwitchesDependOnKeysOnly(obs[1..], a, b);
    }
  }

  /** The tracker runs before the operation it wraps, even when that
      operation does nothing: an `unblock` observed on a Running thread
      leaves the thread Running, yet the tracker books the time so far to
      Running and restarts its clock as if the thread had become Ready, and
      the run bucket is not credited. */
  lemma NoOpUnblockIsTracked(tr: Tracker, t: Thread, v: ThreadView, now: real)
    requires TrackerValid(tr) && t.id in tr.perf && v.state == Running
    ensures UnblockStep(v, now) == v
    ensures var r := TrackStep(tr, t, v.state, v.blockedBy, Ready, now);
      var p, q := tr.perf[t.id], r.perf[t.id];
      && q.lastStateChange == now
      && Duration(q.stateDurations, Running) == Duration(p.stateDurations, Running) + (now - p.lastStateChange)
      && q.runTime == p.runTime
      && r.contextSwitches == tr.contextSwitches
  {
  }

  // ---------------------------------------------------------------------
  // Statistics as functions

  datatype Efficiency = Efficiency(cpuUtilization: real, waitRatio: real, blockedRatio: real)

  /** The run, wait and blocked buckets are non-negative. */
  predicate BucketsNonNegative(p: PerfData)
  {
    p.waitTime >= 0.0 && p.runTime >= 0.0 && p.blockedTime >= 0.0
  }

  function TotalTime(p: PerfData): real
  {
    p.runTime + p.waitTime + p.blockedTime
  }

  /** `part / total * 100`, guarded as the source guards it. */
  function Percent(part: real, total: real): real
  {
    if total > 0.0 then part / total * 100.0 else 0.0
  }

  lemma PercentBounded(part: real, total: real)
    requires 0.0 <= part <= total
    ensures 0.0 <= Percent(part, total) <= 100.0
  {
    if total > 0.0 {
      assert part / total <= 1.0 by {
        assert part / total * total == part;
      }
    }
  }

  /** `get_thread_efficiency` for one record: all zeros when no time was
      booked; otherwise each ratio is the bucket's share of the total in
      percent, each lies in [0, 100], and they add up to 100. */
  function ThreadEfficiency(p: PerfData): (e: Efficiency)
    ensures TotalTime(p) == 0.0 ==> e == Efficiency(0.0, 0.0, 0.0)
    ensures TotalTime(p) > 0.0 ==>
      && e.cpuUtilization * TotalTime(p) == p.runTime * 100.0
      && e.waitRatio * TotalTime(p) == p.waitTime * 100.0
      && e.blockedRatio * TotalTime(p) == p.blockedTime * 100.0
    ensures BucketsNonNegative(p) ==>
      && 0.0 <= e.cpuUtilization <= 100.0
      && 0.0 <= e.waitRatio <= 100.0
      && 0.0 <= e.blockedRatio <= 100.0
      && (TotalTime(p) > 0.0 ==> e.cpuUtilization + e.waitRatio + e.blockedRatio == 100.0)
  {
    var total := TotalTime(p);
    if total == 0.0 then Efficiency(0.0, 0.0, 0.0)
    else
      var e := Efficiency(Percent(p.runTime, total), Percent(p.waitTime, total),
                          Percent(p.blockedTime, total));
      if BucketsNonNegative(p) then
        PercentBounded(p.runTime, total);
        PercentBounded(p.waitTime, total);
        PercentBounded(p.blockedTime, total);
        assert e.cpuUtilization + e.waitRatio + e.blockedRatio
            == (p.runTime + p.waitTime + p.blockedTime) / total * 100.0;
        e
      else e
  }

  /** The sums of run time and of total time over the threads, in list
      order, skipping threads without a record. */
  function SumRun(ts: seq<Thread>, perf: map<nat, PerfData>): real
  {
    if ts == [] then 0.0
    else SumRun(ts[..|ts| - 1], perf)
         + (if ts[|ts| - 1].id in perf then perf[ts[|ts| - 1].id].runTime else 0.0)
  }

  function SumTotal(ts: seq<Thread>, perf: map<nat, PerfData>): real
  {
    if ts == [] then 0.0
    else SumTotal(ts[..|ts| - 1], perf)
         + (if ts[|ts| - 1].id in perf then TotalTime(perf[ts[|ts| - 1].id]) else 0.0)
  }

  /** Summed over any threads, the run time is a part of the total time. */
  lemma {:induction false} SumRunWithinTotal(ts: seq<Thread>, perf: map<nat, PerfData>)
    requires forall id :: id in perf ==> PerfValid(perf[id])
    ensures 0.0 <= SumRun(ts, perf) <= SumTotal(ts, perf)
    decreases |ts|
  {
    if ts != [] {
      SumRunWithinTotal(ts[..|ts| - 1], perf);
    }
  }

  /** `overall_cpu_utilization`: 100 times the summed run time over the
      summed total, or 0 when no time was booked; always in [0, 100]. */
  function OverallCpu(ts: seq<Thread>, perf: map<nat, PerfData>): (u: real)
    requires forall id :: id in perf ==> PerfValid(perf[id])
    ensures 0.0 <= u <= 100.0
    ensures SumTotal(ts, perf) > 0.0 ==> u * SumTotal(ts, perf) == 100.0 * SumRun(ts, perf)
    ensures SumTotal(ts, perf) <= 0.0 ==> u == 0.0
  {
    SumRunWithinTotal(ts, perf);
    PercentBounded(SumRun(ts, perf), SumTotal(ts, perf));
    Percent(SumRun(ts, perf), SumTotal(ts, perf))
  }

  /** The `thread_stats` entry of thread `t` with record `p`. */
  function StatOf(t: Thread, p: PerfData): (r: ThreadStat)
    reads t
    ensures r.name == t.name && r.state == t.state
    ensures r.waitTime == p.waitTime && r.runTime == p.runTime && r.blockedTime == p.blockedTime
    ensures r.contextSwitches == p.contextSwitches && r.stateDurations == p.stateDurations
    ensures TotalTime(p) == 0.0 ==> r.cpuUtilization == 0.0
    ensures TotalTime(p) > 0.0 ==> r.cpuUtilization * TotalTime(p) == p.runTime * 100.0
    ensures BucketsNonNegative(p) ==> 0.0 <= r.cpuUtilization <= 100.0
  {
    ThreadStat(t.name, t.state, p.waitTime, p.runTime, p.blockedTime, p.contextSwitches,
               ThreadEfficiency(p).cpuUtilization, p.stateDurations)
  }

  /** The `thread_stats` map built over `ts` in list order. */
  function ThreadStats(ts: seq<Thread>, perf: map<nat, PerfData>): (r: map<nat, ThreadStat>)
    reads ts
    ensures forall id :: id in r ==> id in perf
    ensures forall t :: t in ts && t.id in perf ==> t.id in r
  {
    if ts == [] then map[]
    else
      var rest := ThreadStats(ts[..|ts| - 1], perf);
      var t := ts[|ts| - 1];
      if t.id in perf then rest[t.id := StatOf(t, perf[t.id])] else rest
  }

  /** `thread_stats` has one entry per tracked thread, and each entry is
      the stat of some thread of the list with that id. */
  lemma {:induction false} ThreadStatsMeaning(ts: seq<Thread>, perf: map<nat, PerfData>)
    ensures var m := ThreadStats(ts, perf);
      && m.Keys == (set t | t in ts && t.id in perf :: t.id)
      && forall id :: id in m ==>
           id in perf && exists t :: t in ts && t.id == id && m[id] == StatOf(t, perf[id])
    decreases |ts|
  {
    if ts != [] {
      var init := ts[..|ts| - 1];
      ThreadStatsMeaning(init, perf);
      assert ts == init + [ts[|ts| - 1]];
      forall id | id in ThreadStats(ts, perf)
        ensures exists t :: t in ts && t.id == id && ThreadStats(ts, perf)[id] == StatOf(t, perf[id])
      {
        if id != ts[|ts| - 1].id {
          var t :| t in init && t.id == id && ThreadStats(init, perf)[id] == StatOf(t, perf[id]);
          assert t in ts;
        }
      }
    }
  }

  /** How many of `states` equal `s`. */
  function CountState(states: seq<ThreadState>, s: ThreadState): nat
  {
    if states == [] then 0
    else (if states[0] == s then 1 else 0) + CountState(states[1..], s)
  }

  /** The per-state counts of `get_simulation_stats` add up to the thread count. */
  lemma {:induction false} StateCountsCoverAll(states: seq<ThreadState>)
    ensures CountState(states, New) + CountState(states, Ready) + CountState(states, Running)
          + CountState(states, Blocked) + CountState(states, Terminated) == |states|
    decreases |states|
  {
    if states != [] {
      StateCountsCoverAll(states[1..]);
    }
  }

  /** `set_simulation_speed`: the speed clamped to [0.1, 10.0]. */
  function ClampSpeed(speed: real): (r: real)
    ensures 0.1 <= r <= 10.0
    ensures 0.1 <= speed <= 10.0 ==> r == speed
    ensures speed < 0.1 ==> r == 0.1
    ensures speed > 10.0 ==> r == 10.0
  {
    var capped := if speed < 10.0 then speed else 10.0;
    if capped > 0.1 then capped else 0.1
  }

  /** Clamping is idempotent and never reverses the order of two speeds. */
  lemma ClampSpeedIdempotentMonotone(x: real, y: real)
    ensures ClampSpeed(ClampSpeed(x)) == ClampSpeed(x)
    ensures x <= y ==> ClampSpeed(x) <= ClampSpeed(y)
  {
  }

  // ---------------------------------------------------------------------
  // Result records

  datatype ThreadStat = ThreadStat(
    name: string,
    state: ThreadState,
    waitTime: real,
    runTime: real,
    blockedTime: real,
    contextSwitches: nat,
    cpuUtilization: real,
    stateDurations: Durations)

  datatype PerformanceStats = PerformanceStats(
    contextSwitches: nat,
    resourceContentions: nat,
    threadStats: map<nat, ThreadStat>,
    overallCpuUtilization: real,
    recentEvents: seq<TimelineEvent>)

  datatype SemaphoreSummary = SemaphoreSummary(
    name: string, value: int, waitingThreads: nat, log: seq<LogEntry>)

  datatype SimulationStats = SimulationStats(
    processCount: nat,
    threadCount: nat,
    threadStates: map<ThreadState, nat>,
    semaphores: seq<SemaphoreSummary>,
    isRunning: bool,
    isPaused: bool,
    currentTime: real,
    simulationSpeed: real,
    contextSwitches: nat,
    resourceContentions: nat)

  /** The selected threading model: its kind, the pool size (Many-to-Many
      only) and the processes handed to it when it was selected. */
  datatype ThreadingModel = ThreadingModel(kind: ThreadModelType, kernelThreadCount: Option<int>,
                                           processes: seq<Process>)

  datatype StartOutcome = ModelNotSet | AlreadyRunning | Started

  function StatesOf(ts: seq<Thread>): (r: seq<ThreadState>)
    reads set t | t in ts
    ensures |r| == |ts| && forall i :: 0 <= i < |ts| ==> r[i] == ts[i].state
  {
    if ts == [] then [] else [ts[0].state] + StatesOf(ts[1..])
  }

  function Summary(s: Semaphore): (r: SemaphoreSummary)
    reads s
    ensures r.name == s.name && r.value == s.value && r.waitingThreads == |s.waitingThreads|
    ensures |r.log| == if |s.log| < 10 then |s.log| else 10
    ensures r.log == s.log[|s.log| - |r.log|..]
  {
    SemaphoreSummary(s.name, s.value, |s.waitingThreads|, LastN(s.log, 10))
  }

  // ---------------------------------------------------------------------
  // The engine

  class ThreadSimulator {
    var processes: seq<Process>
    var threads: seq<Thread>
    var semaphores: seq<Semaphore>
    var threadingModel: Option<ThreadingModel>
    var isRunning: bool
    var isPaused: bool
    var simulationSpeed: real
    var currentTime: real
    var perf: map<nat, PerfData>
    var contextSwitches: nat
    var resourceContentions: nat
    var lastActiveThread: Thread?
    var timeline: seq<TimelineEvent>
    /** The class-level id counters of Thread and Process. */
    const threadIds: IdCounter
    const processIds: IdCounter

    function Tracked(): Tracker
      reads this
    {
      Tracker(perf, contextSwitches, resourceContentions, lastActiveThread, timeline)
    }

    ghost predicate Valid()
      reads this, threads, semaphores
    {
      && TrackerValid(Tracked())
      && 0.1 <= simulationSpeed <= 10.0
      && ObjectsValid()
    }

    /** Every thread and semaphore the engine owns keeps its own invariant. */
    ghost predicate ObjectsValid()
      reads this`threads, this`semaphores, threads, semaphores
    {
      && (forall t :: t in threads ==> t.Valid())
      && (forall s :: s in semaphores ==> s.Valid())
    }

    /** No record or thread of the engine was stamped after `now`. */
    ghost predicate ClockAt(now: real)
      reads this, threads
    {
      && RecordsNotAfter(perf, now)
      && (forall t :: t in threads ==> |t.history| > 0 && t.LastStamp() <= now)
    }

    constructor (threadIds: IdCounter, processIds: IdCounter)
      ensures Valid()
      ensures processes == [] && threads == [] && semaphores == [] && threadingModel == None
      ensures !isRunning && !isPaused && simulationSpeed == 1.0 && currentTime == 0.0
      ensures Tracked() == Tracker(map[], 0, 0, null, [])
      ensures this.threadIds == threadIds && this.processIds == processIds
    {
      processes := [];
      threads := [];
      semaphores := [];
      threadingModel := None;
      isRunning := false;
      isPaused := false;
      simulationSpeed := 1.0;
      currentTime := 0.0;
      perf := map[];
      contextSwitches := 0;
      resourceContentions := 0;
      lastActiveThread := null;
      timeline := [];
      this.threadIds := threadIds;
      this.processIds := processIds;
    }

    // -------------------------------------------------------------------
    // Collections

    method CreateProcess(name: string) returns (p: Process)
      modifies this`processes, processIds
      ensures fresh(p) && processes == old(processes) + [p]
      ensures p.id == old(processIds.next) && processIds.next == old(processIds.next) + 1
      ensures p.name == NameOrDefault(name, "Process", p.id) && p.threads == []
    {
      p := new Process(name, processIds);
      processes := processes + [p];
    }

    method CreateThread(process: Process, name: string, now: real) returns (t: Thread)
      requires Valid()
      modifies this`threads, this`perf, threadIds, process
      ensures Valid() && fresh(t)
      ensures t.id == old(threadIds.next) && threadIds.next == old(threadIds.next) + 1
      ensures t.View() == ThreadView(NameOrDefault(name, "Thread", t.id), New, 0.0, None, None,
                                     0, None, [HistoryEntry(New, now)])
      ensures threads == old(threads) + [t]
      ensures process.threads == old(process.threads) + [t]
      ensures perf == old(perf)[t.id := FreshPerf(now)]
    {
      t := new Thread(name, threadIds, now);
      threads := threads + [t];
      process.AddThread(t);
      perf := perf[t.id := FreshPerf(now)];
    }

    /** The name defaults to one numbered after the semaphores so far. */
    method CreateSemaphore(value: int, name: string) returns (s: Semaphore)
      requires Valid()
      modifies this`semaphores
      ensures Valid() && fresh(s)
      ensures semaphores == old(semaphores) + [s]
      ensures s.name == NameOrDefault(name, "Semaphore", |old(semaphores)| + 1)
      ensures s.value == s.initialValue == (if value > 0 then value else 0)
      ensures s.waitingThreads == [] && s.log == []
    {
      s := new Semaphore(value, NameOrDefault(name, "Semaphore", |semaphores| + 1));
      semaphores := semaphores + [s];
    }

    /** The model receives the processes that exist at this moment. A
        Many-to-Many model takes the given pool size, 2 when none is given;
        the other kinds ignore it. */
    method SetThreadingModel(kind: ThreadModelType, kernelThreadCount: Option<int>)
      modifies this`threadingModel
      ensures threadingModel.Some? && threadingModel.value.kind == kind
      ensures threadingModel.value.processes == processes
      ensures kind != ManyToMany ==> threadingModel.value.kernelThreadCount == None
      ensures kind == ManyToMany && kernelThreadCount.Some? ==>
        threadingModel.value.kernelThreadCount == kernelThreadCount
      ensures kind == ManyToMany && kernelThreadCount.None? ==>
        threadingModel.value.kernelThreadCount == Some(2)
    {
      var pool := if kernelThreadCount.Some? then kernelThreadCount.value else 2;
      threadingModel := Some(ThreadingModel(
        kind, if kind == ManyToMany then Some(pool) else None, processes));
    }

    // -------------------------------------------------------------------
    // Tracking

    method TrackStateChange(thread: Thread, newState: ThreadState, now: real)
      requires TrackerValid(Tracked())
      requires thread.id in perf ==> perf[thread.id].lastStateChange <= now
      modifies this`perf, this`contextSwitches, this`resourceContentions,
               this`lastActiveThread, this`timeline
      ensures TrackerValid(Tracked())
      ensures Tracked() == TrackStep(old(Tracked()), thread, thread.state, thread.blockedBy,
                                     newState, now)
      ensures perf.Keys == old(perf.Keys)
      ensures thread.id in perf ==> perf[thread.id].lastStateChange <= now
    {
      TrackKeepsRecords(Tracked(), thread, thread.state, thread.blockedBy, newState, now);
      if thread.id !in perf {
        return;
      }
      var from := thread.state;
      if from == newState {
        return;
      }
      perf := perf[thread.id := Booked(perf[thread.id], from, newState, now)];
      if from == Ready && newState == Running {
        NoteSwitch(thread, now);
      } else if from == Running && newState == Blocked {
        NoteContention(thread, thread.blockedBy, now);
      }
    }

    method NoteSwitch(thread: Thread, now: real)
      requires |timeline| <= TimelineCapacity
      modifies this`contextSwitches, this`lastActiveThread, this`timeline
      ensures Tracked() == Switched(old(Tracked()), thread, now)
    {
      var next := Switched(Tracked(), thread, now);
      contextSwitches := next.contextSwitches;
      timeline := next.timeline;
      lastActiveThread := next.lastActive;
    }

    method NoteContention(thread: Thread, blockedBy: Option<string>, now: real)
      requires |timeline| <= TimelineCapacity
      modifies this`resourceContentions, this`timeline
      ensures Tracked() == Contended(old(Tracked()), thread, blockedBy, now)
    {
      var next := Contended(Tracked(), thread, blockedBy, now);
      resourceContentions := next.resourceContentions;
      timeline := next.timeline;
    }

    /** `run` while tracking is installed: the tracker sees Running, the
        thread enters Running and does its work, and the `terminate` that
        `run` calls is the tracked one too. */
    method TrackedRun(thread: Thread, start: real, workProgress: int, end: real)
      requires Valid() && thread.Valid() && thread.LastStamp() <= start <= end
      requires thread.id in perf ==> perf[thread.id].lastStateChange <= start
      modifies this`perf, this`contextSwitches, this`resourceContentions,
               this`lastActiveThread, this`timeline, thread
      ensures Valid() && thread.Valid() && thread.LastStamp() == end
      ensures thread.View() == RunStep(old(thread.View()), start, workProgress, end)
      ensures Tracked() == TrackStep(
        TrackStep(old(Tracked()), thread, old(thread.state), old(thread.blockedBy), Running, start),
        thread, Running, old(thread.blockedBy), Terminated, end)
      ensures perf.Keys == old(perf.Keys)
      ensures thread.id in perf ==> perf[thread.id].lastStateChange <= end
    {
      TrackStateChange(thread, Running, start);
      thread.EnterRunning(start);
      thread.DoWork(workProgress);
      TrackedTerminate(thread, end);
    }

    method TrackedBlock(thread: Thread, resource: Option<string>, now: real)
      requires Valid() && thread.Valid() && thread.LastStamp() <= now
      requires thread.id in perf ==> perf[thread.id].lastStateChange <= now
      modifies this`perf, this`contextSwitches, this`resourceContentions,
               this`lastActiveThread, this`timeline, thread
      ensures Valid() && thread.Valid() && thread.LastStamp() <= now
      ensures thread.View() == BlockStep(old(thread.View()), resource, now)
      ensures Tracked() == TrackStep(old(Tracked()), thread, old(thread.state),
                                     old(thread.blockedBy), Blocked, now)
      ensures perf.Keys == old(perf.Keys)
    {
      TrackStateChange(thread, Blocked, now);
      thread.Block(resource, now);
    }

    method TrackedUnblock(thread: Thread, now: real)
      requires Valid() && thread.Valid() && thread.LastStamp() <= now
      requires thread.id in perf ==> perf[thread.id].lastStateChange <= now
      modifies this`perf, this`contextSwitches, this`resourceContentions,
               this`lastActiveThread, this`timeline, thread
      ensures Valid() && thread.Valid() && thread.LastStamp() <= now
      ensures thread.View() == UnblockStep(old(thread.View()), now)
      ensures Tracked() == TrackStep(old(Tracked()), thread, old(thread.state),
                                     old(thread.blockedBy), Ready, now)
      ensures perf.Keys == old(perf.Keys)
    {
      TrackStateChange(thread, Ready, now);
      thread.Unblock(now);
    }

    method TrackedTerminate(thread: Thread, now: real)
      requires Valid() && thread.Valid() && thread.LastStamp() <= now
      requires thread.id in perf ==> perf[thread.id].lastStateChange <= now
      modifies this`perf, this`contextSwitches, this`resourceContentions,
               this`lastActiveThread, this`timeline, thread
      ensures Valid() && thread.Valid() && thread.LastStamp() == now
      ensures thread.View() == TerminateStep(old(thread.View()), now)
      ensures Tracked() == TrackStep(old(Tracked()), thread, old(thread.state),
                                     old(thread.blockedBy), Terminated, now)
      ensures perf.Keys == old(perf.Keys)
      ensures thread.id in perf ==> perf[thread.id].lastStateChange <= now
    {
      TrackStateChange(thread, Terminated, now);
      thread.Terminate(now);
    }

    /** `Semaphore.wait` while tracking is installed: the `unblock` it calls
        on a successful wait (for a thread that is not Terminated) and the
        `block` it calls on a failed one both go through the tracker first.
        A successful wait by a Running thread therefore books a change to
        Ready that the thread never makes. */
    method TrackedWait(sem: Semaphore, thread: Thread, now: real) returns (acquired: bool)
      requires Valid() && sem.Valid() && thread.Valid() && thread.LastStamp() <= now
      requires thread.id in perf ==> perf[thread.id].lastStateChange <= now
      modifies this`perf, this`contextSwitches, this`resourceContentions,
               this`lastActiveThread, this`timeline, sem, thread
      ensures Valid() && sem.Valid() && thread.Valid() && thread.LastStamp() <= now
      ensures acquired <==> old(sem.value) > 0
      ensures acquired ==>
        && sem.value == old(sem.value) - 1 && sem.waitingThreads == old(sem.waitingThreads)
        && thread.View() == UnblockStep(old(thread.View()), now)
        && sem.log == old(sem.log) + [LogEntry(now, Acquired(thread.name, sem.name))]
        && Tracked() == if old(thread.state) == Terminated then old(Tracked())
                        else TrackStep(old(Tracked()), thread, old(thread.state),
                                       old(thread.blockedBy), Ready, now)
      ensures !acquired ==>
        && sem.value == old(sem.value) && sem.waitingThreads == old(sem.waitingThreads) + [thread]
        && thread.View() == BlockStep(old(thread.View()), Some(sem.name), now)
        && sem.log == old(sem.log) + [LogEntry(now, BlockedOn(thread.name, sem.name))]
        && Tracked() == TrackStep(old(Tracked()), thread, old(thread.state),
                                  old(thread.blockedBy), Blocked, now)
    {
      if sem.value > 0 {
        if thread.state != Terminated {
          TrackStateChange(thread, Ready, now);
        }
      } else {
        TrackStateChange(thread, Blocked, now);
      }
      acquired := sem.Wait(thread, now);
    }

    /** `Semaphore.signal` while tracking is installed: waking the head of
        the wait list goes through the tracked `unblock`, so the tracker sees
        that thread become Ready; a signal with nobody waiting is not seen. */
    method TrackedSignal(sem: Semaphore, now: real)
      requires Valid() && sem.Valid()
      requires sem.waitingThreads != [] ==>
        && sem.waitingThreads[0].Valid() && sem.waitingThreads[0].LastStamp() <= now
        && (sem.waitingThreads[0].id in perf ==>
              perf[sem.waitingThreads[0].id].lastStateChange <= now)
      modifies this`perf, this`contextSwitches, this`resourceContentions,
               this`lastActiveThread, this`timeline, sem,
               if sem.waitingThreads != [] then {sem.waitingThreads[0]} else {}
      ensures Valid() && sem.Valid()
      ensures old(sem.waitingThreads) != [] ==>
        var next := old(sem.waitingThreads)[0];
        && sem.waitingThreads == old(sem.waitingThreads)[1..] && sem.value == old(sem.value)
        && next.View() == UnblockStep(old(next.View()), now)
        && sem.log == old(sem.log) + [LogEntry(now, UnblockedBy(next.name, sem.name))]
        && Tracked() == TrackStep(old(Tracked()), next, old(next.state), old(next.blockedBy),
                                  Ready, now)
      ensures old(sem.waitingThreads) == [] ==>
        && sem.waitingThreads == [] && sem.value == old(sem.value) + 1
        && sem.log == old(sem.log) + [LogEntry(now, Released(sem.name, sem.value))]
        && Tracked() == old(Tracked())
    {
      if sem.waitingThreads != [] {
        TrackStateChange(sem.waitingThreads[0], Ready, now);
      }
      sem.Signal(now);
    }

    /** The loop of one Many-to-One kernel thread over its process: each
        thread, in list order, is started (untracked) and then run (tracked),
        the work function abstracted to the progress it leaves. Every thread
        ends Terminated, each tracked one adds exactly one context switch,
        the last tracked thread of the list ends as the last active one, and
        when no thread is listed twice each one takes exactly a start and a
        run. */
    method RunProcessManyToOne(process: Process, now: real, workProgress: int)
      requires Valid() && RecordsNotAfter(perf, now)
      requires forall t :: t in process.threads ==> t.Valid() && t.LastStamp() <= now
      modifies this`perf, this`contextSwitches, this`resourceContentions,
               this`lastActiveThread, this`timeline, process.threads
      ensures Valid() && RecordsNotAfter(perf, now) && perf.Keys == old(perf.Keys)
      ensures forall t :: t in process.threads ==>
        t.state == Terminated && t.progress == workProgress
      ensures contextSwitches == old(contextSwitches) + TrackedCount(process.threads, old(perf))
      ensures resourceContentions == old(resourceContentions)
      ensures lastActiveThread == LastTracked(process.threads, old(perf), old(lastActiveThread))
      ensures Distinct(process.threads) ==>
        forall k :: 0 <= k < |process.threads| ==>
          process.threads[k].View()
            == RunStep(StartStep(old(process.threads[k].View()), now), now, workProgress, now)
    {
      var ts := process.threads;
      ghost var views := seq(|ts|, k requires 0 <= k < |ts| reads ts => ts[k].View());
      var i := 0;
      while i < |ts|
        invariant 0 <= i <= |ts|
        invariant TurnInvariant(ts, i, now, workProgress, old(perf), old(contextSwitches),
                                old(resourceContentions), old(lastActiveThread), views)
        invariant Distinct(ts) ==> forall k :: i <= k < |ts| ==> ts[k].View() == views[k]
      {
        ManyToOneTurn(ts, i, now, workProgress, old(perf), old(contextSwitches),
                      old(resourceContentions), old(lastActiveThread), views);
        i := i + 1;
      }
      assert ts[..|ts|] == ts;
    }

    /** What the Many-to-One loop has achieved after its first `i` turns,
        relative to the engine state `perf0`, `switches0`, `contentions0`,
        `last0` and the thread views `views` it started from. */
    ghost predicate TurnInvariant(ts: seq<Thread>, i: nat, now: real, workProgress: int,
                                  perf0: map<nat, PerfData>, switches0: nat, contentions0: nat,
                                  last0: Thread?, views: seq<ThreadView>)
      reads this, ts, threads, semaphores
    {
      && i <= |ts| && |views| == |ts|
      && Valid() && RecordsNotAfter(perf, now) && perf.Keys == perf0.Keys
      && (forall t :: t in ts ==> t.Valid() && t.LastStamp() <= now)
      && (forall t :: t in ts[..i] ==> t.state == Terminated && t.progress == workProgress)
      && contextSwitches == switches0 + TrackedCount(ts[..i], perf0)
      && resourceContentions == contentions0
      && lastActiveThread == LastTracked(ts[..i], perf0, last0)
      && (Distinct(ts) ==> forall k :: 0 <= k < i ==>
            ts[k].View() == RunStep(StartStep(views[k], now), now, workProgress, now))
    }

    /** Turn `i` of the Many-to-One loop keeps `TurnInvariant`, touching no
        thread of the list but `ts[i]`. */
    method ManyToOneTurn(ts: seq<Thread>, i: nat, now: real, workProgress: int,
                         ghost perf0: map<nat, PerfData>, ghost switches0: nat,
                         ghost contentions0: nat, ghost last0: Thread?,
                         ghost views: seq<ThreadView>)
      requires i < |ts|
      requires TurnInvariant(ts, i, now, workProgress, perf0, switches0, contentions0, last0, views)
      requires Distinct(ts) ==> ts[i].View() == views[i]
      modifies this`perf, this`contextSwitches, this`resourceContentions,
               this`lastActiveThread, this`timeline, ts[i]
      ensures TurnInvariant(ts, i + 1, now, workProgress, perf0, switches0, contentions0, last0,
                            views)
    {
      var t := ts[i];
      assert ts[..i + 1] == ts[..i] + [t];
      assert ts[..i + 1][..i] == ts[..i];
      StartAndRun(t, now, workProgress);
      assert lastActiveThread == LastTracked(ts[..i + 1], perf0, last0);
      assert contextSwitches == switches0 + TrackedCount(ts[..i + 1], perf0);
      forall u | u in ts[..i + 1]
        ensures u.state == Terminated && u.progress == workProgress
      {
        if u != t {
          assert u in ts[..i];
        }
      }
      if Distinct(ts) {
        forall k | 0 <= k < i + 1
          ensures ts[k].View() == RunStep(StartStep(views[k], now), now, workProgress, now)
        {
          if k < i {
            assert ts[k] != t;
          }
        }
      }
    }

    /** One turn of the Many-to-One loop: start `t` (untracked), then run it
        (tracked) to termination. */
    method StartAndRun(t: Thread, now: real, workProgress: int)
      requires Valid() && RecordsNotAfter(perf, now) && t.Valid() && t.LastStamp() <= now
      modifies this`perf, this`contextSwitches, this`resourceContentions,
               this`lastActiveThread, this`timeline, t
      ensures Valid() && RecordsNotAfter(perf, now) && perf.Keys == old(perf.Keys)
      ensures t.Valid() && t.LastStamp() <= now
      ensures t.state == Terminated && t.progress == workProgress
      ensures contextSwitches == old(contextSwitches) + (if t.id in old(perf) then 1 else 0)
      ensures resourceContentions == old(resourceContentions)
      ensures t.View() == RunStep(StartStep(old(t.View()), now), now, workProgress, now)
      ensures Tracked() == TrackStep(TrackStep(old(Tracked()), t, Ready, old(t.blockedBy), Running, now),
                                     t, Running, old(t.blockedBy), Terminated, now)
      ensures lastActiveThread == if t.id in old(perf) then t else old(lastActiveThread)
    {
      t.Start(now);
      ghost var before := Tracked();
      ghost var v := t.View();
      TrackedRun(t, now, workProgress, now);
      TrackedRunCounts(before, t, v.blockedBy, now);
    }

    // -------------------------------------------------------------------
    // Life cycle

    /** Refuses without a threading model; with a previous run still alive
        only resumes it if paused; otherwise performs the per-run reset:
        flags, clock, counters, timeline and every record cleared, every
        thread back to New with no progress (its history untouched), and
        every semaphore reset. */
    method StartSimulation(runnerAlive: bool, now: real) returns (outcome: StartOutcome)
      requires Valid()
      modifies this`isRunning, this`isPaused, this`currentTime, this`perf,
               this`contextSwitches, this`resourceContentions, this`lastActiveThread,
               this`timeline, threads, semaphores
      ensures Valid()
      ensures old(threadingModel).None? ==>
        outcome == ModelNotSet && isRunning == old(isRunning) && isPaused == old(isPaused)
        && Tracked() == old(Tracked()) && currentTime == old(currentTime)
        && (forall t :: t in threads ==> t.View() == old(t.View()))
        && (forall s :: s in semaphores ==>
              s.value == old(s.value) && s.waitingThreads == old(s.waitingThreads)
              && s.log == old(s.log))
      ensures old(threadingModel).Some? && runnerAlive ==>
        outcome == AlreadyRunning && Tracked() == old(Tracked())
        && currentTime == old(currentTime)
        && (old(isPaused) ==> isRunning && !isPaused)
        && (!old(isPaused) ==> isRunning == old(isRunning) && !isPaused)
        && (forall t :: t in threads ==> t.View() == old(t.View()))
        && (forall s :: s in semaphores ==>
              s.value == old(s.value) && s.waitingThreads == old(s.waitingThreads)
              && s.log == old(s.log))
      ensures old(threadingModel).Some? && !runnerAlive ==>
        && outcome == Started
        && isRunning && !isPaused && currentTime == 0.0
        && contextSwitches == 0 && resourceContentions == 0
        && lastActiveThread == null && timeline == []
        && perf == (map id | id in old(perf) :: FreshPerf(now))
        && (forall t :: t in threads ==> t.View() == old(t.View()).(state := New, progress := 0))
        && (forall s :: s in semaphores ==>
              s.value == s.initialValue && s.waitingThreads == [] && s.log == [])
    {
      if threadingModel.None? {
        return ModelNotSet;
      }
      if runnerAlive {
        if isPaused {
          ResumeSimulation();
        }
        return AlreadyRunning;
      }
      ClearRunState(now);
      RestartThreads();
      ResetSemaphores();
      outcome := Started;
    }

    /** Running, unpaused, clock at zero, counters, last active thread and
        timeline cleared, and a fresh record for every tracked thread. */
    method ClearRunState(now: real)
      modifies this`isRunning, this`isPaused, this`currentTime, this`perf,
               this`contextSwitches, this`resourceContentions, this`lastActiveThread,
               this`timeline
      ensures isRunning && !isPaused && currentTime == 0.0
      ensures Tracked() == Tracker(map id | id in old(perf) :: FreshPerf(now), 0, 0, null, [])
      ensures TrackerValid(Tracked())
    {
      isRunning := true;
      isPaused := false;
      currentTime := 0.0;
      contextSwitches := 0;
      resourceContentions := 0;
      lastActiveThread := null;
      timeline := [];
      perf := map id | id in perf :: FreshPerf(now);
    }

    /** Every thread back to New with no progress; its history is kept. */
    method RestartThreads()
      requires forall t :: t in threads ==> t.Valid()
      modifies threads
      ensures forall t :: t in threads ==>
        t.Valid() && t.View() == old(t.View()).(state := New, progress := 0)
    {
      var i := 0;
      while i < |threads|
        invariant 0 <= i <= |threads|
        invariant forall t :: t in threads[..i] ==>
          t.View() == old(t.View()).(state := New, progress := 0)
        invariant forall t :: t in threads && t !in threads[..i] ==> t.View() == old(t.View())
        invariant forall t :: t in threads ==> t.Valid()
      {
        var t := threads[i];
        assert threads[..i + 1] == threads[..i] + [t];
        t.state := New;
        t.progress := 0;
        i := i + 1;
      }
      assert threads[..|threads|] == threads;
    }

    method ResetSemaphores()
      modifies semaphores
      ensures forall s :: s in semaphores ==>
        s.Valid() && s.value == s.initialValue && s.waitingThreads == [] && s.log == []
    {
      var j := 0;
      while j < |semaphores|
        invariant 0 <= j <= |semaphores|
        invariant forall s :: s in semaphores[..j] ==>
          s.Valid() && s.value == s.initialValue && s.waitingThreads == [] && s.log == []
      {
        assert semaphores[..j + 1] == semaphores[..j] + [semaphores[j]];
        semaphores[j].Reset();
        j := j + 1;
      }
      assert semaphores[..|semaphores|] == semaphores;
    }

    /** Does nothing when neither running nor paused; otherwise clears both
        flags and terminates every thread that is not Terminated yet. */
    method StopSimulation(now: real)
      requires Valid() && ClockAt(now)
      modifies this`isRunning, this`isPaused, threads
      ensures Valid() && !isRunning && !isPaused
      ensures !old(isRunning) && !old(isPaused) ==>
        forall t :: t in threads ==> t.View() == old(t.View())
      ensures old(isRunning) || old(isPaused) ==>
        forall t :: t in threads ==>
          && t.state == Terminated
          && (old(t.state) == Terminated ==> t.View() == old(t.View()))
          && (old(t.state) != Terminated ==> t.View() == TerminateStep(old(t.View()), now))
    {
      if !isRunning && !isPaused {
        return;
      }
      isRunning := false;
      isPaused := false;
      TerminateLive(now);
    }

    /** Terminates, in list order, every thread that is not Terminated yet. */
    method TerminateLive(now: real)
      requires forall t :: t in threads ==> t.Valid() && t.LastStamp() <= now
      modifies threads
      ensures forall t :: t in threads ==>
        && t.Valid() && t.LastStamp() <= now && t.state == Terminated
        && (old(t.state) == Terminated ==> t.View() == old(t.View()))
        && (old(t.state) != Terminated ==> t.View() == TerminateStep(old(t.View()), now))
    {
      var i := 0;
      while i < |threads|
        invariant 0 <= i <= |threads|
        invariant forall t :: t in threads ==> t.Valid() && t.LastStamp() <= now
        invariant forall t :: t in threads[..i] ==>
          && t.state == Terminated
          && (old(t.state) == Terminated ==> t.View() == old(t.View()))
          && (old(t.state) != Terminated ==> t.View() == TerminateStep(old(t.View()), now))
        invariant forall t :: t in threads && t !in threads[..i] ==> t.View() == old(t.View())
      {
        var t := threads[i];
        assert threads[..i + 1] == threads[..i] + [t];
        if t.state != Terminated {
          t.Terminate(now);
        }
        i := i + 1;
      }
      assert threads[..|threads|] == threads;
    }

    /** Acts only when running and not paused: then paused, not running. */
    method PauseSimulation()
      modifies this`isRunning, this`isPaused
      ensures old(isRunning) && !old(isPaused) ==> !isRunning && isPaused
      ensures !(old(isRunning) && !old(isPaused)) ==>
        isRunning == old(isRunning) && isPaused == old(isPaused)
    {
      if !isRunning || isPaused {
        return;
      }
      isPaused := true;
      isRunning := false;
    }

    /** Acts only when paused: then running, not paused. */
    method ResumeSimulation()
      modifies this`isRunning, this`isPaused
      ensures old(isPaused) ==> isRunning && !isPaused
      ensures !old(isPaused) ==> isRunning == old(isRunning) && isPaused == old(isPaused)
    {
      if !isPaused {
        return;
      }
      isPaused := false;
      isRunning := true;
    }

    /** Stop, then drop every thread, process and semaphore, every record,
        counter and event, and the threading model. The last active thread
        and the speed are kept. */
    method ResetSimulation(now: real)
      requires Valid() && ClockAt(now)
      modifies this, threads
      ensures Valid()
      ensures !isRunning && !isPaused
      ensures threads == [] && processes == [] && semaphores == [] && threadingModel == None
      ensures currentTime == 0.0 && perf == map[] && contextSwitches == 0
      ensures resourceContentions == 0 && timeline == []
      ensures lastActiveThread == old(lastActiveThread) && simulationSpeed == old(simulationSpeed)
      ensures old(isRunning) || old(isPaused) ==>
        forall t :: t in old(threads) ==> t.state == Terminated
    {
      StopSimulation(now);
      threads := [];
      processes := [];
      semaphores := [];
      threadingModel := None;
      currentTime := 0.0;
      perf := map[];
      contextSwitches := 0;
      resourceContentions := 0;
      timeline := [];
    }

    method SetSimulationSpeed(speed: real)
      modifies this`simulationSpeed
      ensures simulationSpeed == ClampSpeed(speed)
    {
      simulationSpeed := ClampSpeed(speed);
    }

    // -------------------------------------------------------------------
    // Statistics

    /** `get_thread_efficiency`: none for a thread without a record. */
    function GetThreadEfficiency(id: nat): (r: Option<Efficiency>)
      reads this
      ensures r.None? <==> id !in perf
      ensures r.Some? ==> r.value == ThreadEfficiency(perf[id])
    {
      if id in perf then Some(ThreadEfficiency(perf[id])) else None
    }

    /** `get_performance_stats`: the counters, one entry per tracked thread,
        the overall CPU utilisation over all tracked threads, and the last
        ten timeline events. Nothing is changed. */
    method GetPerformanceStats() returns (stats: PerformanceStats)
      requires Valid()
      ensures stats.contextSwitches == contextSwitches
      ensures stats.resourceContentions == resourceContentions
      ensures stats.recentEvents == LastN(timeline, 10)
      ensures stats.overallCpuUtilization == OverallCpu(threads, perf)
      ensures 0.0 <= stats.overallCpuUtilization <= 100.0
      ensures stats.threadStats == ThreadStats(threads, perf)
      ensures stats.threadStats.Keys == set t | t in threads && t.id in perf :: t.id
      ensures forall id :: id in stats.threadStats ==>
        id in perf && exists t :: t in threads && t.id == id && stats.threadStats[id] == StatOf(t, perf[id])
    {
      var threadStats: map<nat, ThreadStat> := map[];
      var totalRun := 0.0;
      var totalTime := 0.0;
      var i := 0;
      while i < |threads|
        invariant 0 <= i <= |threads|
        invariant totalRun == SumRun(threads[..i], perf)
        invariant totalTime == SumTotal(threads[..i], perf)
        invariant threadStats == ThreadStats(threads[..i], perf)
      {
        var t := threads[i];
        assert threads[..i + 1][..i] == threads[..i];
        if t.id in perf {
          var p := perf[t.id];
          var efficiency := GetThreadEfficiency(t.id);
          threadStats := threadStats[t.id := ThreadStat(
            t.name, t.state, p.waitTime, p.runTime, p.blockedTime, p.contextSwitches,
            efficiency.value.cpuUtilization, p.stateDurations)];
          totalRun := totalRun + p.runTime;
          totalTime := totalTime + (p.runTime + p.waitTime + p.blockedTime);
        }
        i := i + 1;
      }
      assert threads[..|threads|] == threads;
      ThreadStatsMeaning(threads, perf);
      var overall := if totalTime > 0.0 then totalRun / totalTime * 100.0 else 0.0;
      assert overall == OverallCpu(threads, perf);
      stats := PerformanceStats(contextSwitches, resourceContentions, threadStats, overall,
                                if timeline != [] then LastN(timeline, 10) else []);
    }

    /** The summary of every semaphore, in list order. */
    method SemaphoreSummaries() returns (summaries: seq<SemaphoreSummary>)
      ensures |summaries| == |semaphores|
      ensures forall i :: 0 <= i < |semaphores| ==> summaries[i] == Summary(semaphores[i])
    {
      summaries := [];
      var i := 0;
      while i < |semaphores|
        invariant 0 <= i <= |semaphores|
        invariant |summaries| == i
        invariant forall k :: 0 <= k < i ==> summaries[k] == Summary(semaphores[k])
      {
        summaries := summaries + [Summary(semaphores[i])];
        i := i + 1;
      }
    }

    /** `get_simulation_stats`: counts, flags and settings, the threads per
        state, and for each semaphore its name, count, queue length and last
        ten log entries. Nothing is changed. */
    method GetSimulationStats() returns (stats: SimulationStats)
      ensures stats.processCount == |processes| && stats.threadCount == |threads|
      ensures stats.threadStates.Keys == AllStates
      ensures forall s :: s in stats.threadStates ==>
        stats.threadStates[s] == CountState(StatesOf(threads), s)
      ensures stats.threadStates[New] + stats.threadStates[Ready] + stats.threadStates[Running]
            + stats.threadStates[Blocked] + stats.threadStates[Terminated] == |threads|
      ensures |stats.semaphores| == |semaphores|
      ensures forall i :: 0 <= i < |semaphores| ==> stats.semaphores[i] == Summary(semaphores[i])
      ensures stats.isRunning == isRunning && stats.isPaused == isPaused
      ensures stats.currentTime == currentTime && stats.simulationSpeed == simulationSpeed
      ensures stats.contextSwitches == contextSwitches
      ensures stats.resourceContentions == resourceContentions
    {
      var states := StatesOf(threads);
      var counts := map s | s in AllStates :: CountState(states, s);
      StateCountsCoverAll(states);
      var summaries := SemaphoreSummaries();
      stats := SimulationStats(|processes|, |threads|, counts, summaries, isRunning, isPaused,
                               currentTime, simulationSpeed, contextSwitches,
                               resourceContentions);
    }
  }
}
