# Thread simulator engine — a Dafny model

This project models the simulation engine of an educational thread simulator. The engine has three parts:

- **Threads and processes** (`models.dfy`, module `Models`). A user thread has five states: New, Ready, Running, Blocked and Terminated. Its transitions are `start`, `run`, `block`, `unblock` and `terminate`, and each one appends to the thread's history. A process keeps its threads in insertion order. Every transition is first written as a pure step on a `ThreadView` record. The `Thread` class updates its fields in place and is proved to follow those steps.
- **The counting semaphore** (`synchronization.dfy`, module `Synchronization`). `wait` is a non-blocking try-acquire. The semaphore also has a FIFO wait list, an audit log and `reset`. The class keeps two ghost counters, successful waits and releases, so that its permit accounting can be stated as an invariant.
- **The engine** (`simulator.dfy`, module `Simulator`). The engine covers:
  - the collections it owns;
  - the state-change tracker, which books time into per-thread buckets, keeps the global context-switch and contention counters, and keeps a timeline bounded at 1000 events;
  - the statistics derived from those;
  - the life cycle: start (its precondition and per-run reset), stop, pause, resume, reset and speed.

  The tracker is pure `TrackStep` on a `Tracker` record. The class method `TrackStateChange` is proved against it. The source installs tracking by replacing the `Thread` methods during a run. Here that is the `Tracked*` wrapper methods: each calls the tracker with the target state, then the plain `Thread` operation.

Clock readings are not taken from a wall clock. Every operation that stamps time takes a `now: real` parameter. Every operation that moves a thread or books tracker time also has a precondition saying the clock does not go backwards. Python floats are modelled as exact `real`s.

### Behaviour kept as written

- `start()` has no guard (models.py:57-60): any state, Terminated included, moves to Ready.
- `run()` calls `self.terminate()`, which during a run is the tracked one. So a tracked run books Running and then Terminated (`TrackedRun`).
- The tracker credits `run_time` only on Running → Blocked. Running → Terminated adds to the Running duration only.
- The contention event names the blocking resource the thread had *before* `block`. That is the one recorded by its previous block, if no unblock cleared it, and otherwise "Unknown".
- `terminate` recomputes the execution time only when the start time is truthy. A start time equal to 0.0 counts as absent (`Truthy`).
- A woken waiter is not handed the permit: `signal` leaves the count unchanged when it wakes a thread. The woken thread's next poll therefore fails and it is queued again (`WokenWaiterRetryFails`). This is kept as written.
- `reset_simulation` does not clear `last_active_thread`.

## Model

| member | source | states |
|---|---|---|
| Models.NameOrDefault | models.py:34 | an empty name is replaced by `<prefix>-<id>`; any other name is kept |
| Models.StartStep | models.py:57-60 | `start` yields Ready from any state, appends exactly one (Ready, now) entry and changes nothing else |
| Models.EnterRunningStep | models.py:62-66 | `run` before the work function: Running, start time = now, one (Running, now) entry, nothing else changed |
| Models.BlockStep | models.py:70-75 | a Terminated thread is unchanged; any other becomes Blocked on the given resource with one (Blocked, now) entry |
| Models.UnblockStep | models.py:77-82 | only a Blocked thread moves, to Ready, with its resource cleared and one (Ready, now) entry; otherwise nothing changes |
| Models.TerminateStep | models.py:84-90 | Terminated from any state, end time = now, one entry; execution time = now − start only when the start time is truthy, otherwise unchanged |
| Models.RunStep | models.py:62-68 | after `run` the thread is Terminated with the work's progress, start and end times set; exactly a Running and a Terminated entry are appended; execution time is the span of the run unless the start reading was 0; name and resource unchanged |
| Models.ApplyKeepsValid | models.py:57-97 | one transition at a clock reading no earlier than the last entry keeps the history chronological and the execution time non-negative |
| Models.HistoryOnlyGrows | models.py:92-97 | over any sequence of transitions the old history is a prefix of the new one, and each call appends at most two entries |
| Models.ReplayKeepsValid | models.py:57-97 | along any sequence of transitions with a non-decreasing clock, every thread record stays well formed |
| Models.TerminatedIsSticky | models.py:70-90 | a Terminated thread stays Terminated under any mix of block, unblock and terminate |
| Models.IdCounter.constructor | models.py:29 | the class-level id counter starts at 1 |
| Models.Thread.constructor | models.py:31-47 | a new thread takes the next id (the counter then rises by one, so ids strictly increase), is New, and has exactly one history entry |
| Models.Thread.AddToHistory | models.py:92-97 | appends one (state, now) entry and keeps the history chronological |
| Models.Thread.Start | models.py:57-60 | the thread's fields follow `StartStep`, and the record stays valid |
| Models.Thread.EnterRunning | models.py:62-66 | the thread's fields follow `EnterRunningStep` |
| Models.Thread.DoWork | models.py:67 | the work function changes only the progress |
| Models.Thread.Run | models.py:62-68 | the thread's fields follow `RunStep` (enter Running, work, terminate), and the record stays valid |
| Models.Thread.Block | models.py:70-75 | the thread's fields follow `BlockStep` |
| Models.Thread.Unblock | models.py:77-82 | the thread's fields follow `UnblockStep` |
| Models.Thread.Terminate | models.py:84-90 | the thread's fields follow `TerminateStep` |
| Models.RemoveFirst | models.py:115-118 | an absent thread leaves the list as it is; a present one is removed once: length − 1, and the same multiset minus that thread |
| Models.RemoveFirstSplices | models.py:117-118 | removal splices out exactly the first occurrence and keeps everything else in order |
| Models.Process.constructor | models.py:104-108 | a new process takes the next process id, a default name when none is given, and an empty thread list |
| Models.Process.AddThread | models.py:111-113 | appends the thread at the end, preserving order |
| Models.Process.RemoveThread | models.py:115-118 | removes the first occurrence if present, otherwise no change |
| Synchronization.Semaphore.constructor | synchronization.py:15-23 | the initial value is clamped to ≥ 0 and kept as the reset value; empty wait list and log |
| Synchronization.Semaphore.Log | synchronization.py:37-39 | appends one timestamped entry to the log |
| Synchronization.Text | synchronization.py:52-90 | each log text starts with its subject's name (the thread's, or the semaphore's for a release) and ends with the semaphore's name, or with the new count for a release |
| Synchronization.Semaphore.Wait | synchronization.py:41-73 | acquired iff the count was positive. Then: count − 1, wait list unchanged, caller unblocked (a no-op unless Blocked), one "acquired" entry. Otherwise: count unchanged, caller appended to the wait list even if already queued, blocked unless Terminated, one "blocked on" entry. The count stays ≥ 0, equals initial − waits + releases, and is positive only with an empty wait list |
| Synchronization.Semaphore.Signal | synchronization.py:75-96 | with waiters: removes exactly the head, unblocks it, count unchanged, one "unblocked by" entry. Without: count + 1 and one "released" entry. Never both; the invariant is kept |
| Synchronization.Semaphore.Reset | synchronization.py:98-103 | count back to the initial value, empty wait list and log, no thread touched |
| Synchronization.FifoRelease | synchronization.py:61-64 | three threads blocked in the order A, B, C are released by three signals in that same order |
| Synchronization.WokenWaiterRetryFails | synchronization.py:78-80 | a signal that wakes a waiter leaves the count at 0, so the woken waiter's retry fails and it is queued again |
| Simulator.FreshPerf | simulator.py:67-75 | a new record has every bucket and counter at zero, no start, a duration of 0 for every state, and last change = now |
| Simulator.PushCapped | simulator.py:48 | appending to the bounded timeline keeps the newest `min(n+1, 1000)` events of `q + [e]`, the new event last |
| Simulator.LastN | simulator.py:373 | the last `min(n, |xs|)` elements, in order |
| Simulator.Switched | simulator.py:129-144 | the engine side of a context switch: the global switch counter + 1, this thread becomes the last active one, a context-switch event from the previous thread is the newest event exactly when a different thread was last active, and nothing else changes |
| Simulator.Contended | simulator.py:146-157 | the engine side of a contention: the contention counter + 1, the newest event names the thread and its resource (or "Unknown"), the timeline stays within 1000, and nothing else changes |
| Simulator.TrackStep | simulator.py:111-168 | the set of tracked threads never changes, the timeline stays within 1000, every other thread's record is untouched, and the thread's own record is `Booked` on a real change of state; a transition that is neither Ready to Running nor Running to Blocked keeps both counters, the last active thread and the timeline |
| Simulator.Booked | simulator.py:124-168 | leaving `from` for `to` adds the elapsed time to the duration of `from`, and to the total of the three buckets exactly on the three credited transitions; one context switch on Ready→Running only; the first entry into Running sets the start to `now`, a set start is never overwritten, and any other target keeps it; the record stays valid when the clock does not go back |
| Simulator.TrackIgnores | simulator.py:114-122 | no record, or a change to the current state: the tracker changes nothing |
| Simulator.TrackReadyToRunning | simulator.py:129-144 | Ready→Running: per-thread and global context switches each + 1; elapsed time goes to the wait bucket only; a context-switch event is appended exactly when a different thread was last active; this thread becomes the last active one |
| Simulator.TrackRunningToBlocked | simulator.py:146-157 | Running→Blocked: contentions + 1; elapsed time goes to the run bucket only; exactly one contention event enters the bounded timeline |
| Simulator.TrackBlockedToReady | simulator.py:159-161 | Blocked→Ready: the elapsed time goes to the blocked bucket only; no counter or event changes |
| Simulator.TrackKeepsValid | simulator.py:124-168 | with a clock that does not go back, tracking keeps every bucket non-negative, the timeline within 1000, and the set of tracked threads unchanged |
| Simulator.TrackStepCounts | simulator.py:129-157 | one tracked transition moves each global counter by exactly the indicator of its own transition kind |
| Simulator.CountersCountTransitions | simulator.py:111-168 | over any run of transitions, the global counters grow by exactly the number of Ready→Running and Running→Blocked transitions of tracked threads |
| Simulator.TrackedRunCounts | simulator.py:240-242 | a tracked run of a Ready thread is one context switch if the thread is tracked, and no contention |
| Simulator.NoOpUnblockIsTracked | synchronization.py:49-50 | on a Running thread `unblock` changes nothing, yet the tracker books the time so far to Running and restarts its clock as if the thread had become Ready; the run bucket is not credited |
| Simulator.PercentBounded | simulator.py:361 | a part of a positive total is between 0 and 100 percent |
| Simulator.ThreadEfficiency | simulator.py:352-364 | all zeros when no time was booked; otherwise utilisation × total = run × 100, wait ratio × total = wait × 100 and blocked ratio × total = blocked × 100; with non-negative buckets each ratio is in [0, 100] and the three add up to 100 |
| Simulator.SumRunWithinTotal | simulator.py:376-402 | summed over any threads, run time is between 0 and the total time |
| Simulator.OverallCpu | simulator.py:404-406 | overall utilisation × Σtotal = 100 × Σrun when Σtotal > 0, else 0; always in [0, 100] |
| Simulator.StatOf | simulator.py:390-399 | a `thread_stats` entry carries the thread's name and state and the record's buckets, switch count and durations; its utilisation is the run share of the total in percent, 0 when no time was booked, and in [0, 100] for non-negative buckets |
| Simulator.ThreadStats | simulator.py:379-399 | `thread_stats` keys only tracked threads, and every listed thread with a record has an entry |
| Simulator.ThreadStatsMeaning | simulator.py:379-399 | `thread_stats` has one entry per tracked thread, and each entry is the stat of a listed thread with that id |
| Simulator.StateCountsCoverAll | simulator.py:427-428 | the per-state thread counts add up to the number of threads |
| Simulator.ClampSpeed | simulator.py:341-343 | the speed always ends up in [0.1, 10.0]; an in-range value is kept; values below or above go to the nearer bound |
| Simulator.ClampSpeedIdempotentMonotone | simulator.py:343 | clamping twice equals clamping once, and clamping preserves order |
| Simulator.Summary | simulator.py:431-437 | one semaphore's summary: its name, count and number of waiters, and the newest `min(10, n)` log entries in order |
| Simulator.ThreadSimulator.constructor | simulator.py:28-48 | everything empty, not running or paused, speed 1.0, counters 0, timeline empty |
| Simulator.ThreadSimulator.CreateProcess | simulator.py:54-58 | a fresh process with the next id is appended to the process list |
| Simulator.ThreadSimulator.CreateThread | simulator.py:60-76 | a fresh New thread is appended to the engine's and the process's lists, and gets a fresh performance record |
| Simulator.ThreadSimulator.CreateSemaphore | simulator.py:78-82 | a fresh semaphore named `Semaphore-<count+1>` unless a name is given, with the clamped initial value, is appended |
| Simulator.ThreadSimulator.SetThreadingModel | simulator.py:90-107 | the model kind is set with the processes that exist now; Many-to-Many takes the given pool size, or 2 when none is given; the other kinds have none |
| Simulator.ThreadSimulator.TrackStateChange | simulator.py:111-168 | the tracker state after the call is `TrackStep` of the state before, for the thread's current state and resource; validity is kept |
| Simulator.ThreadSimulator.NoteSwitch | simulator.py:133-144 | the engine's side of a context switch |
| Simulator.ThreadSimulator.NoteContention | simulator.py:151-157 | the engine's side of a contention |
| Simulator.ThreadSimulator.TrackedRun | simulator.py:240-242 | tracker sees Running, the thread runs, and the terminate inside run is tracked too |
| Simulator.ThreadSimulator.TrackedBlock | simulator.py:244-246 | tracker sees Blocked with the thread's old resource, then the thread blocks |
| Simulator.ThreadSimulator.TrackedUnblock | simulator.py:248-250 | tracker sees Ready, then the thread unblocks, even when that is a no-op |
| Simulator.ThreadSimulator.TrackedTerminate | simulator.py:252-254 | tracker sees Terminated, then the thread terminates |
| Simulator.ThreadSimulator.TrackedWait | synchronization.py:46-65 | a semaphore wait during a run: a successful one tracks Ready (unless the caller is Terminated), a failed one tracks Blocked; count, wait list, thread and log follow `Wait` (one "acquired" or "blocked on" entry) |
| Simulator.ThreadSimulator.TrackedSignal | synchronization.py:75-96 | a semaphore signal during a run: with waiters the head is removed and unblocked, the count is unchanged, one "unblocked by" entry is logged and the tracker sees the head become Ready; without waiters the count rises by one, one "released" entry is logged and the tracker is untouched |
| Simulator.ThreadSimulator.RunProcessManyToOne | models.py:147-151 | starting and running each thread of a process in list order leaves every one Terminated with the work's progress, adds exactly one context switch per tracked thread and no contention, and leaves the last tracked thread of the list as the last active thread; when no thread is listed twice, each thread's view is its old view started and run to termination |
| Simulator.ThreadSimulator.ManyToOneTurn | models.py:147-151 | one turn of that loop carries the loop invariant from thread `i` to thread `i + 1`: counters, last active thread, terminated prefix and, for distinct threads, the views of the threads already run |
| Simulator.ThreadSimulator.StartAndRun | models.py:148-149 | one turn of that loop: the thread's view is `RunStep` of `StartStep` of its old view, so it ends Terminated with the work's progress; the tracker is two `TrackStep`s (Ready to Running, then Running to Terminated) of the old one, so one context switch if the thread is tracked and no contention; the thread becomes the last active one exactly when it is tracked |
| Simulator.ThreadSimulator.StartSimulation | simulator.py:183-227 | without a threading model nothing changes (flags, clock, tracker, threads, semaphores); with a live runner it only resumes a paused run, clock, tracker, threads and semaphores untouched; otherwise running and unpaused, clock, counters, last active thread and timeline cleared, a fresh record per tracked thread, every thread New with progress 0 (history kept), every semaphore reset |
| Simulator.ThreadSimulator.ClearRunState | simulator.py:198-216 | the flag and record part of the per-run reset |
| Simulator.ThreadSimulator.RestartThreads | simulator.py:219-221 | every thread New with progress 0 and nothing else changed |
| Simulator.ThreadSimulator.ResetSemaphores | simulator.py:224-225 | every semaphore back to its initial value with empty wait list and log |
| Simulator.ThreadSimulator.StopSimulation | simulator.py:284-299 | a no-op when neither running nor paused; otherwise both flags false and every thread Terminated, those already Terminated untouched; a second stop therefore changes nothing |
| Simulator.ThreadSimulator.TerminateLive | simulator.py:293-296 | every thread ends Terminated; one already Terminated is untouched, any other takes exactly the `terminate` transition |
| Simulator.ThreadSimulator.PauseSimulation | simulator.py:301-309 | acts only when running and not paused, giving paused and not running |
| Simulator.ThreadSimulator.ResumeSimulation | simulator.py:311-319 | acts only when paused, giving running and not paused |
| Simulator.ThreadSimulator.ResetSimulation | simulator.py:321-339 | stopped, with no threads, processes, semaphores, threading model, records, counters or events; the last active thread and the speed are kept |
| Simulator.ThreadSimulator.SetSimulationSpeed | simulator.py:341-343 | the speed becomes `ClampSpeed` of the argument |
| Simulator.ThreadSimulator.GetThreadEfficiency | simulator.py:346-350 | none exactly when the thread has no record, otherwise that record's efficiency |
| Simulator.ThreadSimulator.GetPerformanceStats | simulator.py:366-408 | the counters, one stat per tracked thread, overall utilisation = `OverallCpu` (in [0, 100]), and the last ≤ 10 timeline events |
| Simulator.ThreadSimulator.GetSimulationStats | simulator.py:410-437 | counts, flags and settings; per-state counts that add up to the thread count; one summary per semaphore (name, count, queue length, last ≤ 10 log entries) |
| Simulator.ThreadSimulator.SemaphoreSummaries | simulator.py:431-437 | one summary per semaphore, in list order, each its `Summary` |

## Left out

- Wall-clock time (`time.time()`), sleeps, locks, logging and the UI callbacks (`_notify_update`, `register_update_callback`) are not modelled. Time is the caller's `now` parameter, and every operation is sequential.
- The work function: `run` calls it as an abstract step that only sets the final progress (`WorkStep`). Its sleeps and any semaphore calls it makes are not interleaved inside `TrackedRun`. A tracked semaphore wait and signal are modelled on their own (`TrackedWait`, `TrackedSignal`).
- `Thread.block` takes a resource object. The model keeps only that resource's name, the one thing the engine reads from it. `kernel_thread` and `args` are not modelled.
- Synchronization.Semaphore.constructor: the `Semaphore-<id(self)>` default for an empty name uses an object address and is not modelled. The engine always passes a non-empty name.
- The `msg_queue` notifications of the semaphore are an optional external sink and are not modelled. The unused `thread` argument of `signal` is omitted.
- The audit log records each event as a datatype, not as a formatted string. `Synchronization.Text` gives the strings.
- `Monitor` and `create_monitor` are not modelled. `create_monitor` passes a name to a constructor that takes none, so it always fails, and the monitor list is always empty. For the same reason, resetting monitors in `start_simulation`, clearing them in `reset_simulation` and the monitor summaries of `get_simulation_stats` are left out.
- The threading models' `run_simulation` bodies are left out. They spawn OS threads and thread pools. Only the Many-to-One per-process loop is modelled, as a sequential loop (`RunProcessManyToOne`). The loop's callback is not modelled.
- Simulator.ThreadSimulator.StartSimulation: the runner thread and the method replacement are not modelled, and the runner's liveness is a parameter. The per-run reset happens in the call itself, not in the runner. Every fresh record takes one clock reading. The runner's exception handler is not modelled.
- Simulator.ThreadSimulator.StopSimulation: it uses the plain `terminate`. A stop issued while a run is in progress would go through the tracked one, whose effect is that of `TrackedTerminate`.
- `set_threading_model` raising on an unknown model type cannot happen with a closed datatype.
- `export_simulation_data` (file I/O), `create_example_simulation` (sleep-based demo set-up), the UI, the entry point, the logger and the print utilities are not part of this model.
- Python float rounding, NaN and infinities are not modelled, because reals are exact.
- `current_time` is advanced only by the UI's timer (ui.py:783), which is not modelled. The engine itself only resets it to 0 and reports it.
- Simulator.ThreadSimulator.RunProcessManyToOne: every thread of the process is started and run at one clock reading, and every work function leaves the same progress. The source reads the clock afresh in each `start`, `run` and `terminate` and runs each thread's own work function. The model also keeps tracking installed for the whole loop. The source does not guarantee this for Many-to-One: `run_simulation` returns without joining its kernel thread (models.py:154-156), and `start_simulation` then puts the plain `Thread` methods back (simulator.py:265-270). The loop's later calls may therefore go untracked. When the process lists one thread twice, the loop's contract does not state that thread's final view. It states the records and the timeline only turn by turn, through `StartAndRun`, not for the whole loop.
