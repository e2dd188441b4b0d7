# Blocking and async IO benchmarks: a verified model

The repository measures what blocking costs against async IO. Most of it is plumbing; these
Dafny modules model the parts that carry an algorithm or a protocol and prove what those parts
are for.

* **Hand-off and cancellation** (`FutexProtocol.dfy`, `FutexGroup.dfy`, `SocketProtocol.dfy`,
  `SocketGroup.dfy`, `AsyncProtocol.dfy`, `AsyncGroup.dfy`). Pairs of workers pass a token
  through two futexes, a socket pair, or tokio notifications plus sockets plus a barrier, while a
  termination flag may go up at any instant. Each worker is a program counter; a run is any
  interleaving of atomic steps. Safety is proved of every run, and a rank bounds what is left to
  do once the flag is up. The group modules run any number of pairs together, over one slice of
  futexes, one vector of sockets or on one runtime, and show that every such run projects onto a run of each pair.
* **Sliding-window IPC** (`Ranges.dfy`, `SlidingWindow.dfy`, `IpcBounds.dfy`,
  `ChangePoints.dfy`, `TightBounds.dfy`). The SQL tables are sequences and an as-of join is
  "first row whose end is above x". The simple form is a sum over the cycles of a window; the
  fast form uses running totals and two edge ranges. `Cdf.dfy` and `OnCpu.dfy` do the same for
  the distribution of sample durations and for the pairing of system calls with switches.
* **Log writers** (`ScanningWriter.dfy`, `MorphingWriter.dfy`, `LockingWriter.dfy`,
  `CommandOutput.dfy`). A line
  re-chunker over one array that is filled, compacted, grown and appended to in place; a writer
  that changes its destination while another goroutine drains a pipe; a lock that merges many
  line streams. Each is proved against a batch specification,
  and so is the chain of all three that every command's output runs through.
* **Echo and client group** (`EchoConnection.dfy`, `JavaEcho.dfy`, `ClientGroup.dfy`). A
  request/reply protocol over a fragmenting byte stream, in its two versions, and a start
  barrier combined with retry and a dial semaphore.
* **Joining commands** (`JoinCommands.dfy`). The receive loop that closes writers, collects
  errors and cancels the remaining commands, for every order of completion.

`Bytes.dfy`, `Totals.dfy` and `Options.dfy` hold byte strings, sums and optional values. Where the code updates state step by
step the model has a pure step function, on which the theorems are stated, and a class whose
methods are proved to take exactly those steps; the method that drives the class takes an
arbitrary schedule. The modules for the queries are pure, as the queries are.

## Where the code does less than it says

Each of these is a theorem with the exact condition or a family of runs.

* `MorphingWriter` promises the same bytes in the same order (lines 18-20). A Write that the
  pipe takes only in part, because the reader's buffer fills up between the first delimiter and
  the end of that Write, is handed over again from its beginning: line 96 delegates all of `p`,
  not `p[n:]`. `ForwardsExactlyIff` gives the exact condition, `LongWriteIsDoubled` a family of
  inputs, `ShortFirstLineIsSafe` a rule a caller can follow.
* `ScanningWriter` appends the delimiter to a slice of the scanner's own buffer. That is right
  for every input if and only if the delimiter has at most one byte, as those of the callers do,
  or is longer than any buffer (`RechunkedIffHarmless`); every other one overwrites a byte not
  yet scanned (`OtherDelimitersCorrupt`).
* The two futex threads are not in lockstep: a wake that arrives late lets a thread through a
  second time. Either thread can complete two iterations for every one of its peer, without bound
  (`FirstDriftsByFactorTwo`, `SecondDriftsByFactorTwo`). A run can end with the counts a and b
  exactly when neither exceeds twice the other by more than one (`EndCountsIff`).
* `CreateOutputWriter` returns the `MorphingWriter`, and nobody closes the `ScanningWriter` behind
  it. Output that does not end with a line feed therefore loses its last line
  (`LosesLastLineIff`).
* Sockets that hold fewer than two bytes per direction would deadlock the pair on cancellation
  (`CapacityTwoIsNeeded`), and in the async runner all pairs (`HaltsIff`). Real ones hold far more.
* The interpolated IPC of a window that starts before cycle 1 counts cycles that do not exist,
  unless the first range has no instructions (`LinearExactIff`), and can then exceed the
  optimistic bound; `LinearWithinBounds` says exactly when, and
  `EarlyRowExceedsBound` shows a row.
* The conservative bound is not always reached: an edge range with instructions that lies wholly
  inside the window could be counted in full (`ConservativeIsAttainedIff`). The optimistic one
  always is.
* The consistency assertion on on-CPU intervals can fail although every system call behaves,
  when an edge of the view separates a call from its switch or return. `AssertionHoldsIff` is the
  exact condition for every trace and view, `ViewCanBreakAssertion` an instance.
* The Java server records one iteration less than its client, since it meets the end of the
  stream before `record()`. `Common.read` takes whatever one read delivers for a message, so when
  the message is a shorter piece repeated, as the all-zero name of the first of ten or more
  clients is, the server can record the pieces instead (`CountsArePieces`, `MiscountsIff`).
* `RunCommands` may call the cancel function twice, once for a failed start and once while
  joining; each of the two places does so at most once.

The model follows the code in two more places, about which nothing is proved. In
`MorphingWriter` a receive from the closed `readerDone` yields `ok == false`, so the fast path of
lines 78-85 is never taken and `GetMorphedWriter` (112-122) always panics; Writes still arrive, by
way of the closed pipe. In the duration table the stacked columns named after 5, 25 and 125
instructions count samples with at most 1, 20 and 100 (util.py:521-523), and samples without a
branch type are dropped along with the 'trace begin' ones.

## Model

| member | source | states |
|---|---|---|
| FutexProtocol.NoLostWakeup | rust/csgb/src/lib.rs:143-174 | over every interleaving of store, wake, compare-and-sleep and clear, with the flag raised anywhere, the two threads are never both asleep and none sleeps after the other returned; until both have returned one can step |
| FutexProtocol.ErasedSignalIsNotNeeded | rust/csgb/src/lib.rs:144-157 | a cancel signal erased by the clearing store is never missed: in no continuation does that thread wait again, and its next look at the flag sends it to cancel |
| FutexProtocol.TerminationBound | rust/csgb/src/lib.rs:48-68 | with the flag up, both threads take at most 20 more steps plus one per interrupted wait |
| FutexProtocol.CountsWithinFactorTwo | rust/csgb/src/lib.rs:158-168 | spurious returns aside, neither thread completes more than twice its peer's iterations and one, the second one two more until the first has returned |
| FutexProtocol.FirstDriftsByFactorTwo | rust/csgb/src/lib.rs:144-168 | for every n some run without spurious returns ends with 2n iterations of the first thread and n of the second |
| FutexProtocol.SecondDriftsByFactorTwo | rust/csgb/src/lib.rs:144-168 | for every n some run without spurious returns ends with n iterations of the first thread and 2n of the second |
| FutexProtocol.EndCountsIff | rust/csgb/src/lib.rs:48-68 | some run without spurious returns ends with the counts a and b if and only if a <= 2b + 1 and b <= 2a + 1 |
| FutexProtocol.FutexPair.TakeStep | rust/csgb/src/lib.rs:143-174 | each atomic step of a thread moves the two futexes, counters and program points to the state of the protocol and nothing else |
| FutexProtocol.FutexPair.RunPair | rust/csgb/src/lib.rs:38-68 | for every schedule, moment of the flag and finite number of interrupted waits both threads return, the result is the sum of their counts, and these obey the bounds above |
| FutexGroup.FutexesArePrivate | rust/csgb/src/lib.rs:176-194 | the indices computed from thread ids pair the threads up symmetrically: futex t has thread t as its only waiter, and the two futexes of a thread are its own and its peer's |
| FutexGroup.RunProjects | rust/csgb/src/lib.rs:176-195 | every run of all threads over the shared slice of futexes is, for each pair, a run of that pair alone |
| FutexGroup.NoPairStuck | rust/csgb/src/lib.rs:48-68 | in every run of all threads each pair that has not returned can step |
| FutexGroup.TerminationBound | rust/csgb/src/lib.rs:48-68 | with the flag up, all threads take at most 20 steps per pair plus one per interrupted wait |
| FutexGroup.CountsStayClose | rust/csgb/src/lib.rs:176-195 | in every run of all threads without spurious returns the counts of the two threads of a pair stay within the bounds above |
| FutexGroup.Threads.RunAll | rust/csgb/src/lib.rs:38-68 | under every schedule all threads return and the total adds up every thread's count |
| SocketProtocol.Lockstep | rust/csgb/src/lib.rs:226-241 | over all runs the counts differ by at most one and at most two bytes are in flight in each direction, cancel bytes included; before the flag is up there is one byte at most in all |
| SocketProtocol.NeverStuck | rust/csgb/src/lib.rs:226-241 | with room for two bytes no write ever blocks and some thread can step until both have returned |
| SocketProtocol.CapacityTwoIsNeeded | rust/csgb/src/lib.rs:237-241 | a stuck state is reachable if and only if a direction has room for fewer than two bytes |
| SocketProtocol.CountsAreTrips | rust/csgb/src/lib.rs:226-235 | in every run a thread's count is the number of its completed round trips |
| SocketProtocol.TerminationBound | rust/csgb/src/lib.rs:48-68 | with the flag up, steps taken and steps left add up to a number fixed at that moment, at most eight |
| SocketProtocol.SocketPair.TakeStep | rust/csgb/src/lib.rs:202-241 | one step of a thread moves socket contents, counts and program points as the protocol says |
| SocketProtocol.SocketPair.RunPair | rust/csgb/src/lib.rs:38-68 | for one pair and every schedule both threads return in lockstep, and exactly the two cancel bytes are left unread |
| SocketGroup.SocketsArePrivate | rust/csgb/src/lib.rs:245-252 | in the vector that flat_map builds, the socket at a thread's index belongs to the pair of that thread, at the end its role needs |
| SocketGroup.RunProjects | rust/csgb/src/lib.rs:243-261 | every run of all threads over the vector of sockets is, for each pair, a run of that pair alone |
| SocketGroup.EveryPairInLockstep | rust/csgb/src/lib.rs:243-261 | in every run of all threads each pair keeps within one iteration and two bytes per direction, and can step until it has returned |
| SocketGroup.TerminationBound | rust/csgb/src/lib.rs:48-68 | with the flag up, steps of all threads taken and left add up to a fixed number, at most eight per pair |
| SocketGroup.Threads.RunAll | rust/csgb/src/lib.rs:243-261 | for any number of pairs and every schedule all threads return, each pair in lockstep, and the result adds up their counts |
| AsyncProtocol.NoCallBlocksOrFails | rust/csgb/src/lib.rs:325-365 | under every schedule of await-to-await segments pending notifications never outnumber the bytes they announce, so no blocking read lacks a byte and no call fails |
| AsyncProtocol.FaultFreeIffRoomForTwo | rust/csgb/src/lib.rs:325-365 | a blocking or failing call is reachable if and only if a direction has room for fewer than two bytes |
| AsyncProtocol.StreamsOutliveWrites | rust/csgb/src/lib.rs:333-338 | a stream is dropped only once its peer has written its last byte and reached the barrier |
| AsyncProtocol.NeverStuck | rust/csgb/src/lib.rs:276-314 | in every reachable state some task can run until both have returned |
| AsyncProtocol.CountsAreTrips | rust/csgb/src/lib.rs:325-359 | in every run a task's count is the number of its completed round trips |
| AsyncProtocol.TerminationBound | rust/csgb/src/lib.rs:276-289 | with the flag up the two tasks take at most twelve more segments |
| AsyncProtocol.AsyncPair.TakeStepFirst | rust/csgb/src/lib.rs:325-338 | each segment of the first task changes streams, permits and barrier as the protocol says |
| AsyncProtocol.AsyncPair.TakeStepSecond | rust/csgb/src/lib.rs:352-365 | the same for the second task |
| AsyncProtocol.AsyncPair.RunPair | rust/csgb/src/lib.rs:276-289 | for one pair and every schedule both tasks return without a fault and within one iteration of each other |
| AsyncGroup.RunProjects | rust/csgb/src/lib.rs:292-389 | every run of all tasks on the one runtime is, for each pair, a run of that pair alone |
| AsyncGroup.RuntimeNeverHalts | rust/csgb/src/lib.rs:292-389 | with room for two bytes no schedule of all tasks blocks the runtime or fails a call, and a task of every unfinished pair is ready |
| AsyncGroup.HaltsIff | rust/csgb/src/lib.rs:292-389 | a blocking or failing call, which stops all pairs, is reachable if and only if there is a pair and a direction has room for fewer than two bytes |
| AsyncGroup.TerminationBound | rust/csgb/src/lib.rs:276-289 | with the flag up all tasks together take at most twelve more segments per pair |
| AsyncGroup.Tasks.RunAll | rust/csgb/src/lib.rs:292-314 | for any number of pairs and every schedule all tasks return, no call has blocked or failed, and the result adds up their counts |
| Ranges.TableTilesTrace | intel_proc_trace/sql/timestamped_ranges.sql:1-52 | the ranges tile the cycles without gap or overlap, each starting where the one before ends, and the last row holds the totals of all samples |
| Ranges.RowsAreSamples | intel_proc_trace/sql/timestamped_ranges.sql:16-52 | the rows are, in the order of the samples, exactly those with instructions or cycles, each with its sample's counts and the totals of all samples up to it |
| SlidingWindow.SumOfRanges | intel_proc_trace/iptdataframes/util.py:195-202 | for every placement of instructions onto cycles, a difference of running totals is the sum over the cycles between |
| SlidingWindow.SpreadIsPlacement | intel_proc_trace/iptdataframes/util.py:206-210 | the even spread behind the interpolation agrees with every range's instruction count |
| IpcBounds.CellsAddUp | intel_proc_trace/iptdataframes/util.py:178-202 | leading, interior and trailing cycles are nonnegative and add up to the window size |
| IpcBounds.BoundsHold | intel_proc_trace/iptdataframes/util.py:204-205 | whatever cycles the instructions really fell on, the window holds between W times the conservative and W times the optimistic IPC |
| IpcBounds.LinearIsPerCycleSum | intel_proc_trace/iptdataframes/util.py:206-210 | W times the interpolated IPC is the sum over the window's cycles of the owning range's rate, plus a stated excess for windows that start before cycle 1 |
| IpcBounds.LinearExactIff | intel_proc_trace/iptdataframes/util.py:206-210 | the interpolated value is that sum if and only if the window starts at cycle 1 or later or the first range has no instructions |
| IpcBounds.LinearWithinBounds | intel_proc_trace/iptdataframes/util.py:204-210 | for every row the interpolated IPC is at least the conservative one, and at most the optimistic one if and only if the window starts at cycle 1 or later or what is credited to cycles before the trace is no more than the leading range holds behind the window |
| TightBounds.OptimisticIsAttained | intel_proc_trace/iptdataframes/util.py:204 | some placement reaches the optimistic bound, so no smaller bound holds |
| TightBounds.ConservativeIsAttainedIff | intel_proc_trace/iptdataframes/util.py:205 | some placement reaches the conservative bound if and only if each edge range has no instructions or reaches outside the window |
| ChangePoints.KeptRowsAreDistinct | intel_proc_trace/iptdataframes/util.py:132-166 | the alias filter drops no leading row and leaves no window end twice |
| ChangePoints.EveryRowIsAWindow | intel_proc_trace/iptdataframes/util.py:77-142 | every emitted row carries the ranges that own the first and the last cycle of its window, whichever side produced it |
| ChangePoints.EndsAreChangePoints | intel_proc_trace/iptdataframes/util.py:77-166 | a window end is emitted if and only if it is in the trace and some range ends at the window's last or at its first cycle |
| ChangePoints.SpanHasFixedEdges | intel_proc_trace/iptdataframes/util.py:77-166 | for every window end after the previous row and up to a row, the leading and trailing ranges are those of the row |
| ChangePoints.SpanIsAffine | intel_proc_trace/iptdataframes/util.py:168-210 | over such a span the interpolated sum is a straight line through the row's value |
| ChangePoints.SpanStaysWithinBounds | intel_proc_trace/iptdataframes/util.py:168-205 | over the whole span the row's two bounds hold for every placement |
| ChangePoints.EarlyRowExceedsBound | intel_proc_trace/iptdataframes/util.py:204-210 | a table and a row before cycle 1 whose interpolated value is 10 and whose optimistic bound is 2 |
| ChangePoints.SpansTileTrace | intel_proc_trace/iptdataframes/util.py:212-237 | every possible window end lies in the span of exactly one row, within the width the row states unless it is the first row, whose stated width is 0 |
| ChangePoints.WidthIsSpan | intel_proc_trace/iptdataframes/util.py:212-237 | a row but the first describes exactly the window ends within its stated width |
| Cdf.DiscardsLargestAllowed | intel_proc_trace/iptdataframes/util.py:489-512 | the result is, in the order of the input, the samples with a branch type other than 'trace begin' outside the largest set of longest ones, closed under ties, that has at most the configured share of cycles |
| Cdf.SomeLeftIff | intel_proc_trace/iptdataframes/util.py:489-512 | something with cycles is left if and only if the configured share is below 1 |
| Cdf.RowsAreDurations | intel_proc_trace/iptdataframes/util.py:516-527 | rows come by strictly increasing duration |
| Cdf.EveryDurationHasRow | intel_proc_trace/iptdataframes/util.py:516-527 | every duration that occurs has a row |
| Cdf.CdfCountsSamples | intel_proc_trace/iptdataframes/util.py:528-541 | running sums over groups, divided by their maximum, are the shares one gets by counting samples and cycles directly |
| Cdf.CdfIsShareOfRows | intel_proc_trace/iptdataframes/util.py:528-541 | the two columns are the shares of rows and of cycles that last no longer |
| Cdf.WeightedBelowPlain | intel_proc_trace/iptdataframes/util.py:528-541 | the weighted CDF is at most the plain one, equal only at the longest duration, where both are 1 |
| Cdf.CdfsIncrease | intel_proc_trace/iptdataframes/util.py:528-541 | both CDFs increase strictly from row to row |
| Cdf.StackedSharesAddUp | intel_proc_trace/iptdataframes/util.py:521-546 | the four stacked shares of a duration are nonnegative and add up to 1 |
| Cdf.StackedSharesCount | intel_proc_trace/iptdataframes/util.py:521-546 | the shares count the rows of the duration with at most 1, 20 and 100 instructions |
| OnCpu.JoinIsAsOf | intel_proc_trace/iptdataframes/util.py:428-438 | a start is joined to j if and only if j is the end with the least time above the start |
| OnCpu.JoinsNextEvent | intel_proc_trace/iptdataframes/util.py:401-438 | a start whose next event is in view as well is joined to exactly that event |
| OnCpu.JoinsOwnReturn | intel_proc_trace/iptdataframes/util.py:405-438 | a system call that is not left before it returns makes a row of its own, whichever of its two ends is in view |
| OnCpu.CoversSyscallTime | intel_proc_trace/iptdataframes/util.py:401-438 | between two events in view the rows cover exactly the instants spent inside system calls, each once |
| OnCpu.RowTimeIsBusyTime | intel_proc_trace/iptdataframes/util.py:401-438 | for every view, from one event in view to another, the durations of the rows add up to the time spent inside system calls |
| OnCpu.AssertionHoldsIff | intel_proc_trace/iptdataframes/util.py:405-455 | for every view of every trace of one CPU the assertion finds no row if and only if in view no two switches are adjacent and no undisturbed call returns as another, the first end in view is a switch or returns from every call listed from before it, and a call that is the last event in view is not followed by the return of another |
| OnCpu.WholeViewAssertionIff | intel_proc_trace/iptdataframes/util.py:441-455 | with the whole trace in view only the first condition is left |
| OnCpu.ViewCanBreakAssertion | intel_proc_trace/iptdataframes/util.py:405-455 | a trace that passes in full and fails in a narrower view, though every system call in it behaves |
| ScanningWriter.AppendHarmlessIff | harness/golang/internal/harnessio/scanningwriter.go:32-33 | exactly when the in-place append leaves every unread byte alone |
| ScanningWriter.LoopIsBatch | harness/golang/internal/harnessio/scanningwriter.go:30-39 | from any state of the shared buffer the loop writes the lines still to come, and stops early exactly when one does not fit |
| ScanningWriter.LinesAreRechunked | harness/golang/internal/harnessio/scanningwriter.go:21-61 | for every way of cutting the input into Writes, downstream receives the batch line split of the concatenation, each line with the delimiter |
| ScanningWriter.OpenWriterKeepsLastLine | harness/golang/internal/harnessio/scanningwriter.go:31-39 | before Close, downstream has received exactly the lines ended by a line feed, for every way of cutting the input into Writes |
| ScanningWriter.CompleteLinesIff | harness/golang/internal/harnessio/scanningwriter.go:57-61 | those are all lines if and only if the input is empty, ends with a line feed or has a line that does not fit |
| ScanningWriter.TextIsRechunked | harness/golang/internal/harnessio/scanningwriter.go:30-61 | for a text of lines that end in LF or CR LF and fit the buffer, however it is cut into Writes, downstream gets exactly the lines' contents with the delimiter, already before Close |
| ScanningWriter.TextWithRestIsRechunked | harness/golang/internal/harnessio/scanningwriter.go:30-61 | what stands behind the last line end is one more line, written after Close and missing before |
| ScanningWriter.OtherDelimitersCorrupt | harness/golang/internal/harnessio/scanningwriter.go:33 | every delimiter of two bytes up to the largest buffer size spoils a line of a given input |
| ScanningWriter.RechunkedIffHarmless | harness/golang/internal/harnessio/scanningwriter.go:21-61 | all inputs are rechunked correctly if and only if the delimiter has at most one byte or more than the largest buffer holds |
| ScanningWriter.Scanner.Round | harness/golang/internal/harnessio/scanningwriter.go:31-39 | one turn over the array (find a line, append, write, or compact, grow and fill) is one step of the specification |
| ScanningWriter.Scanner.Run | harness/golang/internal/harnessio/scanningwriter.go:30-49 | the goroutine over the array ends with exactly the specified downstream Writes and error |
| MorphingWriter.DestinationHolds | harness/golang/internal/harnessio/morphingwriter.go:42-109 | under every schedule, after Close, morph ran once on the prefix through the first delimiter or the whole stream, and the destination holds what the reader took followed by all Writes from the first one not taken whole |
| MorphingWriter.ForwardsExactlyIff | harness/golang/internal/harnessio/morphingwriter.go:77-98 | the destination holds exactly the concatenation of all Writes if and only if no Write has the delimiter or the first one that has it ends before the reader's buffer is full |
| MorphingWriter.ShortFirstLineIsSafe | harness/golang/internal/harnessio/morphingwriter.go:18-20 | that is so when the Writes through the first delimiter fit the reader's buffer |
| MorphingWriter.LongWriteIsDoubled | harness/golang/internal/harnessio/morphingwriter.go:94-97 | a single Write longer than the buffer with the delimiter in its first block is forwarded with that block twice |
| MorphingWriter.NeverStuck | harness/golang/internal/harnessio/morphingwriter.go:42-109 | until Close has returned one of the two goroutines can step |
| MorphingWriter.TerminationBound | harness/golang/internal/harnessio/morphingwriter.go:42-109 | every schedule is finite, bounded by a rank of its first state |
| MorphingWriter.MorphingWriter.WriteAllAndClose | harness/golang/internal/harnessio/morphingwriter.go:37-109 | the two goroutines over their shared fields return under every schedule, with the destination's contents and the condition above |
| LockingWriter.OutputIsMerge | harness/golang/internal/harnessio/lockingwriter.go:17-21 | at every moment the output is whole lines, but for the part accepted of the line being written, and each source's lines are in its order |
| LockingWriter.FinalOutputIsMerge | harness/golang/internal/harnessio/lockingwriter.go:17-21 | in the end the output is a merge whose projection on each source is that source's line sequence |
| LockingWriter.ScannedSourcesMerge | harness/golang/internal/harnessio/lockingwriter.go:17-21 | with scanning writers as sources each projection is the line split of what that source was given |
| LockingWriter.NeverStuck | harness/golang/internal/harnessio/lockingwriter.go:17-21 | until all is written some source can move |
| LockingWriter.NextMakesProgress | harness/golang/internal/harnessio/lockingwriter.go:17-21 | whoever moves, each step is one of the steps left |
| LockingWriter.TerminationBound | harness/golang/internal/harnessio/lockingwriter.go:17-21 | every schedule ends: a run has made all Writes if and only if it has one step per byte and two per Write, and none is longer |
| LockingWriter.SharedOutput.TakeStep | harness/golang/internal/harnessio/lockingwriter.go:17-21 | one step under the lock changes holder, output and the source's remaining lines as specified |
| LockingWriter.SharedOutput.WriteAll | harness/golang/internal/harnessio/lockingwriter.go:17-21 | for every schedule all sources get their Writes done and the output is a merge of their lines |
| CommandOutput.LinesOfSource | harness/golang/internal/harnessio/morphingwriter.go:152-158 | the lines passed on of one command are the complete lines of all its Writes if no Write is cut, and else those of the stream with the beginning of the cut Write repeated |
| CommandOutput.OutputMergesCompleteLines | harness/golang/internal/harnessio/morphingwriter.go:152-158 | under every schedule of the three stages the common output is whole lines, and those of each command are its complete lines in order |
| CommandOutput.TextIsMerged | harness/golang/internal/harnessio/morphingwriter.go:152-158 | the part of the output of a command that writes text is the contents of its complete lines, each with a line feed |
| CommandOutput.LosesLastLineIff | harness/golang/internal/harnessio/morphingwriter.go:152-158 | a command whose Writes are not cut loses a line if and only if its output is not empty and does not end with a line feed |
| EchoConnection.ClientMessageIsLine | golang/internal/echo/tcp.go:260-265 | every client's message is one line, ended by its only newline |
| EchoConnection.EchoIsFaithful | golang/internal/echo/tcp.go:346-464 | under every fragmentation and schedule the reader thrown away holds no byte, every line read is the first message, at most one message is on its way, and neither side fails except the server of a client that makes no iteration |
| EchoConnection.BothCountAll | golang/internal/echo/tcp.go:418-464 | when both have returned, each has counted every iteration of the client |
| EchoConnection.NeverStuck | golang/internal/echo/tcp.go:331-500 | until both have returned one of them can step |
| EchoConnection.NextMakesProgress | golang/internal/echo/tcp.go:421-464 | every step completes an iteration or shortens the current one, so every schedule ends |
| EchoConnection.TerminationBound | golang/internal/echo/tcp.go:331-500 | under every schedule and fragmentation a run has at most two steps per byte and four more for each iteration and for the end |
| EchoConnection.TotalCount | golang/internal/echo/tcp.go:448-452 | over n clients of K iterations the counts add up to 2nK |
| EchoConnection.Connection.RunToEnd | golang/internal/echo/tcp.go:331-464 | for every schedule and fragment size both sides return with all iterations counted |
| JavaEcho.PiecesAreRecorded | javaecho/app/src/main/java/javaecho/Common.java:12-74 | whatever the reads deliver, in a run that completes the server has cut every message into the same number of equal pieces and recorded all of them but one |
| JavaEcho.ServerCountsOneLess | javaecho/app/src/main/java/javaecho/Common.java:12-40 | unless the message is a shorter piece repeated, in every run that completes the client records K iterations and the server K-1 |
| JavaEcho.CountsArePieces | javaecho/app/src/main/java/javaecho/Common.java:61-74 | the counts a server can end with are exactly K times j less one, for each way to cut the message into j equal pieces |
| JavaEcho.MiscountsIff | javaecho/app/src/main/java/javaecho/Common.java:61-74 | a run that completes can leave another count than K-1 if and only if there is an iteration and the message is a shorter piece repeated |
| JavaEcho.OneDigitIsSafe | javaecho/app/src/main/java/javaecho/Client.java:116-121 | with fewer than ten clients no name is a piece repeated |
| JavaEcho.ZerosRepeat | javaecho/app/src/main/java/javaecho/Client.java:116-121 | with ten or more the first client's name is |
| JavaEcho.WholeReadsNeverFail | javaecho/app/src/main/java/javaecho/Common.java:61-74 | when no read is short no check throws, for any message, and the counts are K and K-1 |
| JavaEcho.TotalCount | javaecho/app/src/main/java/javaecho/Common.java:26-33 | over n connections of K iterations that complete, with names that do not repeat a piece or reads that are not short, the records add up to n(2K-1) |
| JavaEcho.NeverStuck | javaecho/app/src/main/java/javaecho/Common.java:12-74 | for reads of any size one side can step until a check throws or both are done |
| JavaEcho.TerminationBound | javaecho/app/src/main/java/javaecho/Common.java:12-74 | for reads of any size a run has at most two steps per byte sent, two per iteration and four more |
| JavaEcho.Connection.StepClient | javaecho/app/src/main/java/javaecho/Common.java:16-52 | a step of the client over its buffer is the step of the protocol |
| JavaEcho.Connection.StepServer | javaecho/app/src/main/java/javaecho/Server.java:89-98 | a step of the server over its buffer is the step of the protocol |
| JavaEcho.Connection.RunToEnd | javaecho/app/src/main/java/javaecho/Server.java:89-98 | for every schedule and all sizes of reads a check throws or both sides end with the counts above |
| JavaEcho.Write | javaecho/app/src/main/java/javaecho/Common.java:76-84 | the message is put on the channel whole, or does not fit the buffer |
| JavaEcho.ReadMessage | javaecho/app/src/main/java/javaecho/Common.java:61-74 | one read distinguishes end of stream, a failed check and success, and leaves the bytes read in the buffer |
| ClientGroup.RetriedExactly | golang/internal/echo/tcp.go:293-301 | the test holds of failed dials, and of resets and broken pipes of the first iteration, and of nothing else |
| ClientGroup.RetriesThreeTimes | golang/internal/echo/tcp.go:280-291 | in every run a client returns after such a failure if and only if it was its third, and else starts over; it returns at once after any other error, and without error exactly when its last step was neither an error nor an unexpected end of stream |
| ClientGroup.GoodStepsSucceed | golang/internal/echo/tcp.go:305-326 | from any point of any run three good steps take a starting client to the barrier and two more, once it is open, to a return without error |
| ClientGroup.SucceedsAfterFailures | golang/internal/echo/tcp.go:280-291 | after none, one or two failed dials a client can still pass the barrier and return without error |
| ClientGroup.BarrierHolds | golang/internal/echo/tcp.go:255-259 | a client past the barrier has found every client connected or gone |
| ClientGroup.DoneExactlyOnce | golang/internal/echo/tcp.go:243-291 | for any number of clients, permits, outcomes and any schedule no client calls Done twice and each has called it once when it returns; the wait group stays nonnegative and nobody at the barrier holds a permit |
| ClientGroup.BarrierIsTight | golang/internal/echo/tcp.go:255-259 | the barrier is open if and only if every client has used its connection once or returned |
| ClientGroup.NeverStuck | golang/internal/echo/tcp.go:239-301 | with a permit the group cannot deadlock: until all have returned one client can go on |
| ClientGroup.TerminationBound | golang/internal/echo/tcp.go:280-291 | retries are bounded: no run has more than eleven steps per client |
| ClientGroup.Group.RunAll | golang/internal/echo/tcp.go:232-270 | for every schedule and every outcome all clients return, all permits are back and every Done was called once |
| JoinCommands.OneReceiptPerCommand | harness/golang/internal/eventloop/command.go:181-254 | no command is received twice or unstarted, and the loop has returned if and only if every started command has been received |
| JoinCommands.ReceiptsAreWaitResults | harness/golang/internal/eventloop/command.go:196-200 | what is received of a command is what its own Wait returned |
| JoinCommands.CancelsOnceReportsInOrder | harness/golang/internal/eventloop/command.go:209-246 | at every moment of every run the cancel function has been called once if the first command or a nongraceful one was received, and never otherwise; errors are joined in completion order |
| JoinCommands.ReportsAreNongraceful | harness/golang/internal/eventloop/command.go:236-242 | in every run in which the closes succeed the error names at every moment exactly the nongraceful commands received, in completion order |
| JoinCommands.ErrorNamesExactly | harness/golang/internal/eventloop/command.go:147-253 | after the loop the error names exactly the writers that failed to close and the commands whose Wait returned something other than no error, exit code 143 or signal 15, and the rest was cancelled once if and only if the first command was started or one ended so |
| JoinCommands.NoErrorIff | harness/golang/internal/eventloop/command.go:214-253 | after the loop there is no error if and only if every started command ended gracefully and closed its writers |
| JoinCommands.TerminationBound | harness/golang/internal/eventloop/command.go:214-251 | a run has returned if and only if it took one wait and one receipt per started command |
| JoinCommands.NeverStuck | harness/golang/internal/eventloop/command.go:190-203 | until the loop returns it can receive or some command still runs |
| JoinCommands.StartCommands | harness/golang/internal/eventloop/command.go:122-142 | commands start in order up to the first failure, after which none is created |
| JoinCommands.Joiner.Join | harness/golang/internal/eventloop/command.go:181-254 | the loop over its own variables returns for every order of completion with exactly those entries and cancels |
| JoinCommands.RunCommands | harness/golang/internal/eventloop/command.go:29-50 | no error if and only if every command started, ended gracefully and closed its writers; the error's entries and the calls of cancel are given exactly |

## Left out

- Weak memory: the futex model interleaves sequentially consistent steps, whatever the `Ordering`.
- Wakes of a futex with several waiters: each futex has one waiter, as `FutexesArePrivate` proves.
- Integer widths: thread ids and counts do not wrap, so `num_pairs * 2` is assumed to fit `u16`.
- Interrupted socket calls (lib.rs:206-221), which skip a transfer silently, are assumed not to happen.
- AsyncGroup.Tasks.RunAll: a task that panics makes the result an error in the code; the model stops at that call, which `RuntimeNeverHalts` excludes.
- `YieldRunner` and `SleepRunner`, signal registration and command lines: single system calls.
- Ranges without cycles and the marker 10000.0 for a division by zero: every range is assumed to own a cycle.
- Rounding and casts of the analysis: arithmetic is over integers and reals; time stamps and debugging columns of the tables are not carried along.
- Ties in DuckDB's as-of joins: ends are strictly increasing, so there are none.
- `call_hierarchy` and the derivation of system calls and switches from call records (util.py:276-398): the on-CPU model starts from calls, returns and switches; a system call counts as listed when one of its ends is in view.
- Other split functions than lines, the limits of the scanner and of `MorphingWriter`'s buffered reader on empty reads, and errors of the downstream writer.
- Callers that write after the scanner has stopped: the pipe then refuses, and nothing more is written.
- CommandOutput.OutputMergesCompleteLines: output that passes through; what is turned into log records instead is not modelled, nor that the process can exit before the scanners have taken everything.
- `MorphingWriter`'s errors (`readerErr`), JSON sniffing and the two concrete morph functions: morph is a function of the first token, and writes downstream succeed.
- EchoConnection.BothCountAll: runs without network errors, in which the client stops after a number of iterations; other stop conditions, timeouts and closing by context are not modelled. Zero iterations stands for a client stopped before its first one.
- JavaEcho.Write: a blocking write puts the whole message on the channel; a short write, which the code checks for, is not modelled. After a check has thrown nothing more is said.
- ClientGroup.TerminationBound: the iterations after the barrier count as one step that may end in any outcome.
- Cancelling a client group by its context: an aborted dial or iteration is one of the arbitrary outcomes.
- How Wait arrives at its result, and that a cancelled command does end: both are left to the schedule.
- JoinCommands.NeverStuck: a command that ignores the cancel keeps the loop waiting, as it does in the code.
