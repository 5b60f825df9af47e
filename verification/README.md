# Verified model of the container start-up benchmark

The repository measures how fast groups of containers come up. It has four programs of its own: a
SOME/IP test application (`vsomeip-generic`) that offers a service and notifies in a loop, execution
managers that start a whole batch of containers at once (through crun, or through containerd), Python
scripts that generate their configurations, and a benchmark driver with the analysis of its logs. This
project states what these programs do as Dafny models and proves what holds of them.

`dafny verify dfyconfig.toml` checks everything. Nothing was executed: the model is a reading of the
source, and every claim below is a claim about that reading.

## How it is modelled

- **The service threads** (`ServiceProtocol`, `ServiceSafety`, `ServiceSending`, `ServiceShutdown`,
  `ServiceWithdrawal`). Initialising, offering, notifying and stopping thread, three mutexes, two condition variables,
  three flags. Every lock, unlock, flag access, condition-variable call and middleware call is one step, sequentially
  consistent; waits may end spuriously; a schedule is any interleaving. A flag test `a && b` is two steps.
- **The batch launcher** (`ContainerWorld`, `CellRuns`, `Launcher`, `LauncherProofs`, `LauncherTermination`). A process
  table in which `fork` may fail at any point and `wait` removes one ended child, as in POSIX.1 System Interfaces,
  `fork()` and `wait()`. Children act on a map of mounts and a map of what goes by each container name: crun's
  container, containerd's record and containerd's task, of which the two runtimes see only their own. Which operation
  is an error in which state follows "Lifecycle" and "Operations" of runtime.md of the OCI Runtime Specification. A
  killed process of a container may go away before or after any step; a track notes at which place of the
  program on that container it did, so that every interleaving has an exact sequential counterpart.
- **The driver** (`BenchmarkPhases`, `BenchmarkStarts`, `BenchmarkTeardown`, `BatchLog`, `BenchmarkDriver`,
  `DriverProofs`, `BenchmarkResults`, `ContainerdLife`, `Completion`). Invocations of the manager one after the other;
  processes go away at any time, also between two invocations, which stands for the driver's sleeps and for those of the
  containerd manager.
- **Counter, payload, cycle time** (`Notifier`, `CycleControl`). Classes with the source's fields, an array for
  the message buffer, 32-bit arithmetic written out.
- **Log times and aggregation** (`Timestamps`, `Statistics`, `Aggregation`, `LogSamples`, `LogLines`, `LogPhases`,
  `PrintedSamples`, `Grouping`). The printer fills its 64 characters in place; the lines of the managers are texts whose
  words decide which search pattern occurs in them; the analysis is a class whose loop is proved against a fold, and the
  fold against a plain grouping of the directory tree. Numbers in statistics are reals.
- **Configurations** (`Names`, `ConfigFiles`, `ContainerdFiles`, `Joining`, `Overlay`, `LayerCopy`). JSON is a
  sequence of members in any order (RFC 8259, section 4). The readers fill a table of records in place.
- `Options`, `Division` and `Decimal` are helpers.

## Where the code does not do what one expects

Each of these is proved, with the exact condition under which the expected behaviour holds.

- `stop()` can hang. If `running_` is cleared after the notify thread has tested its flags and before it
  waits, and no offer is under way, the signal is lost (`ServiceShutdown.ShutdownExactly`,
  `ServiceShutdown.LostWakeupReachable`). After the first completed `offer()` this cannot happen.
- `stop()` can return with the service offered. This is ruled out if and only if, when it is called, the offer thread is
  not between its test of `running_` and its offer (`ServiceWithdrawal.StopWithdrawsExactly`); in a given run it happens
  exactly if the thread is still there when the service is withdrawn (`ServiceWithdrawal.WithdrawnExactly`).
- With crun, starting in phases and starting in one go differ exactly if some container was created before (`create`
  fails in both forms, but only the separate `start` phase still runs it), or the process of one that an earlier kill
  left behind goes away during one of the two only. With containerd only the latter makes a difference.
- A start and the kill after it restore the machine exactly if every container comes back: one that the runtime in use
  did not have, if its killed process is gone before the delete; one that an earlier kill of that runtime left behind,
  only if its process still does not go away; one that was created, running or stopped, never. Neither runtime stands
  in the other's way, so crun comes back or not whatever containerd has prepared under the same names. On the machine
  that `prepare_image_and_bundle` makes, the waits before each delete decide alone
  (`BenchmarkResults.PreparedComesBack`).
- The start time of an iteration is negative exactly if the manager has logged a start and no application was registered
  after it (`LogSamples.StartNotNegative`); mount and create times never are.
- The analysis leaks samples of one group into the next exactly when some iterations of a group have log
  files and others have none.
- A single fast-mode command is undone by the next other command; two in a row, or a period of 0, make
  the fast cycle permanent.
- The segmented payload is shorter than the configured data size unless 160 bytes per fragment fit into the
  unused rest of the last one; it always is for sizes that need segmentation but less than one datagram.
- Application ids are distinct for up to 101 containers: all ids from index 100 on saturate to 0xffff.
- An overlay without a lower layer gets the option `lowerdir` without the equals sign.

A remark without a proof: the containerd manager prints the month counted from 0. The analysis does not read the date.

## Model

| member | source | states |
|---|---|---|
| ServiceSafety.StepKeepsInv | vsomeip-application/vsomeip-application/generic/main.cpp:74-417 | every step of every thread keeps lock ownership, flag, wait-set, sending and trace invariants |
| ServiceSafety.InitialisationOrder | vsomeip-application/vsomeip-application/generic/main.cpp:75-175 | in every interleaving: no service is offered before `init` has returned, no data set or notification sent before the payload exists, none sent before the first offer; the offer thread never has to wait |
| ServiceSafety.SendingExcludesOffers | vsomeip-application/vsomeip-application/generic/main.cpp:388-416 | from its first notification to its end the notify thread owns `notify_mutex_`, and no offer falls between two notifications |
| ServiceSafety.QuiescenceBound | vsomeip-application/vsomeip-application/generic/main.cpp:229-235 | after `running_` has become false at most one more notification and at most one more offer happen |
| ServiceSending.SendsAlternate | vsomeip-application/vsomeip-application/generic/main.cpp:388-416 | in every run data sets and notifications take turns, a data set first; behind the lock of the payload the last of the two was a data set, behind the call of notify a notification |
| ServiceSending.OneTurnSendsOnce | vsomeip-application/vsomeip-application/generic/main.cpp:393-415 | whatever the other threads do meanwhile, each turn of the sending loop sets the data exactly once and then notifies exactly once |
| ServiceSending.OffersAlternate | vsomeip-application/vsomeip-application/generic/main.cpp:253-258 | each offer is made and over before the next one is made |
| ServiceSending.NotificationReachable | vsomeip-application/vsomeip-application/generic/main.cpp:388-416 | a run in which a notification is sent |
| ServiceShutdown.StepWhileRescued | vsomeip-application/vsomeip-application/generic/main.cpp:229-263 | while stopping, every step keeps "whoever waits has a signal coming" and shrinks the measure |
| ServiceShutdown.NotStuckWhileRescued | vsomeip-application/vsomeip-application/generic/main.cpp:229-237 | some thread can move without a spurious wakeup until both joins have returned |
| ServiceShutdown.ShutdownTerminates | vsomeip-application/vsomeip-application/generic/main.cpp:210-263 | a stop that does not lose the wakeup ends within 25 steps in every interleaving, with both threads ended, and is never stuck |
| ServiceShutdown.LostWakeupHangs | vsomeip-application/vsomeip-application/generic/main.cpp:391-392 | from a lost wakeup some schedule without spurious wakeups gets stuck |
| ServiceShutdown.ShutdownExactly | vsomeip-application/vsomeip-application/generic/main.cpp:210-263 | stopping can never get stuck if and only if, when it begins, the notify thread is not about to wait or an offer is under way |
| ServiceShutdown.FirstOfferMakesStopSafe | vsomeip-application/vsomeip-application/generic/main.cpp:253-258 | once one `offer()` has completed, the notify thread is not in the wait set and the wakeup cannot be lost |
| ServiceShutdown.LostWakeupReachable | vsomeip-application/vsomeip-application/generic/main.cpp:391-392 | a state in which a stop loses the wakeup is reachable |
| ServiceShutdown.SpuriousWakeupGoesBack | vsomeip-application/vsomeip-application/generic/main.cpp:391-392 | a wait that ends spuriously while nothing is offered can go back to the very same state |
| ServiceWithdrawal.StopWithdrawsExactly | vsomeip-application/vsomeip-application/generic/main.cpp:229-263 | for every reachable state in which stop can be called: every run in which that stop returns leaves the service withdrawn if and only if the offer thread is not about to offer at the call |
| ServiceWithdrawal.WithdrawnExactly | vsomeip-application/vsomeip-application/generic/main.cpp:229-263 | a stop that has returned leaves the service withdrawn if and only if the offer thread was not about to offer when it was withdrawn, in every interleaving |
| ServiceWithdrawal.OfferedAgainReachable | vsomeip-application/vsomeip-application/generic/main.cpp:345-355 | a run in which stop has returned and the service was offered after its withdrawal |
| ServiceWithdrawal.ClearedExactly | vsomeip-application/vsomeip-application/generic/main.cpp:229-263 | a stop that has returned leaves `is_offered_` false if and only if the offer thread was not about to set it when it was cleared, in every interleaving |
| ContainerWorld.RefusedChangesNothing | meta-execution-manager/recipes-execution-manager/execution-manager/execution-manager/src/batch_command.c:12-72 | except for killing, an operation is refused exactly if it would change nothing |
| CellRuns.TrackedOp | meta-execution-manager/recipes-execution-manager/execution-manager/execution-manager/src/batch_command.c:12-72 | an operation of a command in an interleaving is the next one of the program on that container, with the exits noted so far; an error ends the program |
| CellRuns.TrackedVanish | meta-execution-manager/recipes-execution-manager/execution-manager/execution-manager/src/batch_command.c:12-72 | a process that goes away at any moment of an interleaving does so at one place of the program on its container |
| CellRuns.RunAllRunsEach | meta-execution-manager/recipes-execution-manager/execution-manager/execution-manager/src/batch_command.c:12-72 | running the commands one by one, each with its exits, runs each on its own container and mount point and changes nothing else |
| CellRuns.EachRanIsRunAll | meta-execution-manager/recipes-execution-manager/execution-manager/execution-manager/src/batch_command.c:12-72 | conversely, any machine in which each command has run on its own container is the result of running them one by one |
| LauncherProofs.StepKeepsInv | meta-execution-manager/recipes-execution-manager/execution-manager/execution-manager/src/batch_command.c:88-113 | every step of every process, and every process of a container that goes away, keeps the table, the fork progress, the log and how far the program of each container has come |
| LauncherProofs.BatchResult | meta-execution-manager/recipes-execution-manager/execution-manager/execution-manager/src/main.c:149-153 | when the parent has left its wait loop, or all native processes have ended, exactly the entries from some k on were executed, each once and completely; k is 0 if and only if no fork failed, else the failed fork was that for entry k - 1 and none was tried after it; the machine is as after running those one by one with the same exits, whatever the interleaving |
| LauncherProofs.ChildrenNeverFork | meta-execution-manager/recipes-execution-manager/execution-manager/execution-manager/src/batch_command.c:97-107 | no child ever comes to a fork or a wait, and each serves exactly one entry |
| LauncherTermination.StepShrinks | meta-execution-manager/recipes-execution-manager/execution-manager/execution-manager/src/batch_command.c:88-113 | every step, also a failing fork and a process that goes away, shrinks the measure of the batch |
| LauncherTermination.BatchTerminates | meta-execution-manager/recipes-execution-manager/execution-manager/execution-manager/src/main.c:149-153 | no interleaving is longer than the measure of the start, and when no manager process can move all of them have ended, the children of a non-native run all collected |
| BenchmarkPhases.WentEach | benchmarks/benchmark.py:214-258 | a list of invocations runs, on each container, its own part of each and touches nothing else |
| BenchmarkPhases.SameHistories | benchmarks/benchmark.py:195-305 | two histories end in the same machine if and only if they do the same to every container |
| BenchmarkTeardown.SingleCommandFails | meta-execution-manager/recipes-execution-manager/execution-manager/execution-manager/src/batch_command.c:18-72 | for every container and all exits, which of mount, umount, create, start, kill and delete ends with an error |
| BenchmarkTeardown.RunFails | meta-execution-manager/recipes-execution-manager/execution-manager/execution-manager/src/batch_command.c:46-58 | run ends with an error if and only if crun had a container of that name before |
| BenchmarkStarts.SequentialEqualsOneShot | benchmarks/benchmark.py:195-258 | from every machine and for all exits: mount, create, start in phases end as run does if and only if no container of crun was created before, and what was left killed goes away in both or in neither |
| BenchmarkStarts.CtrdSequentialEqualsOneShot | meta-execution-manager/recipes-execution-manager/execution-manager-containerd/execution-manager-containerd/src/batch_command.cc:64-103 | from every machine and for all exits: containerd create then start end as run does if and only if what was left killed goes away in both or in neither |
| BenchmarkStarts.StartsExactly | benchmarks/benchmark.py:195-258 | all containers of crun run after a one-shot start if and only if crun had none or a running one under each name, and after a phased start also from a created one; records and tasks of containerd do not matter |
| BenchmarkStarts.CtrdStartsExactly | meta-execution-manager/recipes-execution-manager/execution-manager-containerd/execution-manager-containerd/src/batch_command.cc:64-103 | both forms bring all tasks up if and only if each was running, or had a record and no task or a created one; containers of crun do not matter |
| BenchmarkTeardown.CrunRoundCell | benchmarks/benchmark.py:195-305 | for every cell and all exits: a start of crun in either form, then kill, delete, umount give the cell back if and only if crun had nothing there and the killed process is gone before the delete, or an earlier kill left it and it never goes away (and no killed task of containerd goes away meanwhile) |
| BenchmarkTeardown.CtrdRoundCell | meta-execution-manager/recipes-execution-manager/execution-manager-containerd/execution-manager-containerd/src/containerdclient.cc:18-23 | the same for create and start, or run, and then killAndDeleteTask of containerd, which need a record and leave it |
| BenchmarkTeardown.RoundRestores | benchmarks/benchmark.py:195-305 | for the whole machine: a start in any of the four forms and the stop after it restore it if and only if every container comes back |
| DriverProofs.PhaseBarrier | benchmarks/benchmark.py:214-258 | in every interleaving of a whole run, forks failing or not: when an entry begins, every entry begun by any earlier invocation has begun and ended before |
| DriverProofs.DriverResult | benchmarks/benchmark.py:229-258 | every interleaving of every invocation, with any forks failing and any killed processes going away at any time, ends in the machine that the invocations give entry by entry, each from its first launched entry on and with the same exits; these are all 0 if and only if no fork failed |
| DriverProofs.CompleteResult | benchmarks/benchmark.py:229-258 | every interleaving in which no fork failed ends in the machine that all entries of all invocations give one by one |
| BenchmarkResults.SequentialRunEqualsRun | benchmarks/benchmark.py:195-258 | all interleavings of `run_sequentiell` and of `run` with crun in which no fork failed leave the same machine if and only if no container of crun was created before, and what was left killed went away in both or in neither |
| BenchmarkResults.CtrdSequentialRunEqualsRun | benchmarks/benchmark.py:195-246 | the same for containerd: if and only if what was left killed went away in both or in neither |
| BenchmarkResults.StartThenKillRestores | benchmarks/benchmark.py:195-305 | a start in either form and the kill after it, crun or containerd, from every machine and in all interleavings in which no fork failed, give the machine back if and only if every container comes back |
| BenchmarkResults.PreparedComesBack | benchmarks/benchmark.py:145-160 | from a machine on which containerd has a record of every container and nothing else is there, a round of any kind gives the machine back if and only if every killed process is gone before its delete |
| BenchmarkResults.TestLoopRestores | benchmarks/benchmark.py:384-398 | all iterations of a test, with the runtimes in any order, start on the same machine if and only if in each of them every container comes back |
| ContainerdLife.PrepareStep | meta-execution-manager/recipes-execution-manager/execution-manager-containerd/execution-manager-containerd/src/batch_command.cc:40-62 | for every container and all exits, prepare leaves a record, whether or not there was one, and touches nothing else |
| ContainerdLife.KillTaskStep | meta-execution-manager/recipes-execution-manager/execution-manager-containerd/execution-manager-containerd/src/batch_command.cc:106-107 | kill leaves a created or running task killed if there is a record, and everything else as it was |
| ContainerdLife.DeleteContainerStep | meta-execution-manager/recipes-execution-manager/execution-manager-containerd/execution-manager-containerd/src/containerdclient.cc:8-16 | killAndDeleteContainer kills, deletes the task if its process is gone by then, and drops the record in any case |
| ContainerdLife.PreparesAll | meta-execution-manager/recipes-execution-manager/execution-manager-containerd/execution-manager-containerd/src/batch_command.cc:40-62 | every complete run of prepare, from a machine with nothing under these names, ends with a record and no task for each of them and nothing else changed |
| ContainerdLife.LifeRestores | meta-execution-manager/recipes-execution-manager/execution-manager-containerd/execution-manager-containerd/src/batch_command.cc:40-111 | prepare, create, start, killAndDeleteContainer, from every machine and in all interleavings without a failed fork, give the machine back if and only if no record was there and each task, if there was none, is gone before its delete, or was left killed and never goes away |
| ContainerdLife.LifeFromNothing | meta-execution-manager/recipes-execution-manager/execution-manager-containerd/execution-manager-containerd/src/batch_command.cc:40-111 | from a machine with nothing under these names: if and only if every process is gone before its delete |
| Completion.FinishBatch | meta-execution-manager/recipes-execution-manager/execution-manager/execution-manager/src/main.c:149-153 | from every state of a batch without a failed fork some interleaving ends it without one |
| Completion.EverySuffixHappens | meta-execution-manager/recipes-execution-manager/execution-manager/execution-manager/src/batch_command.c:92-111 | for every k some run of a batch launches exactly the entries from k on |
| Completion.EveryPlanCompletes | benchmarks/benchmark.py:214-305 | every plan can be completed, with any choice of whose killed processes go away after which invocation |
| Notifier.MessageCarries | vsomeip-application/vsomeip-application/generic/main.cpp:394-398 | a message has the configured size, its first four bytes decode little-endian to the counter, the rest is zero |
| Notifier.SuccessiveValues | vsomeip-application/vsomeip-application/generic/main.cpp:389-412 | for any modes: 0 and 0xffffffff are never sent; the next value is the same (mode 1), the successor, or 1 after the last |
| Notifier.ValuesRepeat | vsomeip-application/vsomeip-application/generic/main.cpp:386-412 | two unfrozen notifications carry the same value if and only if 2^32 - 2 divides their distance |
| Notifier.GeneratePayload | vsomeip-application/vsomeip-application/generic/main.cpp:357-365 | the resize loop gives fragments * segment zero bytes, modulo 2^32 |
| Notifier.PayloadReaches | vsomeip-application/vsomeip-application/generic/main.cpp:381-383 | no 32-bit overflow; the segmented payload reaches the data size d if and only if d mod M + 160 (d / M + 1) <= M; it never does for M - 160 < d < M |
| Notifier.NotifyLoop.constructor | vsomeip-application/vsomeip-application/generic/main.cpp:372-386 | counter 1, zeroed buffer or segmented payload, segmentation above M - 160 |
| Notifier.NotifyLoop.Send | vsomeip-application/vsomeip-application/generic/main.cpp:388-412 | one turn of the sending loop: message and counter, with the wrap before it is sent |
| Notifier.NotifyLoop.SendAll | vsomeip-application/vsomeip-application/generic/main.cpp:386-416 | over every run of modes, notification j decodes to 1 + (unfrozen notifications before it mod 2^32 - 2) |
| CycleControl.Listener.Listen | vsomeip-application/vsomeip-application/generic/main.cpp:443-468 | over every input the cycle is a function of the commands alone: fast after a 1 or once spoiled, else the original period; the mode is that of the last read that succeeded, and unchanged without one |
| CycleControl.OnlyLogged | vsomeip-application/vsomeip-application/generic/main.cpp:467-471 | an end of file or a failed read anywhere in the input changes no command |
| CycleControl.DataGivesModes | vsomeip-application/vsomeip-application/generic/main.cpp:450-455 | reads that all succeed give their modes as commands, in order |
| CycleControl.SpoiledGrows | vsomeip-application/vsomeip-application/generic/main.cpp:458-463 | exactly a second 1 in a row, or a 1 with period 0, spoils the saved period |
| CycleControl.NeverRecovers | vsomeip-application/vsomeip-application/generic/main.cpp:458-463 | once spoiled, the cycle stays fast whatever is commanded later |
| CycleControl.OnceAndBack | vsomeip-application/vsomeip-application/generic/main.cpp:458-463 | a single switch to fast mode and back restores the period |
| Timestamps.GetStamp | meta-execution-manager/recipes-execution-manager/execution-manager/execution-manager/src/log.c:165-184 | the two formatting calls fill the buffer with date, T, time with nine decimals and Z |
| Timestamps.RoundTrip | benchmarks/analysis.py:27-32 | whatever eleven characters come first and whatever follows, the time is read back floored to microseconds |
| Timestamps.ReadsOnlyTimes | benchmarks/analysis.py:27-32 | fifteen columns are read only if some time of the day prints them, and then as that time |
| Timestamps.BothPrinters | meta-execution-manager/recipes-execution-manager/execution-manager-containerd/execution-manager-containerd/src/logging.cc:24-33 | lines of both managers are read back so |
| Timestamps.LoggedDifference | benchmarks/analysis.py:27-32 | the difference of two logged times, read back, is off by less than a microsecond, and order is kept |
| Timestamps.FirstTimestamp | benchmarks/analysis.py:51-56 | the time of the first matching line, 0 if there is none |
| Timestamps.LastTimestamp | benchmarks/analysis.py:58-63 | the time of the last matching line, 0 if there is none |
| Timestamps.Duration | benchmarks/analysis.py:142-163 | on a same-day log in order, the last match minus the first is not negative, bounds every difference of two matches, and is 0 without a match |
| Statistics.MeanBetween | benchmarks/analysis.py:65-69 | for every non-empty list the mean lies between minimum and maximum |
| Statistics.DescribesList | benchmarks/analysis.py:65-69 | minimum and maximum are in the list and bound it, and the mean times the length is the sum |
| Statistics.SumOne | benchmarks/analysis.py:65-69 | the sum of one value is that value |
| Statistics.SumConcat | benchmarks/analysis.py:65-69 | the sum of a list is that of its parts |
| Aggregation.MeasureIteration | benchmarks/analysis.py:132-155 | the loop over the files of an iteration takes the manager log listed last and the latest registration of an application |
| LogSamples.SecondsAndMicros | benchmarks/analysis.py:27-32 | times are seconds: a million times over, the microseconds that were read |
| LogSamples.SpanInOrder | benchmarks/analysis.py:51-63 | on a log in order the last match minus the first, as the analysis takes them, is not negative and is the time between these two lines |
| LogSamples.SpansNotNegative | benchmarks/analysis.py:132-150 | from logs in order, the mount and create entries of every sample are not negative |
| LogSamples.StartNotNegative | benchmarks/analysis.py:132-151 | from logs in order, the start entry is not negative if and only if no start was logged or some application was registered no earlier |
| LogPhases.PatternMeansPhase | benchmarks/analysis.py:14-22 | for every runtime and kind of test, and every line that its manager prints: the line has the search pattern of a phase if and only if it announces that phase |
| LogPhases.RegistrationMeans | vsomeip-application/vsomeip-application/generic/main.cpp:265-268 | the search for the registration finds the line of an application that is registered, and not that of one that is deregistered |
| PrintedSamples.SampleOfRun | benchmarks/analysis.py:119-155 | from the messages that the manager printed, in the order of time, and the logs of the applications: mount and create are the times from the first to the last message about that phase, start is the time from the first message about starting to the latest registration |
| Aggregation.SequentialColumns | benchmarks/analysis.py:156-180 | the columns of a sequential row are minimum, mean, maximum of the mounts, the creates and the starts, and the two sums of the differences |
| Aggregation.SingleColumns | benchmarks/analysis.py:212-219 | the columns of a row of another test |
| Aggregation.ErrorBars | benchmarks/analysis.py:165-175 | no error bar is negative, nor the sums of three |
| Aggregation.Analysis.Analyse | benchmarks/analysis.py:97-228 | the loop with its counters and shared lists yields the fold over the walk |
| Grouping.PassIsGroupBy | benchmarks/analysis.py:97-228 | the single pass equals grouping the tree, one row for each runtime and number from exactly its iterations, if and only if in every group all iterations have files or none has; then the lists end empty |
| Grouping.RowCounts | benchmarks/analysis.py:188-228 | the pass never makes more rows than there are groups, and fewer exactly if some group is uneven |
| Grouping.EvenRows | benchmarks/analysis.py:188-228 | with even groups the lists are empty at every group boundary and every row is its group's |
| Grouping.AnalyseTree | benchmarks/analysis.py:97-228 | the loop on the walk of any tree yields the grouping if and only if the tree is even |
| Names.NameNumber | execution-manager-config/bundle_helper.py:88-92 | a zero-padded name parses back to its index, for all naturals |
| Names.NameText | execution-manager-config/bundle_helper.py:88-92 | two digits below 100, the plain number from there on |
| Names.NamesDiffer | execution-manager-config/bundle_helper.py:88-92 | different indices have different names |
| Names.AsHexIncreases | vsomeip-application/vsomeip-base/patches/configuration.patch:246-251 | decimal digits read as hexadecimal are strictly increasing |
| Names.IdIs | vsomeip-application/vsomeip-base/patches/configuration.patch:246-251 | the id read for index i is 0x1000 plus its digits below 100, and 0xffff from 100 on |
| Names.DistinctIds | execution-manager-config/bundle_helper.py:29-31 | the ids of the first n containers are pairwise distinct if and only if n <= 101 |
| ConfigFiles.CreateConfigCrun | execution-manager-config/generate_configs.py:80-101 | for each index the object of its command's class, in order |
| ConfigFiles.GeneratedMembers | execution-manager-config/generate_configs.py:80-101 | for each command the members of the object, with their texts |
| ConfigFiles.GeneratedFits | meta-execution-manager/recipes-execution-manager/execution-manager/execution-manager/src/configuration.h:15-23 | what is generated fits the buffers of the reader exactly up to these lengths |
| ConfigFiles.ParseExecutionConfig | meta-execution-manager/recipes-execution-manager/execution-manager/execution-manager/src/configuration.c:49-80 | fills one record for each object, member by member, and leaves the rest of the table |
| ConfigFiles.ReadsAsMap | meta-execution-manager/recipes-execution-manager/execution-manager/execution-manager/src/configuration.c:56-74 | whatever the order of the members, each known text is in its field and the other fields are as before |
| ConfigFiles.RoundTrip | execution-manager-config/generate_configs.py:80-101 | the generated object of container i, its members in any order, fills the record with name, command, bundle and mount fields of i |
| ConfigFiles.GeneratedRecord | execution-manager-config/generate_configs.py:80-101 | the record that is read back, field by field, for each command |
| ConfigFiles.ContainersDistinct | execution-manager-config/generate_configs.py:83-87 | generated containers never share a name or a root directory |
| ConfigFiles.GeneratedBatch | meta-execution-manager/recipes-execution-manager/execution-manager/execution-manager/src/batch_command.c:12-72 | what is generated and read is exactly the independent batch that the driver results are about |
| ContainerdFiles.ReadObject | meta-execution-manager/recipes-execution-manager/execution-manager-containerd/execution-manager-containerd/src/configuration.cc:23-51 | accepts an object if and only if its string members are strings, and then fills the record |
| ContainerdFiles.ParseContainers | meta-execution-manager/recipes-execution-manager/execution-manager-containerd/execution-manager-containerd/src/configuration.cc:18-53 | index from the printed key, the number of containers, one record for each object |
| ContainerdFiles.OrderDoesNotMatter | meta-execution-manager/recipes-execution-manager/execution-manager-containerd/execution-manager-containerd/src/configuration.cc:23-51 | two listings of the same members fill a record alike |
| ContainerdFiles.RoundTrip | execution-manager-config/generate_configs.py:129-146 | the generated object in any order is accepted and fills the record; joining the option slots gives the snapshotter's string back |
| ContainerdFiles.GeneratedRecord | execution-manager-config/generate_configs.py:129-146 | the record that is read back, field by field, for each command |
| ContainerdFiles.GeneratedFits | meta-execution-manager/recipes-execution-manager/execution-manager-containerd/execution-manager-containerd/src/configuration.h:25 | what is generated fits exactly if there are at most ten mount options |
| ContainerdFiles.GeneratedBatch | meta-execution-manager/recipes-execution-manager/execution-manager-containerd/execution-manager-containerd/src/batch_command.cc:40-114 | what is generated and read, for every command, is the independent batch of the driver results |
| Joining.SplitJoin | execution-manager-config/generate_configs.py:139 | splitting a join gives the parts back if none has the separator |
| Joining.JoinSplit | execution-manager-config/generate_configs.py:139 | joining a split gives every text back |
| Overlay.GetMounts | execution-manager-config/generate_configs.py:64-78 | appending a colon after each layer and chopping one character gives the joined option string |
| Overlay.OneLayerText | execution-manager-config/generate_configs.py:64-78 | the whole option string for one lower layer, as text |
| Overlay.MoreLayersText | execution-manager-config/generate_configs.py:71-72 | each further layer puts a colon and its path behind the lower directories; the last layer is not among them |
| Overlay.ChopJoins | execution-manager-config/generate_configs.py:72-75 | append-then-chop is a join for at least one layer |
| Overlay.RecoversExactly | execution-manager-config/generate_configs.py:64-78 | splitting at comma and colon recovers lower, upper and work directories in order if and only if there is a lower one and none has a separator |
| Overlay.MountsRecover | execution-manager-config/generate_configs.py:64-78 | the same in terms of the arguments; a colon in a digest does no harm |
| LayerCopy.Tree.CopyUpperLayer | execution-manager-config/extract_layers.py:29-41 | nothing there is overwritten, every missing listed regular file is copied for every container, nothing else is added |
| LayerCopy.OrderDoesNotMatter | execution-manager-config/extract_layers.py:32-41 | the result is determined by what was there, not by the order of the listings |
| LayerCopy.SecondRunChangesNothing | execution-manager-config/extract_layers.py:38-41 | a second run over regular files changes nothing |
| LayerCopy.EveryContainerHasEveryFile | execution-manager-config/extract_layers.py:29-41 | every listed regular file <layer dir>/<digest><rel> is afterwards at <layer dir>/NN<rel> for each container NN, with the content that was there before or else that of the layer |
| LayerCopy.NothingNewElsewhere | execution-manager-config/extract_layers.py:29-41 | whatever is new is the copy of a listed file below the name of one of the containers |
| LayerCopy.CopiedToUpperDirectory | execution-manager-config/extract_layers.py:65 | what is copied below <output dir>/sha256 is in the upper directory that the mount options of that container name |

## Left out

- `stop()` before or during `init()`, a failing `init()`, and a run without `VSOMEIP_SERVER`: the threads are
  not started or the result depends on uninitialised flags.
- The signal-handler thread and the start and end of the FIFO thread.
- The compiler's freedom with flags that are not atomic: every access is one step.
- A data size below 4 (the counter would be written past the buffer); `operation_mode_` is taken as the value
  extracted, not parsed from the unterminated buffer.
- `factorial` and `stress_cpu`: the accumulator is not initialised.
- gRPC requests are one atomic step each. The snapshot that `prepare` makes besides the container is not modelled, nor
  are refusals of containerd other than for a missing or existing record and the state of the task.
- The loop that copies the mount options into the containerd request is bounded by the length of the first
  option, not by the number of options; what it sends is not modelled.
- Commands that no generator writes, other than `kill` of containerd; `mount` failing for reasons of the environment.
- Log lines with the error message of a failed gRPC request, which may hold any text, and lines of other programs in a
  manager's log.
- A process of a container that ends without having been killed.
- What the native programs do once started; the native runs and the native kill of the driver (a native batch by itself
  is covered by the launcher).
- The in-process crun manager is covered by the same launcher; its table of commands is not modelled.
- ContainerdFiles.ParseContainers: the table after a type error is not specified, because the exception ends the
  process.
- Texts of JSON, files of environment variables, values of other JSON types in the containerd reader, an empty
  `containers` array there (the number of containers would be uninitialised), texts longer than their buffers.
- `strptime` on other layouts, years without four digits, time zones and the rounding of doubles; the dummy day
  is a parameter.
- The final concatenation and sorting of the frames, and the CSV file.
- LayerCopy.SecondRunChangesNothing: not for symbolic links, which are copied as links; one that is relative to a file
  the listing leaves out dangles in the container's tree, and a second run then fails on it.
- LayerCopy.EveryContainerHasEveryFile: not for symbolic links, for the same reason.
- A copy that fails because a directory stands where a file should, or the other way round; `install_native`.
- Argument parsing, logging sinks, sleeps as durations.
