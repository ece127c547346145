# Verified models of vis-python-runtime

This project models five parts of vis-python-runtime in Dafny and proves what they are for.
`dafny verify dfyconfig.toml` checks all of it.

**The gather pool** (`Gather*.dfy`, `TaskQueue.dfy`, `InterruptLoop.dfy`, `RunStack.dfy`).
Guest code calls `par` with a list of thunks. Up to 64 workers share one intrusive queue; any
number of calls submit under a quota, run their own tasks when the pool is saturated, stop on
an interrupt and free their batch when it has settled. The model is a state machine with one
step per critical section of the pool lock, one per hand-over of the GIL and one per move of
guest code, over every interleaving of any number of host threads and the workers. A thunk is
opaque: it ends with a value, an ordinary failure or a stopping one. The queue, the submission
and take-back loops, the interrupt's loop, the run stack and the loops that choose an answer
are classes and methods proved against the functions the state machine uses.
`GatherWitness.dfy` has runs that reach the states the results speak of.

**The Windows jail's tables** (`Jail*.dfy`). Contexts, streams and processes with their
handles, as a state machine with one step per section of the table lock: IO references,
closing, waiting, closer threads, the sweep of records and the stages of a context's
destruction, which drops the lock in its middle and may fail and be retried. A spawn is a list
of stages and may fail after any of them. Handles are numbered in the order the system gives
them out and every `CloseHandle` is counted, so owning a handle is a count. `JailWitness.dfy`
has a run from a spawn to the end of its context. Beside it: the one-byte lookahead reader
(`Lookahead.dfy`), the command-line encoder (`CommandLine.dfy`), the path checks
(`LocalPath.dfy`) and the two blob decoders (`Blobs.dfy`).

**Session restore** (`Restore*.dfy`, `Plain.dfy`, `PlainRebuild.dfy`, `RoughSize.dfy`). The loop
that brings values and statements back in whatever order their needs allow, the test for when
a literal may stand for a value, and the bounded walk that sizes an object graph. What a restored
name means is a term: the item that made it, of what the names that item needs meant then.

**The diagnostic ring** (`LogRing.dfy`) and **the loopback relay** (`Relay.dfy`) are classes
over a fixed buffer, with ghost histories of what went through them.

Four places where the code does less than one might expect of it, each with the exact condition.
A host that "drains in a loop until the answer is empty" has drained everything only if its buffer
is larger than 256 bytes; with 256 or fewer a full line is never delivered and lost records are
never reported (`EmptyAnswer`, `SmallBufferStalls`). The command line parses back to its arguments
exactly when the program name has no quote and no trailing backslash (`LineParsesBack`); the path
check that runs before it guarantees that (`LocalPathsParseBack`). Over all runs, every 0
that a read answers means that all the child wrote was given, if and only if the child makes no
empty write before its last byte; otherwise some run comes to an end that no later read takes back
(`ZeroMeansEndWhen`, `FooledForGood`). And the names a restore binds never depend on the order of
its loads, but what they mean does not depend on it exactly when no two items that load bind one
name and none of them uses a name from before that an item it can do without rebinds
(`OrderDoesNotMatterWhen`).

The parser in `CommandLine.dfy` follows Microsoft's "Parsing C++ command-line arguments"; its
rules for runs of backslashes are stated there as `EvenRule`, `OddRule` and `PlainRule`, those for blanks and quotes as `WordRule` and `QuoteRule`.

## Model

| member | source | states |
|---|---|---|
| `GatherSafety.EachTaskInOnePlace` | native/vispython/vispython.c:494-566 | in every reachable state each task is in exactly one of unsubmitted, queued, claimed, finished, and a claimer is a worker with this one task or the owner at this very task |
| `GatherSafety.CountersAreExact` | native/vispython/vispython.c:1621-1705 | submitted minus done is outstanding, which counts the queued and claimed tasks and never exceeds the quota |
| `GatherResults.RecordedAsEnded` | native/vispython/vispython.c:508-530 | over every run a thunk ends at most once, and once its task has finished the batch has on record exactly how it ended on whatever thread ran it, and nothing if it never ran |
| `GatherResults.ParAnswersAsInline` | native/vispython/vispython.c:1551-1764 | if no thunk of the run stopped its batch and the host did not interrupt it, each thunk started and ended exactly once, and the answer is made of those ends: all the values in the order of the thunks, or the first failure in that order, which is what the sequential form answers |
| `GatherResults.ParAnswersTheStop` | native/vispython/vispython.c:1718-1764 | if some thunk of the run stopped the batch, the answer is the first such end in the order of the thunks, whatever the others came to |
| `GatherSafety.AnswerTellsStop` | native/vispython/vispython.c:1718-1763 | no thunk ran twice or still runs at the answer, which is an interrupt exactly when the batch was stopped, by the host or by a thunk |
| `GatherSafety.FreedBatchUnreachable` | native/vispython/vispython.c:1686-1716 | when a batch is freed no queue node, listed batch, worker or other thread can reach it, then or later |
| `GatherSafety.LockDiscipline` | native/vispython/vispython.c:554-566 | in every reachable state the GIL is held by exactly the thread that stands where it needs it, and no worker is inside a `par`; that the holder of the pool lock never waits for the GIL holds by the shape of the steps |
| `GatherSafety.IdleIsExact` | native/vispython/vispython.c:544-549 | the idle count is the number of waiting workers, of which there are at most 64 |
| `GatherLaws.CallIsKept` | native/vispython/vispython.c:1608-1636 | over every run a call goes on with the tasks it was given and the quota in force when it was made, one below 1 counting as 1, and never has more tasks in flight |
| `GatherLaws.SubmitFills` | native/vispython/vispython.c:1621-1636 | submitting stops only at the quota or with all submitted, and the tasks join the queue at its end in order |
| `GatherLaws.NoOvertaking` | native/vispython/vispython.c:550-555 | over every run, while the earlier of two queued tasks waits no worker takes the later one |
| `GatherLaws.WorkerTakesFirst` | native/vispython/vispython.c:544-555 | a worker takes the first task of the queue and waits exactly if there is none |
| `GatherLaws.CallerHelps` | native/vispython/vispython.c:1648-1679 | a caller takes its own queued task after a wait that timed out, or at once in a pool it found saturated where nobody idles; else it waits exactly while the task is unfinished and the batch not stopped |
| `GatherLaws.ClaimedIsRun` | native/vispython/vispython.c:494-516 | whoever claimed a task, worker or caller, goes on to run that task and none has run it before |
| `GatherProgress.NoParIsStuck` | native/vispython/vispython.c:1621-1705 | with any unreturned `par`, however nested, a step is enabled that lowers the rank of the whole pool |
| `GatherProgress.EveryParCanReturn` | native/vispython/vispython.c:1621-1764 | from every reachable state there is a run, of useful steps only, after which every `par` has returned |
| `GatherProgress.AdvancingRunsReturn` | native/vispython/vispython.c:1621-1764 | however such rank-lowering steps are chosen, there are no more of them than the rank, and where none is left every `par` has returned |
| `GatherInterrupt.ArrayNeverTruncates` | native/vispython/vispython.c:2986-3010 | the interrupt's 64-entry array has room for every thread it must name |
| `GatherInterrupt.MarkReachesEveryThunk` | native/vispython/vispython.c:2981-3010 | after the mark each open batch of the target is stopped, and each thunk has finished, runs on the target, is named, or was not started |
| `GatherLaws.MarkSpares` | native/vispython/vispython.c:2986-3010 | ... and the mark changes no batch of another owner, and of the target's nothing but that they are stopped |
| `GatherInterrupt.StoppedNeverStarts` | native/vispython/vispython.c:503-507 | over every later run no thunk of a stopped batch starts and no interrupt is forgotten |
| `GatherInterrupt.InterruptedParRaises` | native/vispython/vispython.c:1718-1748 | whatever happens after the mark, the interrupted `par` answers with an interrupt |
| `GatherBudgets.BudgetReferencesExact` | native/vispython/vispython.c:303-320 | a scan budget's references are the blocks that brought it plus the live batches that hold it |
| `GatherBudgets.CurrentBudgetIsStacks` | native/vispython/vispython.c:494-514 | every thread's current budget is the one its stack prescribes, so each is restored |
| `GatherBudgets.EntriesNeverExceedBudget` | native/vispython/vispython.c:1093-1102 | no budget hands out more than 10000 counted entries, whoever shares it |
| `GatherBudgets.FreedBudgetStaysFreed` | native/vispython/vispython.c:317-320 | a budget whose references are gone is never touched again |
| `GatherLaws.ScanTakesOne` | native/vispython/vispython.c:1093-1102 | a counted scan takes one entry of the current budget until 10000 are out, an exempt one none, and no other budget changes |
| `GatherBudgets.HostCallIsInnermost` | native/vispython/vispython.c:1378-1386 | a host call reads the innermost run's session, and none past 32 nested runs |
| `GatherBudgets.ThunkCallIsCallers` | native/vispython/vispython.c:508-514 | a thunk's host call is attributed to the session that called `par`, on whatever thread it runs |
| `GatherLaws.EnteredRunsAs` | native/vispython/vispython.c:1358-1386 | code the host runs is attributed to its session inside whatever runs there, and a block without a budget around it starts with 10000 entries |
| `GatherLaws.EnterIsUndone` | native/vispython/vispython.c:1358-1386 | ... and when it is over the thread has the stack, the session and the budget it had, and the GIL is free |
| `GatherAnswers.ParInline` | native/vispython/vispython.c:1472-1507 | the sequential form answers what the pool's rule answers for the same ends, and calls every thunk up to the first stopping one |
| `GatherAnswers.ChooseAnswer` | native/vispython/vispython.c:1718-1757 | the choosing loop answers the first interrupt, else the first failure by position, else the values |
| `GatherAnswers.ValuesInOrder` | native/vispython/vispython.c:1718-1757 | the answer is values, in the order of the thunks, exactly when every thunk gave one |
| `GatherAnswers.FirstFailureWins` | native/vispython/vispython.c:1718-1757 | with no stopping end, a failure that no other precedes is the answer, or the host's interrupt if there is one |
| `GatherAnswers.InterruptedAnswerStops` | native/vispython/vispython.c:1733-1748 | an answer chosen under the host's interrupt is an interrupt |
| `RunStacks.RunStack.Push` | native/vispython/vispython.c:1358-1367 | the fixed stack of the nested runs `names` becomes that of `names` and the new session, however deep they nest |
| `RunStacks.RunStack.Pop` | native/vispython/vispython.c:1369-1374 | ... and is again that of the runs around the innermost one |
| `RunStacks.RunStack.Current` | native/vispython/vispython.c:1378-1386 | answers the innermost session of the nested runs, or none when it was not recorded |
| `RunStacks.CurrentIsInnermost` | native/vispython/vispython.c:1342-1386 | what the fixed array answers is what the unbounded list of nested runs says |
| `TaskQueues.TaskQueue.Enqueue` | native/vispython/vispython.c:1625-1632 | the linked queue gains the task at its end |
| `TaskQueues.TaskQueue.Pop` | native/vispython/vispython.c:550-555 | the linked queue loses its first task, which is answered |
| `TaskQueues.TaskQueue.Unqueue` | native/vispython/vispython.c:1511-1534 | takes exactly this task out, wherever it is, and tells whether it was there |
| `TaskQueues.TaskQueue.Submit` | native/vispython/vispython.c:1621-1636 | queues the next tasks up to the quota in flight, in order |
| `TaskQueues.TaskQueue.TakeBackAll` | native/vispython/vispython.c:1691-1699 | a stopped batch takes back all and only its own queued tasks, and counts them |
| `InterruptLoops.InterruptBatches` | native/vispython/vispython.c:2986-3010 | stops every batch of the owner and no other, and names the threads the state machine's interrupt names, as many as the array has room for |
| `JailSafety.HandleHasOneFate` | native/visjail/visjail_windows.c:703-723 | in every reachable state each handle given out has exactly one owner or was closed, once |
| `JailSafety.FailedSpawnClosesAll` | native/visjail/visjail_windows.c:1265-1370 | a spawn that fails, after any of its stages, has closed each handle it was given exactly once, those its streams took over too |
| `JailSafety.HeldHandlesAreOpen` | native/visjail/visjail_windows.c:695-755 | while an IO holds a stream none of its handles has been closed |
| `JailSafety.DrainOwnsItsHandles` | native/visjail/visjail_windows.c:1029-1061 | the copies a drain works on without the lock are still its record's, open, and complete |
| `JailSafety.NothingLeaks` | native/visjail/visjail_windows.c:703-1077 | once all contexts, records and threads are gone every handle was closed exactly once |
| `JailSafety.RefsAreExact` | native/visjail/visjail_windows.c:695-755 | a stream's references are its table entry and its IO holders, and it is disposed exactly when both are gone |
| `JailIO.StreamBecomes` | native/visjail/visjail_windows.c:695-765 | what every step does to every stream: it leaves the table exactly when it, or its context, is closed, is held by one more or less exactly through an IO, and loses its handles exactly when it is neither listed nor held |
| `JailIO.CloseCloses` | native/visjail/visjail_windows.c:745-765 | a closed stream is out of the table; if nobody holds it each of its handles is closed once, but for the pipe its process keeps exactly while its console still needs a reader; if somebody does none is closed yet |
| `JailIO.ClosedForGood` | native/visjail/visjail_windows.c:695-701 | over every later run nobody gets hold of it again |
| `JailIO.HoldersAreUnderWay` | native/visjail/visjail_windows.c:695-755 | over every run from the start the holders of a stream are the IOs begun on it less those ended |
| `JailSafety.LiveIsExact` | native/visjail/visjail_windows.c:721-746 | `live_streams` is the number of the context's streams not yet disposed |
| `JailRuns.StepLasts` | native/visjail/visjail_windows.c:703-1077 | no step revives a disposed stream or a destroyed context, changes an id, or drops a record, but the sweep of a spawn |
| `JailRuns.RecordsGoWhenDone` | native/visjail/visjail_windows.c:1257-1264 | a record leaves the table exactly when a spawn finds it reaped, waited for, not being cleaned and with nothing but an ended closer; no drain works on it |
| `JailSteps.RecordBecomes` | native/visjail/visjail_windows.c:961-1061 | what every step does to every record: only a wait that ends or its context's destruction reaps it and hands its console to a closer thread, only a wait marks it waited for, only the end of its drain takes it from its context |
| `JailSteps.WaitBegins` | native/visjail/visjail_windows.c:961-1003 | a wait works on an open handle of its own, or finds the process over and marks it waited for |
| `JailSteps.WaitEnds` | native/visjail/visjail_windows.c:961-1003 | ... which is closed once when the wait ends, however it does |
| `JailRuns.IdsNeverRepeat` | native/visjail/visjail_windows.c:74-77 | no id is given out twice, to entries of any kind, even after they are gone |
| `JailRuns.DestroyedLeavesNothing` | native/visjail/visjail_windows.c:1005-1071 | when a destruction succeeds no stream, IO holder, record or job of the context is left |
| `JailRuns.GoneForGood` | native/visjail/visjail_windows.c:1005-1077 | ... and over every later run it stays so |
| `JailProgress.DestroyIsNeverStuck` | native/visjail/visjail_windows.c:1005-1071 | until a destruction ends, an IO of its streams, a closer thread or the destruction itself has a step that brings it nearer to its end |
| `JailProgress.DestroyCanEnd` | native/visjail/visjail_windows.c:1005-1071 | ... so from every reachable state with a destruction under way a run of those threads alone ends it |
| `JailProgress.NearerRunsEnd` | native/visjail/visjail_windows.c:1005-1071 | ... and however such steps are chosen, there are no more of them than what remains to be done, and until the context is freed there is a next one |
| `JailSteps.ContextBecomes` | native/visjail/visjail_windows.c:1005-1077 | what every step does to every context: what seals it, poisons it, takes it from the table, puts it back for another try, ends its job and frees it, and nothing else does |
| `JailSteps.CreateGives` | native/visjail/visjail_windows.c:476-546 | a new context is open, not sealed, with an id nobody bore and a job of its own, and nothing else changes |
| `JailSpawns.StepKeeps` | native/visjail/visjail_windows.c:695-1370 | every section of the lock keeps the whole invariant of the tables, a spawn that fails at any stage included |
| `JailSteps.SpawnGives` | native/visjail/visjail_windows.c:1265-1370 | a spawn adds one record of a process with its job and, if asked for, its console, and a stream for each pipe end of the host, which reads or writes that end, a single one for both ends of a console |
| `Lookahead.Reader.ReadReady` | native/visjail/visjail_windows.c:803-829 | ready exactly when a byte is read ahead, by now or by this call, or the stream seems to have ended; 0 at a timeout, with the read still under way; else -995 for a cancel, or the code of the error of the read. Nothing is handed out and a byte read ahead stays |
| `Lookahead.Reader.Poll` | native/visjail/visjail_windows.c:858-865 | a poll answers the same and loses no byte and duplicates none |
| `Lookahead.Reader.Read` | native/visjail/visjail_windows.c:831-852 | hands out bytes exactly when there is one: the one read ahead first, then all that a second read brings, which fills the length if as much is at hand; answers 0 exactly when the stream seems to have ended and fails exactly when canceled or with the code of the read's error; what reads return, in order, is a prefix of what the child wrote, and all of it at a 0 if the child makes no empty write before its last byte |
| `Lookahead.ZeroMeansEndWhen` | native/visjail/visjail_windows.c:803-852 | over all runs of polls and reads, every 0 for a nonzero length means that all was given, if and only if the child makes no empty write before its last byte |
| `Lookahead.FooledForGood` | native/visjail/visjail_windows.c:803-852 | for every stream with an empty write before its last byte, some run reads up to there, and after it every call changes nothing and every read answers 0 until the stream is canceled |
| `CommandLines.LineParsesBack` | native/visjail/visjail_windows.c:1099-1124 | the line parses back to exactly the arguments if and only if the program name has no quote and no trailing backslash |
| `CommandLines.CommandLine` | native/visjail/visjail_windows.c:1101-1124 | writes that line, terminated, inside the capacity it reserves, and refuses exactly a capacity over 32767, so every line written is shorter than that |
| `CommandLines.RefusedWhen` | native/visjail/visjail_windows.c:1105-1106 | what is refused, by the line itself: its length and the number of its unescaped characters come to more than 32765 |
| `CommandLines.ShortLineRefused` | native/visjail/visjail_windows.c:1105-1106 | so one argument of 16383 letters is refused, for a line of 16385 characters |
| `CommandLines.EvenRule` | native/visjail/visjail_windows.c:1099-1100 | the parser reads an even run of backslashes before a quote as documented |
| `CommandLines.OddRule` | native/visjail/visjail_windows.c:1099-1100 | ... and an odd one |
| `CommandLines.PlainRule` | native/visjail/visjail_windows.c:1099-1100 | ... and one before anything else |
| `CommandLines.WordRule` | native/visjail/visjail_windows.c:1099-1100 | a word without special characters ends at a blank or tab outside of quotes and goes on inside |
| `CommandLines.QuoteRule` | native/visjail/visjail_windows.c:1099-1100 | a quote opens and closes, two within quotes stand for one |
| `LocalPaths.Component` | native/visjail/visjail_windows.c:104-123 | accepts exactly the nonempty names without a forbidden character, a trailing dot or blank, or a device name up to the first dot |
| `LocalPaths.ComponentIs` | native/visjail/visjail_windows.c:104-123 | ... told by the name itself: no control or reserved character, no dot or blank at its end, and no device name, in whatever case and with whatever extension |
| `LocalPaths.RelativePath` | native/visjail/visjail_windows.c:125-135 | accepts exactly the paths whose every backslash-separated part is such a name |
| `LocalPaths.LocalPath` | native/visjail/visjail_windows.c:137-146 | turns slashes round in place and accepts exactly a drive letter, a colon, a backslash and such a path, on a fixed drive |
| `LocalPaths.LocalIs` | native/visjail/visjail_windows.c:137-146 | ... told by the path itself: a letter from A to Z, a colon, a backslash, and components between backslashes |
| `LocalPaths.SplitJoins` | native/visjail/visjail_windows.c:125-135 | those components are all of the path but its backslashes |
| `LocalPaths.LocalPathsParseBack` | native/visjail/visjail_windows.c:1202-1203 | a path the check accepts, as program name, always parses back |
| `Blobs.PosixInverts` | native/visjail/visjail.c:46-86 | the POSIX decoder gives back every list but the lone empty string, and only those |
| `Blobs.WindowsInverts` | native/visjail/visjail_windows.c:1079-1093 | the Windows decoder gives back every list but the empty one, and only those |
| `Blobs.DecodersAgree` | native/visjail/visjail_windows.c:1134 | on every blob the two agree once the lone empty entry is normalised away |
| `Blobs.Accepts` | native/visjail/visjail_windows.c:1079-1093 | accepted are exactly the blobs that end in a NUL, as the strings they are made of |
| `Blobs.DecodePosix` | native/visjail/visjail.c:46-86 | count first, then cut: the strings of the blob, never read outside it |
| `Blobs.DecodeWindows` | native/visjail/visjail_windows.c:1079-1093 | cut at each NUL: the strings of the blob, never read outside it |
| `Restore.Namespace.Restore` | resources/vis-python/async_runtime.py:5818-5872 | ends; has loaded all that can load and binds the least set of names closed under the kept items, to what the loads made of them; leaves exactly the items whose needs it does not reach, each with an error, and touches no protected name; items that none of the protected names clashes with and that can all load as they stand load in the order of the snapshot, values first, so that the last to bind a name wins; if the items stay apart, the namespace is what they mean together |
| `Restore.KeptInOrder` | resources/vis-python/async_runtime.py:5819-5827 | leaving out what clashes with a protected name reorders nothing |
| `Restore.Namespace.Replay` | resources/vis-python/async_runtime.py:5857-5872 | a pass loads some statements and leaves the rest, both in their order, none lost or doubled; a pass that loads nothing proves that nothing loads |
| `Restore.Namespace.RunAll` | resources/vis-python/async_runtime.py:5848-5852 | has loaded exactly the kept statements before the first that cannot load at its turn, in order |
| `Restore.Namespace.LoadValues` | resources/vis-python/async_runtime.py:5833-5843 | tries every value that is left, and loads some and leaves the rest in their order; a pass that loads nothing proves that nothing loads |
| `RestoreRuns.LeastIsDerivable` | resources/vis-python/async_runtime.py:5857-5872 | the least set is what some number of rounds derives, no more and no less |
| `RestoreRuns.LastLoadWins` | resources/vis-python/async_runtime.py:5830-5850 | a name means what the last load that binds it made, of what the names it needs meant then |
| `RestoreOrder.OrderDoesNotMatterWhen` | resources/vis-python/async_runtime.py:5845-5872 | all complete runs of loads leave the same map of names to objects if and only if no two items that load bind one name and none uses a name from before that an item it can do without rebinds |
| `RestoreOrder.RestoredIsUnique` | resources/vis-python/async_runtime.py:5845-5872 | what the items mean together is one map |
| `RestoreOrder.TwoOrders` | resources/vis-python/async_runtime.py:5848-5852 | two items that bind one name and can both load: the later one wins, so the order shows |
| `Restore.SameInAnyOrder` | resources/vis-python/async_runtime.py:5818-5872 | permuting the values and the statements of a snapshot changes no name and no object, under that condition |
| `Plain.PlainIsUnshared` | resources/vis-python/async_runtime.py:5153-5175 | the walk ends on every graph and accepts a value exactly when all of it is of plain types and each mutable container is on exactly one path |
| `PlainRebuild.RestoredWhenPlain` | resources/vis-python/async_runtime.py:5563-5568 | a value with a literal comes back the same, aliases included, exactly when the walk accepts it |
| `PlainRebuild.PlainRoundTrip` | resources/vis-python/async_runtime.py:5562-5568 | every accepted value has a literal tree, which reads back as a literal exactly when nothing in the value is a frozenset or a leaf whose text is no literal, and reading it gives an isomorphic value |
| `RoughSizes.RoughSize` | resources/vis-python/async_runtime.py:5223-5264 | never more than the sum over the distinct reachable objects; when the walk fits its step bound, exact in whether the sum is over the limit, and exact in the size of every value that is not; over the limit the walk stops early |
| `LogRings.LogRing.Record` | native/vispython/vispython.c:234-267 | takes one record at an enabled level, whole if it is under 256 characters and else its first 255, in place of the oldest, counted as dropped, if 1024 wait |
| `LogRings.RecordAndDrain` | native/vispython/vispython.c:234-267 | up to 1024 short lines recorded into an empty ring are what the next drain with room hands out, and cut at its newlines the text is those lines |
| `LogRings.ReportTells` | native/vispython/vispython.c:2543-2548 | the number written in a report of drops reads back as their number |
| `LogRings.LogRing.Drain` | native/vispython/vispython.c:2533-2564 | hands out, oldest first and once each, the lines that fit after a report of the drops, within the buffer, and keeps recorded = drained + reported + unreported + waiting |
| `LogRings.EmptyAnswer` | native/vispython/vispython.c:2543-2563 | says exactly when an answer is empty; with more than 256 bytes, when nothing waits and no drop is unreported |
| `LogRings.SmallBufferStalls` | native/vispython/vispython.c:2543-2563 | with 256 bytes or fewer a first line that does not fit and any number of drops stay behind an empty answer |
| `LogRings.StalledRing` | native/vispython/vispython.c:234-267 | 1025 records of one such line lead to that, and two drains change nothing |
| `Relays.Direction.Move` | native/visjail/network_bridge.c:306-340 | what is sent and buffered is what was received, in order; a turn whose socket takes n bytes sends n more of them, or all there are, and no other turn sends any; the end is passed on once, after the last byte |
| `Relays.Relay` | native/visjail/network_bridge.c:342-373 | receives in each direction exactly the bytes that the turns answer to its reads; asks at every turn, for some event, until a turn breaks it or both directions are over, and exits accordingly; exit 0 means that each direction sent all it received and made exactly one shutdown, after the last byte |
| `Relays.RelayDelivers` | native/visjail/network_bridge.c:342-373 | over turns that never fail and grant what was asked more than twice as often as the longer source has bytes, the relay exits with 0, each side having sent all that its source had to give, and made one shutdown after it |
| `Relays.EndsOnce` | native/visjail/network_bridge.c:309-321 | a direction has ended exactly when a read of it was answered with the end, and takes no byte after that |

## Left out

- `GatherProgress.EveryParCanReturn`: says that a run exists and `AdvancingRunsReturn` that rank-lowering steps run out; a run with endless other steps between them (new work, spurious wake-ups) is not excluded, and running thunks are taken to end.
- `JailProgress.NearerRunsEnd`: bounds the steps that bring a destruction nearer; other steps between them (retries that fail again, other threads' spawns) are not bounded.
- `GatherModel.PoolStarted`: a pool for which the system gives no thread at all (`vis_py_pool_start` raising) is not modelled; any number from 1 to 64 may be made.
- `GatherModel.Scanned`: which scans are exempt is a choice of the environment; the path of the refused entry and its message are not modelled.
- `GatherModel.Apply`: the 50 ms wait is a step that may end at any moment; condition variables may wake for no reason; out-of-memory paths and the cap on live threads are left out.
- `InterruptLoops.InterruptBatches`: the linked list of batches is a sequence here, and the target is given; the one global that names the running thread is not modelled.
- `JailModel.Apply`: the tables are values and not linked records updated in place, because the steps of several threads interleave; the model does not capture pointer aliasing. Pins, desktops, the UI helper and the profile are left out: they are opened and closed inside one call.
- `JailModel.SpawnFailed`: of the stage that fails only the numbers of handles and ids it used are kept; it is taken to close what it had opened itself, as `pipe_pair` and `stream_new` do.
- `JailModel.WaitEnded`: exit codes are not modelled, nor a failure to duplicate the process handle, which changes no table.
- `Lookahead.Reader.Read`: the second read of a call may bring any number of bytes up to what it asked for, none if it fails; its own error code is dropped by the code too.
- `CommandLines.CommandLine`: arguments are sequences of characters without NUL; the conversion from UTF-8 is left out.
- `LocalPaths.LocalPath`: whether the drive is a fixed one is a parameter. Case is folded for ASCII letters only.
- `Blobs.DecodeWindows`: the conversion of each string from UTF-8 is left out, and with it its failure.
- `Restore.Namespace.Restore`: an item loads or fails as a whole and bindings only grow, so `del` statements and statements that fail halfway are left out; values may be tried in any order, of which the name order is one. An item that loads twice makes equal objects of equal inputs. The texts of errors are left out, only their presence is kept.
- `RestoreOrder.OrderDoesNotMatterWhen`: speaks of every complete run of loads, in any order and with any repetitions; the code makes some of these runs, and those of items that can all load as they stand in the order of the snapshot, as a clause of `Restore` says. The namespace before it holds objects that no item made.
- `PlainRebuild.PlainRoundTrip`: literals are trees whose leaves are texts; how the tree is written out and parsed, and which texts of a leaf read back (`nan` does not), are left out.
- `Plain.Walk`: the order in which a set is iterated is part of the value here. Leaves and immutable boxes that are shared may come back as equal copies, as in the code.
- `RoughSizes.RoughSize`: the own size of an object (`len` of a text, `sys.getsizeof`, 0 if it raises) is a parameter.
- `LogRings.LogRing.Record`: a record arrives rendered; its time stamp, the mirror to stderr and the unlocked read of the level are left out.
- `Relays.Relay`: the answers of the poll and of the sockets are a list of turns; making them nonblocking is a flag, and what `shutdown` itself answers is ignored, as in the code.
- Probe and guest programs, ACLs, tokens, the audit hook's tables, JSON, and the futures of `async_runtime.py`: system facts, table lookups or library calls with no algorithm of their own.
