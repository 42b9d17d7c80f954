# taro execution engine, modelled in Dafny

This project models the execution engine of taro, a job-execution runtime,
without its runner. It covers five modules.

- `execution.dfy` (module `Execution`). The execution states and their fixed
  group table. The `ExecutionError` constructor and its failure precondition.
  The lifecycle ledger: an insertion-ordered map from state to timestamp,
  kept as a sequence of `(state, time)` entries with distinct states. It
  also holds the ledger's queries and `set_state`.
- `job.dfy` (module `Job`). The `JobInstanceID` display form. The
  immutable `JobInfo` snapshot, its projections and `matches`.
  `JobInfoCollection`. The part of a job instance that the warning engine
  reads and changes.
- `program.dfy` (module `Program`). `ProgramExecution`: the stop and
  interrupt flags, the outcome of `execute()`, the output observer list,
  the isolating fan-out of output lines, and the status update while
  reading output. The operating-system process is abstracted into a
  `ProcessRun` value: the return code and output lines, or the exception
  raised.
- `persistence.dfy` (module `Persistence`). Plugin resolution. The
  `PersistenceHolder` cache that closes and evicts every backend before it
  loads a new one. The disabled stub, including Python's argument binding
  against its method signatures. The facade operations. The sort key.
- `warning.dfy` (module `Warning`). The elapsed-time watchdog as a state
  machine over its `timer` field, and the output matcher.

`wrappers.dfy` holds `Option` and `Result`. `Result.Err` stands for a raised
Python exception.

Timestamps are integers and "now" is a parameter. Durations are integers too.
The time limit of the watchdog is a real number.

The foreign parts are parameters:
- the glob matcher of `matches`;
- the regular-expression search;
- whether an observer's own code raises;
- the installed plugin module names;
- the ISO 8601 duration parser;
- the rows a plugin backend returns.

A plugin backend answers every call normally. Every call the facade makes on
a backend is recorded in order, so the ordering claims of `store_job`,
`clean_up` and `close` are stated over that record.

In several places the code behaves differently from what a reader of the
system would expect. The model follows the code.
- **Repeating a state.** One would expect recording the same state twice to
  leave the ledger unchanged. In the code this holds only for the current
  state. Setting an earlier recorded state again overwrites its timestamp
  in place (`Execution.ReRecordKeepsPosition`). After that the ledger is no
  longer chronological (`Execution.ReRecordBreaksChronology`).
- **Output observers.** One would expect duplicate registration and removal
  of an absent observer to be harmless. The code appends duplicates, and
  `list.remove` raises `ValueError` when the observer is absent
  (`Program.ProgramExecution.RemoveOutputObserver`).
- **System exit.** The `SystemExit` branch of `execute()` builds an
  `ExecutionError` with INTERRUPTED. INTERRUPTED is not a failure state, so
  the constructor raises `ValueError` instead (`Program.ExceptionalRuns`).
- **Disabled persistence.** With persistence disabled, one would expect every
  operation to fail with `PersistenceDisabledError`. In the code, the facade's `read_jobs` passes a
  `last` keyword that the stub's `read_jobs` does not accept. The facade's
  `clean_up` passes two arguments to a stub method that takes none. Both
  calls therefore raise a binding `TypeError` before the stub body runs
  (`Persistence.StubReplies`, `Persistence.StubFacade`). `num_of_job` fails
  the same way.
- **Stop and interrupt.** One would expect these to be idempotent. Each
  call sets its flag again, which changes nothing. But each call also sends
  another `terminate()` to a launched process.

## Model

| member | source | states |
|---|---|---|
| Execution.Groups | taro/jobs/execution.py:28-52 | Definition: the fixed table that gives each state its set of groups. `Execution.GroupTableShape` states its shape. |
| Execution.IsBeforeExecution | taro/jobs/execution.py:63-64 | Definition: BEFORE_EXECUTION is among the state's groups. |
| Execution.IsExecuting | taro/jobs/execution.py:66-67 | Definition: EXECUTING is among the state's groups. |
| Execution.IsIncomplete | taro/jobs/execution.py:69-70 | Definition: NOT_COMPLETED is among the state's groups. |
| Execution.IsUnexecuted | taro/jobs/execution.py:72-73 | Definition: NOT_EXECUTED is among the state's groups. |
| Execution.IsTerminal | taro/jobs/execution.py:75-76 | Definition: TERMINAL is among the state's groups. |
| Execution.IsFailure | taro/jobs/execution.py:78-79 | Definition: FAILURE is among the state's groups. |
| Execution.GroupTableShape | taro/jobs/execution.py:29-52 | NONE is in no group. Every other state is in exactly one of BEFORE_EXECUTION, EXECUTING and TERMINAL. A NOT_COMPLETED, NOT_EXECUTED or FAILURE state is terminal, and is in at most one of those three groups. |
| Execution.FailureStates | taro/jobs/execution.py:50-52 | The FAILURE group is exactly START_FAILED, FAILED and ERROR. |
| Execution.NewExecutionError | taro/jobs/execution.py:88-95 | The constructor succeeds iff the state is a failure, and then keeps message, state, unexpected error and keyword params as given. Otherwise it raises a ValueError carrying the state. |
| Execution.FromUnexpectedError | taro/jobs/execution.py:84-86 | The result has message "Unexpected error", state ERROR (a failure), the given cause and no params. |
| Execution.State | taro/jobs/execution.py:185-186 | NONE for an empty ledger. Otherwise the current state is a recorded state, and its only entry is the last one. |
| Execution.States | taro/jobs/execution.py:188-189 | The listed states are the ledger's keys in insertion order. |
| Execution.LastChanged | taro/jobs/execution.py:197-198 | Defined iff the ledger is non-empty, and then it is the timestamp of the current state. |
| Execution.Changed | taro/jobs/execution.py:194-195 | A timestamp exists iff the state is recorded, and it is that entry's timestamp. Absence is the KeyError. |
| Execution.FirstExecutingState | taro/jobs/execution.py:200-201 | None iff no recorded state is EXECUTING. Otherwise it is the state of the earliest EXECUTING entry. |
| Execution.Executed | taro/jobs/execution.py:203-204 | Holds iff some recorded state is EXECUTING. |
| Execution.ExecutionStarted | taro/jobs/execution.py:206-207 | Defined iff some EXECUTING state was recorded (`executed()`), and then it is the first EXECUTING entry's timestamp. |
| Execution.ExecutionFinished | taro/jobs/execution.py:209-213 | Defined iff the current state is terminal, and then it is the last timestamp. |
| Execution.ExecutionTime | taro/jobs/execution.py:215-221 | Defined iff execution started. It is then the finish time minus the start when the current state is terminal, and `now` minus the start otherwise. |
| Execution.ExecutionTimeNonNegative | taro/jobs/execution.py:215-221 | On a chronological ledger read no earlier than its last change, the execution time is never negative. |
| Execution.Assign | taro/jobs/execution.py:237 | OrderedDict assignment. A new state is appended. A recorded state keeps its position. The state gets the new timestamp and every other state keeps its own. |
| Execution.FromPairs | taro/jobs/execution.py:174-175 | Definition: the pairs assigned one by one into an empty ledger. `Execution.FromPairsContents` and `Execution.DeepCopyPreserves` state what it builds. |
| Execution.FromPairsContents | taro/jobs/execution.py:174-175 | Building a ledger from pairs keeps each state at its first occurrence, with the timestamp of its last pair. |
| Execution.DeepCopyPreserves | taro/jobs/execution.py:182-183 | Rebuilding a ledger from its own entries (`__deepcopy__`) yields the same ledger. |
| Execution.Apply | taro/jobs/execution.py:233-238 | Definition of the ledger after `set_state`. It assigns the state at `now` unless the new state is None, NONE or the current state. `Execution.LifecycleManagement.SetState` is proved against it, and `Execution.ApplyNew`, `Execution.RepeatIsNoOp` and `Execution.ReRecordKeepsPosition` state its effect. |
| Execution.RecordInOrder | taro/jobs/execution.py:233-238 | Setting distinct new states one after another lists them in call order, and the current state is the last one set. |
| Execution.ApplyNew | taro/jobs/execution.py:233-238 | Setting a state that is neither NONE nor recorded appends it, and it becomes the current state. |
| Execution.RepeatIsNoOp | taro/jobs/execution.py:233-238 | Setting the current state, or a state just recorded, a second time changes nothing. |
| Execution.ReRecordKeepsPosition | taro/jobs/execution.py:237 | Setting a recorded non-current state keeps the order of states and the current state, and replaces only its timestamp. |
| Execution.ReRecordBreaksChronology | taro/jobs/execution.py:237 | Concrete ledger: re-setting CREATED after RUNNING makes a chronological ledger non-chronological. |
| Execution.NewStateKeepsChronology | taro/jobs/execution.py:233-238 | Recording a state that is not yet present, at a time no earlier than the last change, keeps the ledger chronological. |
| Execution.LifecycleManagement.constructor | taro/jobs/execution.py:230-231 | The ledger is built from the given pairs. |
| Execution.LifecycleManagement.SetState | taro/jobs/execution.py:233-238 | Answers false and changes nothing for None, NONE or the current state. Otherwise answers true and assigns the state at `now`. |
| Job.JobInstanceID.Display | taro/jobs/job.py:26-27 | The display form is the job id, '@', then the instance id. |
| Job.ParseDisplay | taro/jobs/job.py:26-27 | Splitting at the first '@' succeeds iff there is one. The job id read back holds no '@', and the display form of the id read back is the input text. |
| Job.DisplayRoundTrip | taro/jobs/job.py:26-27 | When the job id holds no '@', parsing the display form gives the id back. |
| Job.DisplayAmbiguous | taro/jobs/job.py:26-27 | Two different ids whose job id contains '@' can share a display form. |
| Job.JobInfo.State | taro/jobs/job.py:190-191 | Definition: the current state of the held lifecycle. `Job.SnapshotProjections` states it. |
| Job.SnapshotProjections | taro/jobs/job.py:169-191 | The job id and instance id are the held id's components. `state` is the held lifecycle's last state, or NONE when it is empty. `params` is the held mapping. |
| Job.JobInfo.Matches | taro/jobs/job.py:205-206 | Definition: the strategy accepts the job id, or the instance id glob-matches the pattern. `Job.MatchesCases` states its cases. |
| Job.MatchesCases | taro/jobs/job.py:205-206 | With the glob as strategy, a snapshot matches iff its job id or its instance id matches. A wider strategy never loses a match. When the instance id does not match, the strategy alone decides. |
| Job.JobInfoCollection.Jobs | taro/jobs/job.py:216-221 | The jobs are the constructor's arguments, in order. |
| Job.CountNamedAppend | taro/jobs/job.py:64-78 | Warning occurrence counts add up over concatenated warning histories. |
| Job.JobInstance.JobId | taro/jobs/job.py:32-40 | The job id and the instance id are the components of the held id. |
| Job.JobInstance.AddWarning | taro/jobs/job.py:72-78 | The warning is appended. Its name's count goes up by one and every other name's count is unchanged. |
| Job.JobInstance.AddStateObserver | taro/jobs/job.py:105-114 | The observer is appended and nothing else changes. |
| Job.JobInstance.AddOutputObserver | taro/jobs/job.py:140-146 | The observer is appended and nothing else changes. |
| Program.FanOut | taro/jobs/program.py:96-107 | Every observer gets the line once, in list order. Each delivery depends only on that observer: a listener is updated, a callable is called, an unsupported shape is logged, and an exception is logged. |
| Program.RStrip | taro/jobs/program.py:91 | `rstrip()` returns a prefix that does not end in whitespace, and everything removed is whitespace. |
| Program.ReadDeliveriesStep | taro/jobs/program.py:89-94 | Reading one more line adds exactly that stripped line's fan-out. |
| Program.ReadDeliveriesLength | taro/jobs/program.py:89-107 | Reading n lines with m observers makes n·m deliveries. |
| Program.RemoveFirst | taro/jobs/program.py:86-87 | `list.remove` deletes exactly the first occurrence. |
| Program.NatToStringRoundTrip | taro/jobs/program.py:67 | The decimal text of a natural number parses back to it. |
| Program.IntToStringRoundTrip | taro/jobs/program.py:67 | `str(ret_code)` parses back to the return code, negative codes included. |
| Program.ExecuteOutcome | taro/jobs/program.py:35-67 | A returned state is terminal and no failure. A raised ExecutionError is FAILED. A raised ValueError comes only from a system exit and carries INTERRUPTED. |
| Program.FlagBeforeExecute | taro/jobs/program.py:36-66 | A flag set before `execute()` prevents the launch. The result is STOPPED if stopped, else INTERRUPTED. |
| Program.ZeroCodeCompletes | taro/jobs/program.py:50-54 | Return code 0 gives COMPLETED even if stop or interrupt came during the wait. |
| Program.NonZeroCode | taro/jobs/program.py:63-67 | A non-zero code gives STOPPED if stopped, else INTERRUPTED if interrupted. Otherwise it raises FAILED with "Process returned non-zero code " followed by the code, which parses back. |
| Program.ExceptionalRuns | taro/jobs/program.py:55-61 | File-not-found raises FAILED with the OS message. A keyboard interrupt returns STOPPED. A system exit surfaces as the constructor's ValueError for INTERRUPTED. |
| Program.ProgramExecution.constructor | taro/jobs/program.py:22-29 | Args and read-output flag are kept. There is no process, no status, no flags and no observers. |
| Program.ProgramExecution.IsAsync | taro/jobs/program.py:31-33 | Always false. |
| Program.ProgramExecution.Stop | taro/jobs/program.py:73-76 | The stop flag is set. One terminate request is sent iff a process exists. Nothing else changes. |
| Program.ProgramExecution.Interrupt | taro/jobs/program.py:78-81 | The interrupt flag is set. One terminate request is sent iff a process exists. Nothing else changes. |
| Program.ProgramExecution.AddOutputObserver | taro/jobs/program.py:83-84 | The observer is appended, duplicates kept. |
| Program.ProgramExecution.RemoveOutputObserver | taro/jobs/program.py:86-87 | The first occurrence is removed. It raises iff the observer is absent, and then nothing changes. |
| Program.ProgramExecution.NotifyOutputObservers | taro/jobs/program.py:96-107 | The loop adds exactly the line's fan-out to the delivery record. |
| Program.ProgramExecution.ReadOutput | taro/jobs/program.py:89-94 | Every line, stripped, is fanned out in order. The status becomes the last stripped line. |
| Program.ProgramExecution.Execute | taro/jobs/program.py:35-67 | The result is the outcome classification of the flags held before the call and of the run. The process is launched only without an earlier flag. Output is read only when requested, and flags raised during the wait are kept. |
| Warning.WatchStep | taro/jobs/warning.py:23-34 | One event of the watchdog. An EXECUTING update starts an unset timer. It fails the assertion iff a timer was already set, and then leaves that timer as it was. A terminal update cancels a live timer. Any other update changes nothing. A live timer that runs out fires, and warns iff the instance is not terminal. Any other timer ignores running out. A set timer never becomes unset. |
| Warning.AtMostOneWarning | taro/jobs/warning.py:23-34 | Whatever the events, one watchdog adds at most one warning. |
| Warning.TimerNeverResets | taro/jobs/warning.py:24-29 | Once set, the timer field never returns to None. |
| Warning.SecondExecutingFails | taro/jobs/warning.py:24-27 | A second EXECUTING update fails the `timer is None` assertion after any events, a cancel included. |
| Warning.CancelledAddsNothing | taro/jobs/warning.py:28-34 | A cancelled timer adds no warning whatever follows. |
| Warning.WatchdogScenarios | taro/jobs/warning.py:23-34 | Running out while still executing adds exactly one warning. Reaching a terminal state first adds none. |
| Warning.ExecTimeWarning.constructor | taro/jobs/warning.py:17-21 | Instance, name and time are kept, and there is no timer. |
| Warning.ExecTimeWarning.OnStateUpdate | taro/jobs/warning.py:23-29 | An EXECUTING update starts the timer, or fails the assertion if one was ever set. A terminal update cancels an existing timer. Any other update changes nothing. |
| Warning.ExecTimeWarning.Check | taro/jobs/warning.py:31-34 | Adds `Warn(name, {exceeded_sec: time})` iff the instance's current state is not terminal, and nothing else changes. |
| Warning.ExecTimeWarning.RunOut | taro/jobs/warning.py:26-34 | Only a live timer runs out, and then its check runs. A cancelled timer adds nothing. The instance's lifecycle and observer lists are unchanged. |
| Warning.ExecTimeExceeded | taro/jobs/warning.py:7-8 | Registers one new watchdog with the given name and time as a state observer, and nothing else. |
| Warning.MatchCount | taro/jobs/warning.py:48-52 | The count for the warning id equals the number of matching lines, repeats included. |
| Warning.MatchWarningsAppend | taro/jobs/warning.py:48-52 | Feeding lines one by one gives the same warnings as feeding them together. |
| Warning.OutputMatchesWarning.constructor | taro/jobs/warning.py:43-46 | Instance, id and pattern are kept. |
| Warning.OutputMatchesWarning.OutputUpdate | taro/jobs/warning.py:48-52 | Adds `Warn(id, {matches: line})` iff the search succeeds, and nothing else. |
| Warning.OutputMatches | taro/jobs/warning.py:11-12 | Registers one new matcher with the given id and pattern as an output observer, and nothing else. |
| Persistence.FullName | taro/jobs/persistence.py:22 | The module name is the package, a dot, then the type. |
| Persistence.Fault.Message | taro/jobs/persistence.py:122-132 | The not-found text names the module. The disabled text is fixed. |
| Persistence.Resolve | taro/jobs/persistence.py:17-26 | Not-found iff persistence is enabled and no installed module is named package.type, and the error names that module. Otherwise a backend with the given serial: the stub iff persistence is disabled, else the plugin of that name. |
| Persistence.LoadPersistence | taro/jobs/persistence.py:17-26 | Disabled gives the stub whatever the type. Otherwise it gives the plugin named package.type when installed, and otherwise raises not-found naming that module. |
| Persistence.Reply | taro/jobs/persistence.py:100-115 | A plugin answers every call, `read_jobs` with its rows. The stub answers only `close` normally. |
| Persistence.StubReplies | taro/jobs/persistence.py:100-115 | The stub's store and remove raise the disabled error. The facade's read and clean-up calls do not bind to the stub's signatures. Close does nothing. |
| Persistence.CloseCalls | taro/jobs/persistence.py:38-41 | One close call per cached backend, in the cache's order. |
| Persistence.CloseAll | taro/jobs/persistence.py:38-41 | Definition: the cache's close calls are appended, then the cache is cleared. `Persistence.CloseRetiresAll` states what it achieves. |
| Persistence.CloseRetiresAll | taro/jobs/persistence.py:38-41 | After close every loaded backend has been closed and nothing is cached. A second close calls nothing. |
| Persistence.Lookup | taro/jobs/persistence.py:29-36 | Definition of `self[key]` with `__missing__`. Its properties are stated by `Persistence.LookupKeepsInv`, `Persistence.SwitchClosesPrevious` and `Persistence.LookupTwice`. |
| Persistence.LookupKeepsInv | taro/jobs/persistence.py:29-36 | Every lookup keeps the invariant: at most one backend is cached, and every other backend ever loaded has been closed. |
| Persistence.SwitchClosesPrevious | taro/jobs/persistence.py:31-36 | A missing key closes and evicts every cached backend. Then it caches a fresh instance, or nothing when the load fails. |
| Persistence.LookupTwice | taro/jobs/persistence.py:29-36 | After a successful lookup, the same key hits the cache: same backend, no change. |
| Persistence.PersistenceHolder.constructor | taro/jobs/persistence.py:44 | The holder starts empty. |
| Persistence.PersistenceHolder.Close | taro/jobs/persistence.py:38-41 | The loop calls close on every cached backend in order, then clears. |
| Persistence.PersistenceHolder.Get | taro/jobs/persistence.py:29-36 | A present key answers its backend. A missing key closes everything, then loads and caches. |
| Persistence.ParsedMaxAge | taro/jobs/persistence.py:74-79 | It fails iff a non-empty max age does not parse. An unset or empty one means no max age. A parsable one gives its parsed duration. |
| Persistence.StoreThenCleanUp | taro/jobs/persistence.py:65-67 | The store call comes first. Clean-up runs on the same cached backend only after the store returned. A failed lookup calls nothing. |
| Persistence.CleanUpMaxAge | taro/jobs/persistence.py:74-80 | An invalid max age returns normally and leaves the holder untouched. A valid one calls `clean_up(max_records, max_age)`. |
| Persistence.NumOfJobCounts | taro/jobs/persistence.py:61-62 | `num_of_job` is the length of the unlimited CREATED-sorted read. |
| Persistence.StubFacade | taro/jobs/persistence.py:100-115 | Over the stub, store and remove fail as disabled. Read and `num_of_job` fail to bind `read_jobs` for every id filter, `None` included. Clean-up fails to bind `clean_up` unless the max age is invalid. |
| Persistence.DisabledGivesStub | taro/jobs/persistence.py:17-19 | With persistence disabled, an uncached type resolves to a new stub. |
| Persistence.Instance | taro/jobs/persistence.py:47-48 | A lookup of the configured type. |
| Persistence.ReadJobs | taro/jobs/persistence.py:57-58 | Looks up the backend, then calls `read_jobs` with every keyword. |
| Persistence.NumOfJob | taro/jobs/persistence.py:61-62 | The unlimited read's length. |
| Persistence.RemoveJob | taro/jobs/persistence.py:70-71 | Looks up the backend, then calls `remove_job(id_=...)`. |
| Persistence.CleanUp | taro/jobs/persistence.py:74-80 | Parses the max age first, then looks up the backend and cleans up. |
| Persistence.StoreJob | taro/jobs/persistence.py:65-67 | Stores, then cleans up. |
| Persistence.Close | taro/jobs/persistence.py:83-84 | Closes the module's holder. |
| Persistence.SortKey | taro/jobs/persistence.py:87-97 | CREATED gives the CREATED timestamp, and a KeyError iff CREATED was never recorded. FINISHED is the execution finish time, defined iff the state is terminal. TIME is the execution time at `now`, defined iff execution started. |
| Persistence.SortByTimeNonNegative | taro/jobs/persistence.py:93-94 | On a chronological ledger read no earlier than its last change, the TIME key is never negative. |

## Left out

- The runner (`taro/runner.py`) is not part of this model. Its latches, cancellation checkpoints and state sequences are not modelled. `JobInstance` is abstract in the source, so `Job.JobInstance` is a stand-in. It keeps only the id, the lifecycle, the warnings and the observer registrations.
- The operating-system process, the output-reader thread, its join timeout, `threading.Timer` and all console and stderr writes are I/O and concurrency. The process is an input outcome. Its output is read in full before the wait returns, and the timer running out is an event.
- Program.ProgramExecution.Execute: an exception raised after the launch (a keyboard interrupt or system exit during the wait) is modelled as raised before the launch. So `launched` stays false in those branches.
- Program.ProgramExecution.Stop: the model counts terminate requests, but does not model what the process does with them.
- The regular-expression engine, `fnmatch`, `pkgutil`/`importlib` discovery and the ISO 8601 duration parser are foreign libraries and become parameters. The duration is an integer.
- Plugin backends are not part of this model. A plugin is assumed to answer every call normally, and its rows are a parameter. Exceptions from a plugin's factory, its methods or its `close` are not modelled.
- `ExecutionLifecycle.__copy__` shares the underlying dict between copies. Lifecycles are values here, so that aliasing is not captured.
- `state_changes()`, `__repr__` of every class other than `JobInstanceID`, `JobInstance` members other than ids, warnings and observers, and the warning observer registry are not modelled.
- Clock readings are integers and the watchdog time is a real number. Python floats and datetimes are not modelled bit-exactly.
- Persistence.SortKey: the `raise ValueError(sort)` fallback is left out. The three criteria are exhaustive, so it cannot be reached.
- Program.ProgramExecution.ReadOutput: the output stream's UTF-8 decoding is not modelled. Lines are already text, so a `UnicodeDecodeError` that would end delivery early in the reader thread cannot occur.
- Program.ExecuteOutcome: the `raise ... from e` chaining is not modelled, so the raised error keeps no link to the original exception. The file-not-found error keeps only its text, as the message.
- Persistence.ReadJobs: the keyword defaults of the facade's `read_jobs` are not modelled. Callers pass all five arguments explicitly.
- Warning.OutputMatchesWarning.constructor: `re.compile` raising on an invalid pattern is not modelled. The pattern is represented only by its search predicate, which always exists.
- Persistence.Fault.Message: the text of Python's own binding `TypeError` is left abstract and stands in as the operation name.
