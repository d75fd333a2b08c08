# Concurrent xargs over a directory: the work-set bookkeeping, modelled in Dafny

`ls_xargs_concurrent.py` runs a command once per regular file in a directory.
Up to `--max-concurrent` worker threads run at a time, and it picks up files
that appear while it runs. Two sets of file names hold the state:
`files_to_process` (pending) and `files_processed` (handed to a worker). One
lock guards both. A `keep_processing` flag, lowered by SIGINT/SIGTERM or by a
missing executable, stops the loops. With `--pickle` the processed set is read
back at start-up and written out on each pass of the main thread's loop.
Changes made after that loop ends are not saved. The stored file and its
`.bak` are put into the processed set so they are never treated as work.

`xargs_concurrent.py` is a sibling tool. It splits its own options from the
command on its command line. It then runs the command once per line of
standard input and counts how often each exit status came back.

The project has three modules:

- `WorkSet` (`work_set.dfy`): the state machine. Each critical section on the
  files lock is one atomic step: claim-or-rescan, the command-not-found drain
  and the signal. A *run* is any sequence of steps, so it covers every
  interleaving of the workers. Lemmas prove that over every run the two sets
  stay disjoint, the processed set only grows, no name is handed out twice, and
  the reserved names are never pending. A restart from a stored set hands out
  only names outside it.
- `Workers` (`workers.dfy`): the imperative code.
  - Class `SharedWork` holds the two sets and the flag. `ClaimOrRescan` and
    `CommandNotFound` are the two critical sections of a worker, and `Signal`
    is the signal handler's flag write. Each is proved to perform the matching
    `WorkSet` step. `SeedReserved` is the start-up seeding, which happens
    before any worker runs and so is no step of a run. `Run` is the worker
    loop.
  - `Setup` is the start-up sequence: load, then seed.
  - Class `Supervisor` has the launch and one pass of the main thread's loop.
    Live workers are a count.
- `Xargs` (`xargs.dfy`): the command-line split, the argument list of a
  spawned command and the exit-status tally.

The directory listing, whether the executable exists, how many workers have
exited and what the stored file held are all parameters.

Points where the code's order of events matters:

- The code reads the stored file (ls_xargs_concurrent.py:102-108) before it
  renames it to `.bak` (109-114). The processed set therefore comes from the
  file as it was before the rename.
- The `--pickle` load and rename (99-120) happen before the
  `--max-concurrent < 1` check (128-129, 169). So with a bad worker count the
  stored file has already been moved to `.bak` when the error is reported.
- A worker tests `keep_processing` outside the lock. A signal can therefore
  arrive between that test and the claim. For this reason a claim step in
  `WorkSet` does not require the flag to be up. Only a worker whose own loop
  test sees it down is proved to make no claim (`SharedWork.Run`).
- The supervisor reads `keep_processing` only at its loop test (134), before it
  waits for a change (136). The pass after the wait (139-167) reaps, saves and
  tops up whatever the flag has become meanwhile. `Supervisor.Step` therefore
  takes the flag as read at the loop test as its own input. When that reading
  is down, the supervisor leaves its loop at that same test, even while
  workers are still alive. A flag lowered during the wait or the pass takes
  effect only at the next test. Their commands are then awaited by interpreter
  shutdown, which is not modelled.

## Model

| member | source | states |
|---|---|---|
| `WorkSet.InitialProcessed` | ls_xargs_concurrent.py:96-120 | Without `--pickle` the processed set starts empty. With it, the set is the loaded names (empty when the file is absent, cannot be opened, or `pickle.load` raised `UnpicklingError` or `EOFError`) plus the stored file and its `.bak` |
| `WorkSet.ClaimStepProperties` | ls_xargs_concurrent.py:43-65 | One claim keeps pending and processed disjoint and only adds to processed. It retires exactly when nothing is pending and the listing holds nothing unprocessed, and then changes nothing. With work pending it does not rescan and moves exactly one pending name to processed. Otherwise pending becomes the listing less processed, less the name handed out. The name handed out was not processed before |
| `WorkSet.StepProperties` | ls_xargs_concurrent.py:22-78 | Every atomic step (claim, drain, signal) keeps the sets disjoint and never removes from processed. Only a claim that hands out a name adds to processed, and it adds exactly that name. No step raises a lowered flag |
| `WorkSet.RunKeepsDisjoint` | ls_xargs_concurrent.py:43-65 | In every interleaving of critical sections that starts disjoint, pending and processed stay disjoint |
| `WorkSet.RunIsMonotonic` | ls_xargs_concurrent.py:60-78 | Along any run the processed set only grows, and once `keep_processing` is down it stays down |
| `WorkSet.RunClaimsEachNameOnce` | ls_xargs_concurrent.py:43-65 | In any run, the names handed out are pairwise distinct and none was processed when the run began. The final processed set is the initial one plus exactly those names |
| `WorkSet.ProcessedNeverPendingAgain` | ls_xargs_concurrent.py:49-52 | In any run, a name processed at some point is pending at no later point, however often a rescan lists it again |
| `WorkSet.ReservedNeverPending` | ls_xargs_concurrent.py:118-120 | Once the stored file and its backup are processed, no state of the run has them pending and no claim hands them out |
| `WorkSet.RestartSkipsStoredNames` | ls_xargs_concurrent.py:99-120 | After a restart that reads back a stored set, a run hands out only names outside that set and the reserved names. The final processed set is stored + reserved + the names handed out |
| `Workers.SharedWork.constructor` | ls_xargs_concurrent.py:95-97 | The shared state starts with nothing pending, the loaded processed set and the flag up |
| `Workers.SharedWork.SeedReserved` | ls_xargs_concurrent.py:118-120 | Adds exactly the stored file's name and its `.bak` to processed and changes nothing else |
| `Workers.SharedWork.ClaimOrRescan` | ls_xargs_concurrent.py:43-65 | The claim-or-rescan critical section performs a `WorkSet.ClaimStep` on the shared state, with an arbitrary pending name popped |
| `Workers.SharedWork.CommandNotFound` | ls_xargs_concurrent.py:74-78 | On a missing executable the flag goes down and pending becomes empty; processed is unchanged |
| `Workers.SharedWork.Signal` | ls_xargs_concurrent.py:22-26 | The signal handler lowers the flag and changes nothing else |
| `Workers.SharedWork.Run` | ls_xargs_concurrent.py:38-80 | A worker running alone hands its command each name at most once, never a name processed before it started. Processed grows by exactly those names. If its loop test finds the flag down it claims nothing and changes nothing. With the executable present it retires with nothing pending, after running the command on every name that was pending plus every unprocessed listed file. With the executable missing it stops after the first name, with the flag down and nothing pending; that name was popped from pending, or from the listing less processed when pending was empty. A worker whose loop test finds the flag up claims a name whenever pending or the listing less processed is non-empty. When it claims nothing, the shared state is unchanged |
| `Workers.Setup` | ls_xargs_concurrent.py:95-120 | Start-up produces a fresh, disjoint shared state equal to `WorkSet.InitialState` for the given `--pickle` setting and stored file |
| `Workers.Supervise` | ls_xargs_concurrent.py:134-167 | One supervisor pass halts exactly when the flag is down at the loop test. It finishes exactly when nothing is pending and no worker is alive. With work pending it tops the live count up to `max_concurrent`; otherwise it starts none. The live count never exceeds `max_concurrent`, and when that is below one no worker is ever started |
| `Workers.Supervisor.Launch` | ls_xargs_concurrent.py:128-132 | Starts `max_concurrent` workers and reports success exactly when `max_concurrent >= 1`. Otherwise it starts none (the error branch at line 169) |
| `Workers.Supervisor.Step` | ls_xargs_concurrent.py:134-167 | Halts, changing nothing, when the flag read at the loop test was down. Otherwise it reaps `exited` workers and decides as `Supervise` does, whatever the flag is by then, and updates the live count to match. With `--pickle` it returns the processed set to be saved |
| `Xargs.LooksLikeOptionMeaning` | xargs_concurrent.py:16 | The scan's test `arg[0:1] == "-"` holds exactly when the argument is non-empty and starts with `-`. An empty argument ends the scan |
| `Xargs.ParseArguments` | xargs_concurrent.py:13-25 | "No command" exactly when every argument after `argv[0]` starts with `-` (or there are none). Otherwise the command starts at the smallest index ≥ 1 whose argument is not an option. Exactly `argv[1:command_start]`, all options, go to the option parser, and the command is `argv[command_start:]`, non-empty |
| `Xargs.SpawnArgs` | xargs_concurrent.py:27-29 | A spawned argument list is the fixed command followed by the tokens of one input line |
| `Xargs.SpawnRunsCommand` | xargs_concurrent.py:23-29 | Whatever the input line, the program spawned is the argument where the option scan stopped, which is not an option |
| `Xargs.Tally` | xargs_concurrent.py:36 | The tally has one entry per exit status that occurred, each with a positive count |
| `Xargs.TallyCountsLines` | xargs_concurrent.py:36 | The count for each status is the number of input lines whose command returned it. A status that never occurred has no entry |
| `Xargs.TallyIgnoresOrder` | xargs_concurrent.py:33-36 | Any completion order of the same statuses gives the same tally |
| `Xargs.TallyTotal` | xargs_concurrent.py:36 | The counts add up to the number of input lines |
| `Xargs.Counter` | xargs_concurrent.py:27-36 | There is no output exactly when some line's command raised instead of exiting. Otherwise the output is the tally of the lines' exit statuses |
| `Xargs.CounterIgnoresOrder` | xargs_concurrent.py:33-36 | Any delivery order of the same outcomes gives the same output: the same counts, or no output at all |

## Left out

- Threads, `files_lock`, `print_lock` and the `files_updated` event are not modelled. Each critical section is one atomic step, and an interleaving is a sequence of steps. There is no claim about how many commands run at one instant.
- On a missing executable, the worker lowers the flag outside any lock (line 75) and then takes the lock to clear pending (76-78). `SharedWork.CommandNotFound` does both in one step. Another thread's step can fall between the two halves. A `WorkSet` run covers that split as a signal step (the same flag write) followed later by the drain.
- Signal installation is not modelled. Only the handler's effect, lowering the flag, is.
- `subprocess.Popen(...).wait()` is not modelled. In `SharedWork.Run` the command is a flag saying whether the executable exists, and its exit status is ignored, as in the source. In `Xargs` each line's outcome (an exit status, or an exception) is an input.
- The directory check and listing (`os.listdir`, `os.path.isfile`, `os.path.isdir`) are not modelled. The set of regular files is a parameter of a claim, and the "not a directory" error branch is not modelled.
- `os.path.join`, used to build the file argument appended to the command, is not modelled.
- The pickle format is not modelled, nor file open/read/write, the backup remove/rename, or the warnings `unpickle_safe` prints. A load is one of `Absent`, `Unreadable`, `Corrupted`, `Loaded(names)`. A save is the processed set the supervisor returns.
- WorkSet.InitialProcessed: an unpickled object that is not a set of names is not represented. Neither is an unpickling exception other than `UnpicklingError` or `EOFError` (an `AttributeError` or `ImportError` from a stored file that names a missing class or module): `unpickle_safe` (line 15) does not catch it, so it aborts start-up before any worker runs.
- Workers.Supervisor.Step: the write to the stored file can fail. The step reports the set it would write, not whether the write succeeded.
- Workers.SharedWork.Run: the directory contents are fixed for the whole run, and the worker runs alone. Other workers' steps between its claims are covered by the run lemmas of `WorkSet`, not by this method.
- `argparse` is not modelled, and with it the value of `--num-processes` and its `os.cpu_count()` default. Neither is `shlex.split`: the tokens of an input line are an input of `SpawnArgs`.
- `ThreadPool`/`imap_unordered` scheduling is not modelled. The delivered outcomes are any rearrangement of the per-line outcomes (`CounterIgnoresOrder`). Lines the pool had not yet run when an exception surfaced are not distinguished: the output is simply absent.
- The JSON output, sorted by key and indented, is not modelled.
- Console printing is not modelled.
