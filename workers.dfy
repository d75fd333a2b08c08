/** The threads of ls_xargs_concurrent, written as the imperative code they
    are: the shared sets and flag in one object, each critical section a
    method on it, the worker's loop and the supervisor's wake-up step.

    The claim, the drain and the signal are each one atomic step of WorkSet's
    state machine; the seeding runs before any worker starts. The lock, the
    change event and the threads themselves are not represented. */
module Workers {
  import opened WorkSet

  /** The module-level globals files_to_process, files_processed and
      keep_processing. */
  class SharedWork {
    var pending: set<Filename>
    var processed: set<Filename>
    var keepProcessing: bool

    function Current(): State
      reads this
    {
      State(pending, processed, keepProcessing)
    }

    ghost predicate Valid()
      reads this
    {
      Disjoint(Current())
    }

    /** The sets as they are before the reserved names are added: nothing
        pending, and the processed set read back from the stored file. */
    constructor (loaded: set<Filename>)
      ensures Valid()
      ensures Current() == State({}, loaded, true)
    {
      pending := {};
      processed := loaded;
      keepProcessing := true;
    }

    /** Puts the stored file and its backup into the processed set. */
    method SeedReserved()
      requires Valid() && Reserved !! pending
      modifies this
      ensures Valid()
      ensures Current() == old(Current()).(processed := old(processed) + Reserved)
    {
      processed := processed + {PickleFilename};
      processed := processed + {BackupFilename};
    }

    /** The claim-or-rescan critical section of a worker; `listing` is the set
        of regular files in the directory if a rescan happens. */
    method ClaimOrRescan(listing: set<Filename>) returns (r: Claim)
      requires Valid()
      modifies this
      ensures Valid()
      ensures ClaimStep(old(Current()), listing, r, Current())
    {
      var didScan := false;
      if pending == {} {
        didScan := true;
        pending := pending + (listing - processed);
        if pending == {} {
          return Retired;
        }
      }
      var name :| name in pending;
      pending := pending - {name};
      processed := processed + {name};
      r := Claimed(name, didScan);
    }

    /** What a worker does when its command cannot be found. */
    method CommandNotFound()
      requires Valid()
      modifies this
      ensures Valid()
      ensures Current() == AfterCommandNotFound(old(Current()))
    {
      keepProcessing := false;
      pending := {};
    }

    /** The signal handler. */
    method Signal()
      requires Valid()
      modifies this
      ensures Valid()
      ensures Current() == AfterSignal(old(Current()))
    {
      keepProcessing := false;
    }

    /** One worker thread running on its own while the directory holds the
        regular files `listing`; `commandFound` says whether the command's
        executable exists. Returns the names the command was started on, in
        order. */
    method Run(listing: set<Filename>, commandFound: bool) returns (invoked: seq<Filename>)
      requires Valid()
      modifies this
      ensures Valid()
      ensures NoDuplicates(invoked)
      ensures Elements(invoked) !! old(processed)
      ensures processed == old(processed) + Elements(invoked)
      ensures !old(keepProcessing) ==> invoked == [] && Current() == old(Current())
      ensures invoked == [] ==> Current() == old(Current())
      ensures old(keepProcessing) && commandFound ==>
        && keepProcessing
        && pending == {}
        && Elements(invoked) == old(pending) + (listing - old(processed))
      ensures !commandFound && invoked != [] ==> |invoked| == 1 && !keepProcessing && pending == {}
      ensures !commandFound && invoked != [] ==> invoked[0] in Candidates(old(Current()), listing)
      ensures old(keepProcessing) && Candidates(old(Current()), listing) != {} ==> invoked != []
    {
      ghost var s0 := Current();
      invoked := [];
      while keepProcessing
        invariant Looping(s0, listing, commandFound, invoked, Current())
        decreases |(s0.pending + listing) - processed|
      {
        ghost var s := Current();
        var r := ClaimOrRescan(listing);
        if r.Retired? {
          RetireOutcome(s0, listing, commandFound, invoked, s);
          return;
        }
        ghost var t := Current();
        if !commandFound {
          CommandNotFound();
        }
        ClaimKeepsLooping(s0, listing, commandFound, invoked, s, r, t, Current());
        invoked := invoked + [r.name];
      }
      StopOutcome(s0, listing, commandFound, invoked, Current());
    }
  }

  /** What holds of a worker running alone that started in state `s0`, has
      started its command on `invoked` and sees state `s`. */
  ghost predicate Progress(s0: State, listing: set<Filename>, invoked: seq<Filename>, s: State)
  {
    && Disjoint(s)
    && NoDuplicates(invoked)
    && Elements(invoked) !! s0.processed
    && s.processed == s0.processed + Elements(invoked)
    && s.processed <= s0.processed + s0.pending + listing
    && s.pending <= s0.pending + listing
  }

  /** A claim that hands out a name keeps the worker's progress facts and
      brings the unhandled names one closer to none. */
  lemma ClaimKeepsProgress(s0: State, listing: set<Filename>, invoked: seq<Filename>, s: State, r: Claim, t: State)
    requires Progress(s0, listing, invoked, s)
    requires ClaimStep(s, listing, r, t) && r.Claimed?
    ensures Progress(s0, listing, invoked + [r.name], t)
    ensures t.keepProcessing == s.keepProcessing
    ensures s0.pending <= s.pending + s.processed ==> s0.pending <= t.pending + t.processed
    ensures |(s0.pending + listing) - t.processed| < |(s0.pending + listing) - s.processed|
  {
    ClaimStepProperties(s, listing, r, t);
    var all := s0.pending + listing;
    assert r.name in all - s.processed;
    assert all - t.processed == (all - s.processed) - {r.name};
    AppendFresh(invoked, r.name);
  }

  /** Appending a name not yet in a list of distinct names keeps them
      distinct and adds exactly that name. */
  lemma AppendFresh(names: seq<Filename>, name: Filename)
    requires NoDuplicates(names) && name !in Elements(names)
    ensures NoDuplicates(names + [name])
    ensures Elements(names + [name]) == Elements(names) + {name}
  {
    var extended := names + [name];
    forall i, j | 0 <= i < j < |extended| ensures extended[i] != extended[j] {
      if j == |names| {
        assert extended[i] in Elements(names);
      }
    }
  }

  /** When a worker running alone retires, every name that was pending or is
      new in the listing has been handed to it. */
  lemma RetireCompletes(s0: State, listing: set<Filename>, invoked: seq<Filename>, s: State)
    requires Disjoint(s0) && Progress(s0, listing, invoked, s)
    requires s0.pending <= s.pending + s.processed
    requires ClaimStep(s, listing, Retired, s)
    ensures s.pending == {}
    ensures Elements(invoked) == s0.pending + (listing - s0.processed)
  {
  }

  /** The loop invariant of a worker running alone that started in `s0`. */
  ghost predicate Looping(s0: State, listing: set<Filename>, commandFound: bool, invoked: seq<Filename>, s: State)
  {
    && Disjoint(s0) && Progress(s0, listing, invoked, s)
    && (s.keepProcessing ==> s0.keepProcessing)
    && (!s0.keepProcessing ==> invoked == [] && s == s0)
    && (invoked == [] ==> s == s0)
    && (commandFound ==> s.keepProcessing == s0.keepProcessing && s0.pending <= s.pending + s.processed)
    && (!commandFound && invoked != [] ==>
          |invoked| == 1 && !s.keepProcessing && s.pending == {} && invoked[0] in Candidates(s0, listing))
  }

  /** What `Run` promises about a worker that started in `s0`, handed its
      command `invoked` and left the shared state `s`. */
  ghost predicate RunOutcome(s0: State, listing: set<Filename>, commandFound: bool, invoked: seq<Filename>, s: State)
  {
    && Disjoint(s)
    && NoDuplicates(invoked)
    && Elements(invoked) !! s0.processed
    && s.processed == s0.processed + Elements(invoked)
    && (!s0.keepProcessing ==> invoked == [] && s == s0)
    && (invoked == [] ==> s == s0)
    && (s0.keepProcessing && commandFound ==>
          s.keepProcessing && s.pending == {} && Elements(invoked) == s0.pending + (listing - s0.processed))
    && (!commandFound && invoked != [] ==>
          |invoked| == 1 && !s.keepProcessing && s.pending == {} && invoked[0] in Candidates(s0, listing))
    && (s0.keepProcessing && Candidates(s0, listing) != {} ==> invoked != [])
  }

  /** One pass of the worker loop that hands out a name, followed by the
      drain when the command is missing, keeps the loop invariant and brings
      the unhandled names one closer to none. */
  lemma ClaimKeepsLooping(s0: State, listing: set<Filename>, commandFound: bool, invoked: seq<Filename>,
                          s: State, r: Claim, t: State, u: State)
    requires Looping(s0, listing, commandFound, invoked, s) && s.keepProcessing
    requires ClaimStep(s, listing, r, t) && r.Claimed?
    requires u == if commandFound then t else AfterCommandNotFound(t)
    ensures Looping(s0, listing, commandFound, invoked + [r.name], u)
    ensures |(s0.pending + listing) - u.processed| < |(s0.pending + listing) - s.processed|
  {
    ClaimKeepsProgress(s0, listing, invoked, s, r, t);
    if invoked == [] {
      assert s == s0;
    }
  }

  /** A worker that retires has kept every promise of `Run`. */
  lemma RetireOutcome(s0: State, listing: set<Filename>, commandFound: bool, invoked: seq<Filename>, s: State)
    requires Looping(s0, listing, commandFound, invoked, s) && s.keepProcessing
    requires ClaimStep(s, listing, Retired, s)
    ensures RunOutcome(s0, listing, commandFound, invoked, s)
  {
    if commandFound {
      RetireCompletes(s0, listing, invoked, s);
    }
  }

  /** A worker whose loop test finds the flag down has kept every promise of
      `Run`. */
  lemma StopOutcome(s0: State, listing: set<Filename>, commandFound: bool, invoked: seq<Filename>, s: State)
    requires Looping(s0, listing, commandFound, invoked, s) && !s.keepProcessing
    ensures RunOutcome(s0, listing, commandFound, invoked, s)
  {
  }

  /** Builds the shared state at start-up: the processed set is read back only
      when the resumable variant is enabled, and then the reserved names are
      added. */
  method Setup(pickle: bool, stored: Stored) returns (work: SharedWork)
    ensures fresh(work) && work.Valid()
    ensures work.Current() == InitialState(pickle, stored)
  {
    var loaded: set<Filename> := {};
    if pickle && stored.Loaded? {
      loaded := stored.names;
    }
    work := new SharedWork(loaded);
    if pickle {
      work.SeedReserved();
    }
  }

  /** How many workers are started at launch: `maxConcurrent` of them, or
      none when it is below one. */
  function Cap(maxConcurrent: int): nat
  {
    if maxConcurrent < 1 then 0 else maxConcurrent
  }

  /** What the supervisor does on one wake-up: stop because the flag is down,
      go on after starting `started` workers, or finish because nothing is
      pending and no worker is alive. */
  datatype Decision = Halted | Continue(started: nat) | Finished

  /** The decision of one supervisor wake-up, given the flag at the loop test,
      the workers still alive after reaping and whether anything is pending. */
  function Supervise(keep: bool, alive: nat, maxConcurrent: int, workPending: bool): (d: Decision)
    requires alive <= Cap(maxConcurrent)
    ensures d == Halted <==> !keep
    ensures d == Finished <==> keep && !workPending && alive == 0
    ensures d.Continue? ==> alive + d.started <= Cap(maxConcurrent)
    ensures d.Continue? && workPending ==> alive + d.started == Cap(maxConcurrent)
    ensures d.Continue? && !workPending ==> d.started == 0 && alive > 0
    ensures maxConcurrent < 1 && d.Continue? ==> d.started == 0
  {
    if !keep then Halted
    else if workPending then Continue(if alive < maxConcurrent then maxConcurrent - alive else 0)
    else if alive == 0 then Finished
    else Continue(0)
  }

  /** What the supervisor writes to the stored file on a wake-up. */
  datatype Snapshot = NotSaved | Saved(names: set<Filename>)

  /** The main thread after argument parsing: the target number of workers,
      the worker threads it knows of (as a count) and the shared state. */
  class Supervisor {
    const work: SharedWork
    const maxConcurrent: int
    const pickle: bool
    var live: nat

    ghost predicate Valid()
      reads this
    {
      live <= Cap(maxConcurrent)
    }

    constructor (work: SharedWork, maxConcurrent: int, pickle: bool)
      ensures Valid()
      ensures this.work == work && this.maxConcurrent == maxConcurrent && this.pickle == pickle
      ensures live == 0
    {
      this.work := work;
      this.maxConcurrent := maxConcurrent;
      this.pickle := pickle;
      live := 0;
    }

    /** Starts the initial cohort; refuses to run when `maxConcurrent` is
        below one. */
    method Launch() returns (ok: bool)
      requires live == 0
      modifies this
      ensures Valid()
      ensures ok <==> maxConcurrent >= 1
      ensures live == Cap(maxConcurrent)
    {
      ok := maxConcurrent >= 1;
      var i := 0;
      while i < maxConcurrent
        invariant live == Cap(i) && (i <= 0 || i <= maxConcurrent)
      {
        live := live + 1;
        i := i + 1;
      }
    }

    /** One pass of the supervisor loop. `keepAtTest` is the flag as the loop
        test read it before the wait for a change; the pass after the wait does
        not read the flag again. `exited` of the known workers have finished
        since the last pass. */
    method Step(keepAtTest: bool, exited: nat) returns (d: Decision, saved: Snapshot)
      requires Valid() && exited <= live
      modifies this
      ensures Valid()
      ensures d == Supervise(keepAtTest, old(live) - exited, maxConcurrent, work.pending != {})
      ensures d == Halted ==> live == old(live) && saved == NotSaved
      ensures d.Continue? ==> live == old(live) - exited + d.started
      ensures d == Finished ==> live == 0
      ensures d != Halted ==> saved == (if pickle then Saved(work.processed) else NotSaved)
    {
      if !keepAtTest {
        return Halted, NotSaved;
      }
      live := live - exited;
      var pendingCount := |work.pending|;
      saved := if pickle then Saved(work.processed) else NotSaved;
      if pendingCount > 0 {
        var started := 0;
        var i := live;
        while i < maxConcurrent
          invariant live == old(live) - exited + started
          invariant i == live && live <= Cap(maxConcurrent)
        {
          live := live + 1;
          started := started + 1;
          i := i + 1;
        }
        d := Continue(started);
      } else if live == 0 {
        d := Finished;
      } else {
        d := Continue(0);
      }
    }
  }
}
