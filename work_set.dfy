/** The bookkeeping of ls_xargs_concurrent: a set of file names still to be
    processed, a set of file names already handed to a worker, and the flag
    that tells workers and the supervisor to keep going.

    Every change to the two sets happens inside one critical section on a
    single lock, so each critical section is one atomic step of the state
    machine below, and any interleaving of the threads is a sequence of such
    steps (a run). */
module WorkSet {

  type Filename = string

  /** The file the resumable variant stores its processed set in, inside the
      target directory, and the backup it renames the previous copy to. */
  const PickleFilename: Filename := "ls_xargs_concurrent_files_processed.pickle"
  const BackupFilename: Filename := PickleFilename + ".bak"
  const Reserved: set<Filename> := {PickleFilename, BackupFilename}

  /** `pending` is files_to_process, `processed` is files_processed (a name is
      put there the moment a worker claims it, before its command runs). */
  datatype State = State(pending: set<Filename>, processed: set<Filename>, keepProcessing: bool)

  /** No name is both waiting and already claimed. */
  predicate Disjoint(s: State)
  {
    s.pending !! s.processed
  }

  /** What the stored processed set looked like when the run started. */
  datatype Stored =
    | Absent                        // no pickle file in the directory
    | Unreadable                    // opening the file raised OSError
    | Corrupted                     // pickle.load raised UnpicklingError or EOFError
    | Loaded(names: set<Filename>)  // a set of names was read back

  /** files_processed once start-up is done: the loaded set (or the empty set
      when there is nothing usable) plus the two reserved names, when the
      resumable variant is enabled; the empty set otherwise. */
  function InitialProcessed(pickle: bool, stored: Stored): (r: set<Filename>)
    ensures pickle ==> Reserved <= r
    ensures !pickle ==> r == {}
    ensures pickle && stored.Loaded? ==> stored.names <= r && r - Reserved == stored.names - Reserved
    ensures pickle && !stored.Loaded? ==> r == Reserved
  {
    if !pickle then {}
    else (if stored.Loaded? then stored.names else {}) + Reserved
  }

  function InitialState(pickle: bool, stored: Stored): State
  {
    State({}, InitialProcessed(pickle, stored), true)
  }

  /** The outcome of one claim: a name handed to the worker (and whether a
      rescan of the directory preceded it), or nothing left, so the worker
      retires. */
  datatype Claim = Claimed(name: Filename, didScan: bool) | Retired

  /** The names a claim picks from: the pending set when it is not empty,
      otherwise the fresh directory listing less what was already processed. */
  function Candidates(s: State, listing: set<Filename>): set<Filename>
  {
    if s.pending != {} then s.pending else listing - s.processed
  }

  /** The claim-or-rescan critical section of a worker, given the set of
      regular files the directory holds at that moment. The name popped is
      arbitrary among the candidates. When the rescan finds nothing the pending
      set stays empty and the worker retires. */
  ghost predicate ClaimStep(s: State, listing: set<Filename>, r: Claim, t: State)
  {
    var c := Candidates(s, listing);
    if c == {} then
      r == Retired && t == s
    else
      && r.Claimed?
      && r.name in c
      && r.didScan == (s.pending == {})
      && t == State(c - {r.name}, s.processed + {r.name}, s.keepProcessing)
  }

  /** The critical section run when the command cannot be found: no more
      processing, nothing left pending. */
  function AfterCommandNotFound(s: State): State
  {
    State({}, s.processed, false)
  }

  /** The effect of SIGINT or SIGTERM. */
  function AfterSignal(s: State): State
  {
    s.(keepProcessing := false)
  }

  /** What can happen to the shared state once the workers are running. */
  datatype Event =
    | ClaimEvent(listing: set<Filename>, result: Claim)
    | DrainEvent
    | SignalEvent

  ghost predicate Step(s: State, e: Event, t: State)
  {
    match e
    case ClaimEvent(listing, r) => ClaimStep(s, listing, r, t)
    case DrainEvent => t == AfterCommandNotFound(s)
    case SignalEvent => t == AfterSignal(s)
  }

  /** `states[i]` is the shared state before `events[i]` and `states[i + 1]`
      the state after it: any interleaving of the workers' critical sections
      and the signal handler. */
  ghost predicate IsRun(states: seq<State>, events: seq<Event>)
  {
    && |states| == |events| + 1
    && forall i :: 0 <= i < |events| ==> Step(states[i], events[i], states[i + 1])
  }

  /** The names handed out by the claims of a run, in order. */
  function ClaimedNames(events: seq<Event>): seq<Filename>
  {
    if events == [] then []
    else
      var last := events[|events| - 1];
      ClaimedNames(events[..|events| - 1]) +
        (if last.ClaimEvent? && last.result.Claimed? then [last.result.name] else [])
  }

  function Elements(names: seq<Filename>): set<Filename>
  {
    set n | n in names
  }

  predicate NoDuplicates(names: seq<Filename>)
  {
    forall i, j :: 0 <= i < j < |names| ==> names[i] != names[j]
  }

  /** One claim keeps the sets apart, only adds to the processed set, hands
      out a name that was not processed before and retires exactly when the
      pending set is empty and the listing holds nothing new. */
  lemma ClaimStepProperties(s: State, listing: set<Filename>, r: Claim, t: State)
    requires Disjoint(s) && ClaimStep(s, listing, r, t)
    ensures Disjoint(t)
    ensures s.processed <= t.processed && t.keepProcessing == s.keepProcessing
    ensures r.Retired? <==> s.pending == {} && listing <= s.processed
    ensures r.Retired? ==> t == s
    ensures r.Claimed? ==>
      && r.name !in s.processed
      && r.name !in t.pending
      && t.processed == s.processed + {r.name}
    ensures r.Claimed? && s.pending != {} ==>
      !r.didScan && r.name in s.pending && t.pending == s.pending - {r.name}
    ensures r.Claimed? && s.pending == {} ==>
      r.didScan && r.name in listing && t.pending == listing - t.processed
  {
    if s.pending == {} && listing - s.processed == {} {
      forall n | n in listing ensures n in s.processed {
        assert n !in listing - s.processed;
      }
    }
  }

  lemma StepProperties(s: State, e: Event, t: State)
    requires Disjoint(s) && Step(s, e, t)
    ensures Disjoint(t)
    ensures s.processed <= t.processed
    ensures !s.keepProcessing ==> !t.keepProcessing
    ensures !(e.ClaimEvent? && e.result.Claimed?) ==> t.processed == s.processed
    ensures e.ClaimEvent? && e.result.Claimed? ==>
      e.result.name !in s.processed && t.processed == s.processed + {e.result.name}
  {
  }

  lemma {:induction false} RunPrefix(states: seq<State>, events: seq<Event>)
    requires IsRun(states, events) && events != []
    ensures IsRun(states[..|states| - 1], events[..|events| - 1])
  {
  }

  /** Pending and processed stay disjoint through any run that starts with
      them disjoint. */
  lemma {:induction false} RunKeepsDisjoint(states: seq<State>, events: seq<Event>)
    requires IsRun(states, events) && Disjoint(states[0])
    ensures forall i :: 0 <= i < |states| ==> Disjoint(states[i])
  {
    if events != [] {
      var n := |events|;
      RunPrefix(states, events);
      RunKeepsDisjoint(states[..n], events[..n - 1]);
      assert Disjoint(states[n - 1]);
      StepProperties(states[n - 1], events[n - 1], states[n]);
    }
  }

  /** The processed set only grows, so a name once processed is never handed
      out again in the same run, and the flag, once down, stays down. */
  lemma {:induction false} RunIsMonotonic(states: seq<State>, events: seq<Event>)
    requires IsRun(states, events) && Disjoint(states[0])
    ensures forall i, j :: 0 <= i <= j < |states| ==> states[i].processed <= states[j].processed
    ensures forall i, j :: 0 <= i <= j < |states| && !states[i].keepProcessing ==> !states[j].keepProcessing
  {
    if events != [] {
      var n := |events|;
      RunPrefix(states, events);
      RunIsMonotonic(states[..n], events[..n - 1]);
      RunKeepsDisjoint(states, events);
      StepProperties(states[n - 1], events[n - 1], states[n]);
      forall i, j | 0 <= i <= j < |states|
        ensures states[i].processed <= states[j].processed
        ensures !states[i].keepProcessing ==> !states[j].keepProcessing
      {
        if j == n && i < n {
          assert states[i].processed <= states[n - 1].processed by {
            assert states[..n][i] == states[i] && states[..n][n - 1] == states[n - 1];
          }
          assert !states[i].keepProcessing ==> !states[n - 1].keepProcessing by {
            assert states[..n][i] == states[i] && states[..n][n - 1] == states[n - 1];
          }
        } else if j < n {
          assert states[..n][i] == states[i] && states[..n][j] == states[j];
        }
      }
    }
  }

  /** No name is handed out twice in a run, none was processed when the run
      began, and the processed set at the end is the initial one plus exactly
      the names handed out. */
  lemma {:induction false} RunClaimsEachNameOnce(states: seq<State>, events: seq<Event>)
    requires IsRun(states, events) && Disjoint(states[0])
    ensures NoDuplicates(ClaimedNames(events))
    ensures Elements(ClaimedNames(events)) !! states[0].processed
    ensures states[|states| - 1].processed == states[0].processed + Elements(ClaimedNames(events))
  {
    if events != [] {
      var n := |events|;
      RunPrefix(states, events);
      RunClaimsEachNameOnce(states[..n], events[..n - 1]);
      RunKeepsDisjoint(states, events);
      StepProperties(states[n - 1], events[n - 1], states[n]);
      var before := ClaimedNames(events[..n - 1]);
      var e := events[n - 1];
      if e.ClaimEvent? && e.result.Claimed? {
        assert ClaimedNames(events) == before + [e.result.name];
        assert e.result.name !in before by {
          assert Elements(before) <= states[n - 1].processed;
        }
        assert Elements(before + [e.result.name]) == Elements(before) + {e.result.name};
      } else {
        assert ClaimedNames(events) == before;
      }
    }
  }

  /** A name processed at some point of a run is pending at no later point,
      however often a rescan sees it in the directory again. */
  lemma ProcessedNeverPendingAgain(states: seq<State>, events: seq<Event>)
    requires IsRun(states, events) && Disjoint(states[0])
    ensures forall i, j, n :: 0 <= i <= j < |states| && n in states[i].processed ==> n !in states[j].pending
  {
    RunKeepsDisjoint(states, events);
    RunIsMonotonic(states, events);
  }

  /** With the resumable variant, the stored file and its backup are never
      pending, so no rescan turns them into work. */
  lemma ReservedNeverPending(states: seq<State>, events: seq<Event>)
    requires IsRun(states, events) && Disjoint(states[0]) && Reserved <= states[0].processed
    ensures forall i :: 0 <= i < |states| ==> Reserved !! states[i].pending
    ensures Elements(ClaimedNames(events)) !! Reserved
  {
    RunKeepsDisjoint(states, events);
    RunIsMonotonic(states, events);
    RunClaimsEachNameOnce(states, events);
    forall i | 0 <= i < |states| ensures Reserved !! states[i].pending {
      assert Reserved <= states[i].processed;
    }
  }

  /** After a restart that reads back a stored processed set, a run hands out
      only names outside that set and outside the reserved names. */
  lemma RestartSkipsStoredNames(stored: set<Filename>, states: seq<State>, events: seq<Event>)
    requires IsRun(states, events) && states[0] == InitialState(true, Loaded(stored))
    ensures Elements(ClaimedNames(events)) !! stored + Reserved
    ensures states[|states| - 1].processed == stored + Reserved + Elements(ClaimedNames(events))
  {
    RunClaimsEachNameOnce(states, events);
  }
}
