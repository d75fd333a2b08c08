/** xargs_concurrent: splitting the command line into the options for the
    tool and the command to run, building the argument list of one spawned
    command, and counting how often each exit status came back. */
module Xargs {

  /** Python's `arg[0:1]`: the first character as a string, or the empty
      string when `arg` is empty. */
  function FirstChar(arg: string): string
  {
    arg[..if |arg| < 1 then |arg| else 1]
  }

  /** The test the option scan applies to each argument. */
  predicate LooksLikeOption(arg: string)
  {
    FirstChar(arg) == "-"
  }

  /** An argument is taken for an option exactly when it starts with a
      hyphen; in particular an empty argument ends the scan. */
  lemma LooksLikeOptionMeaning(arg: string)
    ensures LooksLikeOption(arg) <==> |arg| > 0 && arg[0] == '-'
    ensures !LooksLikeOption("")
  {
  }

  /** The outcome of parse_arguments: no command at all, or the index where
      the command starts, the arguments handed to the option parser and the
      command itself. */
  datatype Arguments =
    | NoCommand
    | Split(commandStart: nat, options: seq<string>, command: seq<string>)

  /** Scans `argv` from index 1 for the first argument that does not start
      with a hyphen. Running off the end is the "no command was found"
      error. */
  method ParseArguments(argv: seq<string>) returns (r: Arguments)
    ensures r.NoCommand? <==> forall i :: 1 <= i < |argv| ==> LooksLikeOption(argv[i])
    ensures r.Split? ==>
      && 1 <= r.commandStart < |argv|
      && !LooksLikeOption(argv[r.commandStart])
      && (forall i :: 1 <= i < r.commandStart ==> LooksLikeOption(argv[i]))
      && r.options == argv[1..r.commandStart]
      && r.command == argv[r.commandStart..]
  {
    var commandStart := 1;
    while commandStart < |argv| && LooksLikeOption(argv[commandStart])
      invariant 1 <= commandStart && (commandStart <= |argv| || commandStart == 1)
      invariant forall i :: 1 <= i < commandStart && i < |argv| ==> LooksLikeOption(argv[i])
      decreases |argv| - commandStart
    {
      commandStart := commandStart + 1;
    }
    if commandStart >= |argv| {
      return NoCommand;
    }
    r := Split(commandStart, argv[1..commandStart], argv[commandStart..]);
  }

  /** The argument list of one spawned command: the fixed command followed by
      the tokens of one input line. */
  function SpawnArgs(command: seq<string>, tokens: seq<string>): (args: seq<string>)
    ensures |args| == |command| + |tokens|
    ensures args[..|command|] == command && args[|command|..] == tokens
  {
    command + tokens
  }

  /** Whatever the input line, the program a spawned command runs is the
      argument the option scan stopped at, never an option. */
  lemma SpawnRunsCommand(argv: seq<string>, commandStart: nat, tokens: seq<string>)
    requires 1 <= commandStart < |argv| && !LooksLikeOption(argv[commandStart])
    ensures SpawnArgs(argv[commandStart..], tokens)[0] == argv[commandStart]
    ensures !LooksLikeOption(SpawnArgs(argv[commandStart..], tokens)[0])
  {
  }

  /** How many input lines ended with `status`, counted from the front. */
  function Occurrences(statuses: seq<int>, status: int): nat
  {
    if statuses == [] then 0
    else (if statuses[0] == status then 1 else 0) + Occurrences(statuses[1..], status)
  }

  /** collections.Counter over the exit statuses in the order the pool
      delivers them: one entry per status seen, incremented once per
      occurrence. */
  function Tally(statuses: seq<int>): (counts: map<int, nat>)
    ensures counts.Keys == set s | s in statuses
    ensures forall s :: s in counts ==> counts[s] > 0
  {
    if statuses == [] then map[]
    else
      var counts := Tally(statuses[..|statuses| - 1]);
      var status := statuses[|statuses| - 1];
      assert statuses == statuses[..|statuses| - 1] + [status];
      counts[status := (if status in counts then counts[status] else 0) + 1]
  }

  lemma {:induction false} OccurrencesAppend(statuses: seq<int>, last: int, status: int)
    ensures Occurrences(statuses + [last], status) ==
            Occurrences(statuses, status) + (if last == status then 1 else 0)
  {
    if statuses != [] {
      assert (statuses + [last])[1..] == statuses[1..] + [last];
      OccurrencesAppend(statuses[1..], last, status);
    }
  }

  /** The count kept for each status is the number of input lines whose
      command returned it, and a status no line returned has no entry. */
  lemma {:induction false} TallyCountsLines(statuses: seq<int>, status: int)
    ensures status in Tally(statuses) <==> Occurrences(statuses, status) > 0
    ensures status in Tally(statuses) ==> Tally(statuses)[status] == Occurrences(statuses, status)
  {
    if statuses != [] {
      var init := statuses[..|statuses| - 1];
      var last := statuses[|statuses| - 1];
      assert statuses == init + [last];
      TallyCountsLines(init, status);
      OccurrencesAppend(init, last, status);
    }
  }

  lemma {:induction false} OccurrencesIsMultiplicity(statuses: seq<int>, status: int)
    ensures Occurrences(statuses, status) == multiset(statuses)[status]
  {
    if statuses != [] {
      assert statuses == [statuses[0]] + statuses[1..];
      assert multiset(statuses) == multiset{statuses[0]} + multiset(statuses[1..]);
      OccurrencesIsMultiplicity(statuses[1..], status);
    }
  }

  /** The pool hands results back in completion order, which is any
      rearrangement of the input lines' statuses; the tally is the same for
      all of them. */
  lemma TallyIgnoresOrder(delivered: seq<int>, statuses: seq<int>)
    requires multiset(delivered) == multiset(statuses)
    ensures Tally(delivered) == Tally(statuses)
  {
    forall s | s in Tally(delivered)
      ensures s in Tally(statuses) && Tally(delivered)[s] == Tally(statuses)[s]
    {
      TallyCountsLines(delivered, s);
      TallyCountsLines(statuses, s);
      OccurrencesIsMultiplicity(delivered, s);
      OccurrencesIsMultiplicity(statuses, s);
    }
    forall s | s in Tally(statuses) ensures s in Tally(delivered) {
      TallyCountsLines(delivered, s);
      TallyCountsLines(statuses, s);
      OccurrencesIsMultiplicity(delivered, s);
      OccurrencesIsMultiplicity(statuses, s);
    }
  }

  /** The sum of all the counts of a tally. */
  ghost function SumCounts(counts: map<int, nat>): nat
    decreases |counts|
  {
    if exists status :: status in counts then
      var status :| status in counts;
      counts[status] + SumCounts(counts - {status})
    else 0
  }

  lemma {:induction false} SumCountsWithout(counts: map<int, nat>, s: int)
    requires s in counts
    ensures SumCounts(counts) == counts[s] + SumCounts(counts - {s})
    decreases |counts|
  {
    var picked :| picked in counts && SumCounts(counts) == counts[picked] + SumCounts(counts - {picked});
    if picked != s {
      var rest := counts - {picked};
      var other := counts - {s};
      SumCountsWithout(rest, s);
      SumCountsWithout(other, picked);
      assert rest - {s} == other - {picked};
    }
  }

  /** The counts add up to the number of input lines. */
  lemma {:induction false} TallyTotal(statuses: seq<int>)
    ensures SumCounts(Tally(statuses)) == |statuses|
  {
    if statuses != [] {
      var init := statuses[..|statuses| - 1];
      var last := statuses[|statuses| - 1];
      var before := Tally(init);
      var after := Tally(statuses);
      TallyTotal(init);
      SumCountsWithout(after, last);
      assert after - {last} == before - {last};
      if last in before {
        SumCountsWithout(before, last);
      } else {
        assert before - {last} == before;
      }
    }
  }

  /** What `start_command` gives back for one input line: the exit status of
      the command, or an exception (the executable was not found, say). */
  datatype Outcome = Exited(status: int) | Raised

  /** What the main block prints: the counts, or nothing at all, because an
      exception from one line propagates out of the `Counter` call. */
  datatype Histogram = Aborted | Counts(counts: map<int, nat>)

  predicate AllExited(delivered: seq<Outcome>)
  {
    forall o :: o in delivered ==> o.Exited?
  }

  /** The exit statuses of a list of outcomes none of which raised. */
  function Statuses(delivered: seq<Outcome>): (statuses: seq<int>)
    requires AllExited(delivered)
    ensures |statuses| == |delivered|
    ensures forall i :: 0 <= i < |delivered| ==> statuses[i] == delivered[i].status
  {
    if delivered == [] then [] else [delivered[0].status] + Statuses(delivered[1..])
  }

  /** `collections.Counter` over the outcomes in the order the pool delivers
      them: the tally of the statuses when every line exited, and nothing
      when any line raised. */
  function Counter(delivered: seq<Outcome>): (h: Histogram)
    ensures h.Aborted? <==> Raised in delivered
    ensures h.Counts? ==> AllExited(delivered) && h.counts == Tally(Statuses(delivered))
  {
    if AllExited(delivered) then Counts(Tally(Statuses(delivered))) else Aborted
  }

  lemma {:induction false} StatusMultiplicity(delivered: seq<Outcome>, status: int)
    requires AllExited(delivered)
    ensures multiset(Statuses(delivered))[status] == multiset(delivered)[Exited(status)]
  {
    if delivered != [] {
      var rest := delivered[1..];
      assert delivered == [delivered[0]] + rest;
      assert multiset(delivered) == multiset{delivered[0]} + multiset(rest);
      StatusMultiplicity(rest, status);
      assert Statuses(delivered) == [delivered[0].status] + Statuses(rest);
      assert multiset(Statuses(delivered)) == multiset{delivered[0].status} + multiset(Statuses(rest));
    }
  }

  /** Whichever order the pool delivers the outcomes in, the output is the
      same: the same counts, or no output in every order. */
  lemma CounterIgnoresOrder(delivered: seq<Outcome>, outcomes: seq<Outcome>)
    requires multiset(delivered) == multiset(outcomes)
    ensures Counter(delivered) == Counter(outcomes)
  {
    assert AllExited(delivered) <==> AllExited(outcomes) by {
      forall o | o in delivered ensures o in outcomes {
        assert o in multiset(delivered);
      }
      forall o | o in outcomes ensures o in delivered {
        assert o in multiset(outcomes);
      }
    }
    if AllExited(delivered) {
      var a := Statuses(delivered);
      var b := Statuses(outcomes);
      forall status ensures multiset(a)[status] == multiset(b)[status] {
        StatusMultiplicity(delivered, status);
        StatusMultiplicity(outcomes, status);
      }
      assert multiset(a) == multiset(b);
      TallyIgnoresOrder(a, b);
    }
  }
}
