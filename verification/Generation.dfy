/**
  Resumable generation (`GenerationTask`): tasks finish in any order and append their output to the
  `-async` log together with their position; a run that gets through all its tasks rewrites the log in
  order as the output file.  A run may stop at any point before that rewrite.
*/
module Generation {
  import opened Wrappers

  type Row = string
  type Output = string

  /** A data point tagged with its position, and a line of the log. */
  datatype Point = Point(pos: nat, row: Row)
  datatype Entry = Entry(pos: nat, output: Output)

  /** `log` is the `-async` file; a slot of `output` that no entry filled is written as null. */
  datatype Files = Files(log: Option<seq<Entry>>, output: Option<seq<Option<Output>>>)

  /** One run: the positions whose tasks finished, in finishing order, their outputs, and whether it was not stopped. */
  datatype Run = Run(order: seq<nat>, reply: nat -> Output, completes: bool)

  function Logged(files: Files): seq<Entry> {
    match files.log case Some(entries) => entries case None => []
  }

  function Positions(log: seq<Entry>): (s: set<nat>)
    ensures forall p :: p in s <==> exists k :: 0 <= k < |log| && log[k].pos == p
  {
    set k | 0 <= k < |log| :: log[k].pos
  }

  function Entries(run: Run): (es: seq<Entry>)
    ensures |es| == |run.order|
    ensures forall k :: 0 <= k < |es| ==> es[k] == Entry(run.order[k], run.reply(run.order[k]))
  {
    seq(|run.order|, k requires 0 <= k < |run.order| => Entry(run.order[k], run.reply(run.order[k])))
  }

  /** The data points a resumed run still has to do, in order. */
  function Unfilled(data: seq<Row>, filled: set<nat>): seq<Point> {
    if data == [] then []
    else
      var i := |data| - 1;
      Unfilled(data[..i], filled) + if i in filled then [] else [Point(i, data[i])]
  }

  /** The output last written for a position. */
  function LastAt(log: seq<Entry>, pos: nat): Option<Output> {
    if log == [] then None
    else
      var last := log[|log| - 1];
      if last.pos == pos then Some(last.output) else LastAt(log[..|log| - 1], pos)
  }

  function Ordered(log: seq<Entry>): (slots: seq<Option<Output>>)
    ensures |slots| == |log|
    ensures forall i :: 0 <= i < |log| ==> slots[i] == LastAt(log, i)
  {
    seq(|log|, i requires 0 <= i => LastAt(log, i))
  }

  /** Every position can be used as an index into as many slots as there are entries. */
  predicate InRange(log: seq<Entry>) {
    forall k :: 0 <= k < |log| ==> log[k].pos < |log|
  }

  function Closed(log: seq<Entry>): Files {
    if InRange(log) then Files(None, Some(Ordered(log))) else Files(Some(log), None)
  }

  class GenerationTask {
    const skipFilled: bool
    var asyncFile: Option<seq<Entry>>
    var outputFile: Option<seq<Option<Output>>>

    constructor (skipFilled: bool, files: Files)
      ensures this.skipFilled == skipFilled && State() == files
    {
      this.skipFilled := skipFilled;
      asyncFile, outputFile := files.log, files.output;
    }

    function State(): Files
      reads this
    {
      Files(asyncFile, outputFile)
    }

    /** `merged` tells whether the file all chunks are merged into already exists. */
    method SkipCompletedSamples(data: seq<Row>, merged: bool) returns (remaining: seq<Point>)
      ensures remaining == Todo(State(), data, skipFilled, merged)
    {
      if skipFilled && outputFile.Some? {
        return [];
      }
      var filled: set<nat> := {};
      if skipFilled {
        if merged {
          return [];
        }
        if asyncFile.Some? {
          var lines := asyncFile.value;
          for k := 0 to |lines|
            invariant filled == Positions(lines[..k])
          {
            filled := filled + {lines[k].pos};
            assert lines[..k + 1] == lines[..k] + [lines[k]];
          }
          assert lines[..|lines|] == lines;
        }
      }
      assert filled == Positions(Kept(State(), skipFilled));
      remaining := [];
      for idx := 0 to |data|
        invariant remaining == Unfilled(data[..idx], filled)
      {
        assert data[..idx + 1][..idx] == data[..idx];
        if idx !in filled {
          remaining := remaining + [Point(idx, data[idx])];
        }
      }
      assert data[..|data|] == data;
    }

    method AsyncLoop(run: Run)
      requires outputFile.None?
      modifies this
      ensures var log := Logged(old(State())) + Entries(run);
        State() == if run.completes then Closed(log) else Files(Some(log), None)
    {
      var log := match asyncFile case Some(entries) => entries case None => [];
      ghost var entries := Entries(run);
      var k := 0;
      asyncFile := Some(log);
      while k < |run.order|
        invariant 0 <= k <= |run.order|
        invariant asyncFile.Some? && asyncFile.value == log + entries[..k]
        invariant outputFile == None
      {
        // One finished task: its row reaches the file as a whole.
        asyncFile := Some(asyncFile.value + [Entry(run.order[k], run.reply(run.order[k]))]);
        assert entries[..k + 1] == entries[..k] + [entries[k]];
        k := k + 1;
      }
      assert entries[..|run.order|] == entries;
      if run.completes {
        RestoreAsyncOrder();
      }
    }

    /** An out-of-range position raises before anything is written. */
    method RestoreAsyncOrder()
      requires asyncFile.Some?
      modifies this
      ensures InRange(old(asyncFile.value)) ==> State() == Closed(old(asyncFile.value))
      ensures !InRange(old(asyncFile.value)) ==> State() == old(State())
    {
      var generations := asyncFile.value;
      var slots := new Option<Output>[|generations|](_ => None);
      for k := 0 to |generations|
        invariant forall j :: 0 <= j < k ==> generations[j].pos < |generations|
        invariant forall i :: 0 <= i < slots.Length ==> slots[i] == LastAt(generations[..k], i)
        invariant State() == old(State())
      {
        var entry := generations[k];
        if entry.pos >= |generations| {
          return;
        }
        slots[entry.pos] := Some(entry.output);
        assert generations[..k + 1][..k] == generations[..k];
      }
      assert generations[..|generations|] == generations;
      assert slots[..] == Ordered(generations);
      outputFile := Some(slots[..]);
      asyncFile := None;
    }

    method Generate(data: seq<Row>, merged: bool, run: Run)
      requires Legal(State(), data, skipFilled, merged, run)
      modifies this
      ensures State() == AfterRun(old(State()), data, skipFilled, merged, run)
    {
      var remaining := SkipCompletedSamples(data, merged);
      if |remaining| == 0 {
        return;
      }
      if !skipFilled {
        outputFile := None;
        asyncFile := None;
      } else {
        assert outputFile == None;
      }
      AsyncLoop(run);
    }
  }

  // ---------------------------------------------------------------------------
  // The specification of a run
  // ---------------------------------------------------------------------------

  /** The part of the log a run builds on. */
  function Kept(files: Files, skip: bool): seq<Entry> {
    if skip then Logged(files) else []
  }

  function Todo(files: Files, data: seq<Row>, skip: bool, merged: bool): seq<Point> {
    if skip && (files.output.Some? || merged) then [] else Unfilled(data, Positions(Kept(files, skip)))
  }

  function AfterRun(files: Files, data: seq<Row>, skip: bool, merged: bool, run: Run): Files {
    if Todo(files, data, skip, merged) == [] then files
    else
      var log := Kept(files, skip) + Entries(run);
      if run.completes then Closed(log) else Files(Some(log), None)
  }

  /** The scheduler: only pending positions finish, each at most once, and all of them unless the run is stopped. */
  ghost predicate Schedules(todo: seq<Point>, run: Run) {
    && (forall j, k :: 0 <= j < k < |run.order| ==> run.order[j] != run.order[k])
    && (forall p :: p in run.order ==> exists x :: x in todo && x.pos == p)
    && (run.completes ==> forall x :: x in todo ==> x.pos in run.order)
  }

  ghost predicate Legal(files: Files, data: seq<Row>, skip: bool, merged: bool, run: Run) {
    Todo(files, data, skip, merged) != [] ==> Schedules(Todo(files, data, skip, merged), run)
  }

  // ---------------------------------------------------------------------------
  // Exactly once, and in order
  // ---------------------------------------------------------------------------

  lemma {:induction false} UnfilledMembers(data: seq<Row>, filled: set<nat>)
    ensures forall x :: x in Unfilled(data, filled) <==> x.pos < |data| && x.pos !in filled && x.row == data[x.pos]
  {
    if data != [] {
      var i := |data| - 1;
      UnfilledMembers(data[..i], filled);
      assert forall k :: 0 <= k < i ==> data[..i][k] == data[k];
    }
  }

  /** The log never holds a position twice, nor one past the data. */
  ghost predicate Sound(log: seq<Entry>, n: nat) {
    && (forall k :: 0 <= k < |log| ==> log[k].pos < n)
    && (forall j, k :: 0 <= j < k < |log| ==> log[j].pos != log[k].pos)
  }

  lemma {:induction false} LastAtUnique(log: seq<Entry>, k: nat)
    requires k < |log|
    requires forall i, j :: 0 <= i < j < |log| ==> log[i].pos != log[j].pos
    ensures LastAt(log, log[k].pos) == Some(log[k].output)
  {
    if k < |log| - 1 {
      var init := log[..|log| - 1];
      assert init[k] == log[k];
      LastAtUnique(init, k);
    }
  }

  /** A slot holds the last entry for its position, and nothing without one. */
  lemma {:induction false} SlotIsLastEntry(log: seq<Entry>, pos: nat)
    ensures LastAt(log, pos) == None <==> pos !in Positions(log)
    ensures forall k :: 0 <= k < |log| && log[k].pos == pos && (forall j :: k < j < |log| ==> log[j].pos != pos) ==>
      LastAt(log, pos) == Some(log[k].output)
  {
    if log != [] {
      var init := log[..|log| - 1];
      SlotIsLastEntry(init, pos);
      assert Positions(log) == Positions(init) + {log[|log| - 1].pos};
    }
  }

  /** Distinct positions below `n`, all of them: there are exactly `n`. */
  lemma SoundSize(log: seq<Entry>, n: nat)
    requires Sound(log, n)
    ensures |log| <= n
    ensures |log| == n <==> forall i :: 0 <= i < n ==> i in Positions(log)
  {
    DistinctCount(log);
    SubsetSize(Positions(log), UpTo(n));
  }

  lemma {:induction false} DistinctCount(log: seq<Entry>)
    requires forall i, j :: 0 <= i < j < |log| ==> log[i].pos != log[j].pos
    ensures |Positions(log)| == |log|
  {
    if log != [] {
      var i := |log| - 1;
      DistinctCount(log[..i]);
      assert Positions(log) == Positions(log[..i]) + {log[i].pos};
    }
  }

  function UpTo(n: nat): (s: set<nat>)
    ensures |s| == n
    ensures forall i: nat :: i in s <==> i < n
  {
    if n == 0 then {} else UpTo(n - 1) + {n - 1}
  }

  lemma {:induction false} SubsetSize<T>(a: set<T>, b: set<T>)
    requires a <= b
    ensures |a| <= |b|
    ensures |a| == |b| <==> a == b
  {
    if a != {} {
      var x :| x in a;
      SubsetSize(a - {x}, b - {x});
    }
  }

  lemma RunExtendsSoundly(files: Files, data: seq<Row>, skip: bool, merged: bool, run: Run)
    requires Todo(files, data, skip, merged) != [] && Legal(files, data, skip, merged, run)
    requires Sound(Kept(files, skip), |data|)
    ensures Sound(Kept(files, skip) + Entries(run), |data|)
    ensures run.completes ==> |Kept(files, skip) + Entries(run)| == |data|
  {
    var kept := Kept(files, skip);
    var log := kept + Entries(run);
    UnfilledMembers(data, Positions(kept));
    forall k | 0 <= k < |run.order|
      ensures run.order[k] < |data| && run.order[k] !in Positions(kept)
    {
      assert run.order[k] in run.order;
    }
    forall j, k | 0 <= j < k < |log|
      ensures log[j].pos != log[k].pos
    {
      if j < |kept| <= k {
        assert log[j].pos in Positions(kept);
      }
    }
    SoundSize(log, |data|);
    if run.completes {
      forall i | 0 <= i < |data|
        ensures i in Positions(log)
      {
        if i in Positions(kept) {
          var k :| 0 <= k < |kept| && kept[k].pos == i;
          assert log[k].pos == i;
        } else {
          assert Point(i, data[i]) in Unfilled(data, Positions(kept));
          var k :| 0 <= k < |run.order| && run.order[k] == i;
          assert log[|kept| + k].pos == i;
        }
      }
    }
  }

  lemma ClosedSound(log: seq<Entry>, n: nat)
    requires Sound(log, n) && |log| == n
    ensures Closed(log).output.Some? && |Closed(log).output.value| == n
    ensures forall k :: 0 <= k < n ==> Closed(log).output.value[log[k].pos] == Some(log[k].output)
    ensures forall i :: 0 <= i < n ==> i in Positions(log)
  {
    SoundSize(log, n);
    forall k | 0 <= k < n
      ensures Closed(log).output.value[log[k].pos] == Some(log[k].output)
    {
      LastAtUnique(log, k);
    }
  }

  /** The complete, ordered output file in which position `i` holds `reply(i)`. */
  function RowsOf(n: nat, reply: nat -> Output): (rows: seq<Option<Output>>)
    ensures |rows| == n
    ensures forall i :: 0 <= i < n ==> rows[i] == Some(reply(i))
  {
    seq(n, i requires 0 <= i => Some(reply(i)))
  }

  /** If every entry holds what `reply` gives for its position, so does every row. */
  lemma ClosedRows(log: seq<Entry>, n: nat, reply: nat -> Output)
    requires Sound(log, n) && |log| == n
    requires forall k :: 0 <= k < n ==> log[k].output == reply(log[k].pos)
    ensures Closed(log) == Files(None, Some(RowsOf(n, reply)))
  {
    ClosedSound(log, n);
    var rows := Closed(log).output.value;
    forall i | 0 <= i < n
      ensures rows[i] == Some(reply(i))
    {
      assert i in Positions(log);
      var k :| 0 <= k < |log| && log[k].pos == i;
      assert rows[log[k].pos] == Some(log[k].output);
    }
    assert rows == RowsOf(n, reply);
  }

  /** The files after a sequence of resuming runs, and everything those runs ever appended. */
  function AfterRuns(data: seq<Row>, runs: seq<Run>): Files {
    if runs == [] then Files(None, None)
    else
      var k := |runs| - 1;
      AfterRun(AfterRuns(data, runs[..k]), data, true, false, runs[k])
  }

  function Transcript(data: seq<Row>, runs: seq<Run>): seq<Entry> {
    if runs == [] then []
    else
      var k := |runs| - 1;
      Transcript(data, runs[..k]) +
        if Todo(AfterRuns(data, runs[..k]), data, true, false) == [] then [] else Entries(runs[k])
  }

  ghost predicate AllLegal(data: seq<Row>, runs: seq<Run>) {
    forall k :: 0 <= k < |runs| ==> Legal(AfterRuns(data, runs[..k]), data, true, false, runs[k])
  }

  lemma AllLegalPrefix(data: seq<Row>, runs: seq<Run>)
    requires runs != [] && AllLegal(data, runs)
    ensures AllLegal(data, runs[..|runs| - 1])
    ensures Legal(AfterRuns(data, runs[..|runs| - 1]), data, true, false, runs[|runs| - 1])
  {
    var init := runs[..|runs| - 1];
    assert forall k :: 0 <= k < |init| ==> init[..k] == runs[..k];
  }

  /** Before the rewrite the log is the transcript; after it the output is the transcript in order. */
  ghost predicate Consistent(files: Files, transcript: seq<Entry>, n: nat) {
    && Sound(transcript, n)
    && (files.output.None? ==> Logged(files) == transcript)
    && (files.output.Some? ==> files.log.None? && |transcript| == n && files == Closed(transcript))
  }

  lemma ConsistentStep(files: Files, transcript: seq<Entry>, data: seq<Row>, run: Run)
    requires Consistent(files, transcript, |data|) && Legal(files, data, true, false, run)
    ensures Consistent(AfterRun(files, data, true, false, run),
                       transcript + (if Todo(files, data, true, false) == [] then [] else Entries(run)), |data|)
  {
    if Todo(files, data, true, false) == [] {
      assert transcript + [] == transcript;
    } else {
      RunExtendsSoundly(files, data, true, false, run);
      if run.completes {
        ClosedSound(Logged(files) + Entries(run), |data|);
      }
    }
  }

  lemma {:induction false} RunsConsistent(data: seq<Row>, runs: seq<Run>)
    requires AllLegal(data, runs)
    ensures Consistent(AfterRuns(data, runs), Transcript(data, runs), |data|)
  {
    if runs != [] {
      var init := runs[..|runs| - 1];
      AllLegalPrefix(data, runs);
      RunsConsistent(data, init);
      ConsistentStep(AfterRuns(data, init), Transcript(data, init), data, runs[|runs| - 1]);
    }
  }

  /**
    However many runs are made and wherever they stop: no position is ever generated twice, and the output
    file, once there, has one row for each data point, row i being the one output ever generated for it.
  */
  lemma ResumeExactlyOnce(data: seq<Row>, runs: seq<Run>)
    requires AllLegal(data, runs)
    ensures var files := AfterRuns(data, runs);
      var transcript := Transcript(data, runs);
      && Consistent(files, transcript, |data|)
      && (forall i, j :: 0 <= i < j < |transcript| ==> transcript[i].pos != transcript[j].pos)
      && (files.output.Some? ==>
            && |files.output.value| == |data| == |transcript|
            && forall k :: 0 <= k < |data| ==> files.output.value[transcript[k].pos] == Some(transcript[k].output))
  {
    RunsConsistent(data, runs);
    if AfterRuns(data, runs).output.Some? {
      ClosedSound(Transcript(data, runs), |data|);
    }
  }

  /** Without skip_filled a run that is not stopped always writes a complete file, whatever was on disk. */
  lemma FreshRunCompletes(files: Files, data: seq<Row>, merged: bool, run: Run)
    requires data != [] && run.completes && Legal(files, data, false, merged, run)
    ensures AfterRun(files, data, false, merged, run) == Files(None, Some(RowsOf(|data|, run.reply)))
  {
    TodoFresh(files, data, merged);
    RunExtendsSoundly(files, data, false, merged, run);
    var log := Entries(run);
    assert Kept(files, false) + log == log;
    ClosedRows(log, |data|, run.reply);
  }

  lemma TodoFresh(files: Files, data: seq<Row>, merged: bool)
    requires data != []
    ensures Todo(files, data, false, merged) != []
  {
    UnfilledMembers(data, Positions(Kept(files, false)));
    assert Point(0, data[0]) in Todo(files, data, false, merged);
  }

  /**
    Without skip_filled nothing that was on disk survives the start of the run, wherever it stops: a stopped run leaves
    what its tasks appended and no output.  Only with no data at all is nothing deleted.
  */
  lemma FreshRunForgets(files: Files, data: seq<Row>, merged: bool, run: Run)
    ensures data != [] ==> AfterRun(files, data, false, merged, run) == AfterRun(Files(None, None), data, false, merged, run)
    ensures data != [] && !run.completes ==> AfterRun(files, data, false, merged, run) == Files(Some(Entries(run)), None)
    ensures data == [] ==> AfterRun(files, data, false, merged, run) == files
  {
    if data != [] {
      TodoFresh(files, data, merged);
      TodoFresh(Files(None, None), data, merged);
      assert [] + Entries(run) == Entries(run);
    }
  }

  /** A resumed run has nothing to do, and does nothing, exactly if the output or the merged file exists or every
      position is in the log. */
  lemma NothingToDoIff(files: Files, data: seq<Row>, merged: bool, run: Run)
    ensures (Todo(files, data, true, merged) == []
             <==> files.output.Some? || merged || forall i :: 0 <= i < |data| ==> i in Positions(Logged(files)))
    ensures Todo(files, data, true, merged) == [] ==> AfterRun(files, data, true, merged, run) == files
  {
    UnfilledMembers(data, Positions(Logged(files)));
    var unfilled := Unfilled(data, Positions(Logged(files)));
    assert unfilled != [] ==> unfilled[0] in unfilled;
    if i :| 0 <= i < |data| && i !in Positions(Logged(files)) {
      assert Point(i, data[i]) in unfilled;
    }
  }

  /** A resumed run that is not stopped finishes the file exactly when some position is still open. */
  lemma ResumeFinishesIff(files: Files, data: seq<Row>, run: Run)
    requires files.output.None? && Sound(Logged(files), |data|)
    requires run.completes && Legal(files, data, true, false, run)
    ensures AfterRun(files, data, true, false, run).output.Some? <==> |Logged(files)| < |data|
  {
    var log := Logged(files);
    var todo := Todo(files, data, true, false);
    UnfilledMembers(data, Positions(log));
    SoundSize(log, |data|);
    assert todo != [] ==> todo[0] in Unfilled(data, Positions(log));
    if |log| < |data| {
      var i :| 0 <= i < |data| && i !in Positions(log);
      assert Point(i, data[i]) in Unfilled(data, Positions(log));
      RunExtendsSoundly(files, data, true, false, run);
      ClosedSound(log + Entries(run), |data|);
    }
  }

  /**
    A run stopped after its last task but before the rewrite leaves the generation stuck: no number of further
    resuming runs changes the files, so the output is never written.
  */
  lemma {:induction false} StuckForever(files: Files, data: seq<Row>, runs: seq<Run>)
    requires files.output.None? && Sound(Logged(files), |data|) && |Logged(files)| == |data|
    ensures Resumed(files, data, runs) == files
    ensures forall run :: AfterRun(files, data, true, false, run) == files
    decreases |runs|
  {
    SoundSize(Logged(files), |data|);
    forall run
      ensures AfterRun(files, data, true, false, run) == files
    {
      NothingToDoIff(files, data, false, run);
    }
    if runs != [] {
      StuckForever(files, data, runs[1..]);
    }
  }

  function Resumed(files: Files, data: seq<Row>, runs: seq<Run>): Files
    decreases |runs|
  {
    if runs == [] then files else Resumed(AfterRun(files, data, true, false, runs[0]), data, runs[1..])
  }
}
