/**
  Splitting a dataset into chunks (`calculate_chunk_indices`, `chunk_data`), running the chunks
  independently, and merging their outputs (`merge_chunks.py`).
*/
module Chunking {
  import opened Arithmetic
  import opened Wrappers
  import opened Generation

  datatype ChunkError = AssertionError | DivisionByZero | ValueError

  /** Start and end of a chunk. */
  function CalculateChunkIndices(samples: nat, chunks: int, id: int): Result<(int, int), ChunkError> {
    if id >= chunks || chunks < 0 then Err(AssertionError)
    else if chunks == 1 then Ok((0, samples))
    else if chunks == 0 then Err(DivisionByZero)
    else
      var remainder, base := samples % chunks, samples / chunks;
      var start := if id < remainder then id * (base + 1) else remainder * (base + 1) + (id - remainder) * base;
      Ok((start, start + base + if id < remainder then 1 else 0))
  }

  /** Where chunk `id` starts; `id == chunks` is the end of the last one. */
  function Start(samples: nat, chunks: nat, id: nat): int
    requires 0 < chunks
  {
    var remainder, base := samples % chunks, samples / chunks;
    id * base + if id < remainder then id else remainder
  }

  /** The chunks are consecutive, cover `[0, samples)`, and their sizes differ by at most one, larger ones first. */
  lemma ChunksTile(samples: nat, chunks: nat, id: nat)
    requires id < chunks
    ensures CalculateChunkIndices(samples, chunks, id) == Ok((Start(samples, chunks, id), Start(samples, chunks, id + 1)))
    ensures Start(samples, chunks, 0) == 0 && Start(samples, chunks, chunks) == samples
    ensures Start(samples, chunks, id + 1) - Start(samples, chunks, id)
         == samples / chunks + if id < samples % chunks then 1 else 0
    ensures 0 <= Start(samples, chunks, id) <= Start(samples, chunks, id + 1) <= samples
  {
    CalculatedIsStart(samples, chunks, id);
    StartSteps(samples, chunks, id);
  }

  lemma CalculatedIsStart(samples: nat, chunks: nat, id: nat)
    requires id < chunks
    ensures CalculateChunkIndices(samples, chunks, id) == Ok((Start(samples, chunks, id), Start(samples, chunks, id + 1)))
  {
    TileArithmetic(samples / chunks, samples % chunks, chunks, id);
  }

  lemma StartSteps(samples: nat, chunks: nat, id: nat)
    requires id < chunks
    ensures Start(samples, chunks, 0) == 0 && Start(samples, chunks, chunks) == samples
    ensures Start(samples, chunks, id + 1) - Start(samples, chunks, id)
         == samples / chunks + if id < samples % chunks then 1 else 0
    ensures 0 <= Start(samples, chunks, id) <= Start(samples, chunks, id + 1) <= samples
  {
    var base, remainder := samples / chunks, samples % chunks;
    assert samples == chunks * base + remainder;
    Distribute(id, 1, base);
    Monotone(0, id, base);
    Monotone(id + 1, chunks, base);
  }

  lemma TileArithmetic(base: nat, remainder: nat, chunks: nat, id: nat)
    requires id < chunks && remainder < chunks
    ensures id < remainder ==> id * (base + 1) == id * base + id
    ensures id >= remainder ==> remainder * (base + 1) + (id - remainder) * base == id * base + remainder
    ensures (id + 1) * base == id * base + base <= chunks * base
    ensures chunks == 1 ==> id * base == 0 && (id + 1) * base == base
  {
    Distribute(id, 1, base);
    Distribute(remainder, id - remainder, base);
    Monotone(id + 1, chunks, base);
  }

  /** `chunk_data` without its file name. */
  function ChunkData(data: seq<Row>, chunks: int, id: int): (r: Result<seq<Row>, ChunkError>)
    ensures r.Ok? <==> 0 <= id < chunks
  {
    if id < 0 || id >= chunks then Err(ValueError)
    else
      ChunksTile(|data|, chunks, id);
      var bounds := CalculateChunkIndices(|data|, chunks, id).value;
      Ok(data[bounds.0..bounds.1])
  }

  function Slice(data: seq<Row>, chunks: nat, id: nat): seq<Row>
    requires id < chunks
  {
    ChunkData(data, chunks, id).value
  }

  /** Some chunk is empty exactly when there are more chunks than rows, and then the last one is. */
  lemma LastChunkEmptyIff(data: seq<Row>, chunks: nat)
    requires 0 < chunks
    ensures |data| < chunks <==> Slice(data, chunks, chunks - 1) == []
    ensures chunks <= |data| ==> forall id :: 0 <= id < chunks ==> Slice(data, chunks, id) != []
  {
    var base := |data| / chunks;
    assert |data| == chunks * base + |data| % chunks;
    if base >= 1 {
      Monotone(1, base, chunks);
    }
    forall id | 0 <= id < chunks
      ensures |Slice(data, chunks, id)| == base + if id < |data| % chunks then 1 else 0
    {
      ChunksTile(|data|, chunks, id);
    }
  }

  // ---------------------------------------------------------------------------
  // The output directory
  // ---------------------------------------------------------------------------

  type Lines = seq<Option<Output>>

  /** The files of each chunk, its `.done` marker, and the merged output with its own marker. */
  datatype Directory = Directory(chunks: seq<Files>, done: seq<bool>, merged: Option<Lines>, mergedDone: bool)

  function Concat(parts: seq<Option<Lines>>): Lines {
    if parts == [] then []
    else
      var last := parts[|parts| - 1];
      Concat(parts[..|parts| - 1]) + match last case Some(lines) => lines case None => []
  }

  function Outputs(chunks: seq<Files>): (parts: seq<Option<Lines>>)
    ensures |parts| == |chunks|
    ensures forall i :: 0 <= i < |chunks| ==> parts[i] == chunks[i].output
  {
    seq(|chunks|, i requires 0 <= i < |chunks| => chunks[i].output)
  }

  predicate Mergeable(d: Directory) {
    && |d.done| == |d.chunks|
    && forall i :: 0 <= i < |d.chunks| ==> d.done[i] && d.chunks[i].output.Some?
  }

  function WithoutOutputs(chunks: seq<Files>): (r: seq<Files>)
    ensures |r| == |chunks|
    ensures forall i :: 0 <= i < |chunks| ==> r[i] == chunks[i].(output := None)
  {
    seq(|chunks|, i requires 0 <= i < |chunks| => chunks[i].(output := None))
  }

  function AfterMerge(d: Directory): Directory {
    if Mergeable(d) then Directory(WithoutOutputs(d.chunks), d.done, Some(Concat(Outputs(d.chunks))), true) else d
  }

  class OutputDirectory {
    var chunks: seq<Files>
    var done: seq<bool>
    var merged: Option<Lines>
    var mergedDone: bool

    constructor (d: Directory)
      ensures State() == d
    {
      chunks, done, merged, mergedDone := d.chunks, d.done, d.merged, d.mergedDone;
    }

    function State(): Directory
      reads this
    {
      Directory(chunks, done, merged, mergedDone)
    }

    /** The merge script: give up at the first chunk that is not ready, else concatenate and clean up. */
    method Merge()
      requires |done| == |chunks|
      modifies this
      ensures State() == AfterMerge(old(State()))
      ensures (exists i :: 0 <= i < |old(chunks)| && (!old(done)[i] || old(chunks)[i].output.None?)) ==> State() == old(State())
      ensures (forall i :: 0 <= i < |old(chunks)| ==> old(done)[i] && old(chunks)[i].output.Some?) ==>
        && merged == Some(Concat(Outputs(old(chunks)))) && mergedDone && done == old(done)
        && |chunks| == |old(chunks)| && forall i :: 0 <= i < |chunks| ==> chunks[i] == old(chunks)[i].(output := None)
    {
      for i := 0 to |chunks|
        invariant forall j :: 0 <= j < i ==> done[j] && chunks[j].output.Some?
        invariant State() == old(State())
      {
        if !done[i] {
          return;
        }
        if chunks[i].output.None? {
          return;
        }
      }
      ghost var parts := Outputs(chunks);
      var out: Lines := [];
      for i := 0 to |chunks|
        invariant out == Concat(parts[..i])
        invariant State() == old(State())
      {
        out := out + chunks[i].output.value;
        assert parts[..i + 1][..i] == parts[..i];
      }
      assert parts[..|chunks|] == parts;
      merged := Some(out);
      mergedDone := true;
      ghost var before := chunks;
      for i := 0 to |chunks|
        invariant |chunks| == |before|
        invariant forall j :: 0 <= j < |chunks| ==>
          chunks[j] == if j < i then before[j].(output := None) else before[j]
        invariant done == old(done) && merged == Some(out) && mergedDone
      {
        chunks := chunks[i := chunks[i].(output := None)];
      }
      assert chunks == WithoutOutputs(before);
    }
  }

  // ---------------------------------------------------------------------------
  // Runs of the whole cluster
  // ---------------------------------------------------------------------------

  datatype Event = ChunkRun(id: nat, run: Run) | Merge

  /** A chunk job leaves its marker when the generation command exits normally. */
  function AfterChunkRun(d: Directory, data: seq<Row>, id: nat, run: Run): Directory
    requires id < |d.chunks| == |d.done|
  {
    var slice := Slice(data, |d.chunks|, id);
    var after := AfterRun(d.chunks[id], slice, true, d.merged.Some?, run);
    var ok := run.completes && (Todo(d.chunks[id], slice, true, d.merged.Some?) == [] || after.output.Some?);
    d.(chunks := d.chunks[id := after], done := d.done[id := d.done[id] || ok])
  }

  function Next(d: Directory, data: seq<Row>, e: Event): Directory
    requires |d.chunks| == |d.done|
    requires e.ChunkRun? ==> e.id < |d.chunks|
  {
    match e
    case ChunkRun(id, run) => AfterChunkRun(d, data, id, run)
    case Merge => AfterMerge(d)
  }

  /** Generation is deterministic: a row's output depends on the row alone. */
  ghost predicate Deterministic(run: Run, slice: seq<Row>, gen: Row -> Output) {
    forall p :: 0 <= p < |slice| ==> run.reply(p) == gen(slice[p])
  }

  ghost predicate LegalEvent(d: Directory, data: seq<Row>, gen: Row -> Output, e: Event)
    requires |d.chunks| == |d.done|
  {
    e.ChunkRun? ==>
      && e.id < |d.chunks|
      && var slice := Slice(data, |d.chunks|, e.id);
         Legal(d.chunks[e.id], slice, true, d.merged.Some?, e.run) && Deterministic(e.run, slice, gen)
  }

  ghost predicate LegalRun(d: Directory, data: seq<Row>, gen: Row -> Output, es: seq<Event>)
    requires |d.chunks| == |d.done|
    decreases |es|
  {
    es != [] ==> LegalEvent(d, data, gen, es[0]) && LegalRun(Next(d, data, es[0]), data, gen, es[1..])
  }

  function AfterAll(d: Directory, data: seq<Row>, es: seq<Event>): (r: Directory)
    requires |d.chunks| == |d.done|
    requires forall e :: e in es && e.ChunkRun? ==> e.id < |d.chunks|
    ensures |r.chunks| == |r.done| == |d.chunks|
    decreases |es|
  {
    if es == [] then d else AfterAll(Next(d, data, es[0]), data, es[1..])
  }

  function EmptyDirectory(chunks: nat): Directory {
    Directory(seq(chunks, _ => Files(None, None)), seq(chunks, _ => false), None, false)
  }

  /** The rows an unchunked run writes. */
  function Rows(data: seq<Row>, gen: Row -> Output): (rows: Lines)
    ensures |rows| == |data|
    ensures forall i :: 0 <= i < |data| ==> rows[i] == Some(gen(data[i]))
  {
    seq(|data|, i requires 0 <= i < |data| => Some(gen(data[i])))
  }

  ghost predicate ChunkSound(files: Files, slice: seq<Row>, gen: Row -> Output) {
    && (files.output.Some? ==> files == Files(None, Some(Rows(slice, gen))) && slice != [])
    && (files.output.None? ==>
          && Sound(Logged(files), |slice|)
          && forall k :: 0 <= k < |Logged(files)| ==> Logged(files)[k].output == gen(slice[Logged(files)[k].pos]))
  }

  ghost predicate DirectorySound(d: Directory, data: seq<Row>, gen: Row -> Output) {
    && 0 < |d.chunks| == |d.done| && (d.mergedDone <==> d.merged.Some?)
    && (forall i :: 0 <= i < |d.chunks| ==> ChunkSound(d.chunks[i], Slice(data, |d.chunks|, i), gen))
    && (d.merged.Some? ==>
          && d.merged.value == Rows(data, gen)
          && |d.chunks| <= |data|
          && forall i :: 0 <= i < |d.chunks| ==> d.chunks[i].output.None?)
  }

  lemma RowsAppend(a: seq<Row>, b: seq<Row>, gen: Row -> Output)
    ensures Rows(a + b, gen) == Rows(a, gen) + Rows(b, gen)
  {
  }

  lemma {:induction false} ChunksConcatenate(d: Directory, data: seq<Row>, gen: Row -> Output, k: nat)
    requires k <= |d.chunks| && 0 < |d.chunks|
    requires forall i :: 0 <= i < |d.chunks| ==> d.chunks[i].output == Some(Rows(Slice(data, |d.chunks|, i), gen))
    ensures 0 <= Start(|data|, |d.chunks|, k) <= |data|
    ensures Concat(Outputs(d.chunks)[..k]) == Rows(data[..Start(|data|, |d.chunks|, k)], gen)
  {
    if k > 0 {
      var c := |d.chunks|;
      ChunksConcatenate(d, data, gen, k - 1);
      ChunksTile(|data|, c, k - 1);
      var parts := Outputs(d.chunks);
      assert parts[..k][..k - 1] == parts[..k - 1];
      var a, b := Start(|data|, c, k - 1), Start(|data|, c, k);
      assert data[..b] == data[..a] + data[a..b];
      RowsAppend(data[..a], data[a..b], gen);
      assert parts[k - 1] == Some(Rows(data[a..b], gen));
    } else {
      assert Start(|data|, |d.chunks|, 0) == 0;
    }
  }

  lemma ChunkRunSound(files: Files, slice: seq<Row>, merged: bool, gen: Row -> Output, run: Run)
    requires ChunkSound(files, slice, gen)
    requires Legal(files, slice, true, merged, run) && Deterministic(run, slice, gen)
    ensures ChunkSound(AfterRun(files, slice, true, merged, run), slice, gen)
    ensures Todo(files, slice, true, merged) != [] && run.completes ==>
      AfterRun(files, slice, true, merged, run) == Files(None, Some(Rows(slice, gen)))
  {
    if Todo(files, slice, true, merged) != [] {
      RunExtendsSoundly(files, slice, true, merged, run);
      var log := Kept(files, true) + Entries(run);
      forall k | 0 <= k < |log|
        ensures log[k].output == gen(slice[log[k].pos])
      {
      }
      if run.completes {
        var reply := (p: nat) => if p < |slice| then gen(slice[p]) else "";
        ClosedRows(log, |slice|, reply);
        assert RowsOf(|slice|, reply) == Rows(slice, gen);
      }
    }
  }

  lemma MergeSound(d: Directory, data: seq<Row>, gen: Row -> Output)
    requires DirectorySound(d, data, gen)
    ensures DirectorySound(AfterMerge(d), data, gen)
    ensures AfterMerge(d).merged.Some? <==> d.merged.Some? || Mergeable(d)
  {
    if Mergeable(d) {
      var c := |d.chunks|;
      ChunksConcatenate(d, data, gen, c);
      ChunksTile(|data|, c, c - 1);
      assert data[..|data|] == data;
      assert Outputs(d.chunks)[..c] == Outputs(d.chunks);
      LastChunkEmptyIff(data, c);
      assert ChunkSound(d.chunks[c - 1], Slice(data, c, c - 1), gen);
    }
  }

  lemma NextSound(d: Directory, data: seq<Row>, gen: Row -> Output, e: Event)
    requires DirectorySound(d, data, gen) && LegalEvent(d, data, gen, e)
    ensures DirectorySound(Next(d, data, e), data, gen)
    ensures d.merged.Some? ==> Next(d, data, e).merged == d.merged && Next(d, data, e).chunks == d.chunks
  {
    match e
    case ChunkRun(id, run) =>
      ChunkRunSound(d.chunks[id], Slice(data, |d.chunks|, id), d.merged.Some?, gen, run);
      if d.merged.Some? {
        assert Next(d, data, e).chunks == d.chunks;
      }
    case Merge =>
      MergeSound(d, data, gen);
  }

  lemma EmptyDirectorySound(data: seq<Row>, chunks: nat, gen: Row -> Output)
    requires 0 < chunks
    ensures DirectorySound(EmptyDirectory(chunks), data, gen)
  {
  }

  lemma {:induction false} RunSound(d: Directory, data: seq<Row>, gen: Row -> Output, es: seq<Event>)
    requires DirectorySound(d, data, gen) && LegalRun(d, data, gen, es)
    requires forall e :: e in es && e.ChunkRun? ==> e.id < |d.chunks|
    ensures DirectorySound(AfterAll(d, data, es), data, gen)
    ensures d.merged.Some? ==> AfterAll(d, data, es).merged == d.merged
    decreases |es|
  {
    if es != [] {
      NextSound(d, data, gen, es[0]);
      RunSound(Next(d, data, es[0]), data, gen, es[1..]);
    }
  }

  /**
    Chunk jobs run, stop and resume in any order, merge attempts in between: the merged file is absent or
    holds exactly the rows of an unchunked run, and with more chunks than rows it is always absent.  A merge
    attempt succeeds exactly when every chunk is marked done and has its output.
  */
  lemma MergedIsUnchunked(data: seq<Row>, chunks: nat, gen: Row -> Output, es: seq<Event>, run: Run)
    requires 0 < chunks && LegalRun(EmptyDirectory(chunks), data, gen, es)
    requires forall e :: e in es && e.ChunkRun? ==> e.id < chunks
    requires run.completes && Deterministic(run, data, gen) && Legal(Files(None, None), data, false, false, run)
    ensures var d := AfterAll(EmptyDirectory(chunks), data, es);
      && (d.merged.Some? ==>
            && chunks <= |data|
            && d.merged == AfterRun(Files(None, None), data, false, false, run).output)
      && (AfterMerge(d).merged.Some? <==> d.merged.Some? || Mergeable(d))
  {
    EmptyDirectorySound(data, chunks, gen);
    RunSound(EmptyDirectory(chunks), data, gen, es);
    var d := AfterAll(EmptyDirectory(chunks), data, es);
    MergeSound(d, data, gen);
    if d.merged.Some? {
      FreshRunCompletes(Files(None, None), data, false, run);
      assert RowsOf(|data|, run.reply) == Rows(data, gen);
    }
  }

  // ---------------------------------------------------------------------------
  // Which runs end with a merge
  // ---------------------------------------------------------------------------

  /**
    Does chunk `i` ever write its output, with `left` of its rows still open?  A run that is not stopped writes it;
    runs stopped before that use up rows, and once none is left no run does any more.
  */
  predicate Finishes(es: seq<Event>, i: nat, left: int)
    decreases |es|
  {
    && es != [] && left > 0
    && if es[0].ChunkRun? && es[0].id == i then
         es[0].run.completes || Finishes(es[1..], i, left - |es[0].run.order|)
       else Finishes(es[1..], i, left)
  }

  /** Chunk `i` has written its output, which may have been merged since. */
  predicate Finished(d: Directory, i: nat)
    requires i < |d.chunks|
  {
    d.merged.Some? || d.chunks[i].output.Some?
  }

  /** Chunk `i` has written its output or will. */
  predicate FinishedOrWill(d: Directory, data: seq<Row>, es: seq<Event>, i: nat)
    requires i < |d.chunks|
  {
    Finished(d, i) || Finishes(es, i, |Slice(data, |d.chunks|, i)| - |Logged(d.chunks[i])|)
  }

  /** Whoever has an output has a marker. */
  predicate Marked(d: Directory)
    requires |d.chunks| == |d.done|
  {
    forall i :: 0 <= i < |d.chunks| && d.chunks[i].output.Some? ==> d.done[i]
  }

  /** A run of chunk `i` ends without being stopped. */
  predicate EndsNormally(e: Event, i: nat) {
    e.ChunkRun? && e.id == i && e.run.completes
  }

  lemma NextDoneIff(d: Directory, data: seq<Row>, gen: Row -> Output, e: Event, i: nat)
    requires DirectorySound(d, data, gen) && LegalEvent(d, data, gen, e) && i < |d.chunks|
    ensures Next(d, data, e).done[i] <==> d.done[i] || EndsNormally(e, i)
  {
    if e.ChunkRun? {
      ChunkRunSound(d.chunks[e.id], Slice(data, |d.chunks|, e.id), d.merged.Some?, gen, e.run);
    }
  }

  lemma {:induction false} RunDoneIff(d: Directory, data: seq<Row>, gen: Row -> Output, es: seq<Event>, i: nat)
    requires DirectorySound(d, data, gen) && LegalRun(d, data, gen, es) && i < |d.chunks|
    requires forall e :: e in es && e.ChunkRun? ==> e.id < |d.chunks|
    ensures AfterAll(d, data, es).done[i] <==> d.done[i] || exists e :: e in es && EndsNormally(e, i)
    decreases |es|
  {
    if es != [] {
      NextSound(d, data, gen, es[0]);
      NextDoneIff(d, data, gen, es[0], i);
      RunDoneIff(Next(d, data, es[0]), data, gen, es[1..], i);
      assert forall e :: e in es <==> e == es[0] || e in es[1..];
    }
  }

  /** A chunk has its marker exactly if one of its runs was not stopped, whether or not that run wrote the output. */
  lemma DoneIff(data: seq<Row>, chunks: nat, gen: Row -> Output, es: seq<Event>, i: nat)
    requires i < chunks && LegalRun(EmptyDirectory(chunks), data, gen, es)
    requires forall e :: e in es && e.ChunkRun? ==> e.id < chunks
    ensures AfterAll(EmptyDirectory(chunks), data, es).done[i] <==> exists e :: e in es && EndsNormally(e, i)
  {
    EmptyDirectorySound(data, chunks, gen);
    RunDoneIff(EmptyDirectory(chunks), data, gen, es, i);
  }

  /** One run of a chunk that has no output: it writes it exactly if it is not stopped and some row was open. */
  lemma RunFinishesIff(files: Files, slice: seq<Row>, gen: Row -> Output, run: Run)
    requires ChunkSound(files, slice, gen) && files.output.None? && Legal(files, slice, true, false, run)
    ensures var after, left := AfterRun(files, slice, true, false, run), |slice| - |Logged(files)|;
      && left >= 0
      && (after.output.Some? <==> run.completes && left > 0)
      && (left == 0 ==> after == files)
      && (left > 0 && !run.completes ==> |slice| - |Logged(after)| == left - |run.order|)
  {
    UnfilledMembers(slice, Positions(Logged(files)));
    SoundSize(Logged(files), |slice|);
    var todo := Todo(files, slice, true, false);
    assert todo != [] ==> todo[0] in Unfilled(slice, Positions(Logged(files)));
    if |Logged(files)| < |slice| {
      var i :| 0 <= i < |slice| && i !in Positions(Logged(files));
      assert Point(i, slice[i]) in todo;
    }
    if run.completes {
      ResumeFinishesIff(files, slice, run);
    }
  }

  lemma NextMarked(d: Directory, data: seq<Row>, gen: Row -> Output, e: Event)
    requires DirectorySound(d, data, gen) && LegalEvent(d, data, gen, e) && Marked(d)
    ensures Marked(Next(d, data, e))
  {
    if e.ChunkRun? && d.merged.None? && d.chunks[e.id].output.None? {
      RunFinishesIff(d.chunks[e.id], Slice(data, |d.chunks|, e.id), gen, e.run);
    }
  }

  /** An event changes nothing about which chunks have written their output or will. */
  lemma NextFinishesIff(d: Directory, data: seq<Row>, gen: Row -> Output, es: seq<Event>, i: nat)
    requires es != [] && DirectorySound(d, data, gen) && LegalEvent(d, data, gen, es[0]) && i < |d.chunks|
    ensures FinishedOrWill(d, data, es, i) <==> FinishedOrWill(Next(d, data, es[0]), data, es[1..], i)
  {
    if es[0].ChunkRun? && es[0].id == i && !Finished(d, i) {
      RunFinishesIff(d.chunks[i], Slice(data, |d.chunks|, i), gen, es[0].run);
    } else if es[0].Merge? && d.merged.None? {
      MergeSound(d, data, gen);
    }
  }

  lemma {:induction false} RunFinishesChunksIff(d: Directory, data: seq<Row>, gen: Row -> Output, es: seq<Event>, i: nat)
    requires DirectorySound(d, data, gen) && Marked(d) && LegalRun(d, data, gen, es) && i < |d.chunks|
    requires forall e :: e in es && e.ChunkRun? ==> e.id < |d.chunks|
    ensures Finished(AfterAll(d, data, es), i) <==> FinishedOrWill(d, data, es, i)
    ensures Marked(AfterAll(d, data, es))
    decreases |es|
  {
    if es != [] {
      NextSound(d, data, gen, es[0]);
      NextMarked(d, data, gen, es[0]);
      NextFinishesIff(d, data, gen, es, i);
      RunFinishesChunksIff(Next(d, data, es[0]), data, gen, es[1..], i);
    }
  }

  /**
    For any runs, stops, resumptions and merge attempts: a final merge attempt leaves the merged file exactly if every
    chunk has a run that is not stopped before stopped ones have used up its rows; and then the file holds the rows of
    an unchunked run.  (A chunk without rows never finishes.)
  */
  lemma MergeSucceedsIff(data: seq<Row>, chunks: nat, gen: Row -> Output, es: seq<Event>)
    requires 0 < chunks && LegalRun(EmptyDirectory(chunks), data, gen, es)
    requires forall e :: e in es && e.ChunkRun? ==> e.id < chunks
    ensures var d := AfterMerge(AfterAll(EmptyDirectory(chunks), data, es));
      && (d.merged.Some? <==> forall i :: 0 <= i < chunks ==> Finishes(es, i, |Slice(data, chunks, i)|))
      && (d.merged.Some? ==> d.merged == Some(Rows(data, gen)))
  {
    var d := AfterAll(EmptyDirectory(chunks), data, es);
    forall i | 0 <= i < chunks
      ensures Finished(d, i) <==> Finishes(es, i, |Slice(data, chunks, i)|)
    {
      ChunkFinishesIff(data, chunks, gen, es, i);
    }
    ChunkFinishesIff(data, chunks, gen, es, 0);
    MergesWhenFinished(d, data, gen);
  }

  lemma ChunkFinishesIff(data: seq<Row>, chunks: nat, gen: Row -> Output, es: seq<Event>, i: nat)
    requires LegalRun(EmptyDirectory(chunks), data, gen, es) && i < chunks
    requires forall e :: e in es && e.ChunkRun? ==> e.id < chunks
    ensures var d := AfterAll(EmptyDirectory(chunks), data, es);
      && DirectorySound(d, data, gen) && Marked(d)
      && (Finished(d, i) <==> Finishes(es, i, |Slice(data, chunks, i)|))
  {
    EmptyDirectorySound(data, chunks, gen);
    RunSound(EmptyDirectory(chunks), data, gen, es);
    RunFinishesChunksIff(EmptyDirectory(chunks), data, gen, es, i);
  }

  lemma MergesWhenFinished(d: Directory, data: seq<Row>, gen: Row -> Output)
    requires DirectorySound(d, data, gen) && Marked(d)
    ensures AfterMerge(d).merged.Some? <==> forall i :: 0 <= i < |d.chunks| ==> Finished(d, i)
    ensures AfterMerge(d).merged.Some? ==> AfterMerge(d).merged == Some(Rows(data, gen))
  {
    MergeSound(d, data, gen);
    if d.merged.None? && forall i :: 0 <= i < |d.chunks| ==> Finished(d, i) {
      forall i | 0 <= i < |d.chunks|
        ensures d.done[i] && d.chunks[i].output.Some?
      {
        assert Finished(d, i);
      }
    }
  }

  predicate HasRun(es: seq<Event>, i: nat) {
    exists k :: 0 <= k < |es| && es[k].ChunkRun? && es[k].id == i
  }

  lemma {:induction false} CompletingFinishes(es: seq<Event>, i: nat, left: nat)
    requires left > 0 && forall e :: e in es ==> e.ChunkRun? && e.run.completes
    requires HasRun(es, i)
    ensures Finishes(es, i, left)
  {
    assert es[0] in es;
    if es[0].id != i {
      var k :| 0 <= k < |es| && es[k].ChunkRun? && es[k].id == i;
      assert es[1..][k - 1] == es[k];
      CompletingFinishes(es[1..], i, left);
    }
  }

  /** With no more chunks than rows, running every chunk once in any order and then merging yields the unchunked rows. */
  lemma AnyOrderMerges(data: seq<Row>, chunks: nat, gen: Row -> Output, es: seq<Event>)
    requires 0 < chunks <= |data| && LegalRun(EmptyDirectory(chunks), data, gen, es)
    requires forall e :: e in es ==> e.ChunkRun? && e.run.completes && e.id < chunks
    requires forall i :: 0 <= i < chunks ==> HasRun(es, i)
    ensures AfterMerge(AfterAll(EmptyDirectory(chunks), data, es)).merged == Some(Rows(data, gen))
  {
    forall i | 0 <= i < chunks
      ensures Finishes(es, i, |Slice(data, chunks, i)|)
    {
      assert HasRun(es, i);
      ChunkNotEmpty(data, chunks, i);
      CompletingFinishes(es, i, |Slice(data, chunks, i)|);
    }
    MergeSucceedsIff(data, chunks, gen, es);
  }

  lemma ChunkNotEmpty(data: seq<Row>, chunks: nat, i: nat)
    requires i < chunks <= |data|
    ensures |Slice(data, chunks, i)| > 0
  {
    LastChunkEmptyIff(data, chunks);
    assert Slice(data, chunks, i) != [];
  }
}
