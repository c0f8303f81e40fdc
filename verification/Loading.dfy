/**
  Loading a JSONL file whole (`jload`) or one chunk at a time (`jload_chunk`).  A file is a string whose
  only line separator is '\n'; parsing a line is an arbitrary function that may fail.
*/
module Loading {
  import opened Arithmetic
  import opened Wrappers
  import opened Sequences
  import opened Chunking

  type Line = string
  type Json = string

  function CountNewlines(text: string): nat {
    if text == [] then 0 else (if text[0] == '\n' then 1 else 0) + CountNewlines(text[1..])
  }

  /** Iterating over a file: each line keeps its newline, the last one may lack it. */
  function Lines(text: string): seq<Line> {
    if text == [] then []
    else
      var rest := Lines(text[1..]);
      if text[0] == '\n' || rest == [] then [[text[0]]] + rest
      else [[text[0]] + rest[0]] + rest[1..]
  }

  /** What a loader keeps of consecutive lines. */
  function Parsed(lines: seq<Line>, parse: Line -> Option<Json>): seq<Json> {
    if lines == [] then []
    else
      var k := |lines| - 1;
      Parsed(lines[..k], parse) + match parse(lines[k]) case Some(data) => [data] case None => []
  }

  method CountNewlinesBuffered(buffers: seq<string>) returns (count: nat)
    ensures count == CountNewlines(Flatten(buffers))
  {
    count := 0;
    for i := 0 to |buffers|
      invariant count == CountNewlines(Flatten(buffers[..i]))
    {
      assert buffers[..i + 1][..i] == buffers[..i];
      CountAppend(Flatten(buffers[..i]), buffers[i]);
      count := count + CountNewlines(buffers[i]);
    }
    assert buffers[..|buffers|] == buffers;
  }

  /** What is kept of several files, one after another. */
  function ParsedFiles(texts: seq<string>, parse: Line -> Option<Json>): seq<Json> {
    if texts == [] then [] else ParsedFiles(texts[..|texts| - 1], parse) + Parsed(Lines(texts[|texts| - 1]), parse)
  }

  /** The files of a comma-separated list, concatenated. */
  method JLoad(texts: seq<string>, parse: Line -> Option<Json>) returns (dataset: seq<Json>)
    ensures dataset == ParsedFiles(texts, parse)
  {
    dataset := [];
    for f := 0 to |texts|
      invariant dataset == ParsedFiles(texts[..f], parse)
    {
      var one := JLoadFile(texts[f], parse);
      assert texts[..f + 1][..f] == texts[..f];
      dataset := dataset + one;
    }
    assert texts[..|texts|] == texts;
  }

  method JLoadFile(text: string, parse: Line -> Option<Json>) returns (dataset: seq<Json>)
    ensures dataset == Parsed(Lines(text), parse)
  {
    var lines := Lines(text);
    dataset := [];
    for id := 0 to |lines|
      invariant dataset == Parsed(lines[..id], parse)
    {
      assert lines[..id + 1][..id] == lines[..id];
      match parse(lines[id]) {
        case Some(data) => dataset := dataset + [data];
        case None =>
      }
    }
    assert lines[..|lines|] == lines;
  }

  /** The lines with numbers from `start` up to `end`, which may lie outside the file. */
  function Between(lines: seq<Line>, start: int, end: int): seq<Line> {
    var a, b := if start < 0 then 0 else start, if end < |lines| then end else |lines|;
    if a < b then lines[a..b] else []
  }

  /**
    The chunk of one file, each file arriving in arbitrary buffers.  A list of files can only be loaded as one chunk: its
    newlines are counted in a file whose name is the whole list, and there is none.
  */
  method JLoadChunk(files: seq<seq<string>>, chunks: int, id: int, parse: Line -> Option<Json>)
    returns (r: Result<seq<Json>, LoadError>)
    requires files != []
    ensures id >= chunks ==> r == Err(Assertion)
    ensures id < chunks == 1 ==> r == Ok(ParsedFiles(Texts(files), parse))
    ensures id < chunks && chunks != 1 && |files| > 1 ==> r == Err(FileNotFound)
    ensures id < chunks && chunks != 1 && |files| == 1 ==> r == RangeOf(Flatten(files[0]), chunks, id, parse)
    ensures 0 <= id < chunks && |files| == 1 ==> r == Ok(Chunk(Flatten(files[0]), chunks, id, parse))
  {
    if id >= chunks {
      return Err(Assertion);
    }
    if chunks == 1 {
      var all := JLoad(Texts(files), parse);
      if |files| == 1 {
        OneFile(files, parse);
      }
      return Ok(all);
    }
    if |files| > 1 {
      return Err(FileNotFound);
    }
    var total := CountNewlinesBuffered(files[0]);
    var bounds := CalculateChunkIndices(total, chunks, id);
    if bounds.Err? {
      return Err(if bounds.error == DivisionByZero then ZeroDivision else Assertion);
    }
    if 0 <= id {
      RangeIsChunk(Flatten(files[0]), chunks, id, parse);
    }
    var dataset := LoadRange(Lines(Flatten(files[0])), bounds.value.0, bounds.value.1, parse);
    r := Ok(dataset);
  }

  datatype LoadError = Assertion | ZeroDivision | FileNotFound

  function Texts(files: seq<seq<string>>): (texts: seq<string>)
    ensures |texts| == |files| && forall f :: 0 <= f < |files| ==> texts[f] == Flatten(files[f])
  {
    seq(|files|, f requires 0 <= f < |files| => Flatten(files[f]))
  }

  /** What is loaded of one file in several chunks, for any chunk number; a negative one is not refused. */
  function RangeOf(text: string, chunks: int, id: int, parse: Line -> Option<Json>): Result<seq<Json>, LoadError> {
    match CalculateChunkIndices(CountNewlines(text), chunks, id)
    case Err(e) => Err(if e == DivisionByZero then ZeroDivision else Assertion)
    case Ok(bounds) => Ok(Parsed(Between(Lines(text), bounds.0, bounds.1), parse))
  }

  lemma RangeIsChunk(text: string, chunks: nat, id: nat, parse: Line -> Option<Json>)
    requires id < chunks && chunks != 1
    ensures RangeOf(text, chunks, id, parse) == Ok(Chunk(text, chunks, id, parse))
  {
    var n, lines := CountNewlines(text), Lines(text);
    ChunksTile(n, chunks, id);
    LinesVersusNewlines(text);
    var a, b := Start(n, chunks, id), Start(n, chunks, id + 1);
    assert Between(lines, a, b) == lines[a..b];
  }

  lemma OneFile(files: seq<seq<string>>, parse: Line -> Option<Json>)
    requires |files| == 1
    ensures ParsedFiles(Texts(files), parse) == Chunk(Flatten(files[0]), 1, 0, parse)
  {
    var texts := Texts(files);
    assert texts[..0] == [];
    assert ParsedFiles(texts, parse) == ParsedFiles(texts[..0], parse) + Parsed(Lines(texts[0]), parse);
    assert [] + Parsed(Lines(texts[0]), parse) == Parsed(Lines(texts[0]), parse);
  }

  /** What has been kept once the first `i` lines have been looked at. */
  function KeptFrom(lines: seq<Line>, start: int, i: nat, parse: Line -> Option<Json>): seq<Json>
    requires i <= |lines|
  {
    if i == 0 then []
    else
      var before := KeptFrom(lines, start, i - 1, parse);
      if i - 1 >= start && parse(lines[i - 1]).Some? then before + [parse(lines[i - 1]).value] else before
  }

  /** Skip the lines before `start`, stop at `end`. */
  method LoadRange(lines: seq<Line>, start: int, end: int, parse: Line -> Option<Json>) returns (dataset: seq<Json>)
    ensures dataset == Parsed(Between(lines, start, end), parse)
  {
    dataset := [];
    var idx := 0;
    while idx < |lines| && idx < end
      invariant 0 <= idx <= |lines| && (idx <= end || idx == 0)
      invariant dataset == KeptFrom(lines, start, idx, parse)
    {
      if idx >= start {
        match parse(lines[idx]) {
          case Some(data) => dataset := dataset + [data];
          case None =>
        }
      }
      idx := idx + 1;
    }
    KeptIsParsed(lines, start, idx, parse);
    BetweenEnds(lines, start, idx, end);
  }

  /** `range(i)` are the lines among the first `i` that are not before `start`. */
  ghost predicate Ranges(lines: seq<Line>, start: int, range: nat -> seq<Line>) {
    range(0) == [] &&
    forall i: nat :: i < |lines| ==> range(i + 1) == if i >= start then range(i) + [lines[i]] else range(i)
  }

  lemma {:induction false} KeptAlong(lines: seq<Line>, start: int, range: nat -> seq<Line>, i: nat, parse: Line -> Option<Json>)
    requires Ranges(lines, start, range) && i <= |lines|
    ensures KeptFrom(lines, start, i, parse) == Parsed(range(i), parse)
  {
    if i > 0 {
      KeptAlong(lines, start, range, i - 1, parse);
      assert range(i - 1 + 1) == range(i);
      ParsedSnoc(range(i - 1), lines[i - 1], parse);
    }
  }

  lemma KeptIsParsed(lines: seq<Line>, start: int, i: nat, parse: Line -> Option<Json>)
    requires i <= |lines|
    ensures KeptFrom(lines, start, i, parse) == Parsed(Between(lines, start, i), parse)
  {
    var range: nat -> seq<Line> := (j: nat) => Between(lines, start, j);
    forall j: nat | j < |lines|
      ensures range(j + 1) == if j >= start then range(j) + [lines[j]] else range(j)
    {
      BetweenStep(lines, start, j);
    }
    KeptAlong(lines, start, range, i, parse);
  }

  lemma BetweenEnds(lines: seq<Line>, start: int, i: nat, end: int)
    requires i <= |lines| && (i == end || i == |lines| <= end || (i == 0 && end <= 0))
    ensures Between(lines, start, end) == Between(lines, start, i)
  {
  }

  lemma SliceSnoc(lines: seq<Line>, a: nat, i: nat)
    requires a <= i < |lines|
    ensures lines[a..i + 1] == lines[a..i] + [lines[i]]
  {
  }

  lemma BetweenStep(lines: seq<Line>, start: int, i: nat)
    requires i < |lines|
    ensures i >= start ==> Between(lines, start, i + 1) == Between(lines, start, i) + [lines[i]]
    ensures i < start ==> Between(lines, start, i + 1) == Between(lines, start, i)
  {
    if i >= start {
      var a := if start < 0 then 0 else start;
      SliceSnoc(lines, a, i);
      assert a == i ==> [] + [lines[i]] == [lines[i]];
    }
  }

  lemma ParsedSnoc(lines: seq<Line>, line: Line, parse: Line -> Option<Json>)
    ensures parse(line).Some? ==> Parsed(lines + [line], parse) == Parsed(lines, parse) + [parse(line).value]
    ensures parse(line).None? ==> Parsed(lines + [line], parse) == Parsed(lines, parse)
  {
    var all := lines + [line];
    assert all[..|all| - 1] == lines && all[|all| - 1] == line;
    assert Parsed(lines, parse) + [] == Parsed(lines, parse);
  }

  // ---------------------------------------------------------------------------
  // Lines, and several files
  // ---------------------------------------------------------------------------

  predicate Terminated(line: Line) {
    line != [] && line[|line| - 1] == '\n'
  }

  /** `line` holds no newline except possibly at its end. */
  predicate OneLine(line: Line) {
    line != [] && forall i :: 0 <= i < |line| - 1 ==> line[i] != '\n'
  }

  /** The lines together are the text. */
  lemma {:induction false} LinesAreText(text: string)
    ensures Flatten(Lines(text)) == text
  {
    if text != [] {
      var rest := Lines(text[1..]);
      LinesAreText(text[1..]);
      HeadAndTail(text);
      if text[0] == '\n' || rest == [] {
        FlattenCons([text[0]], rest);
      } else {
        HeadAndTail(rest);
        FlattenCons(rest[0], rest[1..]);
        FlattenCons([text[0]] + rest[0], rest[1..]);
        AppendAssociates([text[0]], rest[0], Flatten(rest[1..]));
      }
    }
  }

  /** Each is one line, and each but the last has its newline. */
  ghost predicate AreLines(lines: seq<Line>) {
    forall k {:trigger lines[k]} :: 0 <= k < |lines| ==> OneLine(lines[k]) && (k < |lines| - 1 ==> Terminated(lines[k]))
  }

  lemma FirstLineGrows(c: char, rest: seq<Line>)
    requires AreLines(rest) && c != '\n' && rest != []
    ensures AreLines([[c] + rest[0]] + rest[1..])
  {
    var lines := [[c] + rest[0]] + rest[1..];
    forall k | 0 <= k < |lines|
      ensures OneLine(lines[k]) && (k < |lines| - 1 ==> Terminated(lines[k]))
    {
      assert OneLine(rest[k]) && (k < |rest| - 1 ==> Terminated(rest[k]));
    }
  }

  lemma {:induction false} LinesAreLines(text: string)
    ensures AreLines(Lines(text))
  {
    if text != [] {
      LinesAreLines(text[1..]);
      var rest := Lines(text[1..]);
      if text[0] != '\n' && rest != [] {
        FirstLineGrows(text[0], rest);
      }
    }
  }

  lemma {:induction false} LinesOfTwo(a: string, b: string)
    requires a == [] || Terminated(a)
    ensures Lines(a + b) == Lines(a) + Lines(b)
  {
    if a == [] {
      assert a + b == b;
    } else {
      assert (a + b)[1..] == a[1..] + b;
      LinesOfTwo(a[1..], b);
      var rest, more := Lines(a[1..]), Lines(b);
      if a[0] == '\n' {
        AppendAssociates([[a[0]]], rest, more);
      } else {
        assert Lines(a[1..]) != [];
        assert (rest + more)[1..] == rest[1..] + more;
        AppendAssociates([[a[0]] + rest[0]], rest[1..], more);
      }
    }
  }

  lemma {:induction false} FlattenTerminated(texts: seq<string>)
    requires forall f :: 0 <= f < |texts| ==> texts[f] == [] || Terminated(texts[f])
    ensures Flatten(texts) == [] || Terminated(Flatten(texts))
  {
    if texts != [] {
      FlattenTerminated(texts[..|texts| - 1]);
    }
  }

  /** Loading several files is loading the one file they make, if each but the last ends in a newline. */
  lemma {:induction false} FilesAreOne(texts: seq<string>, parse: Line -> Option<Json>)
    requires forall f :: 0 <= f < |texts| - 1 ==> texts[f] == [] || Terminated(texts[f])
    ensures ParsedFiles(texts, parse) == Parsed(Lines(Flatten(texts)), parse)
  {
    if texts != [] {
      var k := |texts| - 1;
      FilesAreOne(texts[..k], parse);
      FlattenTerminated(texts[..k]);
      LinesOfTwo(Flatten(texts[..k]), texts[k]);
      assert Flatten(texts) == Flatten(texts[..k]) + texts[k];
      ParsedAppend(Lines(Flatten(texts[..k])), Lines(texts[k]), parse);
    }
  }

  /** In any case what the files hold is kept in the order of the files. */
  lemma {:induction false} FilesInOrder(front: seq<string>, back: seq<string>, parse: Line -> Option<Json>)
    ensures ParsedFiles(front + back, parse) == ParsedFiles(front, parse) + ParsedFiles(back, parse)
  {
    if back == [] {
      assert front + back == front;
    } else {
      var k := |back| - 1;
      FilesInOrder(front, back[..k], parse);
      assert (front + back)[..|front + back| - 1] == front + back[..k];
      AppendAssociates(ParsedFiles(front, parse), ParsedFiles(back[..k], parse), Parsed(Lines(back[k]), parse));
    }
  }

  /** A negative chunk number is refused only with no chunks or fewer; otherwise it loads nothing. */
  lemma NegativeChunk(text: string, chunks: int, id: int, parse: Line -> Option<Json>)
    requires id < 0 && chunks != 1
    ensures RangeOf(text, chunks, id, parse) ==
      if chunks >= 2 then Ok([]) else if chunks == 0 then Err(ZeroDivision) else Err(Assertion)
  {
    if chunks >= 2 {
      var remainder, base := CountNewlines(text) % chunks, CountNewlines(text) / chunks;
      Distribute(id, 1, base + 1);
      Monotone(0, -id - 1, base + 1);
      assert (id + 1) * (base + 1) <= 0;
    }
  }

  // ---------------------------------------------------------------------------
  // Chunked loading against whole loading
  // ---------------------------------------------------------------------------

  lemma {:induction false} CountAppend(a: string, b: string)
    ensures CountNewlines(a + b) == CountNewlines(a) + CountNewlines(b)
  {
    if a == [] {
      assert a + b == b;
    } else {
      CountAppend(a[1..], b);
      assert (a + b)[1..] == a[1..] + b;
    }
  }

  predicate EndsUnterminated(text: string) {
    text != [] && text[|text| - 1] != '\n'
  }

  /** The buffered count is the number of lines, less one if the last line has no newline. */
  lemma {:induction false} LinesVersusNewlines(text: string)
    ensures |Lines(text)| == CountNewlines(text) + if EndsUnterminated(text) then 1 else 0
  {
    if |text| > 1 {
      LinesVersusNewlines(text[1..]);
    } else if |text| == 1 {
      assert Lines(text[1..]) == [];
    }
  }

  lemma {:induction false} ParsedAppend(a: seq<Line>, b: seq<Line>, parse: Line -> Option<Json>)
    ensures Parsed(a + b, parse) == Parsed(a, parse) + Parsed(b, parse)
  {
    if b == [] {
      assert a + b == a;
    } else {
      var k := |b| - 1;
      ParsedAppend(a, b[..k], parse);
      assert (a + b)[..|a| + k] == a + b[..k];
      assert |a + b| - 1 == |a| + k && (a + b)[|a| + k] == b[k];
    }
  }

  lemma ParsedJoin(lines: seq<Line>, a: nat, b: nat, parse: Line -> Option<Json>)
    requires a <= b <= |lines|
    ensures Parsed(lines[..a], parse) + Parsed(lines[a..b], parse) == Parsed(lines[..b], parse)
  {
    assert lines[..b] == lines[..a] + lines[a..b];
    ParsedAppend(lines[..a], lines[a..b], parse);
  }

  /** What chunk `id` of the first `n` lines holds. */
  function Piece(lines: seq<Line>, n: nat, chunks: nat, id: nat, parse: Line -> Option<Json>): seq<Json>
    requires id < chunks && n <= |lines|
  {
    ChunksTile(n, chunks, id);
    Parsed(lines[Start(n, chunks, id)..Start(n, chunks, id + 1)], parse)
  }

  function Pieces(lines: seq<Line>, n: nat, chunks: nat, k: nat, parse: Line -> Option<Json>): seq<Json>
    requires k <= chunks && n <= |lines|
  {
    if k == 0 then [] else Pieces(lines, n, chunks, k - 1, parse) + Piece(lines, n, chunks, k - 1, parse)
  }

  lemma {:induction false} PiecesCover(lines: seq<Line>, n: nat, chunks: nat, k: nat, parse: Line -> Option<Json>)
    requires k <= chunks && 0 < chunks && n <= |lines|
    ensures 0 <= Start(n, chunks, k) <= n
    ensures Pieces(lines, n, chunks, k, parse) == Parsed(lines[..Start(n, chunks, k)], parse)
  {
    if k > 0 {
      PiecesCover(lines, n, chunks, k - 1, parse);
      ChunksTile(n, chunks, k - 1);
      ParsedJoin(lines, Start(n, chunks, k - 1), Start(n, chunks, k), parse);
    } else {
      ChunksTile(n, chunks, 0);
    }
  }

  /** The lines a chunk loads. */
  function Chunk(text: string, chunks: nat, id: nat, parse: Line -> Option<Json>): seq<Json>
    requires id < chunks
  {
    LinesVersusNewlines(text);
    if chunks == 1 then Parsed(Lines(text), parse) else Piece(Lines(text), CountNewlines(text), chunks, id, parse)
  }

  function AllChunks(text: string, chunks: nat, k: nat, parse: Line -> Option<Json>): seq<Json>
    requires k <= chunks
  {
    if k == 0 then [] else AllChunks(text, chunks, k - 1, parse) + Chunk(text, chunks, k - 1, parse)
  }

  lemma {:induction false} ChunksArePieces(text: string, chunks: nat, k: nat, parse: Line -> Option<Json>)
    requires k <= chunks && 1 < chunks
    ensures CountNewlines(text) <= |Lines(text)|
    ensures AllChunks(text, chunks, k, parse) == Pieces(Lines(text), CountNewlines(text), chunks, k, parse)
  {
    LinesVersusNewlines(text);
    if k > 0 {
      ChunksArePieces(text, chunks, k - 1, parse);
    }
  }

  /** All chunks together hold the counted lines. */
  lemma ChunksCoverCountedLines(text: string, chunks: nat, parse: Line -> Option<Json>)
    requires 1 < chunks
    ensures CountNewlines(text) <= |Lines(text)|
    ensures AllChunks(text, chunks, chunks, parse) == Parsed(Lines(text)[..CountNewlines(text)], parse)
  {
    ChunksArePieces(text, chunks, chunks, parse);
    PiecesCover(Lines(text), CountNewlines(text), chunks, chunks, parse);
    ChunksTile(CountNewlines(text), chunks, 0);
  }

  /**
    Loading all chunks one after another gives the whole file, unless there are several chunks and the file
    ends in a parsable line without a newline: exactly that line is then in no chunk.
  */
  lemma ChunkedLoadIff(text: string, chunks: nat, parse: Line -> Option<Json>)
    requires 0 < chunks
    ensures var lines := Lines(text);
      AllChunks(text, chunks, chunks, parse) == Parsed(lines, parse) <==>
        chunks == 1 || !EndsUnterminated(text) || (lines != [] && parse(lines[|lines| - 1]).None?)
  {
    var lines := Lines(text);
    var n := CountNewlines(text);
    LinesVersusNewlines(text);
    if chunks == 1 {
      assert AllChunks(text, 1, 1, parse) == AllChunks(text, 1, 0, parse) + Chunk(text, 1, 0, parse);
    } else {
      ChunksCoverCountedLines(text, chunks, parse);
      if |lines| == n {
        assert lines[..n] == lines;
      }
    }
  }
}
