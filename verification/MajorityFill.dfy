/**
  Majority voting over the predictions for one problem, and filling the top answer into them
  (`TopAnswerProcessor`, without reward-model scores).
*/
module MajorityFill {
  import opened Sequences
  import opened Wrappers

  const NO_VALID_ANSWER := "no_valid_answer_found"

  /** The fields of one prediction that are read or written; `None` is a missing key or a null. */
  datatype Row = Row(predicted: Option<string>, expected: Option<string>, symbolicCorrect: Option<bool>,
                     judgement: Option<string>, majorityVotes: Option<nat>, totalVotes: Option<nat>)

  /** What is remembered of the rows with one answer. */
  datatype Metadata = Metadata(symbolicCorrect: Option<bool>, judgement: Option<string>)

  datatype TopAnswer = TopAnswer(answer: string, votes: nat, total: nat, metadata: Metadata)

  /** `fill_key` is left at its default, the expected answer. */
  datatype Config = Config(ignoreIfNotNone: bool, fillSymbolicCorrect: bool)

  // ---------------------------------------------------------------------------
  // Voting
  // ---------------------------------------------------------------------------

  /** How many of the first `k` rows predict `answer`. */
  function Votes(rows: seq<Row>, k: nat, answer: string): (v: nat)
    requires k <= |rows|
    ensures v <= k
  {
    if k == 0 then 0 else Votes(rows, k - 1, answer) + if rows[k - 1].predicted == Some(answer) then 1 else 0
  }

  /** The rows that predict `answer`. */
  function Voters(rows: seq<Row>, answer: string): nat -> bool {
    (i: nat) => i < |rows| && rows[i].predicted == Some(answer)
  }

  lemma {:induction false} VotesCountVoters(rows: seq<Row>, k: nat, answer: string)
    requires k <= |rows|
    ensures Votes(rows, k, answer) == |Below(Voters(rows, answer), k)|
  {
    if k == 0 {
      assert Below(Voters(rows, answer), 0) == {};
    } else {
      VotesCountVoters(rows, k - 1, answer);
      BelowStep(Voters(rows, answer), k - 1);
    }
  }

  /** The first row from `i` on that predicts `answer`, or the number of rows. */
  function FirstSeen(rows: seq<Row>, i: nat, answer: string): (r: nat)
    requires i <= |rows|
    ensures i <= r <= |rows| && (r < |rows| ==> rows[r].predicted == Some(answer))
    ensures forall j :: i <= j < r ==> rows[j].predicted != Some(answer)
    decreases |rows| - i
  {
    if i == |rows| || rows[i].predicted == Some(answer) then i else FirstSeen(rows, i + 1, answer)
  }

  /** `answer` has as many votes as any other and is seen before every other one with as many. */
  ghost predicate IsTop(rows: seq<Row>, answer: string) {
    && Votes(rows, |rows|, answer) > 0
    && forall other: string ::
         && Votes(rows, |rows|, other) <= Votes(rows, |rows|, answer)
         && (Votes(rows, |rows|, other) == Votes(rows, |rows|, answer) ==> FirstSeen(rows, 0, answer) <= FirstSeen(rows, 0, other))
  }

  predicate AnyValid(rows: seq<Row>) {
    exists i :: 0 <= i < |rows| && rows[i].predicted.Some?
  }

  /** `top` is what voting gives for these rows. */
  ghost predicate Elected(rows: seq<Row>, top: TopAnswer) {
    if AnyValid(rows) then IsTop(rows, top.answer) && top.votes == Votes(rows, |rows|, top.answer)
    else top.answer == NO_VALID_ANSWER && top.votes == 0
  }

  /** The metadata of the last row with this answer. */
  ghost predicate MetadataOf(rows: seq<Row>, answer: string, m: Metadata) {
    exists i :: && 0 <= i < |rows| && rows[i].predicted == Some(answer)
                && m == Metadata(rows[i].symbolicCorrect, rows[i].judgement)
                && forall j :: i < j < |rows| ==> rows[j].predicted != Some(answer)
  }

  lemma {:induction false} SeenIffVotes(rows: seq<Row>, k: nat, answer: string)
    requires k <= |rows|
    ensures Votes(rows, k, answer) > 0 <==> FirstSeen(rows, 0, answer) < k
  {
    if k > 0 {
      SeenIffVotes(rows, k - 1, answer);
    }
  }

  /** There is at most one top answer. */
  lemma TopUnique(rows: seq<Row>, x: string, y: string)
    requires IsTop(rows, x) && IsTop(rows, y)
    ensures x == y
  {
    assert Votes(rows, |rows|, x) == Votes(rows, |rows|, y);
    assert FirstSeen(rows, 0, x) == FirstSeen(rows, 0, y);
    SeenIffVotes(rows, |rows|, x);
  }

  /** The counter after the first `k` rows: its keys in the order in which they were first seen, and their counts. */
  ghost predicate Counted(rows: seq<Row>, k: nat, order: seq<string>, counts: map<string, nat>)
    requires k <= |rows|
  {
    && (forall i :: 0 <= i < |order| ==> order[i] in counts && FirstSeen(rows, 0, order[i]) < k)
    && (forall i, j :: 0 <= i < j < |order| ==> FirstSeen(rows, 0, order[i]) < FirstSeen(rows, 0, order[j]))
    && (forall a: string :: Votes(rows, k, a) > 0 <==> a in order)
    && (forall a: string :: a in counts ==> a in order && counts[a] == Votes(rows, k, a))
  }

  lemma CountNew(rows: seq<Row>, k: nat, order: seq<string>, counts: map<string, nat>, answer: string)
    requires k < |rows| && Counted(rows, k, order, counts) && rows[k].predicted == Some(answer) && answer !in counts
    ensures Counted(rows, k + 1, order + [answer], counts[answer := 1])
  {
    SeenIffVotes(rows, k, answer);
    assert answer !in order;
    assert FirstSeen(rows, 0, answer) == k;
    var more := order + [answer];
    assert forall a: string :: a in more <==> a in order || a == answer;
    assert forall i :: 0 <= i < |more| ==> more[i] == if i < |order| then order[i] else answer;
    forall a: string
      ensures Votes(rows, k + 1, a) > 0 <==> a in more
    {
    }
  }

  lemma CountAgain(rows: seq<Row>, k: nat, order: seq<string>, counts: map<string, nat>, answer: string)
    requires k < |rows| && Counted(rows, k, order, counts) && rows[k].predicted == Some(answer) && answer in counts
    ensures Counted(rows, k + 1, order, counts[answer := counts[answer] + 1])
  {
  }

  lemma CountNone(rows: seq<Row>, k: nat, order: seq<string>, counts: map<string, nat>)
    requires k < |rows| && Counted(rows, k, order, counts) && rows[k].predicted == None
    ensures Counted(rows, k + 1, order, counts)
  {
  }

  method CountAnswers(rows: seq<Row>) returns (order: seq<string>, counts: map<string, nat>)
    ensures Counted(rows, |rows|, order, counts)
  {
    order, counts := [], map[];
    for k := 0 to |rows|
      invariant Counted(rows, k, order, counts)
    {
      if rows[k].predicted.Some? {
        var answer := rows[k].predicted.value;
        if answer !in counts {
          CountNew(rows, k, order, counts, answer);
          order, counts := order + [answer], counts[answer := 1];
        } else {
          CountAgain(rows, k, order, counts, answer);
          counts := counts[answer := counts[answer] + 1];
        }
      } else {
        CountNone(rows, k, order, counts);
      }
    }
  }

  /** `most_common(1)`: the first of the keys with the highest count. */
  method MostCommon(rows: seq<Row>, order: seq<string>, counts: map<string, nat>) returns (answer: string)
    requires Counted(rows, |rows|, order, counts) && order != []
    ensures IsTop(rows, answer) && answer in counts && counts[answer] == Votes(rows, |rows|, answer)
  {
    var best := 0;
    for i := 1 to |order|
      invariant 0 <= best < i
      invariant forall j :: 0 <= j < i ==> counts[order[j]] <= counts[order[best]]
      invariant forall j :: 0 <= j < best ==> counts[order[j]] < counts[order[best]]
    {
      if counts[order[i]] > counts[order[best]] {
        best := i;
      }
    }
    answer := order[best];
    FirstOfMostIsTop(rows, order, counts, best);
  }

  lemma FirstOfMostIsTop(rows: seq<Row>, order: seq<string>, counts: map<string, nat>, best: nat)
    requires Counted(rows, |rows|, order, counts) && best < |order|
    requires forall j :: 0 <= j < |order| ==> counts[order[j]] <= counts[order[best]]
    requires forall j :: 0 <= j < best ==> counts[order[j]] < counts[order[best]]
    ensures IsTop(rows, order[best])
  {
    var answer := order[best];
    assert answer in order;
    forall other: string
      ensures Votes(rows, |rows|, other) <= Votes(rows, |rows|, answer)
      ensures Votes(rows, |rows|, other) == Votes(rows, |rows|, answer) ==> FirstSeen(rows, 0, answer) <= FirstSeen(rows, 0, other)
    {
      if Votes(rows, |rows|, other) > 0 {
        var j :| 0 <= j < |order| && order[j] == other;
        assert counts[order[j]] <= counts[answer];
      }
    }
  }

  /** One step of `_read_predictions`: the top answer of one problem. */
  method ReadProblem(rows: seq<Row>) returns (top: TopAnswer)
    ensures Elected(rows, top) && top.total == |rows|
    ensures if AnyValid(rows) then MetadataOf(rows, top.answer, top.metadata) else top.metadata == Metadata(None, None)
  {
    var metadata: map<string, Metadata> := map[];
    for k := 0 to |rows|
      invariant forall i :: 0 <= i < k && rows[i].predicted.Some? ==> rows[i].predicted.value in metadata
      invariant forall a :: a in metadata ==> MetadataOf(rows[..k], a, metadata[a])
    {
      ghost var before := metadata;
      if rows[k].predicted.Some? {
        metadata := metadata[rows[k].predicted.value := Metadata(rows[k].symbolicCorrect, rows[k].judgement)];
      }
      forall a | a in metadata
        ensures MetadataOf(rows[..k + 1], a, metadata[a])
      {
        MetadataStep(rows, k, a, before, metadata);
      }
    }
    assert rows[..|rows|] == rows;
    var order, counts := CountAnswers(rows);
    if order == [] {
      NoneSeen(rows, order, counts);
      return TopAnswer(NO_VALID_ANSWER, 0, |rows|, Metadata(None, None));
    }
    var answer := MostCommon(rows, order, counts);
    SeenIffVotes(rows, |rows|, answer);
    assert rows[FirstSeen(rows, 0, answer)].predicted == Some(answer);
    top := TopAnswer(answer, counts[answer], |rows|, metadata[answer]);
  }

  lemma MetadataStep(rows: seq<Row>, k: nat, a: string, before: map<string, Metadata>, metadata: map<string, Metadata>)
    requires k < |rows| && a in metadata
    requires forall b :: b in before ==> MetadataOf(rows[..k], b, before[b])
    requires metadata == if rows[k].predicted.Some?
                         then before[rows[k].predicted.value := Metadata(rows[k].symbolicCorrect, rows[k].judgement)] else before
    ensures MetadataOf(rows[..k + 1], a, metadata[a])
  {
    var now := rows[..k + 1];
    assert now == rows[..k] + [rows[k]];
    if rows[k].predicted == Some(a) {
      assert now[k].predicted == Some(a);
    } else {
      assert MetadataOf(rows[..k], a, before[a]);
      var i :| && 0 <= i < k && rows[..k][i].predicted == Some(a)
               && metadata[a] == Metadata(rows[..k][i].symbolicCorrect, rows[..k][i].judgement)
               && forall j :: i < j < k ==> rows[..k][j].predicted != Some(a);
      assert now[i] == rows[..k][i];
      assert forall j :: i < j < k ==> now[j] == rows[..k][j];
    }
  }

  lemma NoneSeen(rows: seq<Row>, order: seq<string>, counts: map<string, nat>)
    requires Counted(rows, |rows|, order, counts) && order == []
    ensures !AnyValid(rows)
  {
    forall i | 0 <= i < |rows|
      ensures rows[i].predicted == None
    {
      if rows[i].predicted.Some? {
        SeenIffVotes(rows, |rows|, rows[i].predicted.value);
      }
    }
  }

  // ---------------------------------------------------------------------------
  // Filling
  // ---------------------------------------------------------------------------

  /** The row is written as it is, because it already has a non-empty expected answer. */
  predicate Skipped(cfg: Config, row: Row) {
    cfg.ignoreIfNotNone && row.expected.Some? && row.expected.value != ""
  }

  function Filled(cfg: Config, top: TopAnswer, row: Row): Row {
    if Skipped(cfg, row) then row
    else row.(expected := Some(top.answer), majorityVotes := Some(top.votes), totalVotes := Some(top.total),
              symbolicCorrect := if cfg.fillSymbolicCorrect then Some(row.predicted == Some(top.answer)) else None)
  }

  /** How many of the first `k` rows get another expected answer. */
  function Changes(cfg: Config, top: TopAnswer, rows: seq<Row>, k: nat): (c: nat)
    requires k <= |rows|
    ensures c <= k
  {
    if k == 0 then 0
    else Changes(cfg, top, rows, k - 1) + if Filled(cfg, top, rows[k - 1]).expected != rows[k - 1].expected then 1 else 0
  }

  /** The rows whose expected answer is not the same in both lists. */
  function Differing(before: seq<Row>, after: seq<Row>): nat -> bool {
    (i: nat) => i < |before| && i < |after| && before[i].expected != after[i].expected
  }

  lemma {:induction false} ChangesCountDiffering(cfg: Config, top: TopAnswer, before: seq<Row>, after: seq<Row>, k: nat)
    requires k <= |before| == |after| && forall i :: 0 <= i < |before| ==> after[i] == Filled(cfg, top, before[i])
    ensures Changes(cfg, top, before, k) == |Below(Differing(before, after), k)|
  {
    if k == 0 {
      assert Below(Differing(before, after), 0) == {};
    } else {
      ChangesCountDiffering(cfg, top, before, after, k - 1);
      BelowStep(Differing(before, after), k - 1);
    }
  }

  /** The rows are updated in place and written; counts the rows whose expected answer changes. */
  method FillProblem(cfg: Config, top: TopAnswer, rows: array<Row>) returns (changed: nat)
    modifies rows
    ensures forall i :: 0 <= i < rows.Length ==> rows[i] == Filled(cfg, top, old(rows[i]))
    ensures changed == |Below(Differing(old(rows[..]), rows[..]), rows.Length)|
  {
    changed := 0;
    for i := 0 to rows.Length
      invariant forall j :: 0 <= j < i ==> rows[j] == Filled(cfg, top, old(rows[j]))
      invariant forall j :: i <= j < rows.Length ==> rows[j] == old(rows[j])
      invariant changed == Changes(cfg, top, old(rows[..]), i)
    {
      var row := rows[i];
      if cfg.ignoreIfNotNone && row.expected.Some? && row.expected.value != "" {
        continue;
      }
      if row.expected != Some(top.answer) {
        changed := changed + 1;
      }
      row := row.(expected := Some(top.answer));
      row := row.(majorityVotes := Some(top.votes), totalVotes := Some(top.total));
      if cfg.fillSymbolicCorrect {
        row := row.(symbolicCorrect := Some(row.predicted == row.expected));
      } else {
        row := row.(symbolicCorrect := None);
      }
      rows[i] := row;
    }
    ChangesCountDiffering(cfg, top, old(rows[..]), rows[..], rows.Length);
  }

  /**
    A row after filling: one with a non-empty expected answer that is to be kept is as it was; any other expects the
    majority's answer, or says that there is none, knows its votes among how many rows, and, if that is filled in,
    whether it predicts it.  Nothing else of it changes.
  */
  lemma FilledIsMajority(cfg: Config, top: TopAnswer, rows: seq<Row>, i: nat)
    requires Elected(rows, top) && top.total == |rows| && i < |rows|
    ensures var row, f := rows[i], Filled(cfg, top, rows[i]);
      if cfg.ignoreIfNotNone && row.expected != None && row.expected != Some("") then f == row
      else
        && f.predicted == row.predicted && f.judgement == row.judgement
        && f.expected.Some? && (if AnyValid(rows) then IsTop(rows, f.expected.value) else f.expected.value == NO_VALID_ANSWER)
        && f.majorityVotes == Some(|Below(Voters(rows, f.expected.value), |rows|)|) && f.totalVotes == Some(|rows|)
        && f.symbolicCorrect == if cfg.fillSymbolicCorrect then Some(row.predicted == f.expected) else None
  {
    ElectedVotes(rows, top);
    VotesCountVoters(rows, |rows|, top.answer);
  }

  /** How many of the first `k` rows were filled and marked correct. */
  function MarkedCorrect(cfg: Config, top: TopAnswer, rows: seq<Row>, k: nat): nat
    requires k <= |rows|
  {
    if k == 0 then 0
    else MarkedCorrect(cfg, top, rows, k - 1)
         + if !Skipped(cfg, rows[k - 1]) && Filled(cfg, top, rows[k - 1]).symbolicCorrect == Some(true) then 1 else 0
  }

  lemma ElectedVotes(rows: seq<Row>, top: TopAnswer)
    requires Elected(rows, top)
    ensures top.votes == Votes(rows, |rows|, top.answer)
  {
    if !AnyValid(rows) {
      SeenIffVotes(rows, |rows|, top.answer);
    }
  }

  lemma {:induction false} MarkedAreVotes(cfg: Config, top: TopAnswer, rows: seq<Row>, k: nat)
    requires k <= |rows| && cfg.fillSymbolicCorrect
    ensures MarkedCorrect(cfg, top, rows, k) <= Votes(rows, k, top.answer)
    ensures (MarkedCorrect(cfg, top, rows, k) == Votes(rows, k, top.answer)
             <==> forall i :: 0 <= i < k && rows[i].predicted == Some(top.answer) ==> !Skipped(cfg, rows[i]))
  {
    if k > 0 {
      MarkedAreVotes(cfg, top, rows, k - 1);
    }
  }

  /** The rows marked correct are never more than the majority's votes, and exactly as many if and only if no row that
      predicts the top answer was skipped; without `ignore_if_not_none` that is always so, also with no valid answer. */
  lemma FillConserves(cfg: Config, top: TopAnswer, rows: seq<Row>)
    requires cfg.fillSymbolicCorrect && Elected(rows, top)
    ensures MarkedCorrect(cfg, top, rows, |rows|) <= top.votes
    ensures (MarkedCorrect(cfg, top, rows, |rows|) == top.votes
             <==> forall i :: 0 <= i < |rows| && rows[i].predicted == Some(top.answer) ==> !Skipped(cfg, rows[i]))
    ensures !cfg.ignoreIfNotNone ==> MarkedCorrect(cfg, top, rows, |rows|) == top.votes
  {
    ElectedVotes(rows, top);
    MarkedAreVotes(cfg, top, rows, |rows|);
  }
}
