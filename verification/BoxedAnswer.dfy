/**
  Taking the final answer out of the last `\boxed{...}` of a text by counting braces (`search_boxed`).
*/
module BoxedAnswer {
  import opened Sequences
  import opened Wrappers

  const BOXED := "\\boxed"

  predicate OccursAt(s: string, pattern: string, i: int) {
    0 <= i && i + |pattern| <= |s| && s[i..i + |pattern|] == pattern
  }

  predicate Contains(s: string, pattern: string) {
    exists i :: 0 <= i <= |s| && OccursAt(s, pattern, i)
  }

  /** `string.rfind(pattern)`, looking at positions up to `i`. */
  function RFindUpTo(s: string, pattern: string, i: int): (r: int)
    ensures -1 <= r
    ensures r >= 0 ==> r <= i && OccursAt(s, pattern, r)
    ensures forall j :: r < j <= i ==> !OccursAt(s, pattern, j)
    decreases i + 1
  {
    if i < 0 then -1 else if OccursAt(s, pattern, i) then i else RFindUpTo(s, pattern, i - 1)
  }

  /** Opening minus closing braces. */
  function Depth(s: string): int {
    if s == [] then 0 else
      var c := s[|s| - 1];
      Depth(s[..|s| - 1]) + if c == '{' then 1 else if c == '}' then -1 else 0
  }

  ghost predicate Balanced(s: string) {
    Depth(s) == 0 && forall k :: 0 <= k <= |s| ==> Depth(s[..k]) >= 0
  }

  lemma {:induction false} DepthAppend(s: string, t: string)
    ensures Depth(s + t) == Depth(s) + Depth(t)
  {
    if t == [] {
      assert s + t == s;
    } else {
      assert (s + t)[..|s + t| - 1] == s + t[..|t| - 1];
      DepthAppend(s, t[..|t| - 1]);
    }
  }

  lemma {:induction false} DepthZero(s: string)
    requires forall i :: 0 <= i < |s| ==> s[i] != '{' && s[i] != '}'
    ensures Depth(s) == 0
  {
    if s != [] {
      DepthZero(s[..|s| - 1]);
    }
  }

  /** Position `p` is the last `\boxed`, it opens a brace, `answer` is balanced and the next brace closes it. */
  ghost predicate IsAnswer(s: string, p: int, answer: string) {
    && OccursAt(s, BOXED, p)
    && (forall j :: p < j <= |s| ==> !OccursAt(s, BOXED, j))
    && OccursAt(s, "{", p + 6)
    && OccursAt(s, answer, p + 7)
    && OccursAt(s, "}", p + 7 + |answer|)
    && Balanced(answer)
  }

  /** The brace counter after reading from `p`, with the brace after `\boxed` still open. */
  lemma OpenedDepth(s: string, p: int, k: int)
    requires OccursAt(s, BOXED, p) && OccursAt(s, "{", p + 6) && p + 7 <= k <= |s|
    ensures Depth(s[p..k]) == 1 + Depth(s[p + 7..k])
  {
    var name := s[p..p + 6];
    DepthZero(name);
    DepthAppend(name, "{");
    DepthAppend(name + "{", s[p + 7..k]);
    assert s[p..k] == name + "{" + s[p + 7..k];
    assert Depth("{") == 1;
  }

  lemma DepthStep(s: string, p: int, k: int)
    requires 0 <= p <= k < |s|
    ensures Depth(s[p..k + 1]) == Depth(s[p..k]) + (if s[k] == '{' then 1 else if s[k] == '}' then -1 else 0)
  {
    assert s[p..k + 1][..k - p] == s[p..k];
  }

  /** The counter comes back to zero first at `r`, on a closing brace. */
  ghost predicate ClosesFirst(s: string, p: int, r: int) {
    && 0 <= p <= r < |s| && s[r] == '}' && Depth(s[p..r + 1]) == 0
    && forall k :: p <= k < r && s[k] == '}' ==> Depth(s[p..k + 1]) != 0
  }

  /** Up to the closing brace the first brace stays open. */
  lemma {:induction false} StaysOpen(s: string, p: int, r: int, k: int)
    requires ClosesFirst(s, p, r) && OccursAt(s, BOXED, p) && OccursAt(s, "{", p + 6)
    requires p + 7 <= k <= r
    ensures Depth(s[p..k]) >= 1
  {
    if k == p + 7 {
      OpenedDepth(s, p, k);
    } else {
      StaysOpen(s, p, r, k - 1);
      DepthStep(s, p, k - 1);
    }
  }

  lemma NameHasNoBraces(s: string, p: int)
    requires OccursAt(s, BOXED, p)
    ensures forall k :: p <= k < p + 6 ==> s[k] != '{' && s[k] != '}'
  {
    assert forall k :: p <= k < p + 6 ==> s[k] == s[p..p + 6][k - p];
  }

  /** What stands between the brace and its first close is an answer. */
  lemma ClosedIsAnswer(s: string, p: int, r: int)
    requires OccursAt(s, BOXED, p) && (forall j :: p < j <= |s| ==> !OccursAt(s, BOXED, j))
    requires OccursAt(s, "{", p + 6) && ClosesFirst(s, p, r)
    ensures p + 7 <= r && IsAnswer(s, p, s[p + 7..r])
  {
    NameHasNoBraces(s, p);
    assert s[p + 6] == '{';
    var answer := s[p + 7..r];
    forall k | 0 <= k <= |answer|
      ensures Depth(answer[..k]) >= 0
    {
      StaysOpen(s, p, r, p + 7 + k);
      OpenedDepth(s, p, p + 7 + k);
      assert answer[..k] == s[p + 7..p + 7 + k];
    }
    OpenedDepth(s, p, r);
    DepthStep(s, p, r);
  }

  /** An answer is what stands between the brace and its first close. */
  lemma AnswerIsClosed(s: string, p: int, answer: string)
    requires IsAnswer(s, p, answer)
    ensures ClosesFirst(s, p, p + 7 + |answer|) && answer == s[p + 7..p + 7 + |answer|]
  {
    var r := p + 7 + |answer|;
    NameHasNoBraces(s, p);
    assert s[p + 6] == '{' && s[r] == '}';
    forall k | p <= k < r && s[k] == '}'
      ensures Depth(s[p..k + 1]) != 0
    {
      OpenedDepth(s, p, k + 1);
      assert s[p + 7..k + 1] == answer[..k + 1 - p - 7];
    }
    OpenedDepth(s, p, r);
    DepthStep(s, p, r);
  }

  lemma ClosesOnce(s: string, p: int, r: int, r': int)
    requires ClosesFirst(s, p, r) && ClosesFirst(s, p, r')
    ensures r == r'
  {
  }

  /** A text has at most one answer. */
  lemma AnswerUnique(s: string, p: int, x: string, q: int, y: string)
    requires IsAnswer(s, p, x) && IsAnswer(s, q, y)
    ensures p == q && x == y
  {
    assert p <= |s| && q <= |s|;
    AnswerIsClosed(s, p, x);
    AnswerIsClosed(s, q, y);
    ClosesOnce(s, p, p + 7 + |x|, p + 7 + |y|);
  }

  /** The loop: the first closing brace at which the counter is back at zero. */
  method FindClosing(s: string, idx: int) returns (right: Option<int>)
    requires 0 <= idx <= |s|
    ensures forall r: int :: right == Some(r) <==> ClosesFirst(s, idx, r)
  {
    right := None;
    var i, open := idx, 0;
    assert s[idx..idx] == [];
    while i < |s|
      invariant idx <= i <= |s| && open == Depth(s[idx..i])
      invariant forall k :: idx <= k < i && s[k] == '}' ==> Depth(s[idx..k + 1]) != 0
      invariant right == None
    {
      DepthStep(s, idx, i);
      if s[i] == '{' {
        open := open + 1;
      }
      if s[i] == '}' {
        open := open - 1;
        if open == 0 {
          assert ClosesFirst(s, idx, i);
          right := Some(i);
          break;
        }
      }
      i := i + 1;
    }
  }

  /** What the closing brace that was found says about the answer. */
  lemma AnswerFromClosing(s: string, idx: int, right: Option<int>)
    requires OccursAt(s, BOXED, idx) && (forall j :: idx < j <= |s| ==> !OccursAt(s, BOXED, j))
    requires forall r: int :: right == Some(r) <==> ClosesFirst(s, idx, r)
    ensures right == None ==> forall p: int, answer: string :: !IsAnswer(s, p, answer)
    ensures right.Some? && !OccursAt(s, "{", idx + 6) ==> forall p: int, answer: string :: !IsAnswer(s, p, answer)
    ensures (right.Some? && OccursAt(s, "{", idx + 6)
             ==> idx + 7 <= right.value < |s| && IsAnswer(s, idx, s[idx + 7..right.value]))
  {
    forall p: int, answer: string | IsAnswer(s, p, answer)
      ensures right == Some(p + 7 + |answer|) && OccursAt(s, "{", idx + 6)
    {
      assert p <= |s|;
      AnswerIsClosed(s, p, answer);
    }
    if right.Some? && OccursAt(s, "{", idx + 6) {
      ClosedIsAnswer(s, idx, right.value);
    }
  }

  method SearchBoxed(s: string) returns (r: Option<string>)
    ensures forall answer: string :: r == Some(answer) <==> exists p: int :: IsAnswer(s, p, answer)
  {
    var idx := RFindUpTo(s, BOXED, |s|);
    if idx < 0 {
      return None;
    }
    var right := FindClosing(s, idx);
    AnswerFromClosing(s, idx, right);
    if right == None {
      return None;
    }
    var found := s[idx..right.value + 1];
    Opening(s, idx, found);
    if "\\boxed{" <= found {
      r := Some(found[7..|found| - 1]);
      SliceOfSlice(s, idx, right.value + 1, 7, |found| - 1);
      forall p: int, answer: string | IsAnswer(s, p, answer)
        ensures answer == r.value
      {
        AnswerUnique(s, idx, r.value, p, answer);
      }
    } else {
      r := None;
    }
  }

  /** The check on what was cut out: does the name open a brace? */
  lemma Opening(s: string, idx: int, found: string)
    requires OccursAt(s, BOXED, idx) && OccursAt(s, found, idx) && found != [] && found[|found| - 1] == '}'
    ensures "\\boxed{" <= found <==> OccursAt(s, "{", idx + 6)
  {
    NameHasNoBraces(s, idx);
    assert s[idx + |found| - 1] == '}';
    assert found[..6] == s[idx..idx + 6];
    assert |found| > 6 && found[6] == s[idx + 6];
    if OccursAt(s, "{", idx + 6) {
      assert s[idx + 6] == '{';
      assert found[..7] == BOXED + "{";
    } else {
      assert s[idx + 6..idx + 7] == [s[idx + 6]];
    }
  }

  // ---------------------------------------------------------------------------
  // The text as it is written
  // ---------------------------------------------------------------------------

  /** No `\boxed` reaches across a closing brace. */
  lemma OccurrenceInOnePart(s: string, t: string, i: int)
    requires OccursAt(s + "}" + t, BOXED, i)
    ensures OccursAt(s, BOXED, i) || OccursAt(t, BOXED, i - |s| - 1)
  {
    var all := s + "}" + t;
    assert all[|s|] == '}';
    NameHasNoBraces(all, i);
    if i + 6 <= |s| {
      assert s[i..i + 6] == all[i..i + 6];
    } else {
      assert t[i - |s| - 1..i - |s| - 1 + 6] == all[i..i + 6];
    }
  }

  lemma OccurrenceMoves(s: string, t: string, u: string, i: int)
    requires OccursAt(t, BOXED, i)
    ensures OccursAt(s + t + u, BOXED, |s| + i)
  {
    assert (s + t + u)[|s| + i..|s| + i + 6] == t[i..i + 6];
  }

  /** In `\boxed{body` the name occurs again only inside the body. */
  lemma OccurrenceInBody(prefix: string, body: string, i: int)
    requires OccursAt(prefix + "\\boxed{" + body, BOXED, i) && i > |prefix|
    ensures OccursAt(body, BOXED, i - |prefix| - 7)
  {
    var all := prefix + "\\boxed{" + body;
    assert all[i] == all[i..i + 6][0] == '\\';
    if i >= |prefix| + 7 {
      assert body[i - |prefix| - 7..i - |prefix| - 1] == all[i..i + 6];
    }
  }

  lemma NoLaterName(prefix: string, body: string, suffix: string, j: int)
    requires j > |prefix| && OccursAt(prefix + "\\boxed{" + body + "}" + suffix, BOXED, j)
    ensures Contains(body, BOXED) || Contains(suffix, BOXED)
  {
    var head := prefix + "\\boxed{";
    OccurrenceInOnePart(head + body, suffix, j);
    if OccursAt(head + body, BOXED, j) {
      OccurrenceInBody(prefix, body, j);
    }
  }

  lemma LaterName(prefix: string, body: string, suffix: string)
    requires Contains(body, BOXED) || Contains(suffix, BOXED)
    ensures var s := prefix + "\\boxed{" + body + "}" + suffix;
            exists j :: |prefix| < j <= |s| && OccursAt(s, BOXED, j)
  {
    var head := prefix + "\\boxed{";
    var s := head + body + "}" + suffix;
    if i :| 0 <= i <= |body| && OccursAt(body, BOXED, i) {
      OccurrenceMoves(head, body, "}" + suffix, i);
      assert head + body + ("}" + suffix) == s;
      assert OccursAt(s, BOXED, |head| + i);
    } else {
      var i :| 0 <= i <= |suffix| && OccursAt(suffix, BOXED, i);
      OccurrenceMoves(head + body + "}", suffix, [], i);
      assert head + body + "}" + suffix + [] == s;
      assert OccursAt(s, BOXED, |head| + |body| + 1 + i);
    }
  }

  lemma Layout(prefix: string, body: string, suffix: string)
    ensures var s := prefix + "\\boxed{" + body + "}" + suffix;
            && OccursAt(s, BOXED, |prefix|) && OccursAt(s, "{", |prefix| + 6)
            && OccursAt(s, body, |prefix| + 7) && OccursAt(s, "}", |prefix| + 7 + |body|)
  {
    var s := prefix + "\\boxed{" + body + "}" + suffix;
    var p := |prefix|;
    assert s[p..p + 6] == "\\boxed";
    assert s[p + 6..p + 7] == "{";
    assert s[p + 7..p + 7 + |body|] == body;
    assert s[p + 7 + |body|..p + 8 + |body|] == "}";
  }

  /** For any prefix and suffix, `body` is the answer found in `prefix\boxed{body}suffix` exactly when it is
      balanced and neither it nor the suffix has a `\boxed`. */
  lemma AnswerOfText(prefix: string, body: string, suffix: string)
    ensures IsAnswer(prefix + "\\boxed{" + body + "}" + suffix, |prefix|, body)
       <==> Balanced(body) && !Contains(body, BOXED) && !Contains(suffix, BOXED)
  {
    var s := prefix + "\\boxed{" + body + "}" + suffix;
    Layout(prefix, body, suffix);
    if Contains(body, BOXED) || Contains(suffix, BOXED) {
      LaterName(prefix, body, suffix);
    } else {
      forall j | |prefix| < j <= |s|
        ensures !OccursAt(s, BOXED, j)
      {
        if OccursAt(s, BOXED, j) {
          NoLaterName(prefix, body, suffix, j);
        }
      }
    }
  }

  /** Every answer comes from a text of that form. */
  lemma AnswerSplitsText(s: string, p: int, answer: string)
    requires IsAnswer(s, p, answer)
    ensures exists prefix: string, suffix: string :: (s == prefix + "\\boxed{" + answer + "}" + suffix
         && Balanced(answer) && !Contains(answer, BOXED) && !Contains(suffix, BOXED))
  {
    var prefix, suffix := s[..p], s[p + 8 + |answer|..];
    assert s == prefix + "\\boxed{" + answer + "}" + suffix by {
      assert s == s[..p] + s[p..p + 6] + s[p + 6..p + 7] + s[p + 7..p + 7 + |answer|]
               + s[p + 7 + |answer|..p + 8 + |answer|] + s[p + 8 + |answer|..];
      assert "\\boxed{" == BOXED + "{";
    }
    AnswerOfText(prefix, answer, suffix);
  }
}
