/**
  Line-by-line document translation (`TranslationTask`): the translatable lines of all documents are taken out
  into one flat list, translated one by one, and put back into templates.
*/
module Translation {
  import opened Wrappers
  import opened Sequences

  /** The two properties of characters that the code asks Python about. */
  datatype Alphabet = Alphabet(isSpace: char -> bool, isAlpha: char -> bool)

  const OPEN := '\U{3018}'
  const CLOSE := '\U{3019}'

  // ---------------------------------------------------------------------------
  // Strings
  // ---------------------------------------------------------------------------

  /** `doc.split("\n")`. */
  function SplitLines(doc: string): (lines: seq<string>)
    ensures |lines| >= 1 && forall i :: 0 <= i < |lines| ==> '\n' !in lines[i]
  {
    if doc == [] then [[]]
    else
      var rest := SplitLines(doc[1..]);
      if doc[0] == '\n' then [[]] + rest else [[doc[0]] + rest[0]] + rest[1..]
  }

  /** `"\n".join(lines)`. */
  function JoinLines(lines: seq<string>): string {
    if lines == [] then [] else if |lines| == 1 then lines[0] else lines[0] + "\n" + JoinLines(lines[1..])
  }

  lemma {:induction false} JoinSplit(doc: string)
    ensures JoinLines(SplitLines(doc)) == doc
  {
    if doc != [] {
      JoinSplit(doc[1..]);
      var rest := SplitLines(doc[1..]);
      if doc[0] == '\n' {
        assert ([[]] + rest)[1..] == rest;
        assert doc == "\n" + doc[1..];
      } else {
        assert ([[doc[0]] + rest[0]] + rest[1..])[1..] == rest[1..];
        assert doc == [doc[0]] + doc[1..];
      }
    }
  }

  function LStrip(a: Alphabet, s: string): (r: string)
    ensures r != [] ==> !a.isSpace(r[0])
    ensures |r| <= |s|
  {
    if s != [] && a.isSpace(s[0]) then LStrip(a, s[1..]) else s
  }

  function RStrip(a: Alphabet, s: string): string {
    if s != [] && a.isSpace(s[|s| - 1]) then RStrip(a, s[..|s| - 1]) else s
  }

  function Strip(a: Alphabet, s: string): string {
    RStrip(a, LStrip(a, s))
  }

  function Indent(a: Alphabet, line: string): string {
    line[..|line| - |LStrip(a, line)|]
  }

  lemma {:induction false} IndentAndRest(a: Alphabet, line: string)
    ensures Indent(a, line) + LStrip(a, line) == line
    ensures forall i :: 0 <= i < |Indent(a, line)| ==> a.isSpace(Indent(a, line)[i])
    ensures LStrip(a, LStrip(a, line)) == LStrip(a, line)
  {
    if line != [] && a.isSpace(line[0]) {
      IndentAndRest(a, line[1..]);
      assert line == [line[0]] + line[1..];
      assert Indent(a, line) == [line[0]] + Indent(a, line[1..]);
    }
  }

  predicate Spaces(a: Alphabet, s: string) {
    forall i :: 0 <= i < |s| ==> a.isSpace(s[i])
  }

  /** `core` neither begins nor ends with a space. */
  predicate Trimmed(a: Alphabet, core: string) {
    core != [] ==> !a.isSpace(core[0]) && !a.isSpace(core[|core| - 1])
  }

  lemma {:induction false} LStripRemoves(a: Alphabet, pre: string, rest: string)
    requires Spaces(a, pre) && (rest != [] ==> !a.isSpace(rest[0]))
    ensures LStrip(a, pre + rest) == rest
  {
    if pre != [] {
      LStripRemoves(a, pre[1..], rest);
      assert (pre + rest)[1..] == pre[1..] + rest;
    } else {
      assert pre + rest == rest;
    }
  }

  lemma {:induction false} RStripRemoves(a: Alphabet, rest: string, post: string)
    requires Spaces(a, post) && (rest != [] ==> !a.isSpace(rest[|rest| - 1]))
    ensures RStrip(a, rest + post) == rest
  {
    if post != [] {
      var k := |post| - 1;
      RStripRemoves(a, rest, post[..k]);
      assert (rest + post)[..|rest + post| - 1] == rest + post[..k];
    } else {
      assert rest + post == rest;
    }
  }

  /** Stripping removes exactly the spaces at both ends. */
  lemma StripRemoves(a: Alphabet, pre: string, core: string, post: string)
    requires Spaces(a, pre) && Spaces(a, post) && Trimmed(a, core)
    ensures Strip(a, pre + core + post) == core
  {
    if core == [] {
      assert pre + core + post == pre + post + [];
      LStripRemoves(a, pre + post, []);
    } else {
      assert pre + core + post == pre + (core + post);
      LStripRemoves(a, pre, core + post);
      RStripRemoves(a, core, post);
    }
  }

  lemma {:induction false} RStripSplits(a: Alphabet, s: string) returns (post: string)
    ensures s == RStrip(a, s) + post && Spaces(a, post)
    ensures RStrip(a, s) != [] ==> !a.isSpace(RStrip(a, s)[|RStrip(a, s)| - 1])
  {
    post := [];
    if s != [] && a.isSpace(s[|s| - 1]) {
      var k := |s| - 1;
      post := RStripSplits(a, s[..k]);
      assert s == s[..k] + [s[k]];
      post := post + [s[k]];
    }
  }

  /** Every line is its stripped text between spaces. */
  lemma StripSplits(a: Alphabet, line: string) returns (pre: string, post: string)
    ensures line == pre + Strip(a, line) + post
    ensures Spaces(a, pre) && Spaces(a, post) && Trimmed(a, Strip(a, line))
  {
    IndentAndRest(a, line);
    pre := Indent(a, line);
    post := RStripSplits(a, LStrip(a, line));
    AppendAssociates(pre, Strip(a, line), post);
    assert Strip(a, line) != [] ==> Strip(a, line)[0] == LStrip(a, line)[0];
  }

  // ---------------------------------------------------------------------------
  // Which lines are translated
  // ---------------------------------------------------------------------------

  predicate IsFence(a: Alphabet, line: string) {
    "```" <= Strip(a, line)
  }

  predicate IsLineTranslatableContent(a: Alphabet, line: string) {
    var stripped := Strip(a, line);
    && (exists i :: 0 <= i < |stripped| && a.isAlpha(stripped[i]))
    && !(stripped[0] == '<' && stripped[|stripped| - 1] == '>')
  }

  /** Is line `i` inside a fenced block, that is, after an odd number of fences? */
  predicate Fenced(a: Alphabet, lines: seq<string>, i: nat)
    requires i <= |lines|
  {
    if i == 0 then false else Fenced(a, lines, i - 1) != IsFence(a, lines[i - 1])
  }

  predicate IsExtracted(a: Alphabet, lines: seq<string>, i: nat)
    requires i < |lines|
  {
    !IsFence(a, lines[i]) && !Fenced(a, lines, i) && IsLineTranslatableContent(a, lines[i])
  }

  /** The lines that are fences. */
  function Fences(a: Alphabet, lines: seq<string>): nat -> bool {
    (k: nat) => k < |lines| && IsFence(a, lines[k])
  }

  lemma {:induction false} FencedIsOdd(a: Alphabet, lines: seq<string>, i: nat)
    requires i <= |lines|
    ensures Fenced(a, lines, i) <==> |Below(Fences(a, lines), i)| % 2 == 1
  {
    if i == 0 {
      assert Below(Fences(a, lines), 0) == {};
    } else {
      FencedIsOdd(a, lines, i - 1);
      BelowStep(Fences(a, lines), i - 1);
    }
  }

  /** The text of a line is worth translating: it has a letter and is no tag. */
  predicate WorthTranslating(a: Alphabet, core: string) {
    && (exists i :: 0 <= i < |core| && a.isAlpha(core[i]))
    && !("<" <= core && core[|core| - 1] == '>')
  }

  /** A line is taken out exactly if what it holds between its spaces is no fence, an even number of fences precedes it,
      and the text is worth translating. */
  lemma ExtractedIff(a: Alphabet, lines: seq<string>, i: nat, pre: string, core: string, post: string)
    requires i < |lines| && lines[i] == pre + core + post
    requires Spaces(a, pre) && Spaces(a, post) && Trimmed(a, core)
    ensures IsFence(a, lines[i]) <==> "```" <= core
    ensures (IsExtracted(a, lines, i)
             <==> !("```" <= core) && |Below(Fences(a, lines), i)| % 2 == 0 && WorthTranslating(a, core))
  {
    StripRemoves(a, pre, core, post);
    FencedIsOdd(a, lines, i);
  }

  /** The number of extracted lines before line `i`. */
  function Rank(a: Alphabet, lines: seq<string>, i: nat): nat
    requires i <= |lines|
  {
    if i == 0 then 0 else Rank(a, lines, i - 1) + if IsExtracted(a, lines, i - 1) then 1 else 0
  }

  /** The extracted text of the first `i` lines, without indentation. */
  function Sources(a: Alphabet, lines: seq<string>, i: nat): (r: seq<string>)
    requires i <= |lines|
    ensures |r| == Rank(a, lines, i)
  {
    if i == 0 then []
    else Sources(a, lines, i - 1) + if IsExtracted(a, lines, i - 1) then [LStrip(a, lines[i - 1])] else []
  }

  /** Where the extracted lines among the first `i` stand. */
  function Positions(a: Alphabet, lines: seq<string>, i: nat): (r: seq<nat>)
    requires i <= |lines|
    ensures |r| == Rank(a, lines, i)
    ensures forall j :: 0 <= j < |r| ==> r[j] < i
  {
    if i == 0 then []
    else Positions(a, lines, i - 1) + if IsExtracted(a, lines, i - 1) then [i - 1] else []
  }

  /** Ranks number the extracted lines: the `Rank(i)`-th one is `i`. */
  lemma {:induction false} RankedAt(a: Alphabet, lines: seq<string>, n: nat, i: nat)
    requires i < n <= |lines| && IsExtracted(a, lines, i)
    ensures Rank(a, lines, i) < Rank(a, lines, n)
    ensures Positions(a, lines, n)[Rank(a, lines, i)] == i
    ensures Sources(a, lines, n)[Rank(a, lines, i)] == LStrip(a, lines[i])
  {
    if i < n - 1 {
      RankedAt(a, lines, n - 1, i);
    }
  }

  /** Every rank belongs to an extracted line. */
  lemma {:induction false} PositionAt(a: Alphabet, lines: seq<string>, n: nat, j: nat)
    requires n <= |lines| && j < Rank(a, lines, n)
    ensures var i := Positions(a, lines, n)[j];
            IsExtracted(a, lines, i) && Rank(a, lines, i) == j && Sources(a, lines, n)[j] == LStrip(a, lines[i])
  {
    if j < Rank(a, lines, n - 1) {
      PositionAt(a, lines, n - 1, j);
    }
  }

  // ---------------------------------------------------------------------------
  // Taking one document apart
  // ---------------------------------------------------------------------------

  /** What is remembered of one document; a `None` in the template is a placeholder. */
  datatype DocParts = DocParts(template: seq<Option<string>>, indices: seq<nat>, indents: seq<string>, sources: seq<string>)

  /** Every extracted line has left a placeholder; the others are kept. */
  ghost predicate TemplateOf(a: Alphabet, lines: seq<string>, n: nat, template: seq<Option<string>>)
    requires n <= |lines|
  {
    |template| == n &&
    forall i :: 0 <= i < n ==> template[i] == (if IsExtracted(a, lines, i) then None else Some(lines[i]))
  }

  /** The indentation of every extracted line. */
  ghost predicate IndentsOf(a: Alphabet, lines: seq<string>, n: nat, indents: seq<string>)
    requires n <= |lines|
  {
    |indents| == |Positions(a, lines, n)| &&
    forall j :: 0 <= j < |indents| ==> indents[j] == Indent(a, lines[Positions(a, lines, n)[j]])
  }

  /** The first `n` lines have been taken apart; every entry of the parallel lists belongs to one placeholder. */
  ghost predicate TakenApart(a: Alphabet, lines: seq<string>, n: nat, p: DocParts)
    requires n <= |lines|
  {
    && TemplateOf(a, lines, n, p.template) && IndentsOf(a, lines, n, p.indents)
    && p.indices == Positions(a, lines, n) && p.sources == Sources(a, lines, n)
  }

  lemma TemplateStep(a: Alphabet, lines: seq<string>, n: nat, template: seq<Option<string>>)
    requires n < |lines| && TemplateOf(a, lines, n, template)
    ensures TemplateOf(a, lines, n + 1, template + [if IsExtracted(a, lines, n) then None else Some(lines[n])])
  {
  }

  lemma IndentsStep(a: Alphabet, lines: seq<string>, n: nat, indents: seq<string>)
    requires n < |lines| && IndentsOf(a, lines, n, indents)
    ensures IndentsOf(a, lines, n + 1, indents + (if IsExtracted(a, lines, n) then [Indent(a, lines[n])] else []))
  {
    var before, after := Positions(a, lines, n), Positions(a, lines, n + 1);
    assert after == before + (if IsExtracted(a, lines, n) then [n] else []);
  }

  lemma KeepLine(a: Alphabet, lines: seq<string>, n: nat, p: DocParts)
    requires n < |lines| && TakenApart(a, lines, n, p) && !IsExtracted(a, lines, n)
    ensures TakenApart(a, lines, n + 1, p.(template := p.template + [Some(lines[n])]))
  {
    TemplateStep(a, lines, n, p.template);
    IndentsStep(a, lines, n, p.indents);
    assert p.indents + [] == p.indents;
    assert p.indices + [] == p.indices && p.sources + [] == p.sources;
  }

  lemma TakeLine(a: Alphabet, lines: seq<string>, n: nat, p: DocParts)
    requires n < |lines| && TakenApart(a, lines, n, p) && IsExtracted(a, lines, n)
    ensures TakenApart(a, lines, n + 1, DocParts(p.template + [None], p.indices + [n],
                                                 p.indents + [Indent(a, lines[n])], p.sources + [LStrip(a, lines[n])]))
  {
    TemplateStep(a, lines, n, p.template);
    IndentsStep(a, lines, n, p.indents);
  }

  /** One turn of the loop over the lines. */
  method TakeNextLine(a: Alphabet, lines: seq<string>, i: nat, inCodeBlock: bool, p: DocParts) returns (q: DocParts, inside: bool)
    requires i < |lines| && TakenApart(a, lines, i, p) && inCodeBlock == Fenced(a, lines, i)
    ensures TakenApart(a, lines, i + 1, q) && inside == Fenced(a, lines, i + 1)
  {
    var line := lines[i];
    if IsFence(a, line) {
      KeepLine(a, lines, i, p);
      return p.(template := p.template + [Some(line)]), !inCodeBlock;
    }
    if inCodeBlock || !IsLineTranslatableContent(a, line) {
      KeepLine(a, lines, i, p);
      return p.(template := p.template + [Some(line)]), inCodeBlock;
    }
    TakeLine(a, lines, i, p);
    var stripped := LStrip(a, line);
    q := DocParts(p.template + [None], p.indices + [i], p.indents + [line[..|line| - |stripped|]], p.sources + [stripped]);
    inside := inCodeBlock;
  }

  method TakeApart(a: Alphabet, doc: string) returns (p: DocParts)
    ensures TakenApart(a, SplitLines(doc), |SplitLines(doc)|, p)
  {
    var lines := SplitLines(doc);
    var inCodeBlock := false;
    p := DocParts([], [], [], []);
    for i := 0 to |lines|
      invariant inCodeBlock == Fenced(a, lines, i)
      invariant TakenApart(a, lines, i, p)
    {
      p, inCodeBlock := TakeNextLine(a, lines, i, inCodeBlock, p);
    }
  }

  // ---------------------------------------------------------------------------
  // Unwrapping a response
  // ---------------------------------------------------------------------------

  /** The last position of `c`, or -1. */
  function RFind(s: string, c: char): (r: int)
    ensures -1 <= r < |s|
  {
    if s == [] then -1 else if s[|s| - 1] == c then |s| - 1 else RFind(s[..|s| - 1], c)
  }

  lemma {:induction false} RFindFinds(s: string, c: char)
    ensures RFind(s, c) >= 0 <==> c in s
    ensures RFind(s, c) >= 0 ==> s[RFind(s, c)] == c
    ensures forall k :: RFind(s, c) < k < |s| ==> s[k] != c
  {
    if s != [] && s[|s| - 1] != c {
      RFindFinds(s[..|s| - 1], c);
      assert s == s[..|s| - 1] + [s[|s| - 1]];
    }
  }

  function UnwrapTranslationResults(text: string): (r: string)
    ensures |r| <= |text|
  {
    var left, right := RFind(text, OPEN), RFind(text, CLOSE);
    if left != -1 && right != -1 && left < right then text[left + 1..right]
    else if left != -1 then text[left + 1..]
    else text
  }

  /** `r` is what a response stands for: the text after its last opening mark, up to the last closing mark if that
      comes later; all of it without an opening mark. */
  ghost predicate Unwraps(text: string, r: string) {
    || (OPEN !in text && r == text)
    || (exists pre: string :: text == pre + [OPEN] + r && OPEN !in r && CLOSE !in r)
    || (exists pre: string, post: string ::
          text == pre + [OPEN] + r + [CLOSE] + post && OPEN !in r && OPEN !in post && CLOSE !in post)
  }

  lemma {:induction false} RFindAt(xs: string, c: char, ys: string)
    requires c !in ys
    ensures RFind(xs + [c] + ys, c) == |xs|
  {
    if ys == [] {
      assert xs + [c] + ys == xs + [c];
    } else {
      var k := |ys| - 1;
      RFindAt(xs, c, ys[..k]);
      assert (xs + [c] + ys)[..|xs| + 1 + k] == xs + [c] + ys[..k];
      assert ys[k] in ys;
    }
  }

  lemma RFindSplits(s: string, c: char) returns (xs: string, ys: string)
    requires c in s
    ensures s == xs + [c] + ys && c !in ys && |xs| == RFind(s, c)
  {
    RFindFinds(s, c);
    xs, ys := s[..RFind(s, c)], s[RFind(s, c) + 1..];
  }

  lemma UnwrapsWrapped(pre: string, body: string, post: string)
    requires OPEN !in body && OPEN !in post && CLOSE !in post
    ensures UnwrapTranslationResults(pre + [OPEN] + body + [CLOSE] + post) == body
  {
    var text := pre + [OPEN] + body + [CLOSE] + post;
    RFindAt(pre, OPEN, body + [CLOSE] + post);
    RFindAt(pre + [OPEN] + body, CLOSE, post);
    assert text == pre + [OPEN] + (body + [CLOSE] + post);
    assert text[|pre| + 1..|pre| + 1 + |body|] == body;
  }

  lemma UnwrapsUnclosed(pre: string, body: string)
    requires OPEN !in body && CLOSE !in body
    ensures UnwrapTranslationResults(pre + [OPEN] + body) == body
  {
    var text := pre + [OPEN] + body;
    RFindAt(pre, OPEN, body);
    RFindFinds(text, CLOSE);
    assert forall k :: |pre| < k < |text| ==> text[k] == body[k - |pre| - 1];
    assert text[|pre| + 1..] == body;
  }

  /** Every response has one of the three forms. */
  lemma UnwrapFinds(text: string)
    ensures Unwraps(text, UnwrapTranslationResults(text))
  {
    RFindFinds(text, OPEN);
    if OPEN in text {
      var pre, rest := RFindSplits(text, OPEN);
      if CLOSE in rest {
        var body, post := RFindSplits(rest, CLOSE);
        assert text == pre + [OPEN] + body + [CLOSE] + post;
        UnwrapsWrapped(pre, body, post);
      } else {
        UnwrapsUnclosed(pre, rest);
      }
    }
  }

  /** Unwrapping gives exactly what the response stands for, whatever surrounds it. */
  lemma UnwrapsIff(text: string, r: string)
    ensures UnwrapTranslationResults(text) == r <==> Unwraps(text, r)
  {
    UnwrapFinds(text);
    if Unwraps(text, r) {
      if OPEN !in text {
        RFindFinds(text, OPEN);
      } else if pre: string :| text == pre + [OPEN] + r && OPEN !in r && CLOSE !in r {
        UnwrapsUnclosed(pre, r);
      } else {
        var pre: string, post: string :| text == pre + [OPEN] + r + [CLOSE] + post && OPEN !in r && OPEN !in post && CLOSE !in post;
        UnwrapsWrapped(pre, r, post);
      }
    }
  }

  /** The two answers that leave a source line as it is. */
  predicate Echoes(response: string, source: string) {
    response == source || response == [OPEN] + source + [CLOSE]
  }

  /** An echo unwraps to its source exactly when the source has no opening mark of its own; otherwise text is lost. */
  lemma EchoUnwraps(a: Alphabet, source: string, response: string)
    requires Echoes(response, source) && LStrip(a, source) == source
    ensures |LStrip(a, UnwrapTranslationResults(response))| <= |source|
    ensures OPEN !in source ==> LStrip(a, UnwrapTranslationResults(response)) == source
    ensures OPEN in source ==> |LStrip(a, UnwrapTranslationResults(response))| < |source|
  {
    RFindFinds(response, OPEN);
    RFindFinds(response, CLOSE);
    var left := RFind(response, OPEN);
    if response != source {
      assert response[|source| + 1] == CLOSE;
      assert forall k :: 0 <= k < |source| ==> response[k + 1] == source[k];
      if OPEN in source {
        var k :| 0 <= k < |source| && source[k] == OPEN;
        assert response[k + 1] == OPEN;
      } else {
        assert response[0] == OPEN;
        assert response[1..|source| + 1] == source;
      }
    }
  }

  // ---------------------------------------------------------------------------
  // Putting one document back together
  // ---------------------------------------------------------------------------

  /** The reassembled line `i`, given one response for each extracted line. */
  function Rebuilt(a: Alphabet, lines: seq<string>, responses: seq<string>, i: nat): string
    requires i < |lines| && |responses| == Rank(a, lines, |lines|)
  {
    if IsExtracted(a, lines, i) then
      RankedAt(a, lines, |lines|, i);
      Indent(a, lines[i]) + LStrip(a, UnwrapTranslationResults(responses[Rank(a, lines, i)]))
    else lines[i]
  }

  function RebuiltLines(a: Alphabet, lines: seq<string>, responses: seq<string>): (r: seq<string>)
    requires |responses| == Rank(a, lines, |lines|)
    ensures |r| == |lines|
    ensures forall i :: 0 <= i < |lines| ==> r[i] == Rebuilt(a, lines, responses, i)
  {
    seq(|lines|, i requires 0 <= i < |lines| => Rebuilt(a, lines, responses, i))
  }

  /** The values of a template without placeholders. */
  function Values(template: seq<Option<string>>): (r: seq<string>)
    requires forall i :: 0 <= i < |template| ==> template[i].Some?
    ensures |r| == |template| && forall i :: 0 <= i < |r| ==> r[i] == template[i].value
  {
    seq(|template|, i requires 0 <= i < |template| => template[i].value)
  }

  /** The first `j` placeholders have been filled, and nothing else has changed. */
  ghost predicate Filled(a: Alphabet, lines: seq<string>, responses: seq<string>, template: seq<Option<string>>, j: nat)
    requires |responses| == Rank(a, lines, |lines|)
  {
    && |template| == |lines|
    && (forall i :: 0 <= i < |lines| ==>
          template[i] == (if IsExtracted(a, lines, i) && Rank(a, lines, i) >= j then None
                          else Some(Rebuilt(a, lines, responses, i))))
  }

  lemma FillOne(a: Alphabet, lines: seq<string>, p: DocParts, responses: seq<string>, template: seq<Option<string>>, j: nat)
    requires TakenApart(a, lines, |lines|, p) && |responses| == |p.sources|
    requires j < |p.sources| && Filled(a, lines, responses, template, j)
    ensures template[p.indices[j]] == None
    ensures Filled(a, lines, responses,
                   template[p.indices[j] := Some(p.indents[j] + LStrip(a, UnwrapTranslationResults(responses[j])))], j + 1)
  {
    PositionAt(a, lines, |lines|, j);
    var t := template[p.indices[j] := Some(p.indents[j] + LStrip(a, UnwrapTranslationResults(responses[j])))];
    forall i | 0 <= i < |lines|
      ensures t[i] == (if IsExtracted(a, lines, i) && Rank(a, lines, i) >= j + 1 then None
                       else Some(Rebuilt(a, lines, responses, i)))
    {
      if IsExtracted(a, lines, i) {
        RankedAt(a, lines, |lines|, i);
      }
    }
  }

  lemma AllFilled(a: Alphabet, lines: seq<string>, responses: seq<string>, template: seq<Option<string>>)
    requires |responses| == Rank(a, lines, |lines|) && Filled(a, lines, responses, template, |responses|)
    ensures forall i :: 0 <= i < |template| ==> template[i].Some?
    ensures Values(template) == RebuiltLines(a, lines, responses)
  {
    forall i | 0 <= i < |lines|
      ensures template[i] == Some(Rebuilt(a, lines, responses, i))
    {
      if IsExtracted(a, lines, i) {
        RankedAt(a, lines, |lines|, i);
      }
    }
  }

  lemma NoneFilled(a: Alphabet, lines: seq<string>, p: DocParts, responses: seq<string>)
    requires TakenApart(a, lines, |lines|, p) && |responses| == |p.sources|
    ensures Filled(a, lines, responses, p.template, 0)
  {
  }

  method PutTogether(a: Alphabet, ghost lines: seq<string>, p: DocParts, responses: seq<string>) returns (doc: string)
    requires TakenApart(a, lines, |lines|, p) && |responses| == |p.sources|
    ensures doc == JoinLines(RebuiltLines(a, lines, responses))
  {
    var template := p.template;
    NoneFilled(a, lines, p, responses);
    for j := 0 to |p.sources|
      invariant Filled(a, lines, responses, template, j)
    {
      FillOne(a, lines, p, responses, template, j);
      var segment := LStrip(a, UnwrapTranslationResults(responses[j]));
      template := template[p.indices[j] := Some(p.indents[j] + segment)];
    }
    AllFilled(a, lines, responses, template);
    doc := JoinLines(Values(template));
  }

  // ---------------------------------------------------------------------------
  // Many documents in one flat list
  // ---------------------------------------------------------------------------

  function Count(a: Alphabet, doc: string): nat {
    Rank(a, SplitLines(doc), |SplitLines(doc)|)
  }

  function Extracted(a: Alphabet, doc: string): (r: seq<string>)
    ensures |r| == Count(a, doc)
  {
    Sources(a, SplitLines(doc), |SplitLines(doc)|)
  }

  function RebuiltDoc(a: Alphabet, doc: string, responses: seq<string>): string
    requires |responses| == Count(a, doc)
  {
    JoinLines(RebuiltLines(a, SplitLines(doc), responses))
  }

  /** The extracted lines of every document. */
  function ExtractedAll(a: Alphabet, texts: seq<string>): (r: seq<seq<string>>)
    ensures |r| == |texts|
  {
    seq(|texts|, d requires 0 <= d < |texts| => Extracted(a, texts[d]))
  }

  /** Document `d` rebuilt from its own stretch of the responses. */
  function RebuiltAt(a: Alphabet, texts: seq<string>, responses: seq<string>, d: nat): string
    requires d < |texts| && |responses| == |Flatten(ExtractedAll(a, texts))|
  {
    RebuiltDoc(a, texts[d], Stretch(ExtractedAll(a, texts), responses, d))
  }

  function RebuiltTexts(a: Alphabet, texts: seq<string>, responses: seq<string>): (r: seq<string>)
    requires |responses| == |Flatten(ExtractedAll(a, texts))|
    ensures |r| == |texts|
  {
    seq(|texts|, d requires 0 <= d < |texts| => RebuiltAt(a, texts, responses, d))
  }

  function AllSources(docs: seq<DocParts>): (r: seq<seq<string>>)
    ensures |r| == |docs| && forall d :: 0 <= d < |r| ==> r[d] == docs[d].sources
  {
    seq(|docs|, d requires 0 <= d < |docs| => docs[d].sources)
  }

  /** The documents have been taken apart, one by one. */
  ghost predicate AllTakenApart(a: Alphabet, texts: seq<string>, docs: seq<DocParts>)
    requires |docs| <= |texts|
  {
    forall d :: 0 <= d < |docs| ==> TakenApart(a, SplitLines(texts[d]), |SplitLines(texts[d])|, docs[d])
  }

  lemma AllExtracted(a: Alphabet, texts: seq<string>, docs: seq<DocParts>)
    requires |docs| == |texts| && AllTakenApart(a, texts, docs)
    ensures AllSources(docs) == ExtractedAll(a, texts)
  {
    forall d | 0 <= d < |docs|
      ensures AllSources(docs)[d] == ExtractedAll(a, texts)[d]
    {
      assert TakenApart(a, SplitLines(texts[d]), |SplitLines(texts[d])|, docs[d]);
    }
  }

  /** The boundaries mark where each document's lines begin and end in the flat list. */
  ghost predicate Tiled(boundaries: seq<nat>, sources: seq<seq<string>>) {
    |boundaries| == |sources| + 1 && forall d :: 0 <= d <= |sources| ==> boundaries[d] == Offset(sources, d)
  }

  lemma TileOneMore(boundaries: seq<nat>, flat: seq<string>, sources: seq<seq<string>>, more: seq<string>)
    requires Tiled(boundaries, sources) && flat == Flatten(sources)
    ensures flat + more == Flatten(sources + [more])
    ensures Tiled(boundaries + [|flat + more|], sources + [more])
  {
    var all := sources + [more];
    assert all[..|sources|] == sources;
    FlattenLength(all);
    forall d | 0 <= d <= |sources|
      ensures Offset(all, d) == Offset(sources, d)
    {
      OffsetOfPrefix(all, |sources|, d);
    }
  }

  /** The first documents have been preprocessed. */
  ghost predicate Prepared(a: Alphabet, texts: seq<string>, lines: seq<string>, boundaries: seq<nat>, docs: seq<DocParts>) {
    && |docs| <= |texts| && AllTakenApart(a, texts, docs)
    && lines == Flatten(AllSources(docs)) && Tiled(boundaries, AllSources(docs))
  }

  lemma PrepareOneMore(a: Alphabet, texts: seq<string>, lines: seq<string>, boundaries: seq<nat>, docs: seq<DocParts>, p: DocParts)
    requires |docs| < |texts| && Prepared(a, texts, lines, boundaries, docs)
    requires TakenApart(a, SplitLines(texts[|docs|]), |SplitLines(texts[|docs|])|, p)
    ensures Prepared(a, texts, lines + p.sources, boundaries + [|lines + p.sources|], docs + [p])
  {
    TileOneMore(boundaries, lines, AllSources(docs), p.sources);
    assert AllSources(docs + [p]) == AllSources(docs) + [p.sources];
    forall d | 0 <= d < |docs + [p]|
      ensures TakenApart(a, SplitLines(texts[d]), |SplitLines(texts[d])|, (docs + [p])[d])
    {
      assert d < |docs| ==> TakenApart(a, SplitLines(texts[d]), |SplitLines(texts[d])|, docs[d]);
    }
  }

  function Lengths(data: seq<seq<string>>): (r: seq<nat>)
    ensures |r| == |data| && forall i :: 0 <= i < |r| ==> r[i] == |data[i]|
  {
    seq(|data|, i requires 0 <= i < |data| => |data[i]|)
  }

  function Sum(ns: seq<nat>): nat {
    if ns == [] then 0 else Sum(ns[..|ns| - 1]) + ns[|ns| - 1]
  }

  lemma {:induction false} LengthOfAll(data: seq<seq<string>>)
    ensures Sum(Lengths(data)) == |Flatten(data)|
  {
    if data != [] {
      LengthOfAll(data[..|data| - 1]);
      assert Lengths(data)[..|data| - 1] == Lengths(data[..|data| - 1]);
    }
  }

  /** Data point `i` got exactly its own documents, in order. */
  ghost predicate OwnDocuments(data: seq<seq<string>>, rebuilt: seq<string>, output: seq<seq<string>>, n: nat)
    requires n <= |data| && |rebuilt| == |Flatten(data)|
  {
    |output| == n && forall i :: 0 <= i < n ==> output[i] == Stretch(data, rebuilt, i)
  }

  /** The task object; its fields are what `preprocess_data` stores for `postprocess`. */
  class TranslationTask {
    const alphabet: Alphabet
    var docsPerDataPoint: seq<nat>
    var docBoundaries: seq<nat>
    var docs: seq<DocParts>

    constructor (alphabet: Alphabet)
      ensures this.alphabet == alphabet
    {
      this.alphabet := alphabet;
      docsPerDataPoint, docBoundaries, docs := [], [0], [];
    }

    /** The stored fields describe these data points. */
    ghost predicate Describes(data: seq<seq<string>>)
      reads this
    {
      && docsPerDataPoint == Lengths(data)
      && |docs| == |Flatten(data)|
      && AllTakenApart(alphabet, Flatten(data), docs)
      && Tiled(docBoundaries, AllSources(docs))
    }

    /** The flat list of lines to translate; the position of a line in it is its row in the output file. */
    method PreprocessData(data: seq<seq<string>>) returns (lines: seq<string>)
      modifies this
      ensures Describes(data)
      ensures lines == Flatten(ExtractedAll(alphabet, Flatten(data)))
    {
      docsPerDataPoint := Lengths(data);
      var texts := Flatten(data);
      lines, docBoundaries, docs := [], [0], [];
      for d := 0 to |texts|
        invariant docsPerDataPoint == Lengths(data)
        invariant |docs| == d && Prepared(alphabet, texts, lines, docBoundaries, docs)
      {
        var parts := TakeApart(alphabet, texts[d]);
        PrepareOneMore(alphabet, texts, lines, docBoundaries, docs, parts);
        lines := lines + parts.sources;
        docs := docs + [parts];
        docBoundaries := docBoundaries + [|lines|];
      }
      AllExtracted(alphabet, texts, docs);
    }

    method ReassembleOne(ghost texts: seq<string>, responses: seq<string>, d: nat) returns (doc: string)
      requires |docs| == |texts| && AllTakenApart(alphabet, texts, docs)
      requires AllSources(docs) == ExtractedAll(alphabet, texts) && Tiled(docBoundaries, AllSources(docs))
      requires d < |docs| && |responses| == |Flatten(ExtractedAll(alphabet, texts))|
      ensures doc == RebuiltAt(alphabet, texts, responses, d)
    {
      FlattenAt(AllSources(docs), d);
      var own := responses[docBoundaries[d]..docBoundaries[d + 1]];
      assert own == Stretch(AllSources(docs), responses, d);
      doc := PutTogether(alphabet, SplitLines(texts[d]), docs[d], own);
    }

    /** Document by document from the responses in row order. */
    method Reassemble(ghost data: seq<seq<string>>, responses: seq<string>) returns (rebuilt: seq<string>)
      requires Describes(data)
      requires |responses| == |Flatten(ExtractedAll(alphabet, Flatten(data)))|
      ensures rebuilt == RebuiltTexts(alphabet, Flatten(data), responses)
    {
      ghost var texts := Flatten(data);
      AllExtracted(alphabet, texts, docs);
      ghost var all := RebuiltTexts(alphabet, texts, responses);
      rebuilt := [];
      for d := 0 to |docs|
        invariant |rebuilt| == d && rebuilt <= all
      {
        PrefixOneMore(rebuilt, all);
        var doc := ReassembleOne(texts, responses, d);
        assert all[d] == doc;
        rebuilt := rebuilt + [doc];
      }
    }

    /** Hand the documents out to the data points in order. */
    method Regroup(ghost data: seq<seq<string>>, rebuilt: seq<string>) returns (output: seq<seq<string>>)
      requires docsPerDataPoint == Lengths(data) && |rebuilt| == |Flatten(data)|
      ensures OwnDocuments(data, rebuilt, output, |data|)
    {
      output := [];
      var idx := 0;
      for i := 0 to |docsPerDataPoint|
        invariant idx == Offset(data, i)
        invariant OwnDocuments(data, rebuilt, output, i)
      {
        FlattenAt(data, i);
        var translated: seq<string> := [];
        for j := 0 to docsPerDataPoint[i]
          invariant idx == Offset(data, i) + j && translated == rebuilt[Offset(data, i)..idx]
        {
          translated := translated + [rebuilt[idx]];
          idx := idx + 1;
        }
        output := output + [translated];
      }
    }

    /** The rebuilt documents of every data point, or `None` where the counts disagree. */
    method Postprocess(ghost data: seq<seq<string>>, responses: seq<string>) returns (r: Option<seq<seq<string>>>)
      requires Describes(data)
      requires |responses| == |Flatten(ExtractedAll(alphabet, Flatten(data)))|
      ensures r.Some? && Translated(alphabet, data, responses, r.value)
    {
      var rebuilt := Reassemble(data, responses);
      LengthOfAll(data);
      if |rebuilt| != Sum(docsPerDataPoint) {
        return None;
      }
      var output := Regroup(data, rebuilt);
      r := Some(output);
    }
  }

  /** The output is every data point's own documents, each rebuilt from its own responses. */
  ghost predicate Translated(a: Alphabet, data: seq<seq<string>>, responses: seq<string>, output: seq<seq<string>>)
    requires |responses| == |Flatten(ExtractedAll(a, Flatten(data)))|
  {
    OwnDocuments(data, RebuiltTexts(a, Flatten(data), responses), output, |data|)
  }

  /** Document `j` of data point `i` is found again in the same place. */
  lemma OwnDocumentAt(data: seq<seq<string>>, rebuilt: seq<string>, output: seq<seq<string>>, i: nat, j: nat)
    requires |rebuilt| == |Flatten(data)| && OwnDocuments(data, rebuilt, output, |data|)
    requires i < |data| && j < |data[i]|
    ensures |output[i]| == |data[i]| && Offset(data, i) + j < |rebuilt|
    ensures data[i][j] == Flatten(data)[Offset(data, i) + j]
    ensures output[i][j] == rebuilt[Offset(data, i) + j]
  {
    assert output[i] == Stretch(data, rebuilt, i);
    StretchAt(data, rebuilt, i, j);
  }

  /** Handing out by counts loses and mixes up nothing. */
  lemma OwnDocumentsFaithful(data: seq<seq<string>>, rebuilt: seq<string>, output: seq<seq<string>>)
    requires |rebuilt| == |Flatten(data)| && OwnDocuments(data, rebuilt, output, |data|)
    ensures output == data <==> rebuilt == Flatten(data)
  {
    if rebuilt == Flatten(data) {
      forall i | 0 <= i < |data|
        ensures output[i] == data[i]
      {
        assert output[i] == Stretch(data, rebuilt, i);
        FlattenAt(data, i);
      }
    } else {
      var d :| 0 <= d < |rebuilt| && rebuilt[d] != Flatten(data)[d];
      var i, j := FlattenOwner(data, d);
      OwnDocumentAt(data, rebuilt, output, i, j);
    }
  }

  // ---------------------------------------------------------------------------
  // What reassembly promises
  // ---------------------------------------------------------------------------

  lemma {:induction false} SplitJoin(lines: seq<string>)
    requires |lines| >= 1 && forall i :: 0 <= i < |lines| ==> '\n' !in lines[i]
    ensures SplitLines(JoinLines(lines)) == lines
    decreases |lines|, |lines[0]|
  {
    if lines[0] != [] {
      var shorter := [lines[0][1..]] + lines[1..];
      SplitJoin(shorter);
      assert shorter[1..] == lines[1..];
      assert lines[0] == [lines[0][0]] + lines[0][1..];
      assert lines == [lines[0]] + lines[1..];
      assert JoinLines(lines) == [lines[0][0]] + JoinLines(shorter);
      assert JoinLines(lines)[1..] == JoinLines(shorter);
    } else if |lines| > 1 {
      SplitJoin(lines[1..]);
      assert JoinLines(lines)[1..] == JoinLines(lines[1..]);
    }
  }

  /** Whatever the responses say, as long as each is one line: the document keeps its lines, what was not extracted
      stays as it was, and what was extracted keeps its indentation, followed by its own response. */
  lemma StructureKept(a: Alphabet, doc: string, responses: seq<string>)
    requires |responses| == Count(a, doc)
    requires forall j :: 0 <= j < |responses| ==> '\n' !in responses[j]
    ensures var before, after := SplitLines(doc), SplitLines(RebuiltDoc(a, doc, responses));
            && |after| == |before|
            && (forall i :: 0 <= i < |before| && !IsExtracted(a, before, i) ==> after[i] == before[i])
            && (forall j :: 0 <= j < |responses| ==>
                  var i := Positions(a, before, |before|)[j];
                  after[i] == Indent(a, before[i]) + LStrip(a, UnwrapTranslationResults(responses[j])))
  {
    var lines := SplitLines(doc);
    var rebuilt := RebuiltLines(a, lines, responses);
    forall i | 0 <= i < |lines|
      ensures '\n' !in rebuilt[i]
    {
      if IsExtracted(a, lines, i) {
        RankedAt(a, lines, |lines|, i);
        LStripPart(a, UnwrapTranslationResults(responses[Rank(a, lines, i)]));
      }
    }
    SplitJoin(rebuilt);
    forall j | 0 <= j < |responses|
      ensures rebuilt[Positions(a, lines, |lines|)[j]]
           == Indent(a, lines[Positions(a, lines, |lines|)[j]]) + LStrip(a, UnwrapTranslationResults(responses[j]))
    {
      PositionAt(a, lines, |lines|, j);
    }
  }

  lemma {:induction false} LStripPart(a: Alphabet, s: string)
    ensures forall c: char :: c in LStrip(a, s) ==> c in s
  {
    if s != [] && a.isSpace(s[0]) {
      LStripPart(a, s[1..]);
    }
  }

  /** Lines that only got shorter make the same text exactly when they are the same lines. */
  lemma {:induction false} JoinShorter(xs: seq<string>, ys: seq<string>)
    requires |xs| == |ys| && forall i :: 0 <= i < |xs| ==> |xs[i]| <= |ys[i]|
    ensures |JoinLines(xs)| <= |JoinLines(ys)|
    ensures (exists i :: 0 <= i < |xs| && |xs[i]| < |ys[i]|) ==> |JoinLines(xs)| < |JoinLines(ys)|
  {
    if |xs| > 1 {
      JoinShorter(xs[1..], ys[1..]);
      if i :| 0 <= i < |xs| && |xs[i]| < |ys[i]| {
        if i > 0 {
          assert |xs[1..][i - 1]| < |ys[1..][i - 1]|;
        }
      }
    }
  }

  /** No opening mark in any of these texts. */
  predicate Unmarked(texts: seq<string>) {
    forall i :: 0 <= i < |texts| ==> OPEN !in texts[i]
  }

  /** Every response leaves its source line as it is, bare or wrapped. */
  predicate Echo(responses: seq<string>, sources: seq<string>) {
    |responses| == |sources| && forall j :: 0 <= j < |responses| ==> Echoes(responses[j], sources[j])
  }

  lemma EchoedLine(a: Alphabet, lines: seq<string>, responses: seq<string>, i: nat)
    requires i < |lines| && Echo(responses, Sources(a, lines, |lines|))
    ensures |Rebuilt(a, lines, responses, i)| <= |lines[i]|
    ensures IsExtracted(a, lines, i) && OPEN in LStrip(a, lines[i]) ==> |Rebuilt(a, lines, responses, i)| < |lines[i]|
    ensures !(IsExtracted(a, lines, i) && OPEN in LStrip(a, lines[i])) ==> Rebuilt(a, lines, responses, i) == lines[i]
  {
    if IsExtracted(a, lines, i) {
      RankedAt(a, lines, |lines|, i);
      IndentAndRest(a, lines[i]);
      EchoUnwraps(a, LStrip(a, lines[i]), responses[Rank(a, lines, i)]);
    }
  }

  lemma EchoedLines(a: Alphabet, lines: seq<string>, responses: seq<string>, rebuilt: seq<string>)
    requires Echo(responses, Sources(a, lines, |lines|)) && rebuilt == RebuiltLines(a, lines, responses)
    ensures forall i :: 0 <= i < |lines| ==> |rebuilt[i]| <= |lines[i]|
    ensures if Unmarked(Sources(a, lines, |lines|)) then rebuilt == lines
            else exists i :: 0 <= i < |lines| && |rebuilt[i]| < |lines[i]|
  {
    var sources := Sources(a, lines, |lines|);
    forall i | 0 <= i < |lines|
      ensures |rebuilt[i]| <= |lines[i]|
      ensures Unmarked(sources) ==> rebuilt[i] == lines[i]
    {
      EchoedLine(a, lines, responses, i);
      if IsExtracted(a, lines, i) {
        RankedAt(a, lines, |lines|, i);
      }
    }
    if j :| 0 <= j < |sources| && OPEN in sources[j] {
      PositionAt(a, lines, |lines|, j);
      var i := Positions(a, lines, |lines|)[j];
      EchoedLine(a, lines, responses, i);
      assert |rebuilt[i]| < |lines[i]|;
    }
  }

  /** An identity translation gives the document back exactly when no extracted line holds an opening mark. */
  lemma DocRoundTrip(a: Alphabet, doc: string, responses: seq<string>)
    requires Echo(responses, Extracted(a, doc))
    ensures RebuiltDoc(a, doc, responses) == doc <==> Unmarked(Extracted(a, doc))
  {
    var lines := SplitLines(doc);
    var rebuilt := RebuiltLines(a, lines, responses);
    EchoedLines(a, lines, responses, rebuilt);
    JoinShorter(rebuilt, lines);
    JoinSplit(doc);
  }

  lemma EchoAt(responses: seq<string>, sources: seq<seq<string>>, d: nat)
    requires Echo(responses, Flatten(sources)) && d < |sources|
    ensures Echo(Stretch(sources, responses, d), sources[d])
  {
    forall j | 0 <= j < |sources[d]|
      ensures Echoes(Stretch(sources, responses, d)[j], sources[d][j])
    {
      StretchAt(sources, responses, d, j);
      assert Echoes(responses[Offset(sources, d) + j], Flatten(sources)[Offset(sources, d) + j]);
    }
  }

  lemma EchoedDoc(a: Alphabet, texts: seq<string>, responses: seq<string>, d: nat)
    requires d < |texts| && Echo(responses, Flatten(ExtractedAll(a, texts)))
    ensures RebuiltAt(a, texts, responses, d) == texts[d] <==> Unmarked(ExtractedAll(a, texts)[d])
  {
    EchoAt(responses, ExtractedAll(a, texts), d);
    DocRoundTrip(a, texts[d], Stretch(ExtractedAll(a, texts), responses, d));
  }

  lemma UnmarkedFlat(sources: seq<seq<string>>)
    ensures Unmarked(Flatten(sources)) <==> forall d :: 0 <= d < |sources| ==> Unmarked(sources[d])
  {
    if Unmarked(Flatten(sources)) {
      forall d, j | 0 <= d < |sources| && 0 <= j < |sources[d]|
        ensures OPEN !in sources[d][j]
      {
        FlattenElement(sources, d, j);
      }
    } else {
      var i :| 0 <= i < |Flatten(sources)| && OPEN in Flatten(sources)[i];
      var d, j := FlattenOwner(sources, i);
      FlattenElement(sources, d, j);
    }
  }

  lemma TextsRoundTrip(a: Alphabet, texts: seq<string>, responses: seq<string>)
    requires Echo(responses, Flatten(ExtractedAll(a, texts)))
    ensures RebuiltTexts(a, texts, responses) == texts <==> Unmarked(Flatten(ExtractedAll(a, texts)))
  {
    var sources, rebuilt := ExtractedAll(a, texts), RebuiltTexts(a, texts, responses);
    UnmarkedFlat(sources);
    forall d | 0 <= d < |texts|
      ensures rebuilt[d] == texts[d] <==> Unmarked(sources[d])
    {
      EchoedDoc(a, texts, responses, d);
    }
  }

  /** An identity translation of all the data gives every data point its own documents back, character for character,
      exactly when no extracted line holds an opening mark. */
  lemma TranslationRoundTrip(a: Alphabet, data: seq<seq<string>>, responses: seq<string>, output: seq<seq<string>>)
    requires Echo(responses, Flatten(ExtractedAll(a, Flatten(data))))
    requires Translated(a, data, responses, output)
    ensures output == data <==> Unmarked(Flatten(ExtractedAll(a, Flatten(data))))
  {
    TextsRoundTrip(a, Flatten(data), responses);
    OwnDocumentsFaithful(data, RebuiltTexts(a, Flatten(data), responses), output);
  }
}
