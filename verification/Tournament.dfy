/**
  The knockout tournament (`KnockoutTournamentManager.run_tournament`).  Participants are their indices; how the
  random generator shuffles and what the judge answers are arbitrary functions.
*/
module Tournament {
  import opened Arithmetic
  import opened Sequences
  import opened Wrappers

  /** One judged game: the number between the tags if it parses, and the fallback the generator would choose. */
  datatype Game = Game(answer: Option<int>, choice: nat)

  datatype Environment = Environment(shuffle: (nat, seq<int>) -> seq<int>, judge: (nat, seq<int>) -> Game)

  datatype TournamentError = AssertionError | ValueError

  // ---------------------------------------------------------------------------
  // One game
  // ---------------------------------------------------------------------------

  /** The answer is one-based; Python also accepts negative indices. */
  function Winner(batch: seq<int>, g: Game): (w: int)
    requires batch != []
    ensures w in batch
    ensures forall k :: 0 <= k < |batch| && g.answer in {Some(k + 1), Some(k + 1 - |batch|)} ==> w == batch[k]
    ensures g.answer.None? || g.answer.value > |batch| || g.answer.value <= -|batch| ==> w == batch[g.choice % |batch|]
  {
    if g.answer.Some? && 0 <= g.answer.value - 1 < |batch| then batch[g.answer.value - 1]
    else if g.answer.Some? && -|batch| <= g.answer.value - 1 < 0 then batch[|batch| + g.answer.value - 1]
    else batch[g.choice % |batch|]
  }

  function Without(batch: seq<int>, w: int): seq<int> {
    if batch == [] then []
    else
      var k := |batch| - 1;
      Without(batch[..k], w) + if batch[k] == w then [] else [batch[k]]
  }

  method ExtractWinner(batch: seq<int>, g: Game) returns (winner: int, knockedOut: seq<int>)
    requires batch != []
    ensures winner == Winner(batch, g) && knockedOut == Without(batch, winner)
  {
    var parsed := false;
    winner := 0;
    if g.answer.Some? {
      var index := g.answer.value - 1;
      if -|batch| <= index < |batch| {
        winner := batch[if index < 0 then |batch| + index else index];
        parsed := true;
      }
    }
    if !parsed {
      winner := batch[g.choice % |batch|];
    }
    knockedOut := [];
    for i := 0 to |batch|
      invariant knockedOut == Without(batch[..i], winner)
    {
      assert batch[..i + 1][..i] == batch[..i];
      if batch[i] != winner {
        knockedOut := knockedOut + [batch[i]];
      }
    }
    assert batch[..|batch|] == batch;
  }

  // ---------------------------------------------------------------------------
  // One round
  // ---------------------------------------------------------------------------

  /** Participants not knocked out, in index order. */
  function Remaining(n: nat, knockedOut: seq<int>): seq<int> {
    if n == 0 then [] else Remaining(n - 1, knockedOut) + if n - 1 in knockedOut then [] else [n - 1]
  }

  predicate NonEmpty(bs: seq<seq<int>>) {
    forall i :: 0 <= i < |bs| ==> |bs[i]| > 0
  }

  /** Consecutive batches of `p`; the last one may be smaller. */
  function Batches(s: seq<int>, p: nat): (bs: seq<seq<int>>)
    requires 0 < p
    ensures NonEmpty(bs)
  {
    if s == [] then [] else if |s| <= p then [s] else [s[..p]] + Batches(s[p..], p)
  }

  /** The batches in which a game is played: those of two or more. */
  function Games(s: seq<int>, p: nat): (bs: seq<seq<int>>)
    requires 0 < p
    ensures NonEmpty(bs)
  {
    if |s| <= p then (if |s| >= 2 then [s] else [])
    else (if p >= 2 then [s[..p]] else []) + Games(s[p..], p)
  }

  /** What is left of `s` from position `i` on. */
  function From(s: seq<int>, i: nat): seq<int> {
    if i < |s| then s[i..] else []
  }

  lemma NextBatch(s: seq<int>, p: nat)
    requires 0 < p && s != []
    ensures var k := if p < |s| then p else |s|;
            Games(s, p) == (if k >= 2 then [s[..k]] else []) + Games(From(s, p), p)
  {
    if p >= |s| {
      assert s[..|s|] == s;
      assert Games([], p) == [];
    }
  }

  lemma NextBatchAt(bs: seq<seq<int>>, s: seq<int>, i: nat, p: nat)
    requires 0 < p && i < |s|
    ensures var batch := s[i..if i + p < |s| then i + p else |s|];
            bs + Games(From(s, i), p) == (if |batch| >= 2 then bs + [batch] else bs) + Games(From(s, i + p), p)
  {
    var rest := From(s, i);
    NextBatch(rest, p);
    SliceOfRest(s, i, p);
    AppendAssociates(bs, if |rest| >= 2 && p >= 2 then [rest[..if p < |rest| then p else |rest|]] else [], Games(From(rest, p), p));
  }

  lemma SliceOfRest(s: seq<int>, i: nat, p: nat)
    requires i < |s|
    ensures s[i..][..if p < |s| - i then p else |s| - i] == s[i..if i + p < |s| then i + p else |s|]
    ensures From(From(s, i), p) == From(s, i + p)
  {
  }

  method MakeBatches(s: seq<int>, p: nat) returns (bs: seq<seq<int>>)
    requires 0 < p
    ensures bs == Games(s, p)
  {
    bs := [];
    var i := 0;
    assert From(s, 0) == s;
    while i < |s|
      invariant bs + Games(From(s, i), p) == Games(s, p)
      decreases |s| - i
    {
      NextBatchAt(bs, s, i, p);
      var batch := s[i..if i + p < |s| then i + p else |s|];
      if |batch| >= 2 {
        bs := bs + [batch];
      }
      i := i + p;
    }
    assert Games([], p) == [];
  }

  /** Everybody but the winners of the games. */
  function Losers(bs: seq<seq<int>>, judge: seq<int> -> Game): seq<int>
    requires NonEmpty(bs)
  {
    if bs == [] then [] else Without(bs[0], Winner(bs[0], judge(bs[0]))) + Losers(bs[1..], judge)
  }

  /** The winners of the games and of the byes. */
  function Survivors(bs: seq<seq<int>>, judge: seq<int> -> Game): (r: seq<int>)
    requires NonEmpty(bs)
    ensures |r| == |bs|
  {
    if bs == [] then [] else [Winner(bs[0], judge(bs[0]))] + Survivors(bs[1..], judge)
  }

  function Joined(bs: seq<seq<int>>): seq<int> {
    if bs == [] then [] else bs[0] + Joined(bs[1..])
  }

  function Count(s: seq<int>, x: int): nat {
    multiset(s)[x]
  }

  /** No participant occurs twice. */
  ghost predicate Distinct(s: seq<int>) {
    forall x: int :: Count(s, x) <= 1
  }

  lemma CountAppend(a: seq<int>, b: seq<int>, x: int)
    ensures Count(a + b, x) == Count(a, x) + Count(b, x)
  {
  }

  lemma CountSnoc(s: seq<int>, y: int, x: int)
    ensures Count(s + [y], x) == Count(s, x) + if x == y then 1 else 0
  {
    CountAppend(s, [y], x);
  }

  /** `list(k)` are the numbers below `k` that are not out. */
  ghost predicate ListsRest(list: nat -> seq<int>, out: seq<int>) {
    list(0) == [] && forall k: nat :: list(k + 1) == if k in out then list(k) else list(k) + [k]
  }

  lemma {:induction false} CountRest(list: nat -> seq<int>, out: seq<int>, n: nat, x: int)
    requires ListsRest(list, out)
    ensures Count(list(n), x) == if 0 <= x < n && x !in out then 1 else 0
  {
    if n > 0 {
      CountRest(list, out, n - 1, x);
      assert list(n - 1 + 1) == list(n);
      CountSnoc(list(n - 1), n - 1, x);
    }
  }

  lemma RemainingCounts(n: nat, knockedOut: seq<int>, x: int)
    ensures Count(Remaining(n, knockedOut), x) == if 0 <= x < n && x !in knockedOut then 1 else 0
  {
    var list: nat -> seq<int> := (k: nat) => Remaining(k, knockedOut);
    forall k: nat
      ensures list(k + 1) == if k in knockedOut then list(k) else list(k) + [k]
    {
      assert list(k) + [] == list(k);
    }
    CountRest(list, knockedOut, n, x);
  }

  lemma {:induction false} WithoutCounts(batch: seq<int>, w: int)
    requires Count(batch, w) <= 1
    ensures multiset(batch) == multiset(Without(batch, w)) + if w in batch then multiset{w} else multiset{}
  {
    if batch != [] {
      var k := |batch| - 1;
      assert batch == batch[..k] + [batch[k]];
      WithoutCounts(batch[..k], w);
    }
  }

  /** Batching splits the participants into `ceil(|s| / p)` batches and loses nobody. */
  lemma {:induction false} BatchesCover(s: seq<int>, p: nat)
    requires 0 < p
    ensures Joined(Batches(s, p)) == s && |Batches(s, p)| == CeilDiv(|s|, p)
    decreases |s|
  {
    if |s| > p {
      BatchesCover(s[p..], p);
      assert Batches(s, p)[1..] == Batches(s[p..], p);
      assert s == s[..p] + s[p..];
    } else if s != [] {
      assert Batches(s, p) == [s];
      assert Joined([s][1..]) == [];
    }
  }

  /** Every round's participants are its losers and its survivors, nobody counted twice. */
  lemma {:induction false} RoundConserves(bs: seq<seq<int>>, judge: seq<int> -> Game)
    requires NonEmpty(bs) && Distinct(Joined(bs))
    ensures multiset(Joined(bs)) == multiset(Losers(bs, judge)) + multiset(Survivors(bs, judge))
  {
    if bs != [] {
      var b, rest := bs[0], bs[1..];
      forall x: int
        ensures Count(b, x) <= 1 && Count(Joined(rest), x) <= 1
      {
        CountAppend(b, Joined(rest), x);
      }
      RoundConserves(rest, judge);
      var w := Winner(b, judge(b));
      WithoutCounts(b, w);
      assert multiset(Losers(bs, judge)) == multiset(Without(b, w)) + multiset(Losers(rest, judge));
      assert multiset(Survivors(bs, judge)) == multiset{w} + multiset(Survivors(rest, judge));
    }
  }

  lemma ByeLosesNobody(b: seq<int>, w: int)
    requires |b| <= 1 && w in b
    ensures Without(b, w) == []
  {
    assert b[..0] == [];
  }

  /** A batch of one plays no game and loses nobody. */
  lemma {:induction false} ByesLoseNobody(s: seq<int>, p: nat, judge: seq<int> -> Game)
    requires 0 < p
    ensures Losers(Games(s, p), judge) == Losers(Batches(s, p), judge)
    decreases |s|
  {
    if |s| > p {
      var b, rest := s[..p], s[p..];
      ByesLoseNobody(rest, p, judge);
      assert ([b] + Games(rest, p))[1..] == Games(rest, p);
      assert Batches(s, p)[1..] == Batches(rest, p);
      if p == 1 {
        ByeLosesNobody(b, Winner(b, judge(b)));
        assert [] + Games(rest, p) == Games(rest, p);
        assert [] + Losers(Batches(rest, p), judge) == Losers(Batches(rest, p), judge);
      }
    } else if |s| == 1 {
      ByeLosesNobody(s, Winner(s, judge(s)));
      assert Batches(s, p)[1..] == [];
    }
  }

  lemma {:induction false} WithoutMembers(batch: seq<int>, w: int, x: int)
    ensures x in Without(batch, w) <==> x in batch && x != w
  {
    if batch != [] {
      WithoutMembers(batch[..|batch| - 1], w, x);
      assert batch == batch[..|batch| - 1] + [batch[|batch| - 1]];
    }
  }

  lemma {:induction false} LosersPlayed(bs: seq<seq<int>>, judge: seq<int> -> Game, x: int)
    requires NonEmpty(bs) && x in Losers(bs, judge)
    ensures x in Joined(bs)
  {
    WithoutMembers(bs[0], Winner(bs[0], judge(bs[0])), x);
    if x !in bs[0] {
      LosersPlayed(bs[1..], judge, x);
    }
  }

  lemma {:induction false} JoinedMembers(bs: seq<seq<int>>, i: nat, x: int)
    requires i < |bs| && x in bs[i]
    ensures x in Joined(bs)
  {
    if i > 0 {
      JoinedMembers(bs[1..], i - 1, x);
    }
  }

  lemma DistinctApart(a: seq<int>, b: seq<int>, x: int)
    requires Distinct(a + b) && x in a
    ensures Distinct(b) && x !in b
  {
    forall y: int
      ensures Count(b, y) <= 1 && (y in a ==> y !in b)
    {
      CountAppend(a, b, y);
      assert (y in multiset(a) <==> y in a) && (y in multiset(b) <==> y in b);
    }
  }

  /** Of every batch exactly the winner stays in the game. */
  lemma {:induction false} OneStaysOfBatch(bs: seq<seq<int>>, judge: seq<int> -> Game, i: nat, x: int)
    requires NonEmpty(bs) && Distinct(Joined(bs)) && i < |bs| && x in bs[i]
    ensures x in Losers(bs, judge) <==> x != Winner(bs[i], judge(bs[i]))
  {
    var b, rest := bs[0], bs[1..];
    WithoutMembers(b, Winner(b, judge(b)), x);
    DistinctApart(b, Joined(rest), b[0]);
    if i == 0 {
      DistinctApart(b, Joined(rest), x);
      if x in Losers(rest, judge) {
        LosersPlayed(rest, judge, x);
      }
    } else {
      JoinedMembers(rest, i - 1, x);
      if x in b {
        DistinctApart(b, Joined(rest), x);
      }
      OneStaysOfBatch(rest, judge, i - 1, x);
    }
  }

  /** The batches are consecutive slices of `p`, the last one of what is left. */
  lemma {:induction false} BatchAt(s: seq<int>, p: nat, i: nat)
    requires 0 < p && At(i, p, 0) < |s|
    ensures i < |Batches(s, p)|
    ensures Batches(s, p)[i] == s[i * p..if i * p + p < |s| then i * p + p else |s|]
    decreases i
  {
    if i > 0 {
      Distribute(i - 1, 1, p);
      Monotone(1, i, p);
      var rest := s[p..];
      BatchAt(rest, p, i - 1);
      var a := (i - 1) * p;
      SliceOfSlice(s, p, |s|, a, if a + p < |rest| then a + p else |rest|);
    } else if |s| <= p {
      assert s[0..|s|] == s;
    }
  }

  // ---------------------------------------------------------------------------
  // Rounding up
  // ---------------------------------------------------------------------------

  function CeilDiv(a: nat, b: nat): nat
    requires 0 < b
  {
    if a == 0 then 0 else if a <= b then 1 else CeilDiv(a - b, b) + 1
  }

  /** `CeilDiv(a, b)` is the least `y` with `a <= y * b`, that is, `ceil(a / b)`. */
  lemma {:induction false} CeilDivLeast(a: nat, b: nat, y: nat)
    requires 0 < b
    ensures CeilDiv(a, b) <= y <==> a <= y * b
    decreases a
  {
    Monotone(0, y, b);
    if y > 0 {
      Distribute(y - 1, 1, b);
      Monotone(0, y - 1, b);
      if a > b {
        CeilDivLeast(a - b, b, y - 1);
      }
    }
  }

  lemma CeilDivTwice(a: nat, b: nat, c: nat)
    requires 0 < b && 0 < c
    ensures 0 < b * c && CeilDiv(CeilDiv(a, b), c) == CeilDiv(a, b * c)
  {
    Monotone(1, b, c);
    TwiceAtMost(a, b, c, CeilDiv(CeilDiv(a, b), c));
    TwiceAtMost(a, b, c, CeilDiv(a, b * c));
  }

  lemma TwiceAtMost(a: nat, b: nat, c: nat, y: nat)
    requires 0 < b && 0 < c && 0 < b * c
    ensures CeilDiv(CeilDiv(a, b), c) <= y <==> CeilDiv(a, b * c) <= y
  {
    CeilDivLeast(CeilDiv(a, b), c, y);
    CeilDivLeast(a, b, y * c);
    CeilDivLeast(a, b * c, y);
    Reassociate(y, c, b);
  }

  // ---------------------------------------------------------------------------
  // The tournament
  // ---------------------------------------------------------------------------

  /** Shuffling permutes. */
  ghost predicate Shuffles(e: Environment) {
    forall r: nat, s: seq<int> :: multiset(e.shuffle(r, s)) == multiset(s)
  }

  /** Knocked-out participants are participants, and nobody is knocked out twice. */
  ghost predicate Sound(n: nat, knockedOut: seq<int>) {
    (forall x :: x in knockedOut ==> 0 <= x < n) && Distinct(knockedOut)
  }

  lemma RemainingSize(n: nat, knockedOut: seq<int>)
    requires Sound(n, knockedOut)
    ensures |knockedOut| <= n && |Remaining(n, knockedOut)| == n - |knockedOut|
  {
    var all, rest := Remaining(n, []), Remaining(n, knockedOut);
    forall x: int
      ensures multiset(all)[x] == (multiset(rest) + multiset(knockedOut))[x]
    {
      RemainingCounts(n, [], x);
      RemainingCounts(n, knockedOut, x);
      assert Count(knockedOut, x) <= 1;
      assert multiset(all)[x] == Count(all, x) && multiset(rest)[x] == Count(rest, x);
      assert x in multiset(knockedOut) <==> x in knockedOut;
    }
    assert multiset(all) == multiset(rest) + multiset(knockedOut);
    assert |multiset(all)| == |multiset(rest)| + |multiset(knockedOut)|;
    AllSize(n);
  }

  lemma {:induction false} AllSize(n: nat)
    ensures |Remaining(n, [])| == n
  {
    if n > 0 {
      AllSize(n - 1);
    }
  }

  /** One round leaves everybody sound and `ceil(r / p)` of `r` in the game. */
  lemma RoundContracts(n: nat, knockedOut: seq<int>, shuffled: seq<int>, p: nat, judge: seq<int> -> Game)
    requires Sound(n, knockedOut) && 0 < p
    requires multiset(shuffled) == multiset(Remaining(n, knockedOut))
    ensures var losers := Losers(Games(shuffled, p), judge);
      && Sound(n, knockedOut + losers) && |knockedOut + losers| <= n
      && |shuffled| == n - |knockedOut|
      && n - |knockedOut + losers| == CeilDiv(n - |knockedOut|, p)
  {
    var bs := Batches(shuffled, p);
    var losers, survivors := Losers(bs, judge), Survivors(bs, judge);
    BatchesCover(shuffled, p);
    ByesLoseNobody(shuffled, p, judge);
    RemainingSize(n, knockedOut);
    SameSize(shuffled, Remaining(n, knockedOut));
    ShuffledCounts(n, knockedOut, shuffled);
    RoundConserves(bs, judge);
    assert |multiset(shuffled)| == |multiset(losers)| + |multiset(survivors)|;
    LosersAreFresh(n, knockedOut, shuffled, losers, survivors);
    RemainingSize(n, knockedOut + losers);
  }

  lemma ShuffledCounts(n: nat, knockedOut: seq<int>, shuffled: seq<int>)
    requires multiset(shuffled) == multiset(Remaining(n, knockedOut))
    ensures forall x: int :: Count(shuffled, x) == if 0 <= x < n && x !in knockedOut then 1 else 0
  {
    forall x: int
      ensures Count(shuffled, x) == if 0 <= x < n && x !in knockedOut then 1 else 0
    {
      RemainingCounts(n, knockedOut, x);
    }
  }

  lemma LosersAreFresh(n: nat, knockedOut: seq<int>, shuffled: seq<int>, losers: seq<int>, survivors: seq<int>)
    requires Sound(n, knockedOut)
    requires forall x: int :: Count(shuffled, x) == if 0 <= x < n && x !in knockedOut then 1 else 0
    requires multiset(shuffled) == multiset(losers) + multiset(survivors)
    ensures Sound(n, knockedOut + losers)
  {
    forall x: int
      ensures Count(knockedOut + losers, x) <= 1 && (x in knockedOut + losers ==> 0 <= x < n)
    {
      assert multiset(knockedOut + losers) == multiset(knockedOut) + multiset(losers);
      assert Count(shuffled, x) == Count(losers, x) + Count(survivors, x);
      assert Count(knockedOut, x) > 0 <==> x in knockedOut;
      assert x in multiset(losers) <==> x in losers;
    }
  }

  function Invalid(valid: seq<bool>): (r: seq<int>)
    ensures |r| <= |valid|
  {
    if valid == [] then []
    else
      var i := |valid| - 1;
      Invalid(valid[..i]) + if valid[i] then [] else [i]
  }

  lemma {:induction false} InvalidMembers(valid: seq<bool>, i: int)
    ensures i in Invalid(valid) <==> 0 <= i < |valid| && !valid[i]
  {
    if valid != [] {
      InvalidMembers(valid[..|valid| - 1], i);
    }
  }

  lemma {:induction false} InvalidDistinct(valid: seq<bool>)
    ensures Sound(|valid|, Invalid(valid))
  {
    if valid != [] {
      var i := |valid| - 1;
      InvalidDistinct(valid[..i]);
      if !valid[i] {
        InvalidMembers(valid[..i], i);
        SoundSnoc(|valid|, Invalid(valid[..i]), i);
      } else {
        assert Invalid(valid) == Invalid(valid[..i]);
      }
    }
  }

  lemma InvalidSound(valid: seq<bool>)
    ensures forall i: int :: i in Invalid(valid) <==> 0 <= i < |valid| && !valid[i]
    ensures Sound(|valid|, Invalid(valid))
  {
    InvalidDistinct(valid);
    forall i: int
      ensures i in Invalid(valid) <==> 0 <= i < |valid| && !valid[i]
    {
      InvalidMembers(valid, i);
    }
  }

  lemma SoundSnoc(n: nat, s: seq<int>, x: int)
    requires Sound(n, s) && 0 <= x < n && x !in s
    ensures Sound(n, s + [x])
  {
    forall y
      ensures Count(s + [x], y) <= 1
    {
      assert Count(s + [x], y) == Count(s, y) + if y == x then 1 else 0;
      assert y in multiset(s) <==> y in s;
    }
  }

  /** Python's `s[:k]`. */
  function Prefix<T>(s: seq<T>, k: int): seq<T> {
    if k >= |s| then s else if k >= 0 then s[..k] else if |s| + k >= 0 then s[..|s| + k] else []
  }

  /** Survivors after `t` rounds starting with `r`. */
  function AfterRounds(r: nat, p: nat, t: nat): nat
    requires 0 < p
  {
    if t == 0 then r else CeilDiv(AfterRounds(r, p, t - 1), p)
  }

  function Power(p: nat, t: nat): nat {
    if t == 0 then 1 else Power(p, t - 1) * p
  }

  /** Rounding up every round is rounding up once. */
  lemma {:induction false} AfterRoundsClosed(r: nat, p: nat, t: nat)
    requires 0 < p
    ensures 0 < Power(p, t) && AfterRounds(r, p, t) == CeilDiv(r, Power(p, t))
  {
    if t > 0 {
      AfterRoundsClosed(r, p, t - 1);
      CeilDivTwice(r, Power(p, t - 1), p);
    } else {
      CeilDivLeast(r, 1, r);
      CeilDivLeast(r, 1, CeilDiv(r, 1));
    }
  }

  // ---------------------------------------------------------------------------
  // The course of a tournament
  // ---------------------------------------------------------------------------

  function JudgeOf(e: Environment, round: nat): seq<int> -> Game {
    batch => e.judge(round, batch)
  }

  /** Who is knocked out in a round that starts with `before` out of the game. */
  function RoundLosers(n: nat, before: seq<int>, p: nat, e: Environment, round: nat): seq<int>
    requires 0 < p
  {
    Losers(Games(e.shuffle(round, Remaining(n, before)), p), JudgeOf(e, round))
  }

  /** The same as a function of the round and of who is out before it. */
  function Rounds(n: nat, p: nat, e: Environment): (nat, seq<int>) -> seq<int>
    requires 0 < p
  {
    (round: nat, before: seq<int>) => RoundLosers(n, before, p, e, round)
  }

  /** A log that grows by the losers of every round. */
  function Log(start: seq<int>, lose: (nat, seq<int>) -> seq<int>, t: nat): seq<int> {
    if t == 0 then start else Log(start, lose, t - 1) + lose(t - 1, Log(start, lose, t - 1))
  }

  /** Who is out after `t` rounds, in the order in which it was logged: the invalid ones first. */
  function KnockedOut(valid: seq<bool>, p: int, e: Environment, t: nat): seq<int>
    requires t > 0 ==> 0 < p
  {
    if t == 0 then Invalid(valid) else Log(Invalid(valid), Rounds(|valid|, p, e), t)
  }

  /** `t` rounds have been played, each because too many were still in the game. */
  ghost predicate Played(valid: seq<bool>, winnerCount: int, p: int, e: Environment, t: nat) {
    && (t > 0 ==> p >= 2)
    && forall j :: 0 <= j < t ==> |KnockedOut(valid, p, e, j)| < |valid| - winnerCount
  }

  lemma PlayedNext(valid: seq<bool>, winnerCount: int, p: int, e: Environment, t: nat)
    requires Played(valid, winnerCount, p, e, t) && p >= 2 && |KnockedOut(valid, p, e, t)| < |valid| - winnerCount
    ensures Played(valid, winnerCount, p, e, t + 1)
    ensures KnockedOut(valid, p, e, t + 1)
         == KnockedOut(valid, p, e, t) + RoundLosers(|valid|, KnockedOut(valid, p, e, t), p, e, t)
  {
  }

  function ValidCount(valid: seq<bool>): nat {
    |valid| - |Invalid(valid)|
  }

  /** `out` are participants, nobody is out twice, and `left` are still in the game. */
  ghost predicate Standing(n: nat, out: seq<int>, left: nat) {
    Sound(n, out) && |out| <= n && n - |out| == left
  }

  /** One round leaves `ceil(left / p)` of the `left` that are in the game. */
  lemma RoundStanding(n: nat, before: seq<int>, p: nat, e: Environment, round: nat, left: nat)
    requires Shuffles(e) && Standing(n, before, left) && 0 < p
    ensures Standing(n, before + RoundLosers(n, before, p, e, round), CeilDiv(left, p))
  {
    RoundContracts(n, before, e.shuffle(round, Remaining(n, before)), p, JudgeOf(e, round));
  }

  /** Every round leaves `ceil(left / p)`. */
  ghost predicate Contracts(lose: (nat, seq<int>) -> seq<int>, n: nat, p: nat)
    requires 0 < p
  {
    forall round: nat, out: seq<int>, left: nat :: Standing(n, out, left) ==>
      Standing(n, out + lose(round, out), CeilDiv(left, p))
  }

  lemma {:induction false} LogStanding(start: seq<int>, lose: (nat, seq<int>) -> seq<int>, n: nat, r: nat, p: nat, t: nat)
    requires 0 < p && Contracts(lose, n, p) && Standing(n, start, r)
    ensures Standing(n, Log(start, lose, t), AfterRounds(r, p, t))
  {
    if t > 0 {
      LogStanding(start, lose, n, r, p, t - 1);
    }
  }

  lemma {:induction false} LogExtends(start: seq<int>, lose: (nat, seq<int>) -> seq<int>, t: nat)
    ensures start <= Log(start, lose, t)
  {
    if t > 0 {
      LogExtends(start, lose, t - 1);
      PrefixOfLonger(start, Log(start, lose, t - 1), lose(t - 1, Log(start, lose, t - 1)));
    }
  }

  /** Exactly `ceil(r / p^t)` of the `r` valid participants are left, and nobody is knocked out twice. */
  lemma KnockedOutStanding(valid: seq<bool>, p: int, e: Environment, t: nat)
    requires Shuffles(e) && 0 < p
    ensures Standing(|valid|, KnockedOut(valid, p, e, t), AfterRounds(ValidCount(valid), p, t))
  {
    var lose := Rounds(|valid|, p, e);
    forall round: nat, out: seq<int>, left: nat | Standing(|valid|, out, left)
      ensures Standing(|valid|, out + lose(round, out), CeilDiv(left, p))
    {
      RoundStanding(|valid|, out, p, e, round, left);
    }
    InvalidSound(valid);
    LogStanding(Invalid(valid), lose, |valid|, ValidCount(valid), p, t);
  }

  /** The invalid participants come first in the log. */
  lemma KnockedOutExtends(valid: seq<bool>, p: int, e: Environment, t: nat)
    requires t > 0 ==> 0 < p
    ensures Invalid(valid) <= KnockedOut(valid, p, e, t)
  {
    if t > 0 {
      LogExtends(Invalid(valid), Rounds(|valid|, p, e), t);
    }
  }

  method CollectInvalid(valid: seq<bool>) returns (knockedOut: seq<int>)
    ensures knockedOut == Invalid(valid)
  {
    knockedOut := [];
    for i := 0 to |valid|
      invariant knockedOut == Invalid(valid[..i])
    {
      assert valid[..i + 1][..i] == valid[..i];
      if !valid[i] {
        knockedOut := knockedOut + [i];
      }
    }
    assert valid[..|valid|] == valid;
  }

  lemma SameSize(a: seq<int>, b: seq<int>)
    requires multiset(a) == multiset(b)
    ensures |a| == |b|
  {
    assert |a| == |multiset(a)| && |b| == |multiset(b)|;
  }

  /** All games of a round. */
  method PlayGames(before: seq<int>, batches: seq<seq<int>>, judge: seq<int> -> Game) returns (knockedOut: seq<int>)
    requires NonEmpty(batches)
    ensures knockedOut == before + Losers(batches, judge)
  {
    knockedOut := before;
    assert batches[0..] == batches;
    for i := 0 to |batches|
      invariant knockedOut + Losers(batches[i..], judge) == before + Losers(batches, judge)
    {
      var winner, losers := ExtractWinner(batches[i], judge(batches[i]));
      NextLosers(knockedOut, batches[i..], judge);
      assert batches[i..][1..] == batches[i + 1..];
      knockedOut := knockedOut + losers;
    }
    assert Losers(batches[|batches|..], judge) == [];
  }

  lemma NextLosers(out: seq<int>, bs: seq<seq<int>>, judge: seq<int> -> Game)
    requires NonEmpty(bs) && bs != []
    ensures out + Losers(bs, judge) == (out + Without(bs[0], Winner(bs[0], judge(bs[0])))) + Losers(bs[1..], judge)
  {
  }

  /** One round.  The first early exit, fewer than two participants, is never taken. */
  method PlayRound(n: nat, before: seq<int>, p: int, e: Environment, round: nat)
    returns (knockedOut: seq<int>, played: bool)
    requires Shuffles(e) && Sound(n, before) && |before| <= n - 2 && p != 0
    ensures played <==> p >= 2
    ensures knockedOut == if played then before + RoundLosers(n, before, p, e, round) else before
  {
    var remaining := ListRemaining(n, before);
    RemainingSize(n, before);
    remaining := e.shuffle(round, remaining);
    SameSize(remaining, Remaining(n, before));
    if |remaining| < 2 {
      assert false;
    }
    if p < 0 {
      // The range is empty, so there are no batches.
      return before, false;
    }
    var batches := MakeBatches(remaining, p);
    GamesExist(remaining, p);
    if |batches| == 0 {
      return before, false;
    }
    knockedOut := PlayGames(before, batches, JudgeOf(e, round));
    played := true;
  }

  /**
    The loop over the rounds.  With games of two or more it ends with its guard: neither of its early exits is
    taken.
  */
  method PlayRounds(valid: seq<bool>, winnerCount: int, p: int, e: Environment)
    returns (r: Result<seq<int>, TournamentError>, ghost rounds: nat)
    requires Shuffles(e) && winnerCount > 0
    ensures r.Err? <==> p == 0 && |Invalid(valid)| < |valid| - winnerCount
    ensures r.Err? ==> r.error == ValueError
    ensures r.Ok? ==> Played(valid, winnerCount, p, e, rounds) && r.value == KnockedOut(valid, p, e, rounds)
    ensures r.Ok? && p >= 2 ==> |r.value| >= |valid| - winnerCount
  {
    var n := |valid|;
    var knockedOut := CollectInvalid(valid);
    var round := 0;
    rounds := 0;
    while |knockedOut| < n - winnerCount
      invariant Played(valid, winnerCount, p, e, round) && knockedOut == KnockedOut(valid, p, e, round)
      invariant rounds == round
      decreases n - |knockedOut|
    {
      if p == 0 {
        r := Err(ValueError);
        return;
      }
      if round == 0 { InvalidSound(valid); } else { KnockedOutStanding(valid, p, e, round); }
      var played;
      ghost var before := knockedOut;
      knockedOut, played := PlayRound(n, knockedOut, p, e, round);
      if !played {
        break;
      }
      RoundShrinks(n, before, p, e, round);
      PlayedNext(valid, winnerCount, p, e, round);
      round := round + 1;
      rounds := round;
    }
    r := Ok(knockedOut);
  }

  method RunTournament(valid: seq<bool>, winnerCount: int, p: int, e: Environment)
    returns (r: Result<seq<int>, TournamentError>, ghost rounds: nat)
    requires Shuffles(e)
    ensures r.Err? <==> winnerCount <= 0 || (p == 0 && |Invalid(valid)| < |valid| - winnerCount)
    ensures r.Err? ==> r.error == if winnerCount <= 0 then AssertionError else ValueError
    ensures r.Ok? ==> Played(valid, winnerCount, p, e, rounds)
    ensures r.Ok? ==> r.value == Winners(valid, winnerCount, p, e, rounds)
    ensures r.Ok? && p >= 2 ==> |KnockedOut(valid, p, e, rounds)| >= |valid| - winnerCount
  {
    rounds := 0;
    if winnerCount <= 0 {
      r := Err(AssertionError);
      return;
    }
    r, rounds := PlayRounds(valid, winnerCount, p, e);
    if r.Err? {
      return;
    }
    var knockedOut := r.value;
    var toEliminate := |valid| - winnerCount;
    if |knockedOut| > toEliminate {
      knockedOut := Prefix(knockedOut, toEliminate);
    }
    var winners := ListRemaining(|valid|, knockedOut);
    r := Ok(winners);
  }

  method ListRemaining(n: nat, knockedOut: seq<int>) returns (r: seq<int>)
    ensures r == Remaining(n, knockedOut)
  {
    r := [];
    for i := 0 to n
      invariant r == Remaining(i, knockedOut)
    {
      if i !in knockedOut {
        r := r + [i];
      }
    }
  }

  /** Games of one are never played. */
  lemma {:induction false} NoGamesOfOne(s: seq<int>)
    ensures Games(s, 1) == []
    decreases |s|
  {
    if |s| > 1 {
      NoGamesOfOne(s[1..]);
    }
  }

  /** With two or more participants there is a game exactly if games are of two or more. */
  lemma GamesExist(s: seq<int>, p: nat)
    requires 0 < p && |s| >= 2
    ensures Games(s, p) != [] <==> p >= 2
  {
    if p == 1 {
      NoGamesOfOne(s);
    }
  }

  lemma CeilDivShrinks(r: nat, p: nat)
    requires r >= 2 && p >= 2
    ensures CeilDiv(r, p) < r
  {
    CeilDivLeast(r, p, r - 1);
    Monotone(2, p, r - 1);
  }

  /** A round that is played knocks somebody out. */
  lemma RoundShrinks(n: nat, before: seq<int>, p: nat, e: Environment, round: nat)
    requires Shuffles(e) && Sound(n, before) && |before| <= n - 2 && p >= 2
    ensures |before| < |before + RoundLosers(n, before, p, e, round)| <= n
  {
    RoundStanding(n, before, p, e, round, n - |before|);
    CeilDivShrinks(n - |before|, p);
  }

  // ---------------------------------------------------------------------------
  // Who wins
  // ---------------------------------------------------------------------------

  lemma PrefixSound(n: nat, knockedOut: seq<int>, k: int)
    requires Sound(n, knockedOut)
    ensures Sound(n, Prefix(knockedOut, k))
  {
    var a := Prefix(knockedOut, k);
    var b := knockedOut[|a|..];
    assert knockedOut == a + b;
    assert multiset(knockedOut) == multiset(a) + multiset(b);
    forall x: int
      ensures Count(a, x) <= 1 && (x in a ==> 0 <= x < n)
    {
      assert Count(knockedOut, x) == Count(a, x) + Count(b, x);
      assert x in a ==> x in a + b;
    }
  }

  predicate Ascending(s: seq<int>) {
    forall i, j :: 0 <= i < j < |s| ==> s[i] < s[j]
  }

  lemma {:induction false} RemainingMembers(n: nat, knockedOut: seq<int>)
    ensures forall x: int :: x in Remaining(n, knockedOut) <==> 0 <= x < n && x !in knockedOut
    ensures Ascending(Remaining(n, knockedOut))
  {
    if n > 0 {
      RemainingMembers(n - 1, knockedOut);
      var rest, r := Remaining(n - 1, knockedOut), Remaining(n, knockedOut);
      forall i, j | 0 <= i < j < |r|
        ensures r[i] < r[j]
      {
        assert r[i] == rest[i] && rest[i] in rest;
        if j < |rest| {
          assert r[j] == rest[j] && rest[i] < rest[j];
        } else {
          assert r[j] == n - 1 && rest[i] < n - 1;
        }
      }
    }
  }

  /** The participants that are returned after `t` rounds and the truncation. */
  function Winners(valid: seq<bool>, winnerCount: int, p: int, e: Environment, t: nat): seq<int>
    requires t > 0 ==> 0 < p
  {
    Remaining(|valid|, Prefix(KnockedOut(valid, p, e, t), |valid| - winnerCount))
  }

  /** A tournament with enough participants and games of two or more, at its end. */
  ghost predicate Finished(valid: seq<bool>, winnerCount: int, p: int, e: Environment, t: nat) {
    && 1 <= winnerCount <= |valid| && p >= 2 && Shuffles(e)
    && Played(valid, winnerCount, p, e, t) && |KnockedOut(valid, p, e, t)| >= |valid| - winnerCount
  }

  /**
    A round, seat by seat: the shuffled participants still in the game sit in consecutive groups of `p`, and of each
    group exactly the one its own game names stays in (in a last group of one, that one).
  */
  lemma OneStaysOfGroup(n: nat, before: seq<int>, p: nat, e: Environment, round: nat, i: nat, x: int)
    requires Shuffles(e) && Sound(n, before) && 0 < p
    requires var seats := e.shuffle(round, Remaining(n, before));
      At(i, p, 0) < |seats| && x in seats[i * p..if i * p + p < |seats| then i * p + p else |seats|]
    ensures var seats := e.shuffle(round, Remaining(n, before));
      var group := seats[i * p..if i * p + p < |seats| then i * p + p else |seats|];
      x in RoundLosers(n, before, p, e, round) <==> x != Winner(group, e.judge(round, group))
  {
    var seats := e.shuffle(round, Remaining(n, before));
    ShuffledCounts(n, before, seats);
    BatchesCover(seats, p);
    BatchAt(seats, p, i);
    ByesLoseNobody(seats, p, JudgeOf(e, round));
    OneStaysOfBatch(Batches(seats, p), JudgeOf(e, round), i, x);
  }

  /** Truncating the knocked-out list brings back exactly its end. */
  lemma TruncationBringsBack(n: nat, out: seq<int>, k: nat)
    requires Sound(n, out) && k <= |out|
    ensures var winners := Remaining(n, out[..k]);
      && |winners| == n - k && Ascending(winners)
      && (forall x :: x in winners <==> 0 <= x < n && (x !in out || x in out[k..]))
  {
    assert Prefix(out, k) == out[..k];
    PrefixSound(n, out, k);
    RemainingSize(n, out[..k]);
    RemainingMembers(n, out[..k]);
    DistinctSplit(out, k);
  }

  lemma DistinctSplit(s: seq<int>, k: nat)
    requires Distinct(s) && k <= |s|
    ensures forall x :: x !in s[..k] <==> x !in s || x in s[k..]
  {
    assert s == s[..k] + s[k..];
    forall x | x in s[k..]
      ensures x !in s[..k]
    {
      assert Count(s, x) == Count(s[..k], x) + Count(s[k..], x);
      assert x in multiset(s[k..]);
      assert x in multiset(s[..k]) <==> x in s[..k];
    }
  }

  /**
    Who wins, whatever the shuffles and the judge: exactly `winnerCount` distinct indices in order; everybody who was
    never knocked out, and of those knocked out the last ones in the log, as many as are needed.
  */
  lemma TournamentOutcome(valid: seq<bool>, winnerCount: int, p: int, e: Environment, t: nat)
    requires Finished(valid, winnerCount, p, e, t)
    ensures var winners, out, k := Winners(valid, winnerCount, p, e, t), KnockedOut(valid, p, e, t), |valid| - winnerCount;
      && |winners| == winnerCount && Ascending(winners)
      && (forall x :: x in winners <==> 0 <= x < |valid| && (x !in out || x in out[k..]))
  {
    KnockedOutStanding(valid, p, e, t);
    PrefixIsSlice(KnockedOut(valid, p, e, t), |valid| - winnerCount);
    TruncationBringsBack(|valid|, KnockedOut(valid, p, e, t), |valid| - winnerCount);
  }

  lemma PrefixIsSlice(s: seq<int>, k: int)
    requires 0 <= k <= |s|
    ensures Prefix(s, k) == s[..k]
  {
  }

  /** The end of a longer list is the end of what was added last. */
  lemma EndOfAppended(before: seq<int>, losers: seq<int>, k: nat, x: int)
    requires |before| <= k <= |before + losers| && Distinct(before + losers)
    requires x !in before + losers || x in (before + losers)[k..]
    ensures x !in before && (x in before + losers <==> x in losers)
  {
    var out := before + losers;
    DistinctSplit(out, k);
    assert before == out[..k][..|before|];
  }

  /** Every winner was still in the game when the last round began, and whoever is reinstated is a loser of that round. */
  lemma ReinstatedLostLast(valid: seq<bool>, winnerCount: int, p: int, e: Environment, t: nat, x: int)
    requires Finished(valid, winnerCount, p, e, t) && t > 0 && x in Winners(valid, winnerCount, p, e, t)
    ensures var before := KnockedOut(valid, p, e, t - 1);
      && x in Remaining(|valid|, before)
      && (x in KnockedOut(valid, p, e, t) <==> x in RoundLosers(|valid|, before, p, e, t - 1))
  {
    var before := KnockedOut(valid, p, e, t - 1);
    TournamentOutcome(valid, winnerCount, p, e, t);
    KnockedOutStanding(valid, p, e, t);
    RemainingMembers(|valid|, before);
    EndOfAppended(before, RoundLosers(|valid|, before, p, e, t - 1), |valid| - winnerCount, x);
  }

  /** With enough valid participants every winner is valid. */
  lemma ValidWin(valid: seq<bool>, winnerCount: int, p: int, e: Environment, t: nat, x: int)
    requires Finished(valid, winnerCount, p, e, t) && |Invalid(valid)| <= |valid| - winnerCount
    requires x in Winners(valid, winnerCount, p, e, t)
    ensures 0 <= x < |valid| && valid[x]
  {
    var out, invalid := KnockedOut(valid, p, e, t), Invalid(valid);
    TournamentOutcome(valid, winnerCount, p, e, t);
    KnockedOutStanding(valid, p, e, t);
    KnockedOutExtends(valid, p, e, t);
    InvalidSound(valid);
    assert out == invalid + out[|invalid|..];
    EndOfAppended(invalid, out[|invalid|..], |valid| - winnerCount, x);
  }

  /** An invalid participant is returned exactly if fewer than `winnerCount` are valid. */
  lemma InvalidWinsIff(valid: seq<bool>, winnerCount: int, p: int, e: Environment, t: nat)
    requires Finished(valid, winnerCount, p, e, t)
    ensures ((exists x :: x in Winners(valid, winnerCount, p, e, t) && x in Invalid(valid))
             <==> ValidCount(valid) < winnerCount)
  {
    var k, invalid, winners := |valid| - winnerCount, Invalid(valid), Winners(valid, winnerCount, p, e, t);
    InvalidSound(valid);
    if |invalid| > k {
      NoRoundsNeeded(valid, winnerCount, p, e, t);
      TournamentOutcome(valid, winnerCount, p, e, t);
      assert invalid[k] == invalid[k..][0] && invalid[k] in invalid;
      assert invalid[k] in winners;
    } else {
      forall x | x in winners
        ensures x !in invalid
      {
        ValidWin(valid, winnerCount, p, e, t, x);
      }
    }
  }

  lemma NoRoundsNeeded(valid: seq<bool>, winnerCount: int, p: int, e: Environment, t: nat)
    requires Played(valid, winnerCount, p, e, t) && |Invalid(valid)| >= |valid| - winnerCount
    ensures t == 0 && KnockedOut(valid, p, e, t) == Invalid(valid)
  {
    assert t > 0 ==> |KnockedOut(valid, p, e, 0)| < |valid| - winnerCount;
  }

  /** The number of rounds is the least `t` with `ceil(r / p^t) <= winnerCount`, where `r` participants are valid. */
  lemma RoundsAreLeast(valid: seq<bool>, winnerCount: int, p: int, e: Environment, t: nat)
    requires 1 <= winnerCount <= |valid| && p >= 2 && Shuffles(e)
    ensures Finished(valid, winnerCount, p, e, t) <==> LeastRounds(ValidCount(valid), winnerCount, p, t)
  {
    KnockedOutStanding(valid, p, e, t);
    forall j | 0 <= j < t
      ensures |KnockedOut(valid, p, e, j)| < |valid| - winnerCount <==> AfterRounds(ValidCount(valid), p, j) > winnerCount
    {
      KnockedOutStanding(valid, p, e, j);
    }
  }

  predicate LeastRounds(r: nat, winnerCount: int, p: nat, t: nat)
    requires 0 < p
  {
    AfterRounds(r, p, t) <= winnerCount && forall j :: 0 <= j < t ==> AfterRounds(r, p, j) > winnerCount
  }

  /** With more winners asked for than there are participants, no round is played and the truncation index is negative:
      so many of the last invalid participants are returned along with all valid ones. */
  lemma TooManyWinners(valid: seq<bool>, winnerCount: int, p: int, e: Environment, t: nat)
    requires winnerCount > |valid| && Played(valid, winnerCount, p, e, t)
    ensures var winners, excess, invalid := Winners(valid, winnerCount, p, e, t), winnerCount - |valid|, Invalid(valid);
      var kept := if |invalid| <= excess then 0 else |invalid| - excess;
      && t == 0 && |winners| == |valid| - kept
      && (forall x: int :: x in winners <==> 0 <= x < |valid| && (valid[x] || x in invalid[kept..]))
  {
    InvalidSound(valid);
    NoRoundsNeeded(valid, winnerCount, p, e, t);
    NegativeTruncation(|valid|, Invalid(valid), |valid| - winnerCount);
    forall x: int | 0 <= x < |valid|
      ensures x !in Invalid(valid) <==> valid[x]
    {
    }
  }

  lemma NegativeTruncation(n: nat, out: seq<int>, k: int)
    requires Sound(n, out) && k < 0
    ensures var kept, winners := if |out| + k >= 0 then |out| + k else 0, Remaining(n, Prefix(out, k));
      |winners| == n - kept && (forall x :: x in winners <==> 0 <= x < n && (x !in out || x in out[kept..]))
  {
    NegativePrefix(out, k);
    TruncationBringsBack(n, out, if |out| + k >= 0 then |out| + k else 0);
  }

  lemma NegativePrefix(s: seq<int>, k: int)
    requires k < 0
    ensures Prefix(s, k) == s[..if |s| + k >= 0 then |s| + k else 0]
  {
  }
}
