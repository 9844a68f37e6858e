/** The comparative scoring engine of the judge: the inverse 3..10 scale for latency and
    cost, the 25/25/50 weighted total, the stable sort of the three totals and the winner. */
module Scoring {
  import opened Types

  /** `Math.round`: the nearest integer, halves rounded toward +infinity. */
  function Round(x: real): (n: int)
    ensures n as real - 0.5 <= x < n as real + 0.5
  {
    (x + 0.5).Floor
  }

  lemma RoundMonotone(x: real, y: real)
    requires x <= y
    ensures Round(x) <= Round(y)
  {
  }

  /** The `filter(v => v > 0)` step: the positive values, in order. */
  function Positives(vs: seq<real>): (r: seq<real>)
    ensures |r| <= |vs|
    ensures forall v :: v in r <==> v in vs && v > 0.0
  {
    if vs == [] then [] else (if vs[0] > 0.0 then [vs[0]] else []) + Positives(vs[1..])
  }

  /** `Math.max(...vs, sentinel)`. */
  function MaxWith(vs: seq<real>, sentinel: real): (m: real)
    ensures sentinel <= m && forall v :: v in vs ==> v <= m
    ensures m == sentinel || m in vs
  {
    if vs == [] then sentinel
    else
      var rest := MaxWith(vs[1..], sentinel);
      assert vs == [vs[0]] + vs[1..];
      if vs[0] > rest then vs[0] else rest
  }

  /** `Math.min(...vs, sentinel)`. */
  function MinWith(vs: seq<real>, sentinel: real): (m: real)
    ensures m <= sentinel && forall v :: v in vs ==> m <= v
    ensures m == sentinel || m in vs
  {
    if vs == [] then sentinel
    else
      var rest := MinWith(vs[1..], sentinel);
      assert vs == [vs[0]] + vs[1..];
      if vs[0] < rest then vs[0] else rest
  }

  /** The minimum and maximum a metric is scaled between. */
  datatype Scale = Scale(lo: real, hi: real)

  /** The scale of one metric over the three providers: minimum and maximum of its
      positive values together with a sentinel. */
  function ScaleOf(vs: seq<real>, sentinel: real): (sc: Scale)
    ensures sc.lo <= sentinel <= sc.hi
    ensures forall v :: v in vs && v > 0.0 ==> sc.lo <= v <= sc.hi
    ensures sc.lo == sentinel || (sc.lo in vs && sc.lo > 0.0)
    ensures sc.hi == sentinel || (sc.hi in vs && sc.hi > 0.0)
  {
    var ps := Positives(vs);
    Scale(MinWith(ps, sentinel), MaxWith(ps, sentinel))
  }

  /** The sentinel joined to the latencies (milliseconds). */
  const LatencySentinel: real := 1.0
  /** The sentinel joined to the costs (dollars). */
  const CostSentinel: real := 0.001

  /** `latencyScore` / `costScore`: 0 for a missing value, 10 when the scale is flat,
      otherwise the value mapped linearly from [lo, hi] onto [10, 3] and rounded. */
  function InverseScore(v: real, sc: Scale): int {
    if v == 0.0 then 0
    else if sc.hi == sc.lo then 10
    else Round(10.0 - ((v - sc.lo) / (sc.hi - sc.lo)) * 7.0)
  }

  lemma DivideBetween(a: real, d: real)
    requires 0.0 <= a <= d && d > 0.0
    ensures 0.0 <= a / d <= 1.0
  {
  }

  lemma DivideMonotone(a: real, b: real, d: real)
    requires a <= b && d > 0.0
    ensures a / d <= b / d
  {
  }

  /** A present value within the scale scores between 3 and 10. */
  lemma ScoreInRange(v: real, sc: Scale)
    requires v != 0.0 && sc.lo <= v <= sc.hi
    ensures 3 <= InverseScore(v, sc) <= 10
  {
    if sc.hi != sc.lo {
      DivideBetween(v - sc.lo, sc.hi - sc.lo);
    }
  }

  /** The maximum scores exactly 3 and the minimum exactly 10 on a non-flat scale; on
      a flat scale every present value scores 10. */
  /** Rounding lets a value near the minimum score 10 as well: on the scale from 1 to
      800, 58 still scores 10 and 59 scores 9. */
  lemma RoundingToTen()
    ensures InverseScore(58.0, Scale(1.0, 800.0)) == 10
    ensures InverseScore(59.0, Scale(1.0, 800.0)) == 9
  {
    assert 10.0 - ((58.0 - 1.0) / (800.0 - 1.0)) * 7.0 == 7591.0 / 799.0;
    assert 10.0 - ((59.0 - 1.0) / (800.0 - 1.0)) * 7.0 == 7584.0 / 799.0;
  }

  lemma ScoreAtExtremes(v: real, sc: Scale)
    requires v != 0.0
    ensures sc.hi == sc.lo ==> InverseScore(v, sc) == 10
    ensures sc.lo < sc.hi && v == sc.hi ==> InverseScore(v, sc) == 3
    ensures sc.lo < sc.hi && v == sc.lo ==> InverseScore(v, sc) == 10
  {
    if sc.lo < sc.hi && v == sc.hi {
      assert (v - sc.lo) / (sc.hi - sc.lo) == 1.0;
    }
  }

  /** Inverse monotonicity: of two present values the smaller never scores lower. */
  lemma ScoreAntitone(v1: real, v2: real, sc: Scale)
    requires v1 != 0.0 && v2 != 0.0 && v1 <= v2 && sc.lo <= sc.hi
    ensures InverseScore(v1, sc) >= InverseScore(v2, sc)
  {
    if sc.lo < sc.hi {
      DivideMonotone(v1 - sc.lo, v2 - sc.lo, sc.hi - sc.lo);
      RoundMonotone(10.0 - ((v2 - sc.lo) / (sc.hi - sc.lo)) * 7.0,
                    10.0 - ((v1 - sc.lo) / (sc.hi - sc.lo)) * 7.0);
    }
  }

  /** `calculateTotal`: latency 25%, cost 25%, accuracy 50%, rounded. */
  function Total(latencyScore: int, costScore: int, accuracy: real): (t: int)
    ensures 0 <= latencyScore <= 10 && 0 <= costScore <= 10 && 0.0 <= accuracy <= 10.0 ==> 0 <= t <= 10
    ensures latencyScore == 0 && costScore == 0 && 0.0 <= accuracy <= 10.0 ==> 0 <= t <= 5
  {
    Round(latencyScore as real * 0.25 + costScore as real * 0.25 + accuracy * 0.5)
  }

  /** A better score on any axis never lowers the total. */
  lemma TotalMonotone(l1: int, c1: int, a1: real, l2: int, c2: int, a2: real)
    requires l1 <= l2 && c1 <= c2 && a1 <= a2
    ensures Total(l1, c1, a1) <= Total(l2, c2, a2)
  {
    RoundMonotone(l1 as real * 0.25 + c1 as real * 0.25 + a1 * 0.5,
                  l2 as real * 0.25 + c2 as real * 0.25 + a2 * 0.5);
  }

  /** One entry of the `scores` array that is sorted to find the winner. */
  datatype ScoreEntry = ScoreEntry(provider: Provider, total: int)

  /** The outcome of a comparison. */
  datatype Winner = Win(provider: Provider) | Tie

  /** Position of a provider in the `scores` array before sorting. */
  function SourceRank(p: Provider): nat {
    match p
    case Parallel => 0
    case OpenAI => 1
    case Exa => 2
  }

  /** Inserts `x` before the first entry whose total is not greater than its own. */
  function InsertDesc(x: ScoreEntry, s: seq<ScoreEntry>): (r: seq<ScoreEntry>)
    ensures multiset(r) == multiset(s) + multiset{x}
    ensures |r| == |s| + 1
  {
    if s == [] || x.total >= s[0].total then [x] + s
    else
      assert s == [s[0]] + s[1..];
      [s[0]] + InsertDesc(x, s[1..])
  }

  /** The stable sort by descending total, `sort((a, b) => b.total - a.total)`: an
      insertion sort that places each entry ahead of the later ones of equal total. */
  function SortDesc(s: seq<ScoreEntry>): (r: seq<ScoreEntry>)
    ensures multiset(r) == multiset(s)
    ensures |r| == |s|
  {
    if s == [] then []
    else
      assert s == [s[0]] + s[1..];
      InsertDesc(s[0], SortDesc(s[1..]))
  }

  /** `a` comes before `b` in a stable descending sort of inputs in source order. */
  predicate Precedes(a: ScoreEntry, b: ScoreEntry) {
    a.total > b.total || (a.total == b.total && SourceRank(a.provider) < SourceRank(b.provider))
  }

  predicate LexOrdered(s: seq<ScoreEntry>) {
    forall i, j :: 0 <= i < j < |s| ==> Precedes(s[i], s[j])
  }

  predicate InSourceOrder(s: seq<ScoreEntry>) {
    forall i, j :: 0 <= i < j < |s| ==> SourceRank(s[i].provider) < SourceRank(s[j].provider)
  }

  lemma {:induction false} InsertDescOrdered(x: ScoreEntry, s: seq<ScoreEntry>)
    requires LexOrdered(s)
    requires forall e :: e in s ==> SourceRank(x.provider) < SourceRank(e.provider)
    ensures LexOrdered(InsertDesc(x, s))
  {
    if s == [] || x.total >= s[0].total {
      var r := [x] + s;
      forall i, j | 0 <= i < j < |r|
        ensures Precedes(r[i], r[j])
      {
        if i == 0 {
          assert r[j] == s[j - 1] && r[j] in s;
          assert j - 1 > 0 ==> Precedes(s[0], s[j - 1]);
        } else {
          assert r[i] == s[i - 1] && r[j] == s[j - 1];
        }
      }
    } else {
      var tail := InsertDesc(x, s[1..]);
      forall e | e in s[1..]
        ensures SourceRank(x.provider) < SourceRank(e.provider)
      {
        assert e in s;
      }
      assert LexOrdered(s[1..]) by {
        forall i, j | 0 <= i < j < |s[1..]|
          ensures Precedes(s[1..][i], s[1..][j])
        {
          assert s[1..][i] == s[i + 1] && s[1..][j] == s[j + 1];
        }
      }
      InsertDescOrdered(x, s[1..]);
      var r := [s[0]] + tail;
      forall i, j | 0 <= i < j < |r|
        ensures Precedes(r[i], r[j])
      {
        if i == 0 {
          assert r[j] == tail[j - 1] && r[j] in multiset(tail);
          assert r[j] == x || r[j] in multiset(s[1..]);
          if r[j] != x {
            assert r[j] in s[1..];
            var k :| 0 <= k < |s[1..]| && s[1..][k] == r[j];
            assert s[k + 1] == r[j];
          }
        } else {
          assert r[i] == tail[i - 1] && r[j] == tail[j - 1];
        }
      }
    }
  }

  /** Sorting entries listed in source order orders them by descending total and, among
      equal totals, keeps source order: the sort is stable. */
  lemma {:induction false} SortDescOrdered(s: seq<ScoreEntry>)
    requires InSourceOrder(s)
    ensures LexOrdered(SortDesc(s))
  {
    if s != [] {
      var rest := s[1..];
      assert InSourceOrder(rest) by {
        forall i, j | 0 <= i < j < |rest|
          ensures SourceRank(rest[i].provider) < SourceRank(rest[j].provider)
        {
          assert rest[i] == s[i + 1] && rest[j] == s[j + 1];
        }
      }
      SortDescOrdered(rest);
      forall e | e in SortDesc(rest)
        ensures SourceRank(s[0].provider) < SourceRank(e.provider)
      {
        assert e in multiset(SortDesc(rest));
        assert e in rest;
        var k :| 0 <= k < |rest| && rest[k] == e;
        assert s[k + 1] == e;
      }
      InsertDescOrdered(s[0], SortDesc(rest));
    }
  }

  /** The `scores` array as built, in source order parallel, openai, exa. */
  function InitialScores(parallel: int, openai: int, exa: int): seq<ScoreEntry> {
    [ScoreEntry(Parallel, parallel), ScoreEntry(OpenAI, openai), ScoreEntry(Exa, exa)]
  }

  function TotalOf(parallel: int, openai: int, exa: int, p: Provider): int {
    match p
    case Parallel => parallel
    case OpenAI => openai
    case Exa => exa
  }

  /** `scores.map(s => s.provider)`. */
  function RankingOf(sorted: seq<ScoreEntry>): seq<Provider> {
    seq(|sorted|, i requires 0 <= i < |sorted| => sorted[i].provider)
  }

  /** The winner as decided on the sorted scores: the three-way equality check and the
      top-two check both give a tie. */
  function WinnerOf(sorted: seq<ScoreEntry>): Winner
    requires |sorted| == 3
  {
    if sorted[0].total == sorted[1].total && sorted[1].total == sorted[2].total then Tie
    else if sorted[0].total == sorted[1].total then Tie
    else Win(sorted[0].provider)
  }

  /** The sorted `scores` array for three totals. */
  function SortedScores(parallel: int, openai: int, exa: int): seq<ScoreEntry> {
    SortDesc(InitialScores(parallel, openai, exa))
  }

  lemma SortedScoresFacts(tp: int, to: int, te: int)
    ensures var s := SortedScores(tp, to, te);
      && |s| == 3
      && LexOrdered(s)
      && (forall i :: 0 <= i < 3 ==> s[i].total == TotalOf(tp, to, te, s[i].provider))
      && (forall p :: p in RankingOf(s))
  {
    var init := InitialScores(tp, to, te);
    SortDescOrdered(init);
    SortedTotals(tp, to, te);
    SortedCovers(tp, to, te);
  }

  /** Each sorted entry carries its own provider's total. */
  lemma SortedTotals(tp: int, to: int, te: int)
    ensures var s := SortedScores(tp, to, te);
      |s| == 3 && forall i :: 0 <= i < 3 ==> s[i].total == TotalOf(tp, to, te, s[i].provider)
  {
    var init := InitialScores(tp, to, te);
    var s := SortedScores(tp, to, te);
    forall i | 0 <= i < 3
      ensures s[i].total == TotalOf(tp, to, te, s[i].provider)
    {
      assert s[i] in multiset(init);
      assert s[i] == init[0] || s[i] == init[1] || s[i] == init[2];
    }
  }

  /** Each provider appears in the ranking. */
  lemma SortedCovers(tp: int, to: int, te: int)
    ensures forall p :: p in RankingOf(SortedScores(tp, to, te))
  {
    var init := InitialScores(tp, to, te);
    var s := SortedScores(tp, to, te);
    var r := RankingOf(s);
    forall p
      ensures p in r
    {
      var e := ScoreEntry(p, TotalOf(tp, to, te, p));
      assert e in multiset(init) by {
        match p
        case Parallel => assert init[0] == e;
        case OpenAI => assert init[1] == e;
        case Exa => assert init[2] == e;
      }
      assert e in s;
      var k :| 0 <= k < 3 && s[k] == e;
      assert r[k] == p;
    }
  }

  /** The ranking lists each of the three providers exactly once, by non-increasing total,
      and providers with equal totals in the order parallel, openai, exa. */
  lemma RankingProperties(tp: int, to: int, te: int)
    ensures var r := RankingOf(SortedScores(tp, to, te));
      && |r| == 3
      && Parallel in r && OpenAI in r && Exa in r
      && (forall i, j :: 0 <= i < j < 3 ==> r[i] != r[j])
      && (forall i, j :: 0 <= i < j < 3 ==> TotalOf(tp, to, te, r[i]) >= TotalOf(tp, to, te, r[j]))
      && (forall i, j :: 0 <= i < j < 3 && TotalOf(tp, to, te, r[i]) == TotalOf(tp, to, te, r[j]) ==>
            SourceRank(r[i]) < SourceRank(r[j]))
  {
    var s := SortedScores(tp, to, te);
    SortedScoresFacts(tp, to, te);
    var r := RankingOf(s);
    assert forall i :: 0 <= i < 3 ==> r[i] == s[i].provider;
    assert Parallel in r && OpenAI in r && Exa in r;
    forall i, j | 0 <= i < j < 3
      ensures r[i] != r[j]
      ensures TotalOf(tp, to, te, r[i]) >= TotalOf(tp, to, te, r[j])
    {
      assert Precedes(s[i], s[j]);
    }
  }

  /** The winner is a tie exactly when the top two totals are equal, and otherwise the
      provider ranked first, which is the one whose total beats both others. */
  lemma WinnerProperties(tp: int, to: int, te: int)
    ensures var s := SortedScores(tp, to, te);
      var r := RankingOf(s);
      var w := WinnerOf(s);
      && |r| == 3
      && (w == Tie <==> TotalOf(tp, to, te, r[0]) == TotalOf(tp, to, te, r[1]))
      && (w != Tie ==> w == Win(r[0]))
      && (forall p :: w == Win(p) <==> forall q :: q != p ==> TotalOf(tp, to, te, q) < TotalOf(tp, to, te, p))
  {
    var s := SortedScores(tp, to, te);
    SortedScoresFacts(tp, to, te);
    var r := RankingOf(s);
    assert forall i :: 0 <= i < 3 ==> r[i] == s[i].provider;
    forall p
      ensures WinnerOf(s) == Win(p) <==> forall q :: q != p ==> TotalOf(tp, to, te, q) < TotalOf(tp, to, te, p)
    {
      WinnerBeatsOthers(tp, to, te, p);
    }
  }

  /** The provider that wins is the one whose total beats both others. */
  lemma WinnerBeatsOthers(tp: int, to: int, te: int, p: Provider)
    ensures var w := WinnerOf(SortedScores(tp, to, te));
      w == Win(p) <==> forall q :: q != p ==> TotalOf(tp, to, te, q) < TotalOf(tp, to, te, p)
  {
    var s := SortedScores(tp, to, te);
    SortedScoresFacts(tp, to, te);
    RankingProperties(tp, to, te);
    var r := RankingOf(s);
    var w := WinnerOf(s);
    assert r[0] == s[0].provider && r[1] == s[1].provider && r[2] == s[2].provider;
    assert s[0].total >= s[1].total >= s[2].total by {
      assert Precedes(s[0], s[1]) && Precedes(s[1], s[2]);
    }
    assert r[0] != r[1] && r[1] != r[2] && r[0] != r[2];
    if w == Win(p) {
      assert p == r[0] && s[0].total > s[1].total;
      forall q | q != p
        ensures TotalOf(tp, to, te, q) < TotalOf(tp, to, te, p)
      {
        assert q in r;
        assert q == r[1] || q == r[2];
      }
    }
    if forall q :: q != p ==> TotalOf(tp, to, te, q) < TotalOf(tp, to, te, p) {
      assert p in r;
      var k :| 0 <= k < 3 && r[k] == p;
      assert TotalOf(tp, to, te, r[0]) >= TotalOf(tp, to, te, r[k]);
      assert p == r[0];
      assert TotalOf(tp, to, te, r[1]) < TotalOf(tp, to, te, p);
    }
  }

  /** `sort` on the three-entry `scores` array in place: three compare-and-swap steps,
      each swapping only on a strictly greater total, so equal totals keep their order. */
  method SortScores(a: array<ScoreEntry>)
    requires a.Length == 3
    modifies a
    ensures a[..] == SortDesc(old(a[..]))
  {
    ghost var s0 := a[..];
    if a[0].total < a[1].total {
      a[0], a[1] := a[1], a[0];
    }
    ghost var s1 := a[..];
    assert s1 == SwapFirst(s0);
    if a[1].total < a[2].total {
      a[1], a[2] := a[2], a[1];
    }
    ghost var s2 := a[..];
    assert s2 == SwapSecond(s1);
    if a[0].total < a[1].total {
      a[0], a[1] := a[1], a[0];
    }
    assert a[..] == SwapFirst(s2);
    assert s0 == [s0[0], s0[1], s0[2]];
    BubbleSorts(s0[0], s0[1], s0[2]);
  }

  /** The compare-and-swap step on the first two of three entries. */
  ghost function SwapFirst(s: seq<ScoreEntry>): seq<ScoreEntry>
    requires |s| == 3
  {
    if s[0].total < s[1].total then [s[1], s[0], s[2]] else s
  }

  /** The compare-and-swap step on the last two of three entries. */
  ghost function SwapSecond(s: seq<ScoreEntry>): seq<ScoreEntry>
    requires |s| == 3
  {
    if s[1].total < s[2].total then [s[0], s[2], s[1]] else s
  }

  /** The three steps sort exactly as the stable sort does. */
  lemma BubbleSorts(x: ScoreEntry, y: ScoreEntry, z: ScoreEntry)
    ensures SwapFirst(SwapSecond(SwapFirst([x, y, z]))) == SortDesc([x, y, z])
  {
    BubbleClosed(x, y, z);
    SortDescThree(x, y, z);
  }

  /** The three steps give the case-by-case form. */
  lemma BubbleClosed(x: ScoreEntry, y: ScoreEntry, z: ScoreEntry)
    ensures SwapFirst(SwapSecond(SwapFirst([x, y, z]))) == Sort3(x, y, z)
  {
    if x.total < y.total {
      assert SwapFirst([x, y, z]) == [y, x, z];
      if x.total < z.total {
        assert SwapSecond([y, x, z]) == [y, z, x];
        if y.total < z.total {
          assert SwapFirst([y, z, x]) == [z, y, x];
        } else {
          assert SwapFirst([y, z, x]) == [y, z, x];
        }
      } else {
        assert SwapSecond([y, x, z]) == [y, x, z];
        assert SwapFirst([y, x, z]) == [y, x, z];
      }
    } else {
      assert SwapFirst([x, y, z]) == [x, y, z];
      if y.total < z.total {
        assert SwapSecond([x, y, z]) == [x, z, y];
        if x.total < z.total {
          assert SwapFirst([x, z, y]) == [z, x, y];
        } else {
          assert SwapFirst([x, z, y]) == [x, z, y];
        }
      } else {
        assert SwapSecond([x, y, z]) == [x, y, z];
        assert SwapFirst([x, y, z]) == [x, y, z];
      }
    }
  }

  /** The stable descending sort of three entries, written out case by case. */
  ghost function Sort3(x: ScoreEntry, y: ScoreEntry, z: ScoreEntry): seq<ScoreEntry> {
    if x.total >= y.total then
      if y.total >= z.total then [x, y, z]
      else if x.total >= z.total then [x, z, y]
      else [z, x, y]
    else
      if x.total >= z.total then [y, x, z]
      else if y.total >= z.total then [y, z, x]
      else [z, y, x]
  }

  /** The insertion sort of three entries agrees with the case-by-case form. */
  lemma SortDescThree(x: ScoreEntry, y: ScoreEntry, z: ScoreEntry)
    ensures SortDesc([x, y, z]) == Sort3(x, y, z)
  {
    SortThree([x, y, z]);
    if y.total >= z.total {
      InsertTwo(x, y, z);
    } else {
      InsertTwo(x, z, y);
    }
  }

  lemma InsertTwo(x: ScoreEntry, a: ScoreEntry, b: ScoreEntry)
    ensures InsertDesc(x, [a, b]) ==
      if x.total >= a.total then [x, a, b]
      else if x.total >= b.total then [a, x, b]
      else [a, b, x]
  {
    if x.total >= a.total {
      assert InsertDesc(x, [a, b]) == [x] + [a, b];
      assert [x] + [a, b] == [x, a, b];
    } else {
      InsertAfterFirst(x, a, b);
    }
  }

  lemma InsertAfterFirst(x: ScoreEntry, a: ScoreEntry, b: ScoreEntry)
    requires x.total < a.total
    ensures InsertDesc(x, [a, b]) == if x.total >= b.total then [a, x, b] else [a, b, x]
  {
    InsertBelow(x, [a, b]);
    assert [a, b][1..] == [b];
    InsertOne(x, b);
    if x.total >= b.total {
      assert [a] + [x, b] == [a, x, b];
    } else {
      assert [a] + [b, x] == [a, b, x];
    }
  }

  /** An entry whose total is below the head's goes after the head. */
  lemma InsertBelow(x: ScoreEntry, s: seq<ScoreEntry>)
    requires s != [] && x.total < s[0].total
    ensures InsertDesc(x, s) == [s[0]] + InsertDesc(x, s[1..])
  {
  }

  lemma InsertOne(x: ScoreEntry, b: ScoreEntry)
    ensures InsertDesc(x, [b]) == if x.total >= b.total then [x, b] else [b, x]
  {
    if x.total >= b.total {
      assert InsertDesc(x, [b]) == [x] + [b];
    } else {
      assert [b][0] == b && [b][1..] == [];
      assert InsertDesc(x, []) == [x];
      assert InsertDesc(x, [b]) == [b] + [x];
    }
  }

  lemma SortTwo(y: ScoreEntry, z: ScoreEntry)
    ensures SortDesc([y, z]) == if y.total >= z.total then [y, z] else [z, y]
  {
    assert [z][1..] == [];
    assert SortDesc([z]) == [z];
    assert [y, z][1..] == [z];
    assert InsertDesc(y, [z]) == if y.total >= z.total then [y, z] else [z, y] by {
      assert [z][1..] == [];
    }
  }

  /** The stable sort of three entries in closed form. */
  lemma SortThree(s: seq<ScoreEntry>)
    requires |s| == 3
    ensures var x, y, z := s[0], s[1], s[2];
      var yz := if y.total >= z.total then [y, z] else [z, y];
      SortDesc(s) == InsertDesc(x, yz)
  {
    assert s[1..] == [s[1], s[2]];
    SortTwo(s[1], s[2]);
  }
}
