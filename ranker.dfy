/**
 * The ranker: score every pair that passes the scam filter, sort by score
 * descending with a stable sort (equal scores keep their input order), and
 * keep the top ten.
 */
module Ranker {
  import opened Common
  import opened Pairs
  import opened ScamFilter
  import opened Scoring

  /** How many ranked pairs a cycle reports. */
  const Top: nat := 10

  /** A `(score, pair)` tuple of the source. */
  datatype ScoredPair = ScoredPair(score: real, pair: Pair)

  /** How many of `pairs` pass the scam filter. */
  function PassingCount(pairs: seq<Pair>): nat {
    if pairs == [] then 0
    else PassingCount(pairs[..|pairs| - 1]) + (if IsNotScam(pairs[|pairs| - 1]) then 1 else 0)
  }

  /** The `scored` list the loop builds: passing pairs with their scores, in input order. */
  function ScoreAll(pairs: seq<Pair>, w: WeightVector): (scored: seq<ScoredPair>)
    ensures |scored| == PassingCount(pairs)
    ensures forall i | 0 <= i < |scored| ::
      IsNotScam(scored[i].pair) && scored[i].score == AiScore(scored[i].pair, w) && scored[i].pair in pairs
  {
    if pairs == [] then []
    else
      var p := pairs[|pairs| - 1];
      ScoreAll(pairs[..|pairs| - 1], w) + (if IsNotScam(p) then [ScoredPair(AiScore(p, w), p)] else [])
  }

  predicate NonIncreasing(s: seq<ScoredPair>) {
    forall i, j | 0 <= i < j < |s| :: s[i].score >= s[j].score
  }

  /** The entries of `s` whose score is `k`, in their order in `s`. */
  function WithScore(s: seq<ScoredPair>, k: real): seq<ScoredPair> {
    if s == [] then []
    else (if s[0].score == k then [s[0]] else []) + WithScore(s[1..], k)
  }

  /**
   * `t` is a stable descending sort of `s`: non-increasing, and for every score
   * the entries with that score appear in `t` exactly as in `s`.
   */
  ghost predicate IsStableSortOf(t: seq<ScoredPair>, s: seq<ScoredPair>) {
    NonIncreasing(t) && forall k: real :: WithScore(t, k) == WithScore(s, k)
  }

  /** Puts `x` before the first entry whose score is not larger, so `x` precedes its equals. */
  function Insert(x: ScoredPair, t: seq<ScoredPair>): seq<ScoredPair> {
    if t == [] || t[0].score <= x.score then [x] + t
    else [t[0]] + Insert(x, t[1..])
  }

  /**
   * Python's stable `list.sort(reverse=True, key=score)`, as an insertion sort:
   * the result is a rearrangement of the input, highest score first.
   */
  function SortByScore(s: seq<ScoredPair>): (r: seq<ScoredPair>)
    ensures NonIncreasing(r)
    ensures multiset(r) == multiset(s) && |r| == |s|
  {
    if s == [] then []
    else
      var rest := SortByScore(s[1..]);
      InsertSorted(s[0], rest);
      InsertPermutes(s[0], rest);
      assert s == [s[0]] + s[1..];
      Insert(s[0], rest)
  }

  lemma {:induction false} InsertPermutes(x: ScoredPair, t: seq<ScoredPair>)
    ensures multiset(Insert(x, t)) == multiset([x] + t)
    ensures |Insert(x, t)| == |t| + 1
    decreases |t|
  {
    if t != [] && t[0].score > x.score {
      InsertPermutes(x, t[1..]);
      assert t == [t[0]] + t[1..];
    }
  }

  lemma {:induction false} InsertKeepsPerScore(x: ScoredPair, t: seq<ScoredPair>, k: real)
    ensures WithScore(Insert(x, t), k) == WithScore([x] + t, k)
    decreases |t|
  {
    if t != [] && t[0].score > x.score {
      InsertKeepsPerScore(x, t[1..], k);
      assert ([t[0]] + Insert(x, t[1..]))[1..] == Insert(x, t[1..]);
      assert ([x] + t)[1..] == t;
      assert ([x] + t[1..])[1..] == t[1..];
    }
  }

  /** No entry of `s` scores above `b`. */
  predicate ScoresAtMost(s: seq<ScoredPair>, b: real) {
    forall i | 0 <= i < |s| :: s[i].score <= b
  }

  lemma {:induction false} InsertKeepsBound(x: ScoredPair, t: seq<ScoredPair>, b: real)
    requires x.score <= b && ScoresAtMost(t, b)
    ensures ScoresAtMost(Insert(x, t), b)
    decreases |t|
  {
    if t != [] && t[0].score > x.score {
      assert ScoresAtMost(t[1..], b) by {
        forall i | 0 <= i < |t| - 1 ensures t[1..][i].score <= b {
          assert t[1..][i] == t[i + 1];
        }
      }
      InsertKeepsBound(x, t[1..], b);
      var r := [t[0]] + Insert(x, t[1..]);
      forall i | 0 <= i < |r| ensures r[i].score <= b {
        if i > 0 { assert r[i] == Insert(x, t[1..])[i - 1]; }
      }
    }
  }

  lemma ConsNonIncreasing(y: ScoredPair, s: seq<ScoredPair>)
    requires NonIncreasing(s) && ScoresAtMost(s, y.score)
    ensures NonIncreasing([y] + s)
  {
    var r := [y] + s;
    forall i, j | 0 <= i < j < |r| ensures r[i].score >= r[j].score {
      assert r[j] == s[j - 1];
      if i > 0 { assert r[i] == s[i - 1]; }
    }
  }

  lemma {:induction false} InsertSorted(x: ScoredPair, t: seq<ScoredPair>)
    requires NonIncreasing(t)
    ensures NonIncreasing(Insert(x, t))
    decreases |t|
  {
    if t == [] || t[0].score <= x.score {
      assert ScoresAtMost(t, x.score);
      ConsNonIncreasing(x, t);
    } else {
      NonIncreasingTail(t);
      InsertSorted(x, t[1..]);
      assert ScoresAtMost(t[1..], t[0].score) by {
        forall i | 0 <= i < |t| - 1 ensures t[1..][i].score <= t[0].score {
          assert t[1..][i] == t[i + 1];
        }
      }
      InsertKeepsBound(x, t[1..], t[0].score);
      ConsNonIncreasing(t[0], Insert(x, t[1..]));
    }
  }

  /** The sort is stable: entries with equal scores keep their input order. */
  lemma {:induction false} SortByScoreIsStableSort(s: seq<ScoredPair>)
    ensures IsStableSortOf(SortByScore(s), s)
    decreases |s|
  {
    if s != [] {
      SortByScoreIsStableSort(s[1..]);
      assert s == [s[0]] + s[1..];
      forall k: real ensures WithScore(SortByScore(s), k) == WithScore(s, k) {
        InsertKeepsPerScore(s[0], SortByScore(s[1..]), k);
        assert ([s[0]] + SortByScore(s[1..]))[1..] == SortByScore(s[1..]);
      }
    }
  }

  lemma {:induction false} WithScoreMember(s: seq<ScoredPair>, k: real)
    requires WithScore(s, k) != []
    ensures exists i :: 0 <= i < |s| && s[i].score == k
    decreases |s|
  {
    if s[0].score != k {
      WithScoreMember(s[1..], k);
      var i :| 0 <= i < |s[1..]| && s[1..][i].score == k;
      assert s[i + 1].score == k;
    }
  }

  /** Two non-increasing sequences that agree on every per-score subsequence are equal. */
  lemma {:induction false} StableSortsAgree(a: seq<ScoredPair>, b: seq<ScoredPair>)
    requires NonIncreasing(a) && NonIncreasing(b)
    requires forall k: real :: WithScore(a, k) == WithScore(b, k)
    ensures a == b
    decreases |a|
  {
    if a == [] || b == [] {
      if a != [] {
        assert WithScore(a, a[0].score) != WithScore(b, a[0].score);
      } else if b != [] {
        assert WithScore(a, b[0].score) != WithScore(b, b[0].score);
      }
    } else {
      var m, n := a[0].score, b[0].score;
      assert WithScore(a, m) != [];
      WithScoreMember(b, m);
      assert WithScore(b, n) != [];
      WithScoreMember(a, n);
      assert m == n;
      assert WithScore(a, m) == [a[0]] + WithScore(a[1..], m);
      assert WithScore(b, m) == [b[0]] + WithScore(b[1..], m);
      assert WithScore(a, m) == WithScore(b, m);
      assert WithScore(a, m)[0] == a[0] && WithScore(b, m)[0] == b[0];
      forall k: real ensures WithScore(a[1..], k) == WithScore(b[1..], k) {
        assert WithScore(a, k) == WithScore(b, k);
        assert WithScore(a, k) == (if m == k then [a[0]] else []) + WithScore(a[1..], k);
        assert WithScore(b, k) == (if m == k then [b[0]] else []) + WithScore(b[1..], k);
        var wa, wb := WithScore(a[1..], k), WithScore(b[1..], k);
        if k == m {
          assert ([a[0]] + wa)[1..] == wa;
          assert ([b[0]] + wb)[1..] == wb;
        } else {
          assert [] + wa == wa && [] + wb == wb;
        }
      }
      NonIncreasingTail(a);
      NonIncreasingTail(b);
      StableSortsAgree(a[1..], b[1..]);
      assert a == [a[0]] + a[1..] && b == [b[0]] + b[1..];
    }
  }

  lemma NonIncreasingTail(s: seq<ScoredPair>)
    requires s != [] && NonIncreasing(s)
    ensures NonIncreasing(s[1..])
  {
    forall i, j | 0 <= i < j < |s| - 1 ensures s[1..][i].score >= s[1..][j].score {
      assert s[1..][i] == s[i + 1] && s[1..][j] == s[j + 1];
    }
  }

  /** The stable descending sort of `s` is unique: any such sort is `SortByScore(s)`. */
  lemma StableSortUnique(t: seq<ScoredPair>, s: seq<ScoredPair>)
    requires IsStableSortOf(t, s)
    ensures t == SortByScore(s)
  {
    SortByScoreIsStableSort(s);
    StableSortsAgree(t, SortByScore(s));
  }

  /**
   * `rank_with_ai`: filter and score in a loop, sort, then return everything
   * when fewer than ten pairs survive and the first ten otherwise.
   */
  method RankWithAi(pairs: seq<Pair>, weights: Weights) returns (ranked: seq<ScoredPair>)
    ensures |ranked| == Min(PassingCount(pairs), Top)
    ensures forall i | 0 <= i < |ranked| ::
      IsNotScam(ranked[i].pair) && ranked[i].score == AiScore(ranked[i].pair, weights.Value())
      && ranked[i].pair in pairs
    ensures NonIncreasing(ranked)
    ensures forall t | IsStableSortOf(t, ScoreAll(pairs, weights.Value())) :: ranked <= t
  {
    var w := weights.Value();
    var scored: seq<ScoredPair> := [];
    for i := 0 to |pairs|
      invariant scored == ScoreAll(pairs[..i], w)
    {
      var p := pairs[i];
      assert pairs[..i + 1][..i] == pairs[..i];
      if !IsNotScam(p) {
        continue;
      }
      var score := AiScore(p, w);
      scored := scored + [ScoredPair(score, p)];
    }
    assert pairs[..|pairs|] == pairs;
    ghost var unsorted := scored;
    scored := SortByScore(scored);
    SortByScoreIsStableSort(unsorted);
    forall i | 0 <= i < |scored|
      ensures IsNotScam(scored[i].pair) && scored[i].score == AiScore(scored[i].pair, w) && scored[i].pair in pairs
    {
      assert scored[i] in multiset(unsorted);
      var j :| 0 <= j < |unsorted| && unsorted[j] == scored[i];
    }
    forall t | IsStableSortOf(t, unsorted) ensures t == scored {
      StableSortUnique(t, unsorted);
    }
    if |scored| < 10 {
      ranked := scored;
      return;
    }
    ranked := scored[..Top];
  }
}
