/** Pairwise compatibility of parts and the least-compatible member of a group
    (backend/app/utils/algoritmo_asignacion.py:15-52, 165-201). */
module Compatibility {
  import opened Common
  import opened Parts

  /** es_redondo: a tool number whose text starts with "1" (a round punch). No
      score or matcher of the engine consults it. */
  function IsRound(toolNumber: string): (r: bool)
    ensures r ==> |toolNumber| > 0 && toolNumber[0] == '1'
    ensures |toolNumber| > 0 && toolNumber[0] == '1' ==> r
  {
    "1" <= toolNumber
  }

  /** The tool test of the score: both tool sets non-empty and intersecting. */
  predicate SharesTool(a: Part, b: Part)
  {
    ToolNumbers(a) != {} && ToolNumbers(b) != {} && ToolNumbers(a) * ToolNumbers(b) != {}
  }

  /** calcular_score_compatibilidad: 30 for equal thickness, 30 for equal sheet
      size, 40 for a shared tool number. */
  function Score(a: Part, b: Part): (r: nat)
    ensures r in {0, 30, 40, 60, 70, 100}
  {
    (if a.thickness == b.thickness then 30 else 0)
    + (if a.sheetSize == b.sheetSize then 30 else 0)
    + (if SharesTool(a, b) then 40 else 0)
  }

  /** The two parts have some tool number in common. */
  ghost predicate CommonTool(a: Part, b: Part)
  {
    exists n :: n in ToolNumbers(a) && n in ToolNumbers(b)
  }

  /** What each score means: 40 of it is present iff the parts have a tool
      number in common; the default threshold 70 needs a common tool and one
      equal dimension; 100 needs all three and 0 none. */
  lemma ScoreMeaning(a: Part, b: Part)
    ensures Score(a, b) in {40, 70, 100} <==> CommonTool(a, b)
    ensures Score(a, b) >= 70 <==> CommonTool(a, b) && (a.thickness == b.thickness || a.sheetSize == b.sheetSize)
    ensures Score(a, b) == 100 <==> CommonTool(a, b) && a.thickness == b.thickness && a.sheetSize == b.sheetSize
    ensures Score(a, b) == 0 <==> !CommonTool(a, b) && a.thickness != b.thickness && a.sheetSize != b.sheetSize
  {
    if n :| n in ToolNumbers(a) && n in ToolNumbers(b) {
      assert n in ToolNumbers(a) * ToolNumbers(b);
    }
  }

  lemma ScoreSymmetric(a: Part, b: Part)
    ensures Score(a, b) == Score(b, a)
  {
    assert ToolNumbers(a) * ToolNumbers(b) == ToolNumbers(b) * ToolNumbers(a);
  }

  // ---------------------------------------------------------------------------
  // Mean score of a member against the others (identificar_parte_menos_compatible)

  function ScoreAgainst(x: Part): Part -> real
  {
    (p: Part) => Score(x, p) as real
  }

  /** The members of g other than the one at position i. */
  function Others(g: seq<Part>, i: nat): (r: seq<Part>)
    requires i < |g|
    ensures |r| == |g| - 1
  {
    g[..i] + g[i + 1..]
  }

  /** The average score of g[i] against every other member (0 for a lone member). */
  function MeanScore(g: seq<Part>, i: nat): (r: real)
    requires i < |g|
    ensures 0.0 <= r <= 100.0
  {
    var others := Others(g, i);
    if |others| > 0 then
      SumOfBounds(others, ScoreAgainst(g[i]), 0.0, 100.0);
      MeanOfBounded(SumOf(others, ScoreAgainst(g[i])), |others|, 0.0, 100.0);
      SumOf(others, ScoreAgainst(g[i])) / |others| as real
    else 0.0
  }

  /** g[k] has the lowest mean score, and every earlier member a strictly higher one. */
  ghost predicate IsLeastCompatible(g: seq<Part>, k: nat)
    requires k < |g|
  {
    (forall j :: 0 <= j < |g| ==> MeanScore(g, k) <= MeanScore(g, j))
    && (forall j :: 0 <= j < k ==> MeanScore(g, j) > MeanScore(g, k))
  }

  function MeanOf(x: (real, Part)): real
  {
    x.0
  }

  /** The (mean score, member) pairs, in group order. */
  function MeanPairs(g: seq<Part>): (r: seq<(real, Part)>)
    ensures |r| == |g|
  {
    seq(|g|, i requires 0 <= i < |g| => (MeanScore(g, i), g[i]))
  }

  lemma MeanPairsAt(g: seq<Part>, i: nat)
    requires i < |g|
    ensures MeanPairs(g)[i] == (MeanScore(g, i), g[i])
  {
  }

  /** identificar_parte_menos_compatible: nothing for an empty group, the only
      member of a singleton, otherwise the head of the pairs sorted (stably) by
      mean score. */
  function LeastCompatible(g: seq<Part>): (r: Option<Part>)
    ensures r == None <==> |g| == 0
    ensures r.Some? ==> r.value in g
  {
    if |g| == 0 then None
    else if |g| == 1 then Some(g[0])
    else
      var s := SortBy(MeanPairs(g), MeanOf);
      assert s[0] in multiset(MeanPairs(g));
      Some(s[0].1)
  }

  /** The earliest position whose pair carries key u. */
  lemma FirstWithMean(ps: seq<(real, Part)>, u: real) returns (k: nat)
    requires exists i :: 0 <= i < |ps| && MeanOf(ps[i]) == u
    ensures k < |ps| && MeanOf(ps[k]) == u
    ensures forall j :: 0 <= j < k ==> MeanOf(ps[j]) != u
  {
    k := 0;
    while MeanOf(ps[k]) != u
      invariant k < |ps|
      invariant forall j :: 0 <= j < k ==> MeanOf(ps[j]) != u
      invariant exists i :: k <= i < |ps| && MeanOf(ps[i]) == u
      decreases |ps| - k
    {
      k := k + 1;
    }
  }

  /** The member returned is one of lowest mean score, and the earliest such
      member, because the sort is stable. */
  lemma {:induction false} LeastCompatibleIsLeast(g: seq<Part>)
    requires |g| > 0
    ensures exists k :: 0 <= k < |g| && LeastCompatible(g) == Some(g[k]) && IsLeastCompatible(g, k)
  {
    if |g| == 1 {
      assert IsLeastCompatible(g, 0);
    } else {
      var ps := MeanPairs(g);
      var k := SortedHeadPosition(ps);
      MeanPairsAt(g, k);
      assert IsLeastCompatible(g, k) by {
        forall j | 0 <= j < |g| ensures MeanScore(g, k) <= MeanScore(g, j) {
          MeanPairsAt(g, j);
        }
        forall j | 0 <= j < k ensures MeanScore(g, j) > MeanScore(g, k) {
          MeanPairsAt(g, j);
        }
      }
    }
  }

  /** The head of the pairs sorted by mean is the earliest pair of lowest mean. */
  lemma SortedHeadPosition(ps: seq<(real, Part)>) returns (k: nat)
    requires |ps| > 0
    ensures k < |ps| && SortBy(ps, MeanOf)[0] == ps[k]
    ensures forall j :: 0 <= j < |ps| ==> MeanOf(ps[k]) <= MeanOf(ps[j])
    ensures forall j :: 0 <= j < k ==> MeanOf(ps[j]) > MeanOf(ps[k])
  {
    var s := SortBy(ps, MeanOf);
    var m := MeanOf(s[0]);
    assert s[0] in multiset(ps);
    k := FirstWithMean(ps, m);
    WithKeyHead(s, MeanOf, m, 0);
    WithKeyHead(ps, MeanOf, m, k);
    SortByStable(ps, MeanOf, m);
    forall j | 0 <= j < |ps|
      ensures m <= MeanOf(ps[j])
    {
      assert ps[j] in ps;
      SortedHeadIsLeast(ps, s, MeanOf, ps[j]);
    }
  }

  // ---------------------------------------------------------------------------
  // Average pairwise compatibility (encontrar_compatibilidad_promedio_grupo)

  /** The scores of g[i] against each later member, in order. */
  function RowScores(g: seq<Part>, i: nat): (r: seq<real>)
    requires i < |g|
    ensures |r| == |g| - i - 1
  {
    seq(|g| - i - 1, k requires 0 <= k < |g| - i - 1 => Score(g[i], g[i + 1 + k]) as real)
  }

  /** The scores of every pair i < j with i < n, row by row. */
  function PairScores(g: seq<Part>, n: nat): seq<real>
    requires n <= |g|
  {
    if n == 0 then [] else PairScores(g, n - 1) + RowScores(g, n - 1)
  }

  function Id(x: real): real
  {
    x
  }

  /** Arithmetic mean of a list of numbers; 0 for the empty list. */
  function Mean(s: seq<real>): real
  {
    if |s| > 0 then SumOf(s, Id) / |s| as real else 0.0
  }

  /** Every entry of the pair list is the score of a pair i < j. */
  lemma {:induction false} PairScoresArePairs(g: seq<Part>, n: nat, x: real)
    requires n <= |g| && x in PairScores(g, n)
    ensures exists i, j :: 0 <= i < j < |g| && x == Score(g[i], g[j]) as real
    decreases n
  {
    if x in PairScores(g, n - 1) {
      PairScoresArePairs(g, n - 1, x);
    } else {
      var row := RowScores(g, n - 1);
      assert x in row;
      var k :| 0 <= k < |row| && row[k] == x;
      assert x == Score(g[n - 1], g[n + k]) as real;
    }
  }

  lemma {:induction false} PairScoresNonEmpty(g: seq<Part>, n: nat)
    requires 1 <= n <= |g| && |g| >= 2
    ensures |PairScores(g, n)| > 0
    decreases n
  {
    if n > 1 {
      PairScoresNonEmpty(g, n - 1);
    } else {
      assert PairScores(g, 0) == [];
    }
  }

  ghost predicate AllPairsAtLeast(g: seq<Part>, u: real)
  {
    forall i, j :: 0 <= i < j < |g| ==> Score(g[i], g[j]) as real >= u
  }

  ghost predicate AllPairsAtMost(g: seq<Part>, u: real)
  {
    forall i, j :: 0 <= i < j < |g| ==> Score(g[i], g[j]) as real <= u
  }

  /** The average pairwise score lies between any lower and any upper bound of
      the pair scores (so within [0, 100]). */
  lemma PairMeanBetween(g: seq<Part>, lo: real, hi: real)
    requires |g| >= 2 && AllPairsAtLeast(g, lo) && AllPairsAtMost(g, hi)
    ensures lo <= Mean(PairScores(g, |g|)) <= hi
  {
    PairScoresBounded(g, lo, hi);
    PairScoresNonEmpty(g, |g|);
    MeanBetween(PairScores(g, |g|), lo, hi);
  }

  /** The mean of a non-empty list lies between any bounds of its entries. */
  lemma MeanBetween(s: seq<real>, lo: real, hi: real)
    requires |s| > 0 && forall x :: x in s ==> lo <= Id(x) <= hi
    ensures lo <= Mean(s) <= hi
  {
    SumOfBounds(s, Id, lo, hi);
    MeanOfBounded(SumOf(s, Id), |s|, lo, hi);
  }

  lemma PairScoresBounded(g: seq<Part>, lo: real, hi: real)
    requires AllPairsAtLeast(g, lo) && AllPairsAtMost(g, hi)
    ensures forall x :: x in PairScores(g, |g|) ==> lo <= Id(x) <= hi
  {
    forall x | x in PairScores(g, |g|)
      ensures lo <= Id(x) <= hi
    {
      PairScoresArePairs(g, |g|, x);
      var i, j :| 0 <= i < j < |g| && x == Score(g[i], g[j]) as real;
    }
  }

  lemma MeanOfBounded(total: real, count: nat, lo: real, hi: real)
    requires count > 0 && lo * count as real <= total <= hi * count as real
    ensures lo <= total / count as real <= hi
  {
    var c := count as real;
    assert total / c * c == total;
    assert (total / c - lo) * c >= 0.0;
    assert (hi - total / c) * c >= 0.0;
  }

  /** encontrar_compatibilidad_promedio_grupo: 100 for fewer than two members,
      otherwise the mean of the scores of all pairs i < j, collected row by row. */
  method AverageGroupCompatibility(g: seq<Part>) returns (r: real)
    ensures |g| <= 1 ==> r == 100.0
    ensures |g| >= 2 ==> r == Mean(PairScores(g, |g|))
  {
    if |g| <= 1 {
      return 100.0;
    }
    var scores: seq<real> := [];
    var i := 0;
    while i < |g|
      invariant 0 <= i <= |g|
      invariant scores == PairScores(g, i)
    {
      var j := i + 1;
      while j < |g|
        invariant i + 1 <= j <= |g|
        invariant scores == PairScores(g, i) + RowScores(g, i)[..j - i - 1]
      {
        assert RowScores(g, i)[..j - i] == RowScores(g, i)[..j - i - 1] + [Score(g[i], g[j]) as real];
        scores := scores + [Score(g[i], g[j]) as real];
        j := j + 1;
      }
      assert RowScores(g, i)[..j - i - 1] == RowScores(g, i);
      i := i + 1;
    }
    r := if |scores| > 0 then SumOf(scores, Id) / |scores| as real else 0.0;
  }

  /** The result of AverageGroupCompatibility is a score between 0 and 100, and
      at least (at most) any bound that every pair score meets. */
  lemma AverageGroupCompatibilityBounds(g: seq<Part>, lo: real, hi: real)
    requires |g| >= 2
    ensures 0.0 <= Mean(PairScores(g, |g|)) <= 100.0
    ensures AllPairsAtLeast(g, lo) && AllPairsAtMost(g, hi) ==> lo <= Mean(PairScores(g, |g|)) <= hi
  {
    PairMeanBetween(g, 0.0, 100.0);
    if AllPairsAtLeast(g, lo) && AllPairsAtMost(g, hi) {
      PairMeanBetween(g, lo, hi);
    }
  }
}
