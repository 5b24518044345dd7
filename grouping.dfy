/** Greedy grouping of parts by high compatibility
    (agrupar_por_compatibilidad_alta, backend/app/utils/algoritmo_asignacion.py:72-118). */
module Grouping {
  import opened Common
  import opened Parts
  import opened Compatibility

  function Uph(p: Part): real
  {
    p.uph
  }

  /** Every two different members of the group score at least `umbral`. */
  ghost predicate PairwiseCompatible(g: seq<Part>, umbral: int)
  {
    forall i, j :: 0 <= i < |g| && 0 <= j < |g| && i != j ==> Score(g[i], g[j]) >= umbral
  }

  /** The properties every group keeps while the grouping runs. */
  ghost predicate GoodGroup(g: seq<Part>, umbral: int, limite: int)
  {
    && g != []
    && PairwiseCompatible(g, umbral)
    && (|g| >= 2 ==> UniqueToolCount(g) <= limite)
    && SortedBy(g, Uph)
  }

  /** Whether `parte` scores at least `umbral` against every member of `grupo`,
      checking members in order and stopping at the first failure. */
  method CompatibleWithAll(parte: Part, grupo: seq<Part>, umbral: int) returns (ok: bool)
    ensures ok <==> forall m :: 0 <= m < |grupo| ==> Score(parte, grupo[m]) >= umbral
  {
    ok := true;
    var m := 0;
    while m < |grupo|
      invariant 0 <= m <= |grupo|
      invariant forall m' :: 0 <= m' < m ==> Score(parte, grupo[m']) >= umbral
    {
      if Score(parte, grupo[m]) < umbral {
        return false;
      }
      m := m + 1;
    }
  }

  /** Appending a part that is compatible with every member, no lighter in uph
      than any of them, and within the tool limit keeps a group good. */
  lemma JoinKeepsGood(g: seq<Part>, p: Part, umbral: int, limite: int)
    requires GoodGroup(g, umbral, limite)
    requires forall m :: 0 <= m < |g| ==> Score(p, g[m]) >= umbral
    requires forall x :: x in g ==> x.uph <= p.uph
    requires UniqueToolCount(g + [p]) <= limite
    ensures GoodGroup(g + [p], umbral, limite)
  {
    var h := g + [p];
    forall i, j | 0 <= i < |h| && 0 <= j < |h| && i != j
      ensures Score(h[i], h[j]) >= umbral
    {
      if i == |g| {
        assert h[j] == g[j];
      } else if j == |g| {
        ScoreSymmetric(h[i], p);
        assert h[i] == g[i];
      } else {
        assert h[i] == g[i] && h[j] == g[j];
      }
    }
    forall i, j | 0 <= i < j < |h|
      ensures Uph(h[i]) <= Uph(h[j])
    {
      if j == |g| {
        assert h[i] in g;
      } else {
        assert h[i] == g[i] && h[j] == g[j];
      }
    }
  }

  /** `parte` may join `grupo`: it scores at least `umbral` against every
      member and the group with it uses at most `limite` distinct tools. */
  ghost predicate CanJoin(grupo: seq<Part>, parte: Part, umbral: int, limite: int)
  {
    (forall m :: 0 <= m < |grupo| ==> Score(parte, grupo[m]) >= umbral)
    && UniqueToolCount(grupo + [parte]) <= limite
  }

  /** Position `pos` is where the first-fit rule puts `parte`: the first group
      it can join, or none (-1) when it can join no group. */
  ghost predicate FirstFit(grupos: seq<seq<Part>>, parte: Part, umbral: int, limite: int, pos: int)
  {
    && -1 <= pos < |grupos|
    && (pos >= 0 ==> CanJoin(grupos[pos], parte, umbral, limite))
    && (forall k :: 0 <= k < |grupos| && (pos < 0 || k < pos) ==> !CanJoin(grupos[k], parte, umbral, limite))
  }

  /** The inner loop of the grouping: `parte` joins the first group it can
      join, if any, and every other group is left as it was. */
  method JoinFirstFit(grupos: seq<seq<Part>>, parte: Part, umbral: int, limite: int)
    returns (nuevos: seq<seq<Part>>, pos: int)
    requires forall k :: 0 <= k < |grupos| ==> GoodGroup(grupos[k], umbral, limite)
    requires forall k, x :: 0 <= k < |grupos| && x in grupos[k] ==> x.uph <= parte.uph
    ensures FirstFit(grupos, parte, umbral, limite, pos)
    ensures pos >= 0 ==> nuevos == grupos[pos := grupos[pos] + [parte]]
    ensures pos < 0 ==> nuevos == grupos
    ensures forall k :: 0 <= k < |nuevos| ==> GoodGroup(nuevos[k], umbral, limite)
  {
    var k := 0;
    while k < |grupos|
      invariant 0 <= k <= |grupos|
      invariant forall k' :: 0 <= k' < k ==> !CanJoin(grupos[k'], parte, umbral, limite)
    {
      var grupo := grupos[k];
      var compatible := CompatibleWithAll(parte, grupo, umbral);
      if compatible && UniqueToolCount(grupo + [parte]) <= limite {
        JoinKeepsGood(grupo, parte, umbral, limite);
        nuevos := grupos[k := grupo + [parte]];
        return nuevos, k;
      }
      k := k + 1;
    }
    return grupos, -1;
  }

  /** The first group, from position k on, that `parte` can join, or -1. */
  ghost function FirstFitFrom(grupos: seq<seq<Part>>, parte: Part, umbral: int, limite: int, k: nat): (r: int)
    ensures r == -1 || k <= r < |grupos|
    decreases |grupos| - k
  {
    if k >= |grupos| then -1
    else if CanJoin(grupos[k], parte, umbral, limite) then k
    else FirstFitFrom(grupos, parte, umbral, limite, k + 1)
  }

  /** The search from position k, when no group before k can take the part,
      finds the first-fit position. */
  lemma {:induction false} FirstFitFromIsFirstFit(grupos: seq<seq<Part>>, parte: Part, umbral: int, limite: int, k: nat)
    requires k <= |grupos|
    requires forall j :: 0 <= j < k ==> !CanJoin(grupos[j], parte, umbral, limite)
    ensures FirstFit(grupos, parte, umbral, limite, FirstFitFrom(grupos, parte, umbral, limite, k))
    decreases |grupos| - k
  {
    if k < |grupos| && !CanJoin(grupos[k], parte, umbral, limite) {
      FirstFitFromIsFirstFit(grupos, parte, umbral, limite, k + 1);
    }
  }

  /** The first-fit position is unique. */
  lemma FirstFitUnique(grupos: seq<seq<Part>>, parte: Part, umbral: int, limite: int, a: int, b: int)
    requires FirstFit(grupos, parte, umbral, limite, a) && FirstFit(grupos, parte, umbral, limite, b)
    ensures a == b
  {
  }

  /** One step of the grouping: `parte` joins the first group it can join, or
      else opens a new group at the end. */
  ghost function Join(grupos: seq<seq<Part>>, parte: Part, umbral: int, limite: int): seq<seq<Part>>
  {
    var pos := FirstFitFrom(grupos, parte, umbral, limite, 0);
    if pos >= 0 then grupos[pos := grupos[pos] + [parte]] else grupos + [[parte]]
  }

  /** The groups the grouping has built after the first n parts of the list. */
  ghost function Grouped(ordenadas: seq<Part>, n: nat, umbral: int, limite: int): seq<seq<Part>>
    requires n <= |ordenadas|
  {
    if n == 0 then [] else Join(Grouped(ordenadas, n - 1, umbral, limite), ordenadas[n - 1], umbral, limite)
  }

  /** The body of the grouping loop: `parte` joins the first group it can join
      (every group before it refuses it, and the others are left as they were)
      or else opens a new group at the end. */
  method PlacePart(grupos: seq<seq<Part>>, parte: Part, umbral: int, limite: int)
    returns (nuevos: seq<seq<Part>>)
    requires forall k :: 0 <= k < |grupos| ==> GoodGroup(grupos[k], umbral, limite)
    requires forall k, x :: 0 <= k < |grupos| && x in grupos[k] ==> x.uph <= parte.uph
    ensures nuevos == Join(grupos, parte, umbral, limite)
    ensures multiset(Flatten(nuevos)) == multiset(Flatten(grupos)) + multiset{parte}
    ensures forall k :: 0 <= k < |nuevos| ==> GoodGroup(nuevos[k], umbral, limite)
    ensures forall k, x :: 0 <= k < |nuevos| && x in nuevos[k] ==> x.uph <= parte.uph
  {
    var pos;
    nuevos, pos := JoinFirstFit(grupos, parte, umbral, limite);
    FirstFitFromIsFirstFit(grupos, parte, umbral, limite, 0);
    FirstFitUnique(grupos, parte, umbral, limite, pos, FirstFitFrom(grupos, parte, umbral, limite, 0));
    if pos >= 0 {
      FlattenAppendAt(grupos, pos, parte);
    } else {
      FlattenSnoc(grupos, [parte]);
      nuevos := grupos + [[parte]];
    }
    forall k, x | 0 <= k < |nuevos| && x in nuevos[k]
      ensures x.uph <= parte.uph
    {
      if x != parte {
        assert k < |grupos| && x in grupos[k];
      }
    }
  }

  /** agrupar_por_compatibilidad_alta: parts are taken in ascending uph order
      (stable), and each joins the first group it can join or else opens a new
      group. The result is the first-fit fold over the sorted parts; the
      groups partition the parts; a group of two or more respects the tool
      limit, a lone part may not. */
  method GroupByCompatibility(partes: seq<Part>, umbral: int, limite: int) returns (grupos: seq<seq<Part>>)
    ensures grupos == Grouped(SortBy(partes, Uph), |partes|, umbral, limite)
    ensures multiset(Flatten(grupos)) == multiset(partes)
    ensures forall k :: 0 <= k < |grupos| ==> grupos[k] != []
    ensures forall k :: 0 <= k < |grupos| ==> PairwiseCompatible(grupos[k], umbral)
    ensures forall k :: 0 <= k < |grupos| && |grupos[k]| >= 2 ==> UniqueToolCount(grupos[k]) <= limite
    ensures forall k :: 0 <= k < |grupos| ==> SortedBy(grupos[k], Uph)
  {
    var ordenadas := SortBy(partes, Uph);
    grupos := GroupSorted(ordenadas, umbral, limite);
    GroupingDone(partes, ordenadas, grupos, umbral, limite);
  }

  /** The grouping loop at its end gives the promised groups. */
  lemma GroupingDone(partes: seq<Part>, ordenadas: seq<Part>, grupos: seq<seq<Part>>, umbral: int, limite: int)
    requires multiset(ordenadas) == multiset(partes)
    requires GroupingAt(ordenadas, |ordenadas|, grupos, umbral, limite)
    ensures multiset(Flatten(grupos)) == multiset(partes)
    ensures forall k :: 0 <= k < |grupos| ==> grupos[k] != []
    ensures forall k :: 0 <= k < |grupos| ==> PairwiseCompatible(grupos[k], umbral)
    ensures forall k :: 0 <= k < |grupos| && |grupos[k]| >= 2 ==> UniqueToolCount(grupos[k]) <= limite
    ensures forall k :: 0 <= k < |grupos| ==> SortedBy(grupos[k], Uph)
  {
    assert ordenadas[..|ordenadas|] == ordenadas;
    forall k | 0 <= k < |grupos| ensures GoodGroup(grupos[k], umbral, limite) { }
  }

  /** The grouping loop over parts already sorted by rate. */
  method GroupSorted(ordenadas: seq<Part>, umbral: int, limite: int) returns (grupos: seq<seq<Part>>)
    requires SortedBy(ordenadas, Uph)
    ensures grupos == Grouped(ordenadas, |ordenadas|, umbral, limite)
    ensures GroupingAt(ordenadas, |ordenadas|, grupos, umbral, limite)
  {
    grupos := [];
    var idx := 0;
    GroupingStart(ordenadas, umbral, limite);
    while idx < |ordenadas|
      invariant 0 <= idx <= |ordenadas|
      invariant GroupingAt(ordenadas, idx, grupos, umbral, limite)
    {
      grupos := GroupStep(ordenadas, idx, grupos, umbral, limite);
      idx := idx + 1;
    }
    assert idx == |ordenadas|;
  }

  /** The grouping loop starts with no groups. */
  lemma GroupingStart(ordenadas: seq<Part>, umbral: int, limite: int)
    ensures GroupingAt(ordenadas, 0, [], umbral, limite)
  {
    assert ordenadas[..0] == [];
  }

  /** The grouping loop after the first `idx` parts of `ordenadas`. */
  ghost predicate GroupingAt(ordenadas: seq<Part>, idx: int, grupos: seq<seq<Part>>, umbral: int, limite: int)
  {
    && 0 <= idx <= |ordenadas|
    && grupos == Grouped(ordenadas, idx, umbral, limite)
    && multiset(Flatten(grupos)) == multiset(ordenadas[..idx])
    && AllGood(grupos, umbral, limite)
    && (idx > 0 ==> UphBelow(grupos, ordenadas[idx - 1].uph))
  }

  /** Every group is good. */
  ghost predicate AllGood(grupos: seq<seq<Part>>, umbral: int, limite: int)
  {
    forall k :: 0 <= k < |grupos| ==> GoodGroup(grupos[k], umbral, limite)
  }

  /** No grouped part has a higher rate than `b`. */
  ghost predicate UphBelow(grupos: seq<seq<Part>>, b: real)
  {
    forall k, x :: 0 <= k < |grupos| && x in grupos[k] ==> x.uph <= b
  }

  /** One part of the grouping loop. */
  method GroupStep(ordenadas: seq<Part>, idx: int, grupos: seq<seq<Part>>, umbral: int, limite: int)
    returns (grupos': seq<seq<Part>>)
    requires SortedBy(ordenadas, Uph)
    requires GroupingAt(ordenadas, idx, grupos, umbral, limite) && idx < |ordenadas|
    ensures GroupingAt(ordenadas, idx + 1, grupos', umbral, limite)
  {
    var parte := ordenadas[idx];
    assert ordenadas[..idx + 1] == ordenadas[..idx] + [parte];
    grupos' := PlacePart(grupos, parte, umbral, limite);
  }
}
