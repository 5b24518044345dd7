/** The consolidation pass run after an assignment (minimizar_maquinas,
    backend/app/utils/algoritmo_asignacion.py:280-343). A Python dict of
    machines is a map from machine id to its parts together with the order
    in which its keys were inserted: that order breaks ties in the sort by
    hours and is the order in which merge targets are tried. */
module Consolidation {
  import opened Common
  import opened Parts

  /** MAX_ITERACIONES: the number of consolidation rounds. */
  const MaxRounds := 5

  /** horas_usadas: the hours used on every machine. */
  function HoursByMachine(d: map<int, seq<Part>>): (h: map<int, real>)
    ensures h.Keys == d.Keys
    ensures forall k :: k in d ==> h[k] == HoursGroup(d[k])
  {
    map k | k in d :: HoursGroup(d[k])
  }

  /** The sort key of a machine id: its hours in `h`. */
  function HoursKey(h: map<int, real>): int -> real
  {
    k => if k in h then h[k] else 0.0
  }

  /** The sort key of the renumbering: the machine id itself. */
  function IdKey(k: int): real
  {
    k as real
  }

  /** The keys 1, 2, ..., n in order. */
  function Numbering(n: nat): (s: seq<int>)
    ensures |s| == n && forall i :: 0 <= i < n ==> s[i] == i + 1
  {
    seq(n, i => i + 1)
  }

  /** The first place from `j` on in `ord` of a machine other than `maq`
      whose hours in `horas` plus `h` stay within `obj`, or -1. */
  function MergeTarget(ord: seq<int>, horas: map<int, real>, maq: int, h: real, obj: real, j: nat): (pos: int)
    requires j <= |ord| && forall k :: k in ord ==> k in horas
    ensures -1 <= pos < |ord|
    ensures pos >= 0 ==> j <= pos && ord[pos] != maq && horas[ord[pos]] + h <= obj
    ensures forall i :: j <= i < |ord| && (pos < 0 || i < pos) && ord[i] != maq ==> horas[ord[i]] + h > obj
    decreases |ord| - j
  {
    if j == |ord| then -1
    else if ord[j] != maq && horas[ord[j]] + h <= obj then j
    else MergeTarget(ord, horas, maq, h, obj, j + 1)
  }

  /** Machine `k` can be neither deleted nor merged: it uses some hours, and
      no other machine has room for them. */
  ghost predicate Stuck(d: map<int, seq<Part>>, obj: real, k: int)
    requires k in d
  {
    HoursGroup(d[k]) != 0.0 && forall b :: b in d && b != k ==> HoursGroup(d[b]) + HoursGroup(d[k]) > obj
  }

  /** No machine of `d` can be deleted or merged. */
  ghost predicate Settled(d: map<int, seq<Part>>, obj: real)
  {
    forall k :: k in d ==> Stuck(d, obj, k)
  }

  /** A machine with hours is stuck exactly when the scan of a round finds no
      merge target for it. */
  lemma StuckIffNoTarget(d: map<int, seq<Part>>, ord: seq<int>, obj: real, maq: int)
    requires IsDict(d, ord) && maq in d
    ensures Stuck(d, obj, maq) <==>
              HoursGroup(d[maq]) != 0.0 && MergeTarget(ord, HoursByMachine(d), maq, HoursGroup(d[maq]), obj, 0) < 0
  {
    var horas := HoursByMachine(d);
    var pos := MergeTarget(ord, horas, maq, HoursGroup(d[maq]), obj, 0);
    if pos >= 0 {
      assert ord[pos] in d;
    } else {
      forall b | b in d && b != maq
        ensures HoursGroup(d[b]) + HoursGroup(d[maq]) > obj
      {
        var i :| 0 <= i < |ord| && ord[i] == b;
      }
    }
  }

  /** The inner loop of a round: machine `maq`, which uses `h` hours, is moved
      whole onto the first other machine, in dict order, whose hours at the
      start of the round plus `h` stay within `obj`. `pos` is the place of
      that machine in `ord`, or -1 when no machine qualifies. */
  method MergeIntoFirstFit(d: map<int, seq<Part>>, ord: seq<int>, horas: map<int, real>, maq: int, h: real, obj: real)
    returns (nuevo: map<int, seq<Part>>, nuevoOrd: seq<int>, pos: int)
    requires IsDict(d, ord) && maq in d
    requires forall k :: k in d ==> k in horas
    ensures pos == MergeTarget(ord, horas, maq, h, obj, 0)
    ensures -1 <= pos < |ord|
    ensures forall j :: 0 <= j < |ord| && (pos < 0 || j < pos) && ord[j] != maq ==> horas[ord[j]] + h > obj
    ensures pos >= 0 ==> ord[pos] != maq && horas[ord[pos]] + h <= obj
    ensures pos >= 0 ==> nuevo == d[ord[pos] := d[ord[pos]] + d[maq]] - {maq} && nuevoOrd == Remove(ord, maq)
    ensures pos < 0 ==> nuevo == d && nuevoOrd == ord
  {
    var j := 0;
    while j < |ord|
      invariant 0 <= j <= |ord|
      invariant MergeTarget(ord, horas, maq, h, obj, j) == MergeTarget(ord, horas, maq, h, obj, 0)
      invariant forall i :: 0 <= i < j && ord[i] != maq ==> horas[ord[i]] + h > obj
    {
      var otra := ord[j];
      if otra != maq && horas[otra] + h <= obj {
        nuevo := d[otra := d[otra] + d[maq]] - {maq};
        return nuevo, Remove(ord, maq), j;
      }
      j := j + 1;
    }
    return d, ord, -1;
  }

  /** The visit of machine `maq` within a round, while no machine has grown
      yet: with zero hours at the start of the round it is deleted together
      with its parts (`borrada`); otherwise it is moved onto the machine that
      MergeTarget finds in the current dict order (`fusionada`), which then
      stays within `obj`, and when there is none nothing changes. */
  method VisitMachine(d: map<int, seq<Part>>, horas: map<int, real>, obj: real,
                      nuevo: map<int, seq<Part>>, nuevoOrd: seq<int>, maq: int)
    returns (sig: map<int, seq<Part>>, sigOrd: seq<int>, borrada: bool, fusionada: bool, ghost lost: seq<Part>)
    requires IsDict(nuevo, nuevoOrd) && maq in nuevo
    requires horas == HoursByMachine(d)
    requires nuevo.Keys <= d.Keys && forall k :: k in nuevo ==> nuevo[k] == d[k]
    ensures IsDict(sig, sigOrd)
    ensures borrada <==> horas[maq] == 0.0
    ensures var t := MergeTarget(nuevoOrd, horas, maq, horas[maq], obj, 0);
            && (fusionada <==> !borrada && t >= 0)
            && (fusionada ==> sig == nuevo[nuevoOrd[t] := nuevo[nuevoOrd[t]] + nuevo[maq]] - {maq} && sigOrd == Remove(nuevoOrd, maq))
    ensures borrada ==> !fusionada && sig == nuevo - {maq}
    ensures !borrada && !fusionada ==> sig == nuevo && sigOrd == nuevoOrd
    ensures fusionada ==> sig.Keys == nuevo.Keys - {maq}
    ensures borrada || fusionada ==> |sigOrd| == |nuevoOrd| - 1
    ensures forall k :: k in sig ==> d[k] <= sig[k] && (sig[k] != d[k] ==> fusionada && HoursGroup(sig[k]) <= obj)
    ensures multiset(Gather(sig, sigOrd)) + multiset(lost) == multiset(Gather(nuevo, nuevoOrd))
    ensures forall p :: p in lost ==> HoursPart(p) == 0.0
  {
    var horasActual := horas[maq];
    lost := [];
    fusionada := false;
    if horasActual == 0.0 {
      HoursGroupZero(nuevo[maq]);
      GatherDelete(nuevo, nuevoOrd, maq);
      lost := nuevo[maq];
      sig, sigOrd := nuevo - {maq}, Remove(nuevoOrd, maq);
      borrada := true;
    } else {
      borrada := false;
      var pos;
      sig, sigOrd, pos := MergeIntoFirstFit(nuevo, nuevoOrd, horas, maq, horasActual, obj);
      if pos >= 0 {
        GatherMerge(nuevo, nuevoOrd, maq, nuevoOrd[pos]);
        HoursGroupConcat(nuevo[nuevoOrd[pos]], nuevo[maq]);
        fusionada := true;
      }
    }
  }

  /** One consolidation round. Machines are visited by ascending hours (a
      stable sort over dict order); a machine with zero hours is deleted
      together with its parts, and the first machine with hours is merged
      into another when MergeIntoFirstFit finds one. The round ends after
      that machine whenever anything was deleted. Every machine that grows
      stays within `obj`, and only parts that need no hours are lost. The
      round does something exactly when some machine could be deleted or
      merged at its start. */
  method ConsolidationRound(d: map<int, seq<Part>>, ord: seq<int>, obj: real)
    returns (nuevo: map<int, seq<Part>>, nuevoOrd: seq<int>, realizada: bool, ghost lost: seq<Part>)
    requires IsDict(d, ord)
    ensures IsDict(nuevo, nuevoOrd)
    ensures nuevo.Keys <= d.Keys && |nuevoOrd| <= |ord|
    ensures forall k :: k in nuevo ==> d[k] <= nuevo[k]
    ensures forall k :: k in nuevo && nuevo[k] != d[k] ==> HoursGroup(nuevo[k]) <= obj
    ensures multiset(Gather(nuevo, nuevoOrd)) + multiset(lost) == multiset(Gather(d, ord))
    ensures forall p :: p in lost ==> HoursPart(p) == 0.0
    ensures !realizada ==> nuevo == d && nuevoOrd == ord
    ensures realizada ==> |nuevoOrd| < |ord|
    ensures !realizada <==> Settled(d, obj)
  {
    var horas := HoursByMachine(d);
    var orden := SortBy(ord, HoursKey(horas));
    RoundStart(d, ord, orden, obj);
    nuevo, nuevoOrd, realizada, lost := d, ord, false, [];
    var i := 0;
    while i < |orden|
      invariant 0 <= i <= |orden|
      invariant RoundAt(d, ord, orden, obj, i, nuevo, nuevoOrd, realizada, lost)
    {
      var stop;
      nuevo, nuevoOrd, realizada, lost, stop := RoundStep(d, ord, orden, horas, obj, i, nuevo, nuevoOrd, realizada, lost);
      if stop {
        return;
      }
      i := i + 1;
    }
    PermutationMembers(ord, orden);
  }

  /** A round starts from the dict as it is, visiting every machine once. */
  lemma RoundStart(d: map<int, seq<Part>>, ord: seq<int>, orden: seq<int>, obj: real)
    requires IsDict(d, ord) && multiset(orden) == multiset(ord)
    ensures NoDuplicates(orden)
    ensures RoundAt(d, ord, orden, obj, 0, d, ord, false, [])
  {
    NoDuplicatesSubMultiset(ord, orden);
    PermutationMembers(ord, orden);
  }

  /** `nuevo` comes from `d` by deleting machines, whose parts all need no
      hours and are collected in `lost`, and by growing machines, each of
      which stays within `obj`. */
  ghost predicate Shrunk(d: map<int, seq<Part>>, ord: seq<int>, obj: real,
                         nuevo: map<int, seq<Part>>, nuevoOrd: seq<int>, lost: seq<Part>)
  {
    && IsDict(d, ord) && IsDict(nuevo, nuevoOrd)
    && nuevo.Keys <= d.Keys && |nuevoOrd| <= |ord|
    && (forall k :: k in nuevo ==> d[k] <= nuevo[k])
    && (forall k :: k in nuevo && nuevo[k] != d[k] ==> HoursGroup(nuevo[k]) <= obj)
    && multiset(Gather(nuevo, nuevoOrd)) + multiset(lost) == multiset(Gather(d, ord))
    && (forall p :: p in lost ==> HoursPart(p) == 0.0)
  }

  /** Two shrinking steps in a row are one. */
  lemma ShrunkTwice(a: map<int, seq<Part>>, o: seq<int>, obj: real, d: map<int, seq<Part>>, ord: seq<int>, lost: seq<Part>,
                    e: map<int, seq<Part>>, eOrd: seq<int>, perdidas: seq<Part>)
    requires Shrunk(a, o, obj, d, ord, lost) && Shrunk(d, ord, obj, e, eOrd, perdidas)
    ensures Shrunk(a, o, obj, e, eOrd, lost + perdidas)
  {
    LostStep(Gather(e, eOrd), perdidas, Gather(d, ord), lost, Gather(a, o));
  }

  /** What a round guarantees about its result. */
  ghost predicate RoundOutcome(d: map<int, seq<Part>>, ord: seq<int>, obj: real,
                               nuevo: map<int, seq<Part>>, nuevoOrd: seq<int>, realizada: bool, lost: seq<Part>)
  {
    && Shrunk(d, ord, obj, nuevo, nuevoOrd, lost)
    && (!realizada ==> nuevo == d && nuevoOrd == ord)
    && (realizada ==> |nuevoOrd| < |ord|)
    && (realizada ==> !Settled(d, obj))
  }

  /** A round before the visit of `orden[i]`: no machine has grown yet and
      every machine still to visit is present. */
  ghost predicate RoundAt(d: map<int, seq<Part>>, ord: seq<int>, orden: seq<int>, obj: real, i: int,
                          nuevo: map<int, seq<Part>>, nuevoOrd: seq<int>, realizada: bool, lost: seq<Part>)
  {
    && RoundOutcome(d, ord, obj, nuevo, nuevoOrd, realizada, lost)
    && (forall k :: k in nuevo ==> nuevo[k] == d[k])
    && (forall j :: 0 <= i <= j < |orden| ==> orden[j] in nuevo)
    && (!realizada ==> forall j :: 0 <= j < i && j < |orden| ==> orden[j] in d && Stuck(d, obj, orden[j]))
  }

  /** A visit at the start of a round, before anything changed, does nothing
      exactly when the machine visited is stuck. */
  lemma VisitSettles(d: map<int, seq<Part>>, ord: seq<int>, obj: real, maq: int, borrada: bool, fusionada: bool)
    requires IsDict(d, ord) && maq in d
    requires borrada <==> HoursByMachine(d)[maq] == 0.0
    requires fusionada <==> !borrada && MergeTarget(ord, HoursByMachine(d), maq, HoursByMachine(d)[maq], obj, 0) >= 0
    ensures borrada || fusionada ==> !Settled(d, obj)
    ensures !borrada && !fusionada ==> Stuck(d, obj, maq)
  {
    StuckIffNoTarget(d, ord, obj, maq);
  }

  /** The visit of `orden[i]` within a round; `stop` when the round ends there
      (a machine was merged, or one was deleted earlier and this one was not). */
  method RoundStep(d: map<int, seq<Part>>, ord: seq<int>, orden: seq<int>, horas: map<int, real>, obj: real, i: int,
                   nuevo: map<int, seq<Part>>, nuevoOrd: seq<int>, realizada: bool, ghost lost: seq<Part>)
    returns (nuevo': map<int, seq<Part>>, nuevoOrd': seq<int>, realizada': bool, ghost lost': seq<Part>, stop: bool)
    requires horas == HoursByMachine(d) && NoDuplicates(orden)
    requires 0 <= i < |orden| && RoundAt(d, ord, orden, obj, i, nuevo, nuevoOrd, realizada, lost)
    ensures stop ==> realizada' && RoundOutcome(d, ord, obj, nuevo', nuevoOrd', realizada', lost')
    ensures !stop ==> RoundAt(d, ord, orden, obj, i + 1, nuevo', nuevoOrd', realizada', lost')
  {
    var borrada, fusionada;
    ghost var perdidas;
    nuevo', nuevoOrd', borrada, fusionada, perdidas := VisitMachine(d, horas, obj, nuevo, nuevoOrd, orden[i]);
    LostStep(Gather(nuevo', nuevoOrd'), perdidas, Gather(nuevo, nuevoOrd), lost, Gather(d, ord));
    if !realizada {
      VisitSettles(d, ord, obj, orden[i], borrada, fusionada);
    }
    lost' := lost + perdidas;
    realizada' := realizada || borrada || fusionada;
    stop := !borrada && realizada';
  }

  /** The keys of `ks`, in order, become keys 1, 2, ..., |ks|. */
  method NumberInOrder(d: map<int, seq<Part>>, ks: seq<int>) returns (r: map<int, seq<Part>>)
    requires forall j :: 0 <= j < |ks| ==> ks[j] in d
    ensures forall n :: n in r <==> 1 <= n <= |ks|
    ensures forall j :: 0 <= j < |ks| ==> r[j + 1] == d[ks[j]]
  {
    r := map[];
    var i := 0;
    while i < |ks|
      invariant 0 <= i <= |ks|
      invariant forall n :: n in r <==> 1 <= n <= i
      invariant forall j :: 0 <= j < i ==> r[j + 1] == d[ks[j]]
    {
      r := r[i + 1 := d[ks[i]]];
      i := i + 1;
    }
  }

  /** Ids sorted by IdKey without repeats are strictly increasing. */
  lemma SortedIdsIncrease(s: seq<int>)
    requires SortedBy(s, IdKey) && NoDuplicates(s)
    ensures forall i, j :: 0 <= i < j < |s| ==> s[i] < s[j]
  {
    forall i, j | 0 <= i < j < |s|
      ensures s[i] < s[j]
    {
      assert IdKey(s[i]) <= IdKey(s[j]);
    }
  }

  /** The renumbering: the machines, taken in ascending id order, become
      machines 1, 2, ..., n. `ids` are the old ids in that order. */
  method Renumber(d: map<int, seq<Part>>, ord: seq<int>) returns (r: map<int, seq<Part>>, ghost ids: seq<int>)
    requires IsDict(d, ord)
    ensures |ids| == |ord| && multiset(ids) == multiset(ord)
    ensures forall i, j :: 0 <= i < j < |ids| ==> ids[i] < ids[j]
    ensures forall n :: n in r <==> 1 <= n <= |ids|
    ensures forall i :: 0 <= i < |ids| ==> ids[i] in d && r[i + 1] == d[ids[i]]
  {
    var ordenadas := SortBy(ord, IdKey);
    NoDuplicatesSubMultiset(ord, ordenadas);
    PermutationMembers(ord, ordenadas);
    SortedIdsIncrease(ordenadas);
    r := NumberInOrder(d, ordenadas);
    ids := ordenadas;
  }

  /** The rounds of minimizar_maquinas (algoritmo_asignacion.py:297-335): at
      most MaxRounds rounds, stopping at the first round that changes
      nothing. Unless every round removed a machine, no machine of the result
      can be deleted or merged. */
  method Consolidate(asignaciones: map<int, seq<Part>>, orden: seq<int>, obj: real)
    returns (d: map<int, seq<Part>>, ord: seq<int>, ghost lost: seq<Part>)
    requires IsDict(asignaciones, orden)
    ensures Shrunk(asignaciones, orden, obj, d, ord, lost)
    ensures |ord| + MaxRounds <= |orden| || Settled(d, obj)
  {
    d, ord := asignaciones, orden;
    lost := [];
    var ronda := 0;
    while ronda < MaxRounds
      invariant Shrunk(asignaciones, orden, obj, d, ord, lost)
      invariant |ord| + ronda <= |orden|
    {
      var sig, sigOrd, realizada;
      ghost var perdidas;
      sig, sigOrd, realizada, perdidas := ConsolidationRound(d, ord, obj);
      ShrunkTwice(asignaciones, orden, obj, d, ord, lost, sig, sigOrd, perdidas);
      d, ord, lost := sig, sigOrd, lost + perdidas;
      if !realizada {
        return;
      }
      ronda := ronda + 1;
    }
  }

  /** minimizar_maquinas: the consolidation rounds, then the renumbering.
      The result has keys exactly 1..n in the ascending order of the
      surviving ids; every surviving machine still holds its original parts
      first, and one that received more stays within `obj`; the only parts
      that disappear are parts that need no hours. Unless all MaxRounds
      rounds removed a machine, no machine of the result could be deleted
      or merged. */
  method MinimizeMachines(asignaciones: map<int, seq<Part>>, orden: seq<int>, obj: real)
    returns (r: map<int, seq<Part>>, ghost ids: seq<int>, ghost lost: seq<Part>)
    requires IsDict(asignaciones, orden)
    ensures forall n :: n in r <==> 1 <= n <= |ids|
    ensures |ids| <= |orden|
    ensures forall i, j :: 0 <= i < j < |ids| ==> ids[i] < ids[j]
    ensures forall i :: 0 <= i < |ids| ==> ids[i] in asignaciones && asignaciones[ids[i]] <= r[i + 1]
    ensures forall i :: 0 <= i < |ids| && r[i + 1] != asignaciones[ids[i]] ==> HoursGroup(r[i + 1]) <= obj
    ensures multiset(Gather(r, Numbering(|ids|))) + multiset(lost) == multiset(Gather(asignaciones, orden))
    ensures forall p :: p in lost ==> HoursPart(p) == 0.0
    ensures |ids| + MaxRounds <= |orden| || Settled(r, obj)
  {
    var d, ord;
    d, ord, lost := Consolidate(asignaciones, orden, obj);
    r, ids := Renumber(d, ord);
    GatherPointwise(r, Numbering(|ids|), d, ids);
    GatherPermutation(d, ids, ord);
    if Settled(d, obj) {
      SettledRenumbered(d, obj, r, ids);
    }
  }

  /** Renumbering the machines of a settled dict leaves it settled. */
  lemma SettledRenumbered(d: map<int, seq<Part>>, obj: real, r: map<int, seq<Part>>, ids: seq<int>)
    requires Settled(d, obj)
    requires forall i, j :: 0 <= i < j < |ids| ==> ids[i] < ids[j]
    requires forall n :: n in r <==> 1 <= n <= |ids|
    requires forall i :: 0 <= i < |ids| ==> ids[i] in d && r[i + 1] == d[ids[i]]
    ensures Settled(r, obj)
  {
    forall a | a in r
      ensures Stuck(r, obj, a)
    {
      assert Stuck(d, obj, ids[a - 1]);
      forall b | b in r && b != a
        ensures HoursGroup(r[b]) + HoursGroup(r[a]) > obj
      {
        assert ids[b - 1] != ids[a - 1];
      }
    }
  }

  /** The consolidation never changes the total hours of work. */
  lemma MinimizeMachinesKeepsHours(r: map<int, seq<Part>>, n: nat, lost: seq<Part>, asignaciones: map<int, seq<Part>>, orden: seq<int>)
    requires forall i :: 1 <= i <= n ==> i in r
    requires forall k :: k in orden ==> k in asignaciones
    requires multiset(Gather(r, Numbering(n))) + multiset(lost) == multiset(Gather(asignaciones, orden))
    requires forall p :: p in lost ==> HoursPart(p) == 0.0
    ensures HoursGroup(Gather(r, Numbering(n))) == HoursGroup(Gather(asignaciones, orden))
  {
    IdleHours(Gather(r, Numbering(n)), lost, Gather(asignaciones, orden));
  }
}
