/** Fitting groups and parts into the time left on a machine, and the per-part
    split counter (backend/app/utils/algoritmo_asignacion.py:55-69, 204-279). */
module TimeFit {
  import opened Common
  import opened Parts
  import opened Compatibility

  /** `least` is the member LeastCompatible picks out of g, and `rest` is g
      without its first occurrence (list.remove). */
  ghost predicate Evicts(g: seq<Part>, rest: seq<Part>, least: Part)
  {
    |g| > 0 && least == LeastCompatible(g).value && rest == Remove(g, least)
  }

  /** Takes the least compatible member (LeastCompatible) out of a group of two
      or more: identificar_parte_menos_compatible followed by list.remove
      (algoritmo_asignacion.py:230-232, 453-455, 476-478). The group loses
      exactly that member and its hours, and the others keep their order. */
  method EvictLeastCompatible(g: seq<Part>) returns (rest: seq<Part>, least: Part)
    requires |g| >= 2
    ensures Evicts(g, rest, least)
    ensures least in g
    ensures multiset(rest) + multiset{least} == multiset(g)
    ensures |rest| == |g| - 1
    ensures HoursGroup(rest) + HoursPart(least) == HoursGroup(g)
  {
    least := LeastCompatible(g).value;
    HoursGroupRemove(g, least);
    rest := Remove(g, least);
  }

  /** What ajustar_grupo_a_tiempo_disponible computes: while the group needs
      more than `tiempo` hours and has two or more members, its least
      compatible member is removed; the result is the members kept and the
      members removed, in removal order. */
  ghost function Adjusted(g: seq<Part>, tiempo: real): (r: (seq<Part>, seq<Part>))
    ensures |g| > 0 ==> |r.0| > 0
    ensures forall p :: p in r.0 ==> p in g
    decreases |g|
  {
    if HoursGroup(g) <= tiempo || |g| <= 1 then (g, [])
    else
      var least := LeastCompatible(g).value;
      var r := Adjusted(Remove(g, least), tiempo);
      (r.0, [least] + r.1)
  }

  /** One removal: a group over the time with two or more members is adjusted
      by adjusting it without its least compatible member. */
  lemma AdjustedStep(g: seq<Part>, tiempo: real, rest: seq<Part>, least: Part)
    requires |g| >= 2 && HoursGroup(g) > tiempo && Evicts(g, rest, least)
    ensures Adjusted(g, tiempo) == (Adjusted(rest, tiempo).0, [least] + Adjusted(rest, tiempo).1)
  {
  }

  /** The adjustment so far: `removed` are the first removals of Adjusted and
      `kept` is what it goes on adjusting. */
  ghost predicate AdjustTrace(grupo: seq<Part>, tiempo: real, kept: seq<Part>, removed: seq<Part>)
  {
    Adjusted(grupo, tiempo) == (Adjusted(kept, tiempo).0, removed + Adjusted(kept, tiempo).1)
  }

  /** No member is lost, and the last removal was needed. */
  ghost predicate AdjustFacts(grupo: seq<Part>, tiempo: real, kept: seq<Part>, removed: seq<Part>)
  {
    && multiset(kept) + multiset(removed) == multiset(grupo)
    && (|grupo| > 0 ==> |kept| > 0)
    && (removed == [] ==> kept == grupo)
    && (removed != [] ==> HoursGroup(grupo) > tiempo)
    && (|removed| > 0 ==> HoursGroup(kept) + HoursPart(removed[|removed| - 1]) > tiempo)
  }

  ghost predicate Adjusting(grupo: seq<Part>, tiempo: real, kept: seq<Part>, removed: seq<Part>)
  {
    AdjustTrace(grupo, tiempo, kept, removed) && AdjustFacts(grupo, tiempo, kept, removed)
  }

  lemma AdjustingStart(grupo: seq<Part>, tiempo: real)
    ensures Adjusting(grupo, tiempo, grupo, [])
  {
    assert [] + Adjusted(grupo, tiempo).1 == Adjusted(grupo, tiempo).1;
  }

  lemma AdjustTraceNext(grupo: seq<Part>, tiempo: real, kept: seq<Part>, removed: seq<Part>, rest: seq<Part>, least: Part)
    requires AdjustTrace(grupo, tiempo, kept, removed)
    requires |kept| >= 2 && HoursGroup(kept) > tiempo && Evicts(kept, rest, least)
    ensures AdjustTrace(grupo, tiempo, rest, removed + [least])
  {
    AdjustedStep(kept, tiempo, rest, least);
    assert removed + ([least] + Adjusted(rest, tiempo).1) == (removed + [least]) + Adjusted(rest, tiempo).1;
  }

  lemma AdjustFactsNext(grupo: seq<Part>, tiempo: real, kept: seq<Part>, removed: seq<Part>, rest: seq<Part>, least: Part)
    requires AdjustFacts(grupo, tiempo, kept, removed)
    requires |kept| >= 2 && HoursGroup(kept) > tiempo
    requires multiset(rest) + multiset{least} == multiset(kept) && |rest| == |kept| - 1
    requires HoursGroup(rest) + HoursPart(least) == HoursGroup(kept)
    ensures AdjustFacts(grupo, tiempo, rest, removed + [least])
  {
  }

  /** One pass of the adjustment loop: the least compatible member is removed. */
  method RemoveLeast(grupo: seq<Part>, tiempo: real, kept: seq<Part>, removed: seq<Part>)
    returns (kept': seq<Part>, removed': seq<Part>)
    requires Adjusting(grupo, tiempo, kept, removed)
    requires |kept| >= 2 && HoursGroup(kept) > tiempo
    ensures Adjusting(grupo, tiempo, kept', removed') && |kept'| < |kept|
  {
    var rest, least := EvictLeastCompatible(kept);
    AdjustTraceNext(grupo, tiempo, kept, removed, rest, least);
    AdjustFactsNext(grupo, tiempo, kept, removed, rest, least);
    kept', removed' := rest, removed + [least];
  }

  lemma AdjustingDone(grupo: seq<Part>, tiempo: real, kept: seq<Part>, removed: seq<Part>)
    requires Adjusting(grupo, tiempo, kept, removed)
    requires HoursGroup(kept) <= tiempo || |kept| <= 1
    ensures (kept, removed) == Adjusted(grupo, tiempo)
  {
    assert removed + [] == removed;
  }

  /** ajustar_grupo_a_tiempo_disponible: while the group needs more hours than
      are available and has two or more members, its least compatible member is
      moved to the removed list. The result is Adjusted's: the kept members in
      their order and the removed ones in removal order. Nothing is lost, the
      kept members fit unless one is left, a group that fits is untouched, and
      the last removal was needed. */
  method AdjustGroupToTime(grupo: seq<Part>, tiempo: real) returns (kept: seq<Part>, removed: seq<Part>)
    ensures (kept, removed) == Adjusted(grupo, tiempo)
    ensures multiset(kept) + multiset(removed) == multiset(grupo)
    ensures HoursGroup(kept) <= tiempo || |kept| <= 1
    ensures HoursGroup(grupo) <= tiempo ==> kept == grupo && removed == []
    ensures |grupo| > 0 ==> |kept| > 0
    ensures |removed| > 0 ==> HoursGroup(kept) + HoursPart(removed[|removed| - 1]) > tiempo
  {
    kept, removed := grupo, [];
    AdjustingStart(grupo, tiempo);
    while HoursGroup(kept) > tiempo
      invariant Adjusting(grupo, tiempo, kept, removed)
      decreases |kept|
    {
      if |kept| <= 1 {
        break;
      }
      kept, removed := RemoveLeast(grupo, tiempo, kept, removed);
    }
    AdjustingDone(grupo, tiempo, kept, removed);
  }

  /** The end of the time check, after the adjustment kept `kept` and removed
      `removed`: a lone part that still does not fit in `t` is split so that its
      first portion fits and its remainder is queued after the removed parts,
      or, when not one piece fits, stays whole and a machine must be opened. */
  function Finish(kept: seq<Part>, removed: seq<Part>, t: real): (seq<Part>, seq<Part>, bool)
    requires kept != [] && kept[0].uph >= 0.0
  {
    if HoursGroup(kept) <= t || |kept| != 1 then (kept, removed, false)
    else
      var s := SplitPartByTime(kept[0], t);
      if s.0.Some? && s.1.Some? then ([s.0.value], removed + [s.1.value], false) else (kept, removed, true)
  }

  /** The time check of one attempt of the assignment on a machine with `t`
      hours left (algoritmo_asignacion.py:420-458): the group loses its least
      compatible members as Adjusted does, then Finish splits a lone part that
      still does not fit. The result is the group, the queued parts in order,
      and whether a machine must be opened. */
  ghost function TimeCheck(g: seq<Part>, t: real): (seq<Part>, seq<Part>, bool)
    requires g != [] && forall p :: p in g ==> p.uph >= 0.0
  {
    var a := Adjusted(g, t);
    assert a.0[0] in g;
    Finish(a.0, a.1, t)
  }

  /** A group that fits passes the time check untouched. */
  lemma TimeCheckFits(g: seq<Part>, t: real)
    requires g != [] && forall p :: p in g ==> p.uph >= 0.0
    requires HoursGroup(g) <= t
    ensures TimeCheck(g, t) == (g, [], false)
  {
  }

  /** A lone part that does not fit is split, or kept whole when not one piece fits. */
  lemma TimeCheckLone(p: Part, t: real)
    requires p.uph >= 0.0 && HoursGroup([p]) > t
    ensures var s := SplitPartByTime(p, t);
            TimeCheck([p], t) == if s.0.Some? && s.1.Some? then ([s.0.value], [s.1.value], false) else ([p], [], true)
  {
    assert Adjusted([p], t) == ([p], []);
    var s := SplitPartByTime(p, t);
    if s.0.Some? && s.1.Some? {
      assert [] + [s.1.value] == [s.1.value];
    }
  }

  /** Queuing one more removed part first queues it first in Finish's result. */
  lemma FinishPrepend(kept: seq<Part>, removed: seq<Part>, least: Part, t: real)
    requires kept != [] && kept[0].uph >= 0.0
    ensures var c := Finish(kept, removed, t); Finish(kept, [least] + removed, t) == (c.0, [least] + c.1, c.2)
  {
    if !(HoursGroup(kept) <= t || |kept| != 1) {
      var s := SplitPartByTime(kept[0], t);
      if s.0.Some? && s.1.Some? {
        assert [least] + removed + [s.1.value] == [least] + (removed + [s.1.value]);
      }
    }
  }

  /** Taking the least compatible member out keeps the rest non-empty and of usable rate. */
  lemma EvictsRest(g: seq<Part>, rest: seq<Part>, least: Part)
    requires |g| >= 2 && Evicts(g, rest, least) && forall p :: p in g ==> p.uph >= 0.0
    ensures rest != [] && forall p :: p in rest ==> p.uph >= 0.0
  {
    assert least in g && |rest| == |g| - 1;
    forall p | p in rest
      ensures p.uph >= 0.0
    {
      assert p in g;
    }
  }

  /** A group of two or more that does not fit is time-checked by checking
      it without its least compatible member, which is queued first. */
  lemma TimeCheckEvict(g: seq<Part>, t: real, rest: seq<Part>, least: Part)
    requires |g| >= 2 && HoursGroup(g) > t && Evicts(g, rest, least)
    requires forall p :: p in g ==> p.uph >= 0.0
    ensures rest != [] && forall p :: p in rest ==> p.uph >= 0.0
    ensures var c := TimeCheck(rest, t); TimeCheck(g, t) == (c.0, [least] + c.1, c.2)
  {
    EvictsRest(g, rest, least);
    AdjustedStep(g, t, rest, least);
    var a := Adjusted(rest, t);
    assert a.0[0] in rest;
    FinishPrepend(a.0, a.1, least, t);
  }

  /** dividir_parte_por_tiempo: a part that fits is returned whole; otherwise
      int(t * uph) pieces are cut off for the available time, or nothing when
      that count is not positive. The two portions share out the original
      quantity, the assigned one fits in t, and both are marked as divisions of
      the original quantity. */
  function SplitPartByTime(p: Part, t: real): (r: (Option<Part>, Option<Part>))
    requires p.uph >= 0.0
    ensures HoursPart(p) <= t ==> r == (Some(p), None)
    ensures HoursPart(p) > t && Trunc(t * p.uph) <= 0 ==> r == (None, Some(p))
    ensures HoursPart(p) > t && Trunc(t * p.uph) > 0 ==>
              && r.0.Some? && r.1.Some?
              && r.0.value == Portion(p, Trunc(t * p.uph))
              && r.1.value == Portion(p, r.1.value.quantity)
              && r.0.value.quantity + r.1.value.quantity == p.quantity
              && r.1.value.quantity > 0
              && HoursPart(r.0.value) <= t
  {
    if HoursPart(p) <= t then (Some(p), None)
    else
      var c := Trunc(t * p.uph);
      if c <= 0 then (None, Some(p))
      else
        CutBelowQuantity(p.quantity, t, p.uph);
        CutFits(t, p.uph);
        (Some(Portion(p, c)), Some(Portion(p, p.quantity - c)))
  }

  // ---------------------------------------------------------------------------
  // Split counter (the process-wide _num_divisiones map)

  /** contar_divisiones_parte: how many times part `id` has been split. */
  function DivisionCount(divs: map<int, nat>, id: int): nat
  {
    if id in divs then divs[id] else 0
  }

  /** marcar_division_parte: counts one more split of part `id`. */
  function MarkDivision(divs: map<int, nat>, id: int): (r: map<int, nat>)
    ensures DivisionCount(r, id) == DivisionCount(divs, id) + 1
    ensures forall other :: other != id ==> DivisionCount(r, other) == DivisionCount(divs, other)
    ensures r.Keys == divs.Keys + {id}
  {
    divs[id := DivisionCount(divs, id) + 1]
  }
}
