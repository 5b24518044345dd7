/** The main assignment of parts to machines (asignar_optimizado_final,
    backend/app/utils/algoritmo_asignacion.py:346-598): parts are grouped by
    compatibility, each group is placed on the current machine after it has
    been cut down to the time that machine has left, and the parts that were
    cut off are placed afterwards, whole or split, on any machine. */
module Assignment {
  import opened Common
  import opened Parts
  import opened Grouping
  import opened TimeFit
  import opened Compatibility

  /** LIMITE_ESTACIONES: the unique-tool ceiling of a machine. */
  const StationLimit := 52
  /** MAX_MAQUINAS: the machine counter may not pass this. */
  const MaxMachines := 20
  /** MAX_INTENTOS: attempts to place one group. */
  const MaxAttempts := 3

  /** The two exceptions the assignment raises. */
  datatype AssignError =
    | MachineLimit
    | Unplaceable(part: Part, divisions: nat)

  /** The locals of the assignment. Machine k (counted from 1) holds
      machines[k - 1] and has used used[k - 1] hours (tiempo_usado); the last
      machine is the current one (maquina_actual); `pending` is
      partes_pendientes and `divs` the split counter. */
  datatype Plan = Plan(machines: seq<seq<Part>>, used: seq<real>, pending: seq<Part>, divs: map<int, nat>)

  /** There is a current machine, tiempo_usado is always the hours of the
      machine's parts, and pending parts have a usable uph. */
  ghost predicate Tracked(pl: Plan)
  {
    && |pl.machines| >= 1
    && |pl.used| == |pl.machines|
    && (forall k :: 0 <= k < |pl.machines| ==> pl.used[k] == HoursGroup(pl.machines[k]))
    && (forall p :: p in pl.pending ==> p.uph >= 0.0)
  }

  /** The time hard rule: no machine uses more than `obj` hours. */
  ghost predicate WithinBudget(pl: Plan, obj: real)
  {
    forall k :: 0 <= k < |pl.used| ==> pl.used[k] <= obj
  }

  /** Every part of the list fits in `obj` hours on its own. */
  ghost predicate EachFits(ps: seq<Part>, obj: real)
  {
    forall p :: p in ps ==> HoursPart(p) <= obj
  }

  /** The station rule for one machine's parts: a machine with more than
      StationLimit distinct tools holds a single part. */
  ghost predicate ToolsWithin(g: seq<Part>)
  {
    |g| <= 1 || UniqueToolCount(g) <= StationLimit
  }

  /** Every group of a list is within the station rule. */
  ghost predicate AllWithin(grupos: seq<seq<Part>>)
  {
    forall k :: 0 <= k < |grupos| ==> ToolsWithin(grupos[k])
  }

  /** A list whose members all belong to a list within the station rule is
      within it too. */
  lemma ToolsWithinSub(sub: seq<Part>, g: seq<Part>)
    requires ToolsWithin(g) && multiset(sub) <= multiset(g)
    ensures ToolsWithin(sub)
  {
    if |sub| >= 2 {
      var d := multiset(g) - multiset(sub);
      assert multiset(g) == multiset(sub) + d;
      assert |multiset(g)| == |multiset(sub)| + |d|;
      forall p | p in sub
        ensures p in g
      {
        assert p in multiset(sub);
      }
      UniqueToolCountSubset(sub, g);
    }
  }

  /** The parts on the current machine (maquina_actual). */
  function Current(pl: Plan): seq<Part>
    requires |pl.machines| >= 1
  {
    pl.machines[|pl.machines| - 1]
  }

  /** The pieces on the machines and in the pending list. */
  function Held(pl: Plan): multiset<int>
  {
    Pieces(Flatten(pl.machines)) + Pieces(pl.pending)
  }

  /** maquina_actual += 1 with an empty list and no hours used. */
  function OpenMachine(pl: Plan): Plan
  {
    pl.(machines := pl.machines + [[]], used := pl.used + [0.0])
  }

  /** Machine k receives the parts xs, which take h hours. */
  function AddTo(pl: Plan, k: nat, xs: seq<Part>, h: real): Plan
    requires k < |pl.machines| && |pl.used| == |pl.machines|
  {
    pl.(machines := pl.machines[k := pl.machines[k] + xs], used := pl.used[k := pl.used[k] + h])
  }

  lemma OpenMachineKeeps(pl: Plan, obj: real)
    requires Tracked(pl)
    ensures Tracked(OpenMachine(pl)) && Held(OpenMachine(pl)) == Held(pl)
    ensures WithinBudget(pl, obj) && 0.0 <= obj ==> WithinBudget(OpenMachine(pl), obj)
  {
    UnionOfFlattenSnoc(pl.machines, [], PiecesOf);
    assert HoursGroup([]) == 0.0;
  }

  lemma AddToKeeps(pl: Plan, k: nat, xs: seq<Part>, obj: real)
    requires Tracked(pl) && k < |pl.machines|
    ensures Tracked(AddTo(pl, k, xs, HoursGroup(xs)))
    ensures Pieces(Flatten(AddTo(pl, k, xs, HoursGroup(xs)).machines)) == Pieces(Flatten(pl.machines)) + Pieces(xs)
    ensures Held(AddTo(pl, k, xs, HoursGroup(xs))) == Held(pl) + Pieces(xs)
    ensures WithinBudget(pl, obj) && HoursGroup(xs) <= obj - pl.used[k] ==> WithinBudget(AddTo(pl, k, xs, HoursGroup(xs)), obj)
  {
    HoursGroupConcat(pl.machines[k], xs);
    UnionOfFlattenExtend(pl.machines, k, xs, PiecesOf);
  }

  /** Taking x out of g moves exactly its pieces. */
  lemma EvictPieces(g: seq<Part>, rest: seq<Part>, x: Part)
    requires multiset(rest) + multiset{x} == multiset(g)
    ensures Pieces(rest) + PiecesOf(x) == Pieces(g)
    ensures forall p :: p in rest ==> p in g
  {
    PiecesPermutation(rest + [x], g);
    PiecesConcat(rest, [x]);
    PiecesSingleton(x);
    forall p | p in rest
      ensures p in g
    {
      assert p in multiset(rest);
      assert p in multiset(g);
    }
  }

  /** The lone-part step of the time check (algoritmo_asignacion.py:426-450):
      int(t * uph) pieces are kept and the remainder is queued, or, when that
      count is not positive, nothing changes and the check must stop. */
  method TrimLone(parte: Part, pendientes: seq<Part>, t: real, ghost obj: real)
    returns (sig: seq<Part>, cola: seq<Part>, stop: bool)
    requires HoursPart(parte) > t && parte.uph >= 0.0
    ensures var s := SplitPartByTime(parte, t);
            if s.0.Some? && s.1.Some? then sig == [s.0.value] && cola == pendientes + [s.1.value] && !stop
            else sig == [parte] && cola == pendientes && stop
    ensures stop ==> TimeCheck([parte], t) == ([parte], [], true)
    ensures !stop ==> TimeCheck([parte], t) == (TimeCheck(sig, t).0, cola[|pendientes|..] + TimeCheck(sig, t).1, TimeCheck(sig, t).2)
    ensures |sig| == 1 && forall p :: p in sig ==> p.uph >= 0.0
    ensures cola == pendientes + cola[|pendientes|..] && forall p :: p in cola[|pendientes|..] ==> p.uph >= 0.0
    ensures !stop ==> HoursGroup(sig) <= t
    ensures Pieces(cola) + Pieces(sig) == Pieces(pendientes) + PiecesOf(parte)
    ensures HoursPart(parte) <= obj ==> EachFits(sig, obj) && EachFits(cola[|pendientes|..], obj)
  {
    HoursGroupSingleton(parte);
    PiecesSingleton(parte);
    TimeCheckLone(parte, t);
    var (asignada, pendiente) := SplitPartByTime(parte, t);
    if asignada.Some? && pendiente.Some? {
      var c := asignada.value.quantity;
      PortionsPieces(parte, c);
      PortionHours(parte, c);
      PortionHours(parte, parte.quantity - c);
      PiecesSingleton(asignada.value);
      PiecesConcat(pendientes, [pendiente.value]);
      PiecesSingleton(pendiente.value);
      HoursGroupSingleton(asignada.value);
      sig := [asignada.value];
      cola := pendientes + [pendiente.value];
      stop := false;
      assert cola[|pendientes|..] == [pendiente.value];
      TimeCheckFits(sig, t);
      assert [pendiente.value] + [] == [pendiente.value];
    } else {
      sig, cola, stop := [parte], pendientes, true;
    }
  }

  /** The eviction step of the time check (algoritmo_asignacion.py:451-456):
      the least compatible member of a group of two or more is queued. */
  method TrimEvict(resto: seq<Part>, pendientes: seq<Part>, t: real, ghost obj: real)
    returns (sig: seq<Part>, cola: seq<Part>)
    requires |resto| >= 2 && HoursGroup(resto) > t
    requires forall p :: p in resto ==> p.uph >= 0.0
    ensures |cola| == |pendientes| + 1 && cola[..|pendientes|] == pendientes
    ensures Evicts(resto, sig, cola[|pendientes|])
    ensures cola == pendientes + [cola[|pendientes|]] && cola[|pendientes|] in resto
    ensures sig != [] && |sig| < |resto| && forall p :: p in sig ==> p in resto
    ensures forall p :: p in sig ==> p.uph >= 0.0
    ensures TimeCheck(resto, t) == (TimeCheck(sig, t).0, cola[|pendientes|..] + TimeCheck(sig, t).1, TimeCheck(sig, t).2)
    ensures ToolsWithin(resto) ==> ToolsWithin(sig)
    ensures Pieces(cola) + Pieces(sig) == Pieces(pendientes) + Pieces(resto)
  {
    var rest, least := EvictLeastCompatible(resto);
    EvictPieces(resto, rest, least);
    if ToolsWithin(resto) {
      ToolsWithinSub(rest, resto);
    }
    TimeCheckEvict(resto, t, rest, least);
    PiecesConcat(pendientes, [least]);
    PiecesSingleton(least);
    sig := rest;
    cola := pendientes + [least];
    assert cola[|pendientes|..] == [least];
  }

  /** Checking `grupo` in time `t` amounts to having queued `q` and then
      checking what is left of it, `resto`. */
  ghost predicate TimeTrace(grupo: seq<Part>, t: real, resto: seq<Part>, q: seq<Part>)
    requires grupo != [] && forall p :: p in grupo ==> p.uph >= 0.0
    requires resto != [] && forall p :: p in resto ==> p.uph >= 0.0
  {
    var c := TimeCheck(resto, t);
    TimeCheck(grupo, t) == (c.0, q + c.1, c.2)
  }

  lemma TimeTraceStart(grupo: seq<Part>, t: real)
    requires grupo != [] && forall p :: p in grupo ==> p.uph >= 0.0
    ensures TimeTrace(grupo, t, grupo, [])
  {
    assert [] + TimeCheck(grupo, t).1 == TimeCheck(grupo, t).1;
  }

  lemma TimeTraceNext(grupo: seq<Part>, t: real, resto: seq<Part>, q: seq<Part>, sig: seq<Part>, extra: seq<Part>)
    requires grupo != [] && forall p :: p in grupo ==> p.uph >= 0.0
    requires resto != [] && forall p :: p in resto ==> p.uph >= 0.0
    requires sig != [] && forall p :: p in sig ==> p.uph >= 0.0
    requires TimeTrace(grupo, t, resto, q)
    requires TimeCheck(resto, t) == (TimeCheck(sig, t).0, extra + TimeCheck(sig, t).1, TimeCheck(sig, t).2)
    ensures TimeTrace(grupo, t, sig, q + extra)
  {
    var c := TimeCheck(sig, t);
    ConcatAssoc(q, extra, c.1);
  }

  lemma TimeTraceDone(grupo: seq<Part>, t: real, resto: seq<Part>, q: seq<Part>, abierta: bool)
    requires grupo != [] && forall p :: p in grupo ==> p.uph >= 0.0
    requires resto != [] && forall p :: p in resto ==> p.uph >= 0.0
    requires TimeTrace(grupo, t, resto, q) && TimeCheck(resto, t) == (resto, [], abierta)
    ensures TimeCheck(grupo, t) == (resto, q, abierta)
  {
    assert q + [] == q;
  }

  /** The invariant of the time check of `grupo` against the pending list
      pl.pending: `resto` is left, `q` has been queued, and pieces, rates,
      the station rule and (under `fit`) the time budget are kept. */
  ghost predicate Trimming(pl: Plan, grupo: seq<Part>, t: real, obj: real, fit: bool,
                           resto: seq<Part>, pendientes: seq<Part>, q: seq<Part>)
  {
    && grupo != [] && (forall p :: p in grupo ==> p.uph >= 0.0)
    && resto != [] && (forall p :: p in resto ==> p.uph >= 0.0)
    && (forall p :: p in pendientes ==> p.uph >= 0.0)
    && pendientes == pl.pending + q && TimeTrace(grupo, t, resto, q)
    && (ToolsWithin(grupo) ==> ToolsWithin(resto))
    && Pieces(pendientes) + Pieces(resto) == Pieces(pl.pending) + Pieces(grupo)
    && (fit ==> EachFits(resto, obj) && EachFits(pendientes, obj))
  }

  /** A step that leaves `sig` of `resto` and queues `extra` keeps the
      invariant of the time check, provided it moves pieces, rates, the
      station rule, the time budget and TimeCheck's outcome along. */
  lemma TrimmingNext(pl: Plan, grupo: seq<Part>, t: real, obj: real, fit: bool,
                     resto: seq<Part>, pendientes: seq<Part>, q: seq<Part>, sig: seq<Part>, extra: seq<Part>)
    requires Trimming(pl, grupo, t, obj, fit, resto, pendientes, q)
    requires sig != [] && (forall p :: p in sig ==> p.uph >= 0.0) && forall p :: p in extra ==> p.uph >= 0.0
    requires TimeCheck(resto, t) == (TimeCheck(sig, t).0, extra + TimeCheck(sig, t).1, TimeCheck(sig, t).2)
    requires ToolsWithin(resto) ==> ToolsWithin(sig)
    requires Pieces(pendientes + extra) + Pieces(sig) == Pieces(pendientes) + Pieces(resto)
    requires fit ==> EachFits(sig, obj) && EachFits(extra, obj)
    ensures Trimming(pl, grupo, t, obj, fit, sig, pendientes + extra, q + extra)
  {
    TimeTraceNext(grupo, t, resto, q, sig, extra);
    ConcatAssoc(pl.pending, q, extra);
    forall p | p in pendientes + extra
      ensures p.uph >= 0.0 && (fit ==> HoursPart(p) <= obj)
    {
      assert p in pendientes || p in extra;
    }
  }

  /** One step of the time check (algoritmo_asignacion.py:425-458), for a
      group that needs more than the `t` hours left: a lone part is split
      (TrimLone), or, when not one piece fits, nothing changes and the check
      must stop; a larger group loses its least compatible member
      (TrimEvict). */
  method TrimStep(ghost pl: Plan, ghost grupo: seq<Part>, t: real, ghost obj: real, ghost fit: bool,
                  resto: seq<Part>, pendientes: seq<Part>, ghost q: seq<Part>)
    returns (sig: seq<Part>, cola: seq<Part>, ghost q': seq<Part>, stop: bool)
    requires Trimming(pl, grupo, t, obj, fit, resto, pendientes, q) && HoursGroup(resto) > t
    ensures Trimming(pl, grupo, t, obj, fit, sig, cola, q')
    ensures stop ==> sig == resto && |resto| == 1 && TimeCheck(resto, t) == (resto, [], true)
    ensures |sig| <= |resto| && (!stop ==> |sig| < |resto| || HoursGroup(sig) <= t)
    ensures HoursGroup(sig) > t ==> forall p :: p in sig ==> p in resto
  {
    var n := |pendientes|;
    if |resto| == 1 {
      var parte := resto[0];
      assert resto == [parte];
      HoursGroupSingleton(parte);
      PiecesSingleton(parte);
      sig, cola, stop := TrimLone(parte, pendientes, t, obj);
      if stop {
        return sig, cola, q, stop;
      }
      assert fit ==> HoursPart(parte) <= obj;
    } else {
      sig, cola := TrimEvict(resto, pendientes, t, obj);
      stop := false;
      assert cola[n..] == [cola[n]];
      assert fit ==> EachFits(cola[n..], obj);
    }
    TrimmingNext(pl, grupo, t, obj, fit, resto, pendientes, q, sig, cola[n..]);
    q' := q + cola[n..];
  }

  /** Moving pieces between the pending list and the group in hand leaves
      what is held with the group unchanged. */
  lemma HeldShift(pl: Plan, pendientes: seq<Part>, resto: seq<Part>, grupo: seq<Part>)
    requires Pieces(pendientes) + Pieces(resto) == Pieces(pl.pending) + Pieces(grupo)
    ensures Held(pl.(pending := pendientes)) + Pieces(resto) == Held(pl) + Pieces(grupo)
  {
    MultisetShift(Pieces(Flatten(pl.machines)), Pieces(pendientes), Pieces(resto), Pieces(pl.pending), Pieces(grupo));
  }

  /** The loop of the time check (algoritmo_asignacion.py:424-458): steps
      are taken while the group needs more than the `t` hours left, and it
      stops early when not one piece of a lone part fits (`stop`). Its
      outcome is TimeCheck's. */
  method TrimToTime(pl: Plan, grupo: seq<Part>, t: real, ghost obj: real, ghost fit: bool)
    returns (resto: seq<Part>, pendientes: seq<Part>, stop: bool, ghost q: seq<Part>)
    requires grupo != [] && forall p :: p in grupo ==> p.uph >= 0.0
    requires forall p :: p in pl.pending ==> p.uph >= 0.0
    requires fit ==> EachFits(grupo, obj) && EachFits(pl.pending, obj)
    ensures TimeCheck(grupo, t) == (resto, q, stop) && pendientes == pl.pending + q
    ensures resto != [] && (forall p :: p in resto ==> p.uph >= 0.0) && forall p :: p in pendientes ==> p.uph >= 0.0
    ensures !stop ==> HoursGroup(resto) <= t
    ensures stop ==> |resto| == 1 && resto[0] in grupo
    ensures ToolsWithin(grupo) ==> ToolsWithin(resto)
    ensures Pieces(pendientes) + Pieces(resto) == Pieces(pl.pending) + Pieces(grupo)
    ensures fit ==> EachFits(resto, obj) && EachFits(pendientes, obj)
  {
    pendientes := pl.pending;
    q := [];
    resto := grupo;
    stop := false;
    TimeTraceStart(grupo, t);
    assert pl.pending + [] == pl.pending;
    var horas := HoursGroup(resto);
    while horas > t
      invariant Trimming(pl, grupo, t, obj, fit, resto, pendientes, q)
      invariant horas == HoursGroup(resto)
      invariant horas > t ==> forall p :: p in resto ==> p in grupo
      decreases |resto| + (if horas > t then 1 else 0)
    {
      resto, pendientes, q, stop := TrimStep(pl, grupo, t, obj, fit, resto, pendientes, q);
      if stop {
        break;
      }
      horas := HoursGroup(resto);
    }
    if !stop {
      TimeCheckFits(resto, t);
    }
    TimeTraceDone(grupo, t, resto, q, stop);
  }

  /** tiempo_disponible: the hours the current machine has left. */
  function TimeLeft(pl: Plan, obj: real): real
    requires |pl.used| >= 1
  {
    obj - pl.used[|pl.used| - 1]
  }

  /** The plan after the time check `tc` of a group: the parts it queued
      join the pending list and, when it stopped, a new machine is opened. */
  function AfterTimeCheck(pl: Plan, tc: (seq<Part>, seq<Part>, bool)): Plan
  {
    var st := pl.(pending := pl.pending + tc.1);
    if tc.2 then OpenMachine(st) else st
  }

  /** The plan after a time check that left the group `tc.0` and queued
      `tc.1` keeps its bookkeeping; when a machine was opened it is empty and
      has every hour left. */
  lemma AfterTimeCheckKeeps(pl: Plan, tc: (seq<Part>, seq<Part>, bool), grupo: seq<Part>, obj: real)
    requires Tracked(pl) && forall p :: p in pl.pending + tc.1 ==> p.uph >= 0.0
    requires Pieces(pl.pending + tc.1) + Pieces(tc.0) == Pieces(pl.pending) + Pieces(grupo)
    ensures var st := AfterTimeCheck(pl, tc);
            && Tracked(st) && st.divs == pl.divs && st.pending == pl.pending + tc.1
            && Held(st) + Pieces(tc.0) == Held(pl) + Pieces(grupo)
            && (!tc.2 ==> st.machines == pl.machines && st.used == pl.used)
            && (tc.2 ==> st.machines == pl.machines + [[]] && st.used == pl.used + [0.0] && TimeLeft(st, obj) == obj)
    ensures ToolsOk(pl) ==> ToolsOk(AfterTimeCheck(pl, tc))
    ensures Fits(pl, obj) && EachFits(pl.pending + tc.1, obj) ==> Fits(AfterTimeCheck(pl, tc), obj)
  {
    var st := pl.(pending := pl.pending + tc.1);
    HeldShift(pl, pl.pending + tc.1, tc.0, grupo);
    OpenMachineKeeps(st, obj);
    if ToolsOk(pl) {
      ToolsOkOpen(st);
    }
  }

  /** The time check of one attempt (algoritmo_asignacion.py:414-458). While the
      group needs more hours than the current machine has left it is trimmed
      (TrimToTime); when not one piece of a lone part fits, a new machine is
      opened (`abierta`). The outcome is TimeCheck's: the group left, the
      parts queued after the pending list, and whether a machine was opened.
      Unless one was, the group now fits. */
  method FitGroupInTime(pl: Plan, grupo: seq<Part>, obj: real)
    returns (sig: Plan, resto: seq<Part>, horas: real, abierta: bool)
    requires Tracked(pl) && grupo != [] && forall p :: p in grupo ==> p.uph >= 0.0
    ensures var tc := TimeCheck(grupo, TimeLeft(pl, obj));
            resto == tc.0 && abierta == tc.2 && sig == AfterTimeCheck(pl, tc)
    ensures Tracked(sig) && sig.divs == pl.divs
    ensures resto != [] && horas == HoursGroup(resto) && forall p :: p in resto ==> p.uph >= 0.0
    ensures |sig.machines| == |pl.machines| + (if abierta then 1 else 0)
    ensures abierta || Current(pl) == [] ==> Current(sig) == []
    ensures abierta ==> |resto| == 1 && resto[0] in grupo
    ensures !abierta || EachFits(grupo, obj) ==> horas <= TimeLeft(sig, obj)
    ensures ToolsWithin(grupo) ==> ToolsWithin(resto)
    ensures Held(sig) + Pieces(resto) == Held(pl) + Pieces(grupo)
    ensures ToolsOk(pl) ==> ToolsOk(sig)
    ensures Fits(pl, obj) && EachFits(grupo, obj) ==> Fits(sig, obj) && EachFits(resto, obj)
  {
    ghost var fit := EachFits(grupo, obj) && EachFits(pl.pending, obj);
    var t := TimeLeft(pl, obj);
    var pendientes;
    ghost var q;
    resto, pendientes, abierta, q := TrimToTime(pl, grupo, t, obj, fit);
    horas := HoursGroup(resto);
    AfterTimeCheckKeeps(pl, (resto, q, abierta), grupo, obj);
    if abierta {
      HoursGroupSingleton(resto[0]);
    }
    sig := AfterTimeCheck(pl, (resto, pendientes[|pl.pending|..], abierta));
    assert pendientes[|pl.pending|..] == q;
  }

  /** The station rule of the group pass: a machine with more than
      StationLimit distinct tools holds a single part. */
  ghost predicate ToolsOk(pl: Plan)
  {
    forall k :: 0 <= k < |pl.machines| ==> |pl.machines[k]| <= 1 || UniqueToolCount(pl.machines[k]) <= StationLimit
  }

  /** The preconditions under which the group pass keeps the time rule. */
  ghost predicate Fits(pl: Plan, obj: real)
  {
    0.0 <= obj && WithinBudget(pl, obj) && EachFits(pl.pending, obj)
  }

  lemma ToolsOkOpen(pl: Plan)
    requires ToolsOk(pl)
    ensures ToolsOk(OpenMachine(pl))
  {
  }

  lemma ToolsOkAdd(pl: Plan, k: nat, xs: seq<Part>, h: real)
    requires ToolsOk(pl) && k < |pl.machines| && |pl.used| == |pl.machines|
    requires |pl.machines[k] + xs| <= 1 || UniqueToolCount(pl.machines[k] + xs) <= StationLimit
    ensures ToolsOk(AddTo(pl, k, xs, h))
  {
  }

  /** What the station check (algoritmo_asignacion.py:466-505) does with the
      group `resto` on the current machine of `pl`: the group goes onto the
      machine when the machine stays within StationLimit tools, or when it is
      a lone part on an empty machine; a larger group over the limit on an
      empty machine queues its least compatible member and keeps the rest
      (`sig`); otherwise a new machine is opened and the whole group waits
      for it. `asignado` says the group went onto the machine. */
  ghost predicate StationOutcome(pl: Plan, resto: seq<Part>, horas: real, st: Plan, sig: seq<Part>, asignado: bool)
    requires |pl.machines| >= 1 && |pl.used| == |pl.machines|
  {
    var cur := |pl.machines| - 1;
    if UniqueToolCount(Current(pl) + resto) <= StationLimit || (Current(pl) == [] && |resto| <= 1) then
      asignado && st == AddTo(pl, cur, resto, horas)
    else if Current(pl) == [] then
      && !asignado && |resto| >= 2
      && st == pl.(pending := pl.pending + [LeastCompatible(resto).value])
      && Evicts(resto, sig, LeastCompatible(resto).value)
    else
      !asignado && st == OpenMachine(pl) && sig == resto
  }

  /** The eviction of the station check (algoritmo_asignacion.py:474-479): the
      least compatible member of a group too large for an empty machine is
      queued. */
  method StationEvict(pl: Plan, resto: seq<Part>, obj: real) returns (st: Plan, sig: seq<Part>)
    requires Tracked(pl) && |resto| >= 2 && forall p :: p in resto ==> p.uph >= 0.0
    ensures st == pl.(pending := pl.pending + [LeastCompatible(resto).value])
    ensures Evicts(resto, sig, LeastCompatible(resto).value)
    ensures Tracked(st) && sig != [] && forall p :: p in sig ==> p.uph >= 0.0
    ensures Held(st) + Pieces(sig) == Held(pl) + Pieces(resto)
    ensures Fits(pl, obj) && EachFits(resto, obj) ==> Fits(st, obj) && EachFits(sig, obj)
  {
    var rest, least := EvictLeastCompatible(resto);
    EvictPieces(resto, rest, least);
    EvictsRest(resto, rest, least);
    PiecesConcat(pl.pending, [least]);
    PiecesSingleton(least);
    MultisetShift(Pieces(Flatten(pl.machines)), Pieces(pl.pending) + PiecesOf(least), Pieces(rest), Pieces(pl.pending), Pieces(resto));
    st, sig := pl.(pending := pl.pending + [least]), rest;
  }

  /** The station check of one attempt (algoritmo_asignacion.py:466-505) on
      the current machine, for a group that already fits in its time; its
      outcome is StationOutcome. Whatever is left unplaced waits for an empty
      machine, and a group within the station rule on an empty machine is
      always placed. */
  method StationCheck(pl: Plan, resto: seq<Part>, horas: real, obj: real) returns (st: Plan, sig: seq<Part>, asignado: bool)
    requires Tracked(pl) && resto != [] && horas == HoursGroup(resto)
    requires forall p :: p in resto ==> p.uph >= 0.0
    ensures StationOutcome(pl, resto, horas, st, sig, asignado)
    ensures Tracked(st) && st.divs == pl.divs
    ensures |pl.machines| <= |st.machines| <= |pl.machines| + (if Current(pl) == [] then 0 else 1)
    ensures !asignado ==> Current(st) == [] && sig != [] && forall p :: p in sig ==> p.uph >= 0.0
    ensures Current(pl) == [] && ToolsWithin(resto) ==> asignado
    ensures !asignado && ToolsWithin(resto) ==> ToolsWithin(sig)
    ensures Held(st) + (if asignado then multiset{} else Pieces(sig)) == Held(pl) + Pieces(resto)
    ensures ToolsOk(pl) ==> ToolsOk(st)
    ensures Fits(pl, obj) && EachFits(resto, obj) && horas <= TimeLeft(pl, obj) ==>
              Fits(st, obj) && (!asignado ==> EachFits(sig, obj))
  {
    var cur := |pl.machines| - 1;
    assert TimeLeft(pl, obj) == obj - pl.used[cur];
    if UniqueToolCount(pl.machines[cur] + resto) > StationLimit {
      if |pl.machines[cur]| == 0 {
        assert pl.machines[cur] + resto == resto;
        if |resto| > 1 {
          st, sig := StationEvict(pl, resto, obj);
          return st, sig, false;
        }
        AddToKeeps(pl, cur, resto, obj);
        assert |pl.machines[cur] + resto| == 1;
        if ToolsOk(pl) {
          ToolsOkAdd(pl, cur, resto, horas);
        }
        return AddTo(pl, cur, resto, horas), resto, true;
      }
      OpenMachineKeeps(pl, obj);
      if ToolsOk(pl) {
        ToolsOkOpen(pl);
      }
      return OpenMachine(pl), resto, false;
    }
    AddToKeeps(pl, cur, resto, obj);
    if ToolsOk(pl) {
      ToolsOkAdd(pl, cur, resto, horas);
    }
    st := AddTo(pl, cur, resto, horas);
    sig := resto;
    asignado := true;
  }

  /** One attempt's state: the plan, what is left of the group, and
      whether it was placed. */
  datatype Try = Try(plan: Plan, resto: seq<Part>, asignado: bool)

  /** The attempt from `s` gives `t`: the machine counter has not passed
      MaxMachines, and `t` is the time check then the station check on what
      it left. */
  ghost predicate AttemptOutcome(s: Try, t: Try, obj: real)
  {
    && Tracked(s.plan) && |s.plan.machines| <= MaxMachines
    && s.resto != [] && (forall p :: p in s.resto ==> p.uph >= 0.0)
    && var tc := TimeCheck(s.resto, TimeLeft(s.plan, obj));
       var medio := AfterTimeCheck(s.plan, tc);
       && |medio.machines| >= 1 && |medio.used| == |medio.machines|
       && StationOutcome(medio, tc.0, HoursGroup(tc.0), t.plan, t.resto, t.asignado)
  }

  /** One attempt at placing a group (algoritmo_asignacion.py:414-505): the
      time check, then the station check on what it left. `asignado` says the
      group (as trimmed) went onto a machine; otherwise `resto` is what the
      next attempt must place, and it waits on an empty machine. A group
      within the station rule is placed at once when the current machine is
      empty. */
  method Attempt(pl: Plan, grupo: seq<Part>, obj: real) returns (sig: Plan, resto: seq<Part>, asignado: bool)
    requires Tracked(pl) && |pl.machines| <= MaxMachines
    requires grupo != [] && forall p :: p in grupo ==> p.uph >= 0.0
    ensures AttemptOutcome(Try(pl, grupo, false), Try(sig, resto, asignado), obj)
    ensures Tracked(sig) && sig.divs == pl.divs
    ensures |pl.machines| <= |sig.machines| <= |pl.machines| + 1
    ensures !asignado ==> Current(sig) == [] && resto != [] && forall p :: p in resto ==> p.uph >= 0.0
    ensures Current(pl) == [] && ToolsWithin(grupo) ==> asignado
    ensures !asignado && ToolsWithin(grupo) ==> ToolsWithin(resto)
    ensures Held(sig) + (if asignado then multiset{} else Pieces(resto)) == Held(pl) + Pieces(grupo)
    ensures ToolsOk(pl) ==> ToolsOk(sig)
    ensures Fits(pl, obj) && EachFits(grupo, obj) ==> Fits(sig, obj) && (!asignado ==> EachFits(resto, obj))
  {
    var medio, trimmed, horas, abierta := FitGroupInTime(pl, grupo, obj);
    sig, resto, asignado := StationCheck(medio, trimmed, horas, obj);
  }

  /** The attempts at one group: at most MaxAttempts, each from the state
      the previous one left, none after the group was placed. */
  ghost predicate Tried(steps: seq<Try>, obj: real)
  {
    && 0 < |steps| <= MaxAttempts + 1
    && forall i :: 0 <= i < |steps| - 1 ==> !steps[i].asignado && AttemptOutcome(steps[i], steps[i + 1], obj)
  }

  /** The attempts ended the loop without an error: the group was placed or
      every attempt was used. */
  ghost predicate Finished(steps: seq<Try>)
  {
    |steps| > 0 && (steps[|steps| - 1].asignado || |steps| == MaxAttempts + 1)
  }

  /** The next attempt was refused: the group is not placed, an attempt is
      left, and the machine counter has passed MaxMachines. */
  ghost predicate Refused(steps: seq<Try>)
  {
    && 0 < |steps| <= MaxAttempts
    && !steps[|steps| - 1].asignado
    && |steps[|steps| - 1].plan.machines| > MaxMachines
  }

  /** One more attempt extends the trail. */
  lemma TriedSnoc(steps: seq<Try>, t: Try, obj: real)
    requires Tried(steps, obj) && |steps| <= MaxAttempts
    requires !steps[|steps| - 1].asignado && AttemptOutcome(steps[|steps| - 1], t, obj)
    ensures Tried(steps + [t], obj)
  {
    var steps' := steps + [t];
    forall i | 0 <= i < |steps'| - 1
      ensures !steps'[i].asignado && AttemptOutcome(steps'[i], steps'[i + 1], obj)
    {
      assert steps'[i] == steps[i];
      if i + 1 < |steps| {
        assert steps'[i + 1] == steps[i + 1];
      }
    }
  }

  /** The placement of one group (algoritmo_asignacion.py:408-505): up to
      MaxAttempts attempts, each refused with MachineLimit once the machine
      counter has passed MaxMachines. A group still unplaced after the last
      attempt would be dropped (`dropped`), appearing neither on a machine nor
      in the pending list; a group within the station rule never is, because
      an attempt that fails leaves an empty machine on which the next attempt
      places it. */
  method PlaceGroup(pl: Plan, grupo: seq<Part>, obj: real)
    returns (res: Result<Plan, AssignError>, ghost dropped: seq<Part>, ghost steps: seq<Try>)
    requires Tracked(pl) && |pl.machines| <= MaxMachines + 1
    requires grupo != [] && forall p :: p in grupo ==> p.uph >= 0.0
    ensures Tried(steps, obj) && steps[0] == Try(pl, grupo, false)
    ensures res.Ok? ==> Finished(steps) && res.value == steps[|steps| - 1].plan
    ensures res.Ok? ==> dropped == (if steps[|steps| - 1].asignado then [] else steps[|steps| - 1].resto)
    ensures res.Err? ==> res.error == MachineLimit && Refused(steps)
    ensures res.Ok? ==> Tracked(res.value) && res.value.divs == pl.divs
    ensures res.Ok? ==> |pl.machines| <= |res.value.machines| <= MaxMachines + 1
    ensures res.Ok? ==> Held(res.value) + Pieces(dropped) == Held(pl) + Pieces(grupo)
    ensures res.Ok? && ToolsWithin(grupo) ==> dropped == []
    ensures res.Ok? && ToolsOk(pl) ==> ToolsOk(res.value)
    ensures res.Ok? && Fits(pl, obj) && EachFits(grupo, obj) ==> Fits(res.value, obj)
  {
    ghost var fit := Fits(pl, obj) && EachFits(grupo, obj);
    ghost var within := ToolsWithin(grupo);
    var st := pl;
    var resto := grupo;
    var asignado := false;
    var intentos := 0;
    steps := [Try(pl, grupo, false)];
    while !asignado && intentos < MaxAttempts
      invariant 0 <= intentos <= MaxAttempts
      invariant Tried(steps, obj) && steps[0] == Try(pl, grupo, false)
      invariant |steps| == intentos + 1 && steps[|steps| - 1] == Try(st, resto, asignado)
      invariant Tracked(st) && st.divs == pl.divs && |pl.machines| <= |st.machines| <= MaxMachines + 1
      invariant !asignado ==> resto != [] && forall p :: p in resto ==> p.uph >= 0.0
      invariant Held(st) + (if asignado then multiset{} else Pieces(resto)) == Held(pl) + Pieces(grupo)
      invariant ToolsOk(pl) ==> ToolsOk(st)
      invariant fit ==> Fits(st, obj) && (!asignado ==> EachFits(resto, obj))
      invariant within && !asignado ==> ToolsWithin(resto) && (intentos >= 1 ==> Current(st) == [])
      invariant within && intentos >= 2 ==> asignado
      decreases MaxAttempts - intentos
    {
      intentos := intentos + 1;
      if |st.machines| > MaxMachines {
        return Err(MachineLimit), [], steps;
      }
      st, resto, asignado := Attempt(st, resto, obj);
      TriedSnoc(steps, Try(st, resto, asignado), obj);
      steps := steps + [Try(st, resto, asignado)];
    }
    dropped := if asignado then [] else resto;
    res := Ok(st);
  }

  /** The members of one group are members of the flattened groups. */
  lemma GroupMembers(grupos: seq<seq<Part>>, g: nat, obj: real)
    requires g < |grupos|
    requires forall p :: p in Flatten(grupos) ==> p.uph >= 0.0
    ensures forall p :: p in grupos[g] ==> p.uph >= 0.0
    ensures EachFits(Flatten(grupos), obj) ==> EachFits(grupos[g], obj)
  {
    forall p | p in grupos[g]
      ensures p in Flatten(grupos)
    {
      FlattenMember(grupos, g, p);
    }
  }

  /** The ledger of the group pass after one more group. */
  lemma GroupLedger(grupos: seq<seq<Part>>, g: nat, now: multiset<int>, before: multiset<int>, d: seq<Part>, dropped: seq<Part>)
    requires g < |grupos|
    requires now + Pieces(d) == before + Pieces(grupos[g])
    requires before + Pieces(dropped) == Pieces(Flatten(grupos[..g]))
    ensures now + Pieces(dropped + d) == Pieces(Flatten(grupos[..g + 1]))
  {
    assert grupos[..g + 1] == grupos[..g] + [grupos[g]];
    UnionOfFlattenSnoc(grupos[..g], grupos[g], PiecesOf);
    PiecesConcat(dropped, d);
    MultisetStep(now, Pieces(d), before, Pieces(grupos[g]), Pieces(dropped), Pieces(Flatten(grupos[..g])));
  }

  /** What the group pass keeps after every group. */
  ghost predicate GroupPass(st: Plan, obj: real, fit: bool)
  {
    Tracked(st) && st.divs == map[] && |st.machines| <= MaxMachines + 1 && ToolsOk(st) && (fit ==> Fits(st, obj))
  }

  /** The plan the group pass starts from: one empty machine. */
  function FirstPlan(): Plan
  {
    Plan([[]], [0.0], [], map[])
  }

  /** The plan group g starts from: the first plan, or the last plan of the
      trail of group g - 1. */
  ghost function PlanBefore(start: Plan, trails: seq<seq<Try>>, g: nat): Plan
    requires g <= |trails|
  {
    if g == 0 || trails[g - 1] == [] then start
    else var t := trails[g - 1]; t[|t| - 1].plan
  }

  /** The trail of group g starts with the group on the plan the earlier
      groups left, and ended the loop without an error unless it is the
      last trail. */
  ghost predicate GroupTried(start: Plan, grupos: seq<seq<Part>>, trails: seq<seq<Try>>, g: nat, obj: real)
    requires g < |trails| <= |grupos|
  {
    && Tried(trails[g], obj)
    && trails[g][0] == Try(PlanBefore(start, trails, g), grupos[g], false)
    && (g + 1 < |trails| ==> Finished(trails[g]))
  }

  /** The attempt trails of the first |trails| groups. */
  ghost predicate GroupsTried(start: Plan, grupos: seq<seq<Part>>, trails: seq<seq<Try>>, obj: real)
  {
    |trails| <= |grupos| && forall g :: 0 <= g < |trails| ==> GroupTried(start, grupos, trails, g, obj)
  }

  /** One more group's trail extends the group pass. */
  lemma GroupsTriedSnoc(start: Plan, grupos: seq<seq<Part>>, trails: seq<seq<Try>>, steps: seq<Try>, obj: real)
    requires GroupsTried(start, grupos, trails, obj) && |trails| < |grupos|
    requires trails != [] ==> Finished(trails[|trails| - 1])
    requires Tried(steps, obj) && steps[0] == Try(PlanBefore(start, trails, |trails|), grupos[|trails|], false)
    ensures GroupsTried(start, grupos, trails + [steps], obj)
    ensures PlanBefore(start, trails + [steps], |trails| + 1) == steps[|steps| - 1].plan
  {
    var trails' := trails + [steps];
    forall g | 0 <= g < |trails'|
      ensures GroupTried(start, grupos, trails', g, obj)
    {
      assert PlanBefore(start, trails', g) == PlanBefore(start, trails, g);
      if g < |trails| {
        assert GroupTried(start, grupos, trails, g, obj);
        assert trails'[g] == trails[g];
      }
    }
  }

  /** The group pass after its first g groups: their trails, the last one
      finished, leave the plan `st`. */
  ghost predicate GroupsSoFar(grupos: seq<seq<Part>>, trails: seq<seq<Try>>, g: nat, st: Plan, obj: real)
  {
    && |trails| == g && GroupsTried(FirstPlan(), grupos, trails, obj)
    && st == PlanBefore(FirstPlan(), trails, g) && (g > 0 ==> Finished(trails[g - 1]))
  }

  /** The group pass (algoritmo_asignacion.py:396-502): starting from one empty
      machine, every group is placed in turn. Afterwards every piece of every
      group is on a machine, pending or dropped; no machine holding two or more
      parts uses more than StationLimit tools; and when every part fits in
      `obj` hours no machine is over `obj`. */
  method PlaceAllGroups(grupos: seq<seq<Part>>, obj: real)
    returns (res: Result<Plan, AssignError>, ghost dropped: seq<Part>, ghost trails: seq<seq<Try>>)
    requires forall k :: 0 <= k < |grupos| ==> grupos[k] != []
    requires forall p :: p in Flatten(grupos) ==> p.uph >= 0.0
    ensures GroupsTried(FirstPlan(), grupos, trails, obj)
    ensures res.Ok? ==> |trails| == |grupos| && (trails != [] ==> Finished(trails[|trails| - 1]))
    ensures res.Ok? ==> res.value == PlanBefore(FirstPlan(), trails, |trails|)
    ensures res.Err? ==> res.error == MachineLimit && trails != [] && Refused(trails[|trails| - 1])
    ensures res.Err? ==> |PlanBefore(FirstPlan(), trails, |trails|).machines| > MaxMachines
    ensures res.Ok? ==> Tracked(res.value) && res.value.divs == map[] && |res.value.machines| <= MaxMachines + 1
    ensures res.Ok? ==> ToolsOk(res.value)
    ensures res.Ok? ==> Held(res.value) + Pieces(dropped) == Pieces(Flatten(grupos))
    ensures res.Ok? && 0.0 <= obj && EachFits(Flatten(grupos), obj) ==> Fits(res.value, obj)
    ensures res.Ok? && AllWithin(grupos) ==> dropped == []
  {
    ghost var fit := 0.0 <= obj && EachFits(Flatten(grupos), obj);
    ghost var within := AllWithin(grupos);
    var st := FirstPlan();
    GroupPassStart(grupos, obj, fit);
    dropped := [];
    trails := [];
    var g := 0;
    while g < |grupos|
      invariant 0 <= g <= |grupos|
      invariant GroupPass(st, obj, fit)
      invariant Held(st) + Pieces(dropped) == Pieces(Flatten(grupos[..g]))
      invariant within ==> dropped == []
      invariant GroupsSoFar(grupos, trails, g, st, obj)
    {
      var r;
      r, dropped, trails := NextGroupPlaced(grupos, g, obj, fit, within, st, dropped, trails);
      if r.Err? {
        return Err(r.error), dropped, trails;
      }
      st := r.value;
      g := g + 1;
    }
    assert grupos[..g] == grupos;
    res := Ok(st);
  }

  /** The group pass starts from one empty machine. */
  lemma GroupPassStart(grupos: seq<seq<Part>>, obj: real, fit: bool)
    requires fit ==> 0.0 <= obj
    ensures GroupPass(Plan([[]], [0.0], [], map[]), obj, fit)
    ensures Held(Plan([[]], [0.0], [], map[])) + Pieces([]) == Pieces(Flatten(grupos[..0]))
  {
    var st := Plan([[]], [0.0], [], map[]);
    assert Flatten(st.machines) == [] by {
      assert st.machines[..0] == [];
    }
    assert HoursGroup([]) == 0.0;
    assert grupos[..0] == [];
  }

  /** One group of the group pass. */
  method NextGroupPlaced(grupos: seq<seq<Part>>, g: nat, obj: real, ghost fit: bool, ghost within: bool, st: Plan, ghost dropped: seq<Part>,
                         ghost trails: seq<seq<Try>>)
    returns (res: Result<Plan, AssignError>, ghost dropped': seq<Part>, ghost trails': seq<seq<Try>>)
    requires g < |grupos| && grupos[g] != []
    requires forall p :: p in Flatten(grupos) ==> p.uph >= 0.0
    requires fit ==> 0.0 <= obj && EachFits(Flatten(grupos), obj)
    requires GroupPass(st, obj, fit) && Held(st) + Pieces(dropped) == Pieces(Flatten(grupos[..g]))
    requires GroupsSoFar(grupos, trails, g, st, obj)
    ensures |trails'| == g + 1 && GroupsTried(FirstPlan(), grupos, trails', obj)
    ensures res.Ok? ==> GroupsSoFar(grupos, trails', g + 1, res.value, obj)
    ensures res.Err? ==> res.error == MachineLimit && Refused(trails'[g])
    ensures res.Err? ==> |PlanBefore(FirstPlan(), trails', |trails'|).machines| > MaxMachines
    ensures res.Ok? ==> GroupPass(res.value, obj, fit) && Held(res.value) + Pieces(dropped') == Pieces(Flatten(grupos[..g + 1]))
    requires within ==> AllWithin(grupos)
    ensures res.Ok? && within ==> dropped' == dropped
  {
    GroupMembers(grupos, g, obj);
    ghost var d;
    ghost var steps;
    res, d, steps := PlaceGroup(st, grupos[g], obj);
    GroupsTriedSnoc(FirstPlan(), grupos, trails, steps, obj);
    trails' := trails + [steps];
    dropped' := dropped + d;
    if res.Ok? {
      GroupLedger(grupos, g, Held(res.value), Held(st), d, dropped);
    }
  }

  // ---------------------------------------------------------------------------
  // Pass over the pending parts (algoritmo_asignacion.py:505-595)

  /** A new machine holding xs, which take h hours (maquina_actual += 1). */
  function NewMachine(pl: Plan, xs: seq<Part>, h: real): Plan
  {
    pl.(machines := pl.machines + [xs], used := pl.used + [h])
  }

  lemma NewMachineKeeps(pl: Plan, xs: seq<Part>, obj: real)
    requires Tracked(pl)
    ensures Tracked(NewMachine(pl, xs, HoursGroup(xs)))
    ensures Pieces(Flatten(NewMachine(pl, xs, HoursGroup(xs)).machines)) == Pieces(Flatten(pl.machines)) + Pieces(xs)
    ensures WithinBudget(pl, obj) && HoursGroup(xs) <= obj ==> WithinBudget(NewMachine(pl, xs, HoursGroup(xs)), obj)
  {
    UnionOfFlattenSnoc(pl.machines, xs, PiecesOf);
  }

  /** The first machine from `i` on with at least `horas` hours left, or -1
      when there is none. */
  function FirstRoom(used: seq<real>, horas: real, obj: real, i: nat): (k: int)
    requires i <= |used|
    ensures -1 <= k < |used|
    ensures k >= 0 ==> i <= k && horas <= obj - used[k]
    ensures forall j :: i <= j < |used| && (k < 0 || j < k) ==> horas > obj - used[j]
    decreases |used| - i
  {
    if i == |used| then -1
    else if horas <= obj - used[i] then i
    else FirstRoom(used, horas, obj, i + 1)
  }

  /** The first machine, in ascending id order, with at least `horas` hours
      left (algoritmo_asignacion.py:514-527), or -1 when there is none. */
  method FirstWithRoom(used: seq<real>, horas: real, obj: real) returns (k: int)
    ensures k == FirstRoom(used, horas, obj, 0)
    ensures -1 <= k < |used|
    ensures k >= 0 ==> horas <= obj - used[k]
    ensures forall j :: 0 <= j < |used| && (k < 0 || j < k) ==> horas > obj - used[j]
  {
    k := 0;
    while k < |used|
      invariant 0 <= k <= |used|
      invariant FirstRoom(used, horas, obj, k) == FirstRoom(used, horas, obj, 0)
    {
      if horas <= obj - used[k] {
        return k;
      }
      k := k + 1;
    }
    k := -1;
  }

  /** The machine with the most hours left among `k` and the machines from
      `j` on, the earliest one on a tie; `k` is the best of those before `j`. */
  function Roomiest(used: seq<real>, obj: real, k: nat, j: nat): (m: nat)
    requires k < j <= |used|
    ensures k <= m < |used| && obj - used[k] <= obj - used[m]
    ensures forall i :: j <= i < |used| ==> obj - used[i] <= obj - used[m]
    ensures m != k ==> j <= m && obj - used[k] < obj - used[m] && forall i :: j <= i < m ==> obj - used[i] < obj - used[m]
    decreases |used| - j
  {
    if j == |used| then k
    else Roomiest(used, obj, if obj - used[j] > obj - used[k] then j else k, j + 1)
  }

  /** max(asignaciones.keys(), key=hours left): the first machine with the most
      hours left (algoritmo_asignacion.py:545-548). */
  method MostRoom(used: seq<real>, obj: real) returns (k: nat)
    requires |used| > 0
    ensures k == Roomiest(used, obj, 0, 1)
    ensures k < |used|
    ensures forall j :: 0 <= j < |used| ==> obj - used[j] <= obj - used[k]
    ensures forall j :: 0 <= j < k ==> obj - used[j] < obj - used[k]
  {
    k := 0;
    var j := 1;
    while j < |used|
      invariant 0 <= k < j <= |used|
      invariant Roomiest(used, obj, k, j) == Roomiest(used, obj, 0, 1)
      invariant forall i :: 0 <= i < j ==> obj - used[i] <= obj - used[k]
      invariant forall i :: 0 <= i < k ==> obj - used[i] < obj - used[k]
    {
      if obj - used[j] > obj - used[k] {
        k := j;
      }
      j := j + 1;
    }
  }

  /** `st` is `pl` with the parts xs put on one machine, old or new; nothing
      else changed. */
  ghost predicate Placed(pl: Plan, st: Plan, xs: seq<Part>)
  {
    && Tracked(st) && st.pending == pl.pending && st.divs == pl.divs
    && |pl.machines| <= |st.machines| <= |pl.machines| + 1
    && (|st.machines| > |pl.machines| ==> |st.machines| <= MaxMachines)
    && Pieces(Flatten(st.machines)) == Pieces(Flatten(pl.machines)) + Pieces(xs)
  }

  /** Puts xs on machine k, or on a new machine when k is -1; a new machine
      past MaxMachines is refused. */
  function PutOn(pl: Plan, k: int, xs: seq<Part>, obj: real): (res: Result<Plan, AssignError>)
    requires Tracked(pl) && -1 <= k < |pl.machines|
    ensures k >= 0 ==> res.Ok?
    ensures res.Err? ==> res.error == MachineLimit && |pl.machines| + 1 > MaxMachines
    ensures res.Ok? ==> Placed(pl, res.value, xs)
    ensures res.Ok? && k >= 0 ==>
              && |res.value.machines| == |pl.machines| && res.value.machines[k] == pl.machines[k] + xs
              && forall j :: 0 <= j < |pl.machines| && j != k ==> res.value.machines[j] == pl.machines[j]
    ensures res.Ok? && k < 0 ==> res.value.machines == pl.machines + [xs]
    ensures res.Ok? && WithinBudget(pl, obj) && HoursGroup(xs) <= obj - (if k < 0 then 0.0 else pl.used[k]) ==>
              WithinBudget(res.value, obj)
  {
    if k >= 0 then
      AddToKeeps(pl, k, xs, obj);
      Ok(AddTo(pl, k, xs, HoursGroup(xs)))
    else if |pl.machines| + 1 > MaxMachines then
      Err(MachineLimit)
    else
      NewMachineKeeps(pl, xs, obj);
      Ok(NewMachine(pl, xs, HoursGroup(xs)))
  }

  /** What placing one pending part does to the plan: the machines gain
      pieces of the part, any new pending entries are remainders of it
      (appended after the old ones) and come only with a counted split of a
      part split fewer than twice, and no piece is lost or invented. The time
      rule is kept, and no over-long entry is queued for a part that fits. */
  ghost predicate PendingPlaced(pl: Plan, st: Plan, parte: Part, obj: real)
  {
    && Tracked(st)
    && |pl.machines| <= |st.machines| <= |pl.machines| + 1
    && (|st.machines| > |pl.machines| ==> |st.machines| <= MaxMachines)
    && |pl.pending| <= |st.pending| && st.pending[..|pl.pending|] == pl.pending
    && (forall p :: p in st.pending[|pl.pending|..] ==> p.partId == parte.partId)
    && Pieces(Flatten(st.machines)) + Pieces(st.pending[|pl.pending|..]) == Pieces(Flatten(pl.machines)) + PiecesOf(parte)
    && ((st.divs == pl.divs && st.pending == pl.pending)
        || (DivisionCount(pl.divs, parte.partId) < 2 && st.divs == MarkDivision(pl.divs, parte.partId)))
    && (WithinBudget(pl, obj) ==> WithinBudget(st, obj))
    && (EachFits(pl.pending, obj) && HoursPart(parte) <= obj ==> EachFits(st.pending, obj))
  }

  /** The hours left on machine m. */
  function RoomLeft(pl: Plan, obj: real, m: nat): real
    requires m < |pl.used|
  {
    obj - pl.used[m]
  }

  /** The outcome of option B of the pending pass (algoritmo_asignacion.py:544-569):
      the part is split for the hours left on the roomiest machine; the first
      portion goes there, or to a new machine when it would take that machine
      over StationLimit tools; the split is counted and the remainder queued.
      None when not one piece fits. */
  ghost function SplitOutcome(pl: Plan, parte: Part, obj: real): Option<Result<Plan, AssignError>>
    requires Tracked(pl) && parte.uph >= 0.0 && HoursPart(parte) > obj
  {
    var m := Roomiest(pl.used, obj, 0, 1);
    var s := SplitPartByTime(parte, RoomLeft(pl, obj, m));
    if s.0.None? || s.1.None? then None
    else
      var destino := if UniqueToolCount(pl.machines[m] + [s.0.value]) > StationLimit then -1 else m;
      match PutOn(pl, destino, [s.0.value], obj)
      case Err(e) => Some(Err(e))
      case Ok(st) => Some(Ok(st.(divs := MarkDivision(pl.divs, parte.partId), pending := pl.pending + [s.1.value])))
  }

  /** Putting the first portion of a split part on a machine and queuing the
      rest is a placement of the part. */
  lemma PortionPlaced(pl: Plan, parte: Part, obj: real, pa: Part, pd: Part, destino: int)
    requires Tracked(pl) && -1 <= destino < |pl.machines| && DivisionCount(pl.divs, parte.partId) < 2
    requires HoursPart(parte) > obj && pd.uph >= 0.0
    requires pa.quantity <= parte.quantity
    requires pa == Portion(parte, pa.quantity) && pd == Portion(parte, parte.quantity - pa.quantity)
    requires HoursPart(pa) <= obj - (if destino < 0 then 0.0 else pl.used[destino])
    requires PutOn(pl, destino, [pa], obj).Ok?
    ensures PendingPlaced(pl, PutOn(pl, destino, [pa], obj).value.(divs := MarkDivision(pl.divs, parte.partId), pending := pl.pending + [pd]), parte, obj)
  {
    HoursGroupSingleton(pa);
    PiecesSingleton(pa);
    PiecesSingleton(pd);
    PortionsPieces(parte, pa.quantity);
    var st := PutOn(pl, destino, [pa], obj).value.(divs := MarkDivision(pl.divs, parte.partId), pending := pl.pending + [pd]);
    assert st.pending[|pl.pending|..] == [pd];
  }

  /** An outcome of option B that places the part and counts its split, or
      is refused for the machine limit. */
  ghost predicate SplitKeeps(pl: Plan, parte: Part, obj: real, r: Option<Result<Plan, AssignError>>)
  {
    && (r.Some? && r.value.Err? ==> r.value.error == MachineLimit && |pl.machines| + 1 > MaxMachines)
    && (r.Some? && r.value.Ok? ==> PendingPlaced(pl, r.value.value, parte, obj) && r.value.value.divs == MarkDivision(pl.divs, parte.partId))
  }

  /** What option B does to the plan is a placement of the part: its pieces
      are on the machines or queued, and the split is counted. */
  lemma SplitOutcomePlaced(pl: Plan, parte: Part, obj: real)
    requires Tracked(pl) && parte.uph >= 0.0 && HoursPart(parte) > obj
    requires DivisionCount(pl.divs, parte.partId) < 2
    ensures SplitKeeps(pl, parte, obj, SplitOutcome(pl, parte, obj))
  {
    var m := Roomiest(pl.used, obj, 0, 1);
    assert HoursPart(parte) > RoomLeft(pl, obj, m);
    var s := SplitPartByTime(parte, RoomLeft(pl, obj, m));
    if s.0.Some? && s.1.Some? {
      var pa := s.0.value;
      var pd := s.1.value;
      var destino := if UniqueToolCount(pl.machines[m] + [pa]) > StationLimit then -1 else m;
      var r := PutOn(pl, destino, [pa], obj);
      if r.Ok? {
        var st := r.value.(divs := MarkDivision(pl.divs, parte.partId), pending := pl.pending + [pd]);
        PortionPlaced(pl, parte, obj, pa, pd, destino);
        assert SplitOutcome(pl, parte, obj) == Some(Ok(st));
      }
    }
  }

  /** Option B of the pending pass (algoritmo_asignacion.py:544-569), for a
      part longer than a whole machine: the roomiest machine is found by a
      scan, and the outcome is SplitOutcome. */
  method SplitOnRoomiest(pl: Plan, parte: Part, obj: real) returns (res: Option<Result<Plan, AssignError>>)
    requires Tracked(pl) && parte.uph >= 0.0 && HoursPart(parte) > obj
    ensures res == SplitOutcome(pl, parte, obj)
  {
    var m := MostRoom(pl.used, obj);
    var (asignada, pendiente) := SplitPartByTime(parte, RoomLeft(pl, obj, m));
    if asignada.None? || pendiente.None? {
      return None;
    }
    var destino := if UniqueToolCount(pl.machines[m] + [asignada.value]) > StationLimit then -1 else m;
    var r := PutOn(pl, destino, [asignada.value], obj);
    if r.Err? {
      return Some(Err(r.error));
    }
    return Some(Ok(r.value.(divs := MarkDivision(pl.divs, parte.partId), pending := pl.pending + [pendiente.value])));
  }

  /** What the pending pass does with one part: put it on the first machine
      with room, or on a new machine when it fits in a whole one; else split
      it on the roomiest machine when it was split fewer than twice; else it
      cannot be placed. */
  ghost function PendingOutcome(pl: Plan, parte: Part, obj: real): Result<Plan, AssignError>
    requires Tracked(pl) && parte.uph >= 0.0
  {
    var k := FirstRoom(pl.used, HoursPart(parte), obj, 0);
    var n := DivisionCount(pl.divs, parte.partId);
    if k >= 0 || HoursPart(parte) <= obj then PutOn(pl, k, [parte], obj)
    else if n < 2 && SplitOutcome(pl, parte, obj).Some? then SplitOutcome(pl, parte, obj).value
    else Err(Unplaceable(parte, n))
  }

  /** The placement of one pending part (algoritmo_asignacion.py:506-595): on
      the first machine with room for all of it; else, when it fits in a whole
      machine, on a new machine; else, when it has been split fewer than twice,
      split on the roomiest machine. Otherwise it cannot be placed: the
      fallback at lines 571-589 finds no machine with room and no whole machine
      long enough either, since both were just checked, so the error is
      raised with the part and its split count. */
  method PlacePending(pl: Plan, parte: Part, obj: real) returns (res: Result<Plan, AssignError>)
    requires Tracked(pl) && parte.uph >= 0.0
    ensures var k := FirstRoom(pl.used, HoursPart(parte), obj, 0);
            var n := DivisionCount(pl.divs, parte.partId);
            if k >= 0 || HoursPart(parte) <= obj then res == PutOn(pl, k, [parte], obj)
            else if n < 2 && SplitOutcome(pl, parte, obj).Some? then res == SplitOutcome(pl, parte, obj).value
            else res == Err(Unplaceable(parte, n))
    ensures res == PendingOutcome(pl, parte, obj)
    ensures res.Ok? ==> PendingPlaced(pl, res.value, parte, obj)
    ensures res.Err? && res.error == MachineLimit ==> |pl.machines| + 1 > MaxMachines
    ensures res.Err? && res.error != MachineLimit ==>
              && res.error == Unplaceable(parte, DivisionCount(pl.divs, parte.partId))
              && HoursPart(parte) > obj
              && forall k :: 0 <= k < |pl.used| ==> HoursPart(parte) > obj - pl.used[k]
  {
    var horas := HoursPart(parte);
    var n := DivisionCount(pl.divs, parte.partId);
    var k := FirstWithRoom(pl.used, horas, obj);
    if k >= 0 || horas <= obj {
      HoursGroupSingleton(parte);
      PiecesSingleton(parte);
      res := PutOn(pl, k, [parte], obj);
      if res.Ok? {
        assert res.value.pending[|pl.pending|..] == [];
        assert Pieces([]) == multiset{};
      }
      return;
    }
    if n < 2 {
      SplitOutcomePlaced(pl, parte, obj);
      var r := SplitOnRoomiest(pl, parte, obj);
      if r.Some? {
        return r.value;
      }
    }
    return Err(Unplaceable(parte, n));
  }

  /** The termination measure of the pending pass: one token (id, k) for
      every part id and every split k it may still take. */
  function Tokens(divs: map<int, nat>, ids: set<int>): set<(int, int)>
  {
    set id, k | id in ids && 0 <= k < 2 && DivisionCount(divs, id) <= k :: (id, k)
  }

  /** Counting a split of a part split fewer than twice uses up a token. */
  lemma TokensShrink(divs: map<int, nat>, ids: set<int>, id: int)
    requires id in ids && DivisionCount(divs, id) < 2
    ensures Tokens(MarkDivision(divs, id), ids) < Tokens(divs, ids)
  {
    var w := (id, DivisionCount(divs, id) as int);
    assert w in Tokens(divs, ids);
    assert w !in Tokens(MarkDivision(divs, id), ids);
  }

  /** What the pending pass keeps: the plan is tracked, the machine counter
      is at most MaxMachines + 1, no part is split more than twice, and when
      every part fits in `obj` hours the time rule holds. */
  ghost predicate PendingPass(st: Plan, obj: real, fit: bool)
  {
    && Tracked(st)
    && |st.machines| <= MaxMachines + 1
    && (forall id :: DivisionCount(st.divs, id) <= 2)
    && (fit ==> Fits(st, obj))
  }

  /** The ledger of the pending pass after entry i was placed. */
  lemma PendingLedger(mb: multiset<int>, before: seq<Part>, ma: multiset<int>, after: seq<Part>, i: nat, all: multiset<int>)
    requires i < |before| <= |after| && after[..|before|] == before
    requires ma + Pieces(after[|before|..]) == mb + PiecesOf(before[i])
    requires mb + Pieces(before[i..]) == all
    ensures ma + Pieces(after[i + 1..]) == all
  {
    assert before[i..] == [before[i]] + before[i + 1..];
    assert after[i + 1..] == before[i + 1..] + after[|before|..];
    PiecesConcat([before[i]], before[i + 1..]);
    PiecesSingleton(before[i]);
    PiecesConcat(before[i + 1..], after[|before|..]);
    var extra, rest := Pieces(after[|before|..]), Pieces(before[i + 1..]);
    forall x
      ensures (ma + (rest + extra))[x] == all[x]
    {
      assert (ma + extra)[x] == (mb + PiecesOf(before[i]))[x];
      assert (mb + (PiecesOf(before[i]) + rest))[x] == all[x];
    }
  }

  /** One step of the pending pass keeps its part ids, and either uses up
      a split token or leaves the list as long as it was. */
  lemma PendingIds(st: Plan, nuevo: Plan, i: nat, obj: real, ids: set<int>)
    requires i < |st.pending| && PendingPlaced(st, nuevo, st.pending[i], obj)
    requires forall p :: p in st.pending ==> p.partId in ids
    ensures forall p :: p in nuevo.pending ==> p.partId in ids
    ensures Tokens(nuevo.divs, ids) < Tokens(st.divs, ids) || (nuevo.divs == st.divs && |nuevo.pending| == |st.pending|)
  {
    var n := |st.pending|;
    assert nuevo.pending == nuevo.pending[..n] + nuevo.pending[n..];
    forall p | p in nuevo.pending
      ensures p.partId in ids
    {
      if p !in nuevo.pending[..n] {
        assert p in nuevo.pending[n..];
      }
    }
    if nuevo.divs != st.divs {
      TokensShrink(st.divs, ids, st.pending[i].partId);
    }
  }

  /** One step of the pending pass keeps what the pass keeps. */
  lemma PendingPassKept(st: Plan, nuevo: Plan, i: nat, obj: real, fit: bool)
    requires i < |st.pending| && PendingPlaced(st, nuevo, st.pending[i], obj)
    requires PendingPass(st, obj, fit)
    ensures PendingPass(nuevo, obj, fit)
  {
    var id := st.pending[i].partId;
    forall x
      ensures DivisionCount(nuevo.divs, x) <= 2
    {
      if nuevo.divs != st.divs && x == id {
        assert DivisionCount(nuevo.divs, x) == DivisionCount(st.divs, x) + 1;
      }
    }
    if fit {
      assert HoursPart(st.pending[i]) <= obj;
    }
  }

  /** One entry of the pending pass: the pass invariant, the part ids and
      the ledger are kept, and the termination measure goes down. */
  method PendingStep(st: Plan, i: nat, obj: real, ghost fit: bool, ghost ids: set<int>, ghost all: multiset<int>, ghost plans: seq<Plan>)
    returns (r: Result<Plan, AssignError>, ghost plans': seq<Plan>)
    requires i < |st.pending| && PendingPass(st, obj, fit)
    requires forall p :: p in st.pending ==> p.partId in ids
    requires Pieces(Flatten(st.machines)) + Pieces(st.pending[i..]) == all
    requires |plans| == i + 1 && PendingFold(plans, obj) && plans[i] == st
    ensures r.Ok? ==> plans' == plans + [r.value] && PendingFold(plans', obj)
    ensures r.Err? ==> plans' == plans && PendingStuck(plans', obj, r.error) && st.divs == plans'[|plans'| - 1].divs
    ensures r.Err? && r.error == MachineLimit ==> |plans'[|plans'| - 1].machines| + 1 > MaxMachines
    ensures r.Err? && r.error.Unplaceable? ==> HoursPart(r.error.part) > obj && r.error.divisions <= 2
    ensures r.Ok? ==> && PendingPass(r.value, obj, fit)
                      && (forall p :: p in r.value.pending ==> p.partId in ids)
                      && i + 1 <= |r.value.pending|
                      && Pieces(Flatten(r.value.machines)) + Pieces(r.value.pending[i + 1..]) == all
                      && (Tokens(r.value.divs, ids) < Tokens(st.divs, ids) || (r.value.divs == st.divs && |r.value.pending| == |st.pending|))
  {
    var parte := st.pending[i];
    r := PlacePending(st, parte, obj);
    plans' := plans;
    if r.Ok? {
      PendingFoldSnoc(plans, r.value, obj);
      plans' := plans + [r.value];
      PendingLedger(Pieces(Flatten(st.machines)), st.pending, Pieces(Flatten(r.value.machines)), r.value.pending, i, all);
      PendingIds(st, r.value, i, obj, ids);
      PendingPassKept(st, r.value, i, obj, fit);
    }
  }

  /** Entry j of plans[j], placed by PendingOutcome, gives plans[j + 1]. */
  ghost predicate PendingMoved(plans: seq<Plan>, j: nat, obj: real)
    requires j + 1 < |plans|
  {
    && Tracked(plans[j]) && j < |plans[j].pending|
    && PendingOutcome(plans[j], plans[j].pending[j], obj) == Ok(plans[j + 1])
  }

  /** The pending pass up to entry |plans| - 2: each plans[j + 1] is entry j
      of plans[j] placed by PendingOutcome. */
  ghost predicate PendingFold(plans: seq<Plan>, obj: real)
  {
    |plans| > 0 && forall j :: 0 <= j < |plans| - 1 ==> PendingMoved(plans, j, obj)
  }

  /** The pending pass stopped with `e` at entry |plans| - 1 of the last
      plan. */
  ghost predicate PendingStuck(plans: seq<Plan>, obj: real, e: AssignError)
  {
    && |plans| > 0
    && var n := |plans| - 1;
       && Tracked(plans[n]) && n < |plans[n].pending|
       && PendingOutcome(plans[n], plans[n].pending[n], obj) == Err(e)
  }

  /** Placing one more entry extends the pending pass. */
  lemma PendingFoldSnoc(plans: seq<Plan>, next: Plan, obj: real)
    requires PendingFold(plans, obj)
    requires var n := |plans| - 1;
             Tracked(plans[n]) && n < |plans[n].pending| && PendingOutcome(plans[n], plans[n].pending[n], obj) == Ok(next)
    ensures PendingFold(plans + [next], obj)
  {
    var plans' := plans + [next];
    forall j | 0 <= j < |plans'| - 1
      ensures PendingMoved(plans', j, obj)
    {
      assert plans'[j] == plans[j];
      if j + 1 < |plans| {
        assert PendingMoved(plans, j, obj);
        assert plans'[j + 1] == plans[j + 1];
      }
    }
  }

  /** The pending pass (algoritmo_asignacion.py:505-595): every pending entry,
      including the remainders queued while the pass runs, is placed in turn.
      It ends because a remainder is queued only with a counted split and
      each part id can be split at most twice. Afterwards every piece that was
      on a machine or pending is on a machine. `divs` is the split counter as
      the pass leaves it, also when it stops with an error. */
  method PlacePendingParts(pl: Plan, obj: real, ghost fit: bool)
    returns (res: Result<Plan, AssignError>, divs: map<int, nat>, ghost plans: seq<Plan>)
    requires PendingPass(pl, obj, fit)
    ensures PendingFold(plans, obj) && plans[0] == pl
    ensures res.Ok? ==> res.value == plans[|plans| - 1] && |plans| - 1 == |res.value.pending|
    ensures res.Err? ==> PendingStuck(plans, obj, res.error) && divs == plans[|plans| - 1].divs
    ensures res.Err? && res.error == MachineLimit ==> |plans[|plans| - 1].machines| + 1 > MaxMachines
    ensures forall id :: DivisionCount(divs, id) <= 2
    ensures res.Ok? ==> PendingPass(res.value, obj, fit) && divs == res.value.divs
    ensures res.Ok? ==> Pieces(Flatten(res.value.machines)) == Held(pl)
    ensures res.Err? && res.error.Unplaceable? ==> HoursPart(res.error.part) > obj && res.error.divisions <= 2
  {
    var st := pl;
    ghost var ids := set p | p in pl.pending :: p.partId;
    var i := 0;
    plans := [pl];
    while i < |st.pending|
      invariant 0 <= i <= |st.pending|
      invariant PendingPass(st, obj, fit)
      invariant forall p :: p in st.pending ==> p.partId in ids
      invariant Pieces(Flatten(st.machines)) + Pieces(st.pending[i..]) == Held(pl)
      invariant |plans| == i + 1 && PendingFold(plans, obj) && plans[0] == pl && plans[i] == st
      decreases Tokens(st.divs, ids), |st.pending| - i
    {
      var r;
      r, plans := PendingStep(st, i, obj, fit, ids, Held(pl), plans);
      if r.Err? {
        return r, st.divs, plans;
      }
      st := r.value;
      i := i + 1;
    }
    assert st.pending[i..] == [];
    res, divs := Ok(st), st.divs;
  }

  /** The result map: machine k, under key k, when it holds a part. */
  function NonEmptyMachines(machines: seq<seq<Part>>): map<int, seq<Part>>
  {
    var ids := set i | 0 <= i < |machines| && machines[i] != [] :: i + 1;
    map k | k in ids :: machines[k - 1]
  }

  /** What the group pass then the pending pass did, from the first plan:
      `trails` are the attempt trails of the groups, `plans` the plans of
      the pending pass, empty when the group pass was refused, and `res` the
      outcome. A refusal comes from an attempt that found more than
      MaxMachines machines; a pending-pass error is the outcome of the next
      entry, and a MachineLimit there needs a machine beyond MaxMachines. */
  ghost predicate Placements(grupos: seq<seq<Part>>, obj: real, trails: seq<seq<Try>>, plans: seq<Plan>, res: Result<Plan, AssignError>)
  {
    && GroupsTried(FirstPlan(), grupos, trails, obj)
    && (plans == [] ==>
          && res == Err(MachineLimit) && trails != [] && Refused(trails[|trails| - 1])
          && |PlanBefore(FirstPlan(), trails, |trails|).machines| > MaxMachines)
    && (plans != [] ==>
          && |trails| == |grupos| && plans[0] == PlanBefore(FirstPlan(), trails, |trails|)
          && PendingFold(plans, obj))
    && (res.Ok? ==> plans != [] && res.value == plans[|plans| - 1] && |plans| - 1 == |res.value.pending|)
    && (res.Err? && plans != [] ==> PendingStuck(plans, obj, res.error))
    && (res.Err? && res.error == MachineLimit && plans != [] ==> |plans[|plans| - 1].machines| + 1 > MaxMachines)
  }

  /** The group pass then the pending pass (algoritmo_asignacion.py:396-595),
      from a fresh split counter. */
  method PlaceGrouped(grupos: seq<seq<Part>>, obj: real, ghost fit: bool)
    returns (res: Result<Plan, AssignError>, divs: map<int, nat>, ghost trails: seq<seq<Try>>, ghost plans: seq<Plan>)
    requires forall k :: 0 <= k < |grupos| ==> grupos[k] != []
    requires forall p :: p in Flatten(grupos) ==> p.uph >= 0.0
    requires AllWithin(grupos) && (fit ==> 0.0 <= obj && EachFits(Flatten(grupos), obj))
    ensures Placements(grupos, obj, trails, plans, res)
    ensures plans == [] ==> divs == map[]
    ensures forall id :: DivisionCount(divs, id) <= 2
    ensures res.Ok? ==> PendingPass(res.value, obj, fit) && Pieces(Flatten(res.value.machines)) == Pieces(Flatten(grupos))
    ensures res.Err? && res.error.Unplaceable? ==> HoursPart(res.error.part) > obj && res.error.divisions <= 2
  {
    var r1;
    ghost var dropped;
    r1, dropped, trails := PlaceAllGroups(grupos, obj);
    if r1.Err? {
      return Err(r1.error), map[], trails, [];
    }
    assert Pieces(dropped) == multiset{} by {
      assert dropped == [];
    }
    res, divs, plans := PlacePendingParts(r1.value, obj, fit);
    assert plans != [] && plans[0] == PlanBefore(FirstPlan(), trails, |trails|);
  }

  /** asignar_optimizado_final (algoritmo_asignacion.py:346-598). An empty
      input gives no machines and leaves the split counter alone; otherwise
      the counter restarts, the parts are grouped, the groups placed and then
      the pending entries. Machines are numbered from 1 and only those
      holding parts are returned. `machines` is the full list of machine
      contents, and it holds exactly the pieces of the input: no group is
      abandoned, since every group is within the station rule. When every
      part fits in `obj` hours, no machine exceeds `obj` hours. A part that
      cannot be placed needs more than `obj` hours. */
  method AssignOptimizedFinal(partes: seq<Part>, obj: real, umbral: int, divsIn: map<int, nat>)
    returns (res: Result<map<int, seq<Part>>, AssignError>, divs: map<int, nat>, ghost machines: seq<seq<Part>>,
             ghost grupos: seq<seq<Part>>, ghost trails: seq<seq<Try>>, ghost plans: seq<Plan>, ghost placed: Result<Plan, AssignError>)
    requires forall p :: p in partes ==> p.uph >= 0.0
    ensures partes == [] ==> res == Ok(map[]) && divs == divsIn
    ensures partes != [] ==> grupos == Grouped(SortBy(partes, Uph), |partes|, umbral, StationLimit)
    ensures partes != [] ==> Placements(grupos, obj, trails, plans, placed)
    ensures partes != [] ==> (res.Ok? <==> placed.Ok?) && (res.Err? ==> res.error == placed.error)
    ensures res.Ok? && partes != [] ==> machines == placed.value.machines
    ensures partes != [] ==> forall id :: DivisionCount(divs, id) <= 2
    ensures res.Ok? ==> res.value == NonEmptyMachines(machines) && |machines| <= MaxMachines + 1
    ensures res.Ok? ==> forall k :: k in res.value ==> 1 <= k <= MaxMachines + 1 && res.value[k] != []
    ensures res.Ok? ==> Pieces(Flatten(machines)) == Pieces(partes)
    ensures res.Ok? && EachFits(partes, obj) ==> forall k :: k in res.value ==> HoursGroup(res.value[k]) <= obj
    ensures res.Err? && res.error.Unplaceable? ==> HoursPart(res.error.part) > obj && res.error.divisions <= 2
  {
    if |partes| == 0 {
      return Ok(map[]), divsIn, [], [], [], [], Ok(FirstPlan());
    }
    ghost var fit := EachFits(partes, obj);
    assert fit ==> 0.0 <= obj by {
      assert HoursPart(partes[0]) >= 0.0;
    }
    var gs := GroupByCompatibility(partes, umbral, StationLimit);
    grupos := gs;
    forall p | p in Flatten(grupos)
      ensures p in partes
    {
      assert p in multiset(Flatten(grupos));
    }
    assert AllWithin(grupos);
    PiecesPermutation(Flatten(grupos), partes);
    var r3;
    r3, divs, trails, plans := PlaceGrouped(gs, obj, fit);
    placed := r3;
    if r3.Err? {
      return Err(r3.error), divs, [], grupos, trails, plans, placed;
    }
    var st := r3.value;
    machines := st.machines;
    res := Ok(NonEmptyMachines(st.machines));
    NonEmptyMachinesOf(st, obj, fit);
  }

  /** The returned map: keys 1..n for the machines holding parts, within the
      budget when the pending pass kept it. */
  lemma NonEmptyMachinesOf(st: Plan, obj: real, fit: bool)
    requires PendingPass(st, obj, fit)
    ensures forall k :: k in NonEmptyMachines(st.machines) ==>
              1 <= k <= MaxMachines + 1 && NonEmptyMachines(st.machines)[k] != []
    ensures fit ==> forall k :: k in NonEmptyMachines(st.machines) ==> HoursGroup(NonEmptyMachines(st.machines)[k]) <= obj
  {
    var m := NonEmptyMachines(st.machines);
    forall k | k in m && fit
      ensures HoursGroup(m[k]) <= obj
    {
      assert st.used[k - 1] <= obj;
    }
  }
}
