/** The verdict and the summary of a distribution
    (evaluar_factibilidad and generar_resumen,
    backend/app/services/distribucion_service.py:580-671): the pieces
    allocated per part number are tallied over all machine reports; every
    requirement short of its quantity is an error, as is a machine with more
    than ten tools outside its layout, or no machine at all; the plan is
    feasible exactly when there is none of these. */
module Feasibility {
  import opened Common
  import opened Stations
  import opened Requirements
  import opened Allocation
  import opened Distribution

  /** The general errors (errores_generales). */
  datatype Problem =
    | CapacityShort(incomplete: seq<(string, int)>)
    | OverflowCritical(machines: seq<(string, nat)>)
    | Missing(partNumber: string, missing: int)
    | OverflowExceeded(machine: string, count: nat)
    | NoMachines

  /** The general alerts (alertas_generales). */
  datatype Notice =
    | OverflowTolerated(machine: string, count: nat)
    | HighSlack(machine: string, slack: real, target: real)

  // ---------------------------------------------------------------------------
  // Pieces allocated per part number

  /** Pieces of part number `pn` in one machine's allocations. */
  function PiecesIn(parts: seq<PartAssignment>, pn: string): int
  {
    if |parts| == 0 then 0
    else PiecesIn(parts[..|parts| - 1], pn) + (if parts[|parts| - 1].partNumber == pn then parts[|parts| - 1].asignada else 0)
  }

  /** Pieces of part number `pn` over all reports. */
  function PiecesOf(result: seq<MachineAssignment>, pn: string): int
  {
    if |result| == 0 then 0 else PiecesOf(result[..|result| - 1], pn) + PiecesIn(result[|result| - 1].parts, pn)
  }

  /** The part numbers in one machine's allocations. */
  function NumbersIn(parts: seq<PartAssignment>): set<string>
  {
    if |parts| == 0 then {} else NumbersIn(parts[..|parts| - 1]) + {parts[|parts| - 1].partNumber}
  }

  /** The part numbers over all reports. */
  function NumbersOf(result: seq<MachineAssignment>): set<string>
  {
    if |result| == 0 then {} else NumbersOf(result[..|result| - 1]) + NumbersIn(result[|result| - 1].parts)
  }

  /** A part number that no report mentions has no pieces. */
  lemma {:induction false} PiecesAbsent(result: seq<MachineAssignment>, pn: string)
    requires pn !in NumbersOf(result)
    ensures PiecesOf(result, pn) == 0
    decreases |result|
  {
    if |result| > 0 {
      PiecesAbsent(result[..|result| - 1], pn);
      PiecesAbsentIn(result[|result| - 1].parts, pn);
    }
  }

  lemma {:induction false} PiecesAbsentIn(parts: seq<PartAssignment>, pn: string)
    requires pn !in NumbersIn(parts)
    ensures PiecesIn(parts, pn) == 0
    decreases |parts|
  {
    if |parts| > 0 {
      PiecesAbsentIn(parts[..|parts| - 1], pn);
    }
  }

  /** A dict lookup with default 0 (dict.get(pn, 0)). */
  function Count(totals: map<string, int>, pn: string): int
  {
    if pn in totals then totals[pn] else 0
  }

  /** The inner tally loop over one machine's allocations. */
  method TallyParts(totals: map<string, int>, parts: seq<PartAssignment>) returns (totals': map<string, int>)
    ensures totals'.Keys == totals.Keys + NumbersIn(parts)
    ensures forall pn :: Count(totals', pn) == Count(totals, pn) + PiecesIn(parts, pn)
  {
    totals' := totals;
    var j := 0;
    while j < |parts|
      invariant j <= |parts|
      invariant totals'.Keys == totals.Keys + NumbersIn(parts[..j])
      invariant forall pn :: Count(totals', pn) == Count(totals, pn) + PiecesIn(parts[..j], pn)
    {
      var p := parts[j];
      if p.partNumber !in totals' {
        totals' := totals'[p.partNumber := 0];
      }
      totals' := totals'[p.partNumber := totals'[p.partNumber] + p.asignada];
      assert parts[..j + 1][..j] == parts[..j];
      j := j + 1;
    }
    assert parts[..j] == parts;
  }

  /** The tally over all reports: one entry per part number mentioned,
      holding its pieces. */
  method TallyPieces(result: seq<MachineAssignment>) returns (totals: map<string, int>)
    ensures totals.Keys == NumbersOf(result)
    ensures forall pn :: pn in totals ==> totals[pn] == PiecesOf(result, pn)
    ensures forall pn :: Count(totals, pn) == PiecesOf(result, pn)
  {
    totals := map[];
    var i := 0;
    while i < |result|
      invariant i <= |result|
      invariant totals.Keys == NumbersOf(result[..i])
      invariant forall pn :: Count(totals, pn) == PiecesOf(result[..i], pn)
    {
      totals := TallyParts(totals, result[i].parts);
      assert result[..i + 1][..i] == result[..i];
      i := i + 1;
    }
    assert result[..i] == result;
    forall pn | pn in totals ensures totals[pn] == PiecesOf(result, pn) {
      assert Count(totals, pn) == PiecesOf(result, pn);
    }
  }

  // ---------------------------------------------------------------------------
  // Requirements short of their quantity

  /** The requirements `ids`, in order, whose part number got fewer pieces
      than required, each with the pieces missing. */
  function Shortages(reqs: map<int, Requirement>, ids: seq<int>, result: seq<MachineAssignment>): (r: seq<(string, int)>)
    requires forall i :: 0 <= i < |ids| ==> ids[i] in reqs
    ensures |r| <= |ids|
    ensures forall i :: 0 <= i < |r| ==> r[i].1 > 0
  {
    if |ids| == 0 then []
    else
      var rest := Shortages(reqs, ids[..|ids| - 1], result);
      var q := reqs[ids[|ids| - 1]];
      var got := PiecesOf(result, q.partNumber);
      if got < q.total then rest + [(q.partNumber, q.total - got)] else rest
  }

  /** No requirement is short exactly when every one got its quantity. */
  lemma {:induction false} ShortagesEmpty(reqs: map<int, Requirement>, ids: seq<int>, result: seq<MachineAssignment>)
    requires forall i :: 0 <= i < |ids| ==> ids[i] in reqs
    ensures Shortages(reqs, ids, result) == [] <==>
            forall id :: id in ids ==> PiecesOf(result, reqs[id].partNumber) >= reqs[id].total
    decreases |ids|
  {
    if |ids| > 0 {
      var front := ids[..|ids| - 1];
      ShortagesEmpty(reqs, front, result);
      assert forall id :: id in ids <==> id in front || id == ids[|ids| - 1];
    }
  }

  function MissingError(e: (string, int)): Problem
  {
    Missing(e.0, e.1)
  }

  /** The requirement loop, in the requirements' order. */
  method ListShortages(reqs: map<int, Requirement>, ord: seq<int>, totals: map<string, int>, ghost result: seq<MachineAssignment>)
    returns (incomplete: seq<(string, int)>, errors: seq<Problem>)
    requires forall i :: 0 <= i < |ord| ==> ord[i] in reqs
    requires forall pn :: Count(totals, pn) == PiecesOf(result, pn)
    ensures incomplete == Shortages(reqs, ord, result)
    ensures errors == Map(incomplete, MissingError)
  {
    incomplete, errors := [], [];
    var i := 0;
    while i < |ord|
      invariant i <= |ord|
      invariant incomplete == Shortages(reqs, ord[..i], result)
      invariant errors == Map(incomplete, MissingError)
    {
      var q := reqs[ord[i]];
      var asignado := Count(totals, q.partNumber);
      assert ord[..i + 1][..i] == ord[..i];
      if asignado < q.total {
        var faltante := q.total - asignado;
        incomplete := incomplete + [(q.partNumber, faltante)];
        errors := errors + [Missing(q.partNumber, faltante)];
      }
      i := i + 1;
    }
    assert ord[..i] == ord;
  }

  // ---------------------------------------------------------------------------
  // Tools outside the layout

  /** The machines with one to ten tools outside their layout. */
  function Tolerated(result: seq<MachineAssignment>): (r: seq<Notice>)
    ensures |r| <= |result|
  {
    if |result| == 0 then []
    else
      var a := result[|result| - 1];
      Tolerated(result[..|result| - 1]) + (if 0 < |a.overflow| <= 10 then [OverflowTolerated(a.machineNombre, |a.overflow|)] else [])
  }

  /** The machines with more than ten tools outside their layout. */
  function Critical(result: seq<MachineAssignment>): (r: seq<(string, nat)>)
    ensures |r| <= |result|
    ensures forall i :: 0 <= i < |r| ==> r[i].1 > 10
  {
    if |result| == 0 then []
    else
      var a := result[|result| - 1];
      Critical(result[..|result| - 1]) + (if |a.overflow| > 10 then [(a.machineNombre, |a.overflow|)] else [])
  }

  /** No machine is critical exactly when each has at most ten tools out. */
  lemma {:induction false} CriticalEmpty(result: seq<MachineAssignment>)
    ensures Critical(result) == [] <==> forall j :: 0 <= j < |result| ==> |result[j].overflow| <= 10
    decreases |result|
  {
    if |result| > 0 {
      var front := result[..|result| - 1];
      CriticalEmpty(front);
      assert forall j :: 0 <= j < |front| ==> front[j] == result[j];
    }
  }

  function ExceededError(e: (string, nat)): Problem
  {
    OverflowExceeded(e.0, e.1)
  }

  /** The overflow loop over the reports. */
  method ScanOverflow(result: seq<MachineAssignment>)
    returns (notices: seq<Notice>, critical: seq<(string, nat)>, errors: seq<Problem>)
    ensures notices == Tolerated(result)
    ensures critical == Critical(result)
    ensures errors == Map(critical, ExceededError)
  {
    notices, critical, errors := [], [], [];
    var i := 0;
    while i < |result|
      invariant i <= |result|
      invariant notices == Tolerated(result[..i])
      invariant critical == Critical(result[..i])
      invariant errors == Map(critical, ExceededError)
    {
      var a := result[i];
      assert result[..i + 1][..i] == result[..i];
      var fuera := |a.overflow|;
      if fuera > 0 {
        if fuera <= 10 {
          notices := notices + [OverflowTolerated(a.machineNombre, fuera)];
        } else {
          critical := critical + [(a.machineNombre, fuera)];
          errors := errors + [OverflowExceeded(a.machineNombre, fuera)];
        }
      }
      i := i + 1;
    }
    assert result[..i] == result;
  }

  // ---------------------------------------------------------------------------
  // evaluar_factibilidad

  /** The verdict: feasible exactly when every requirement's part number got
      at least its quantity, no machine has more than ten tools outside its
      layout, and there is at least one machine. The errors are, in order, the
      critical-overflow summary, the capacity summary, one error per short
      requirement, one per critical machine, and the no-machine error; the
      alerts one per tolerated overflow, then a slack alert about the LAST
      report when some machine is critical. */
  method EvaluateFeasibility(result: seq<MachineAssignment>, reqs: map<int, Requirement>, ord: seq<int>, obj: real)
    returns (feasible: bool, notices: seq<Notice>, problems: seq<Problem>)
    requires IsDict(reqs, ord)
    ensures feasible <==>
            && (forall id :: id in reqs ==> PiecesOf(result, reqs[id].partNumber) >= reqs[id].total)
            && (forall j :: 0 <= j < |result| ==> |result[j].overflow| <= 10)
            && |result| > 0
    ensures var short := Shortages(reqs, ord, result);
            var critical := Critical(result);
            problems == (if critical != [] then [OverflowCritical(critical)] else [])
                        + (if short != [] then [CapacityShort(short)] else [])
                        + Map(short, MissingError) + Map(critical, ExceededError)
                        + (if |result| == 0 then [NoMachines] else [])
    ensures notices == Tolerated(result) +
                       (if Critical(result) != [] && result[|result| - 1].tiempoSobrante > obj * 0.5
                        then [HighSlack(result[|result| - 1].machineNombre, result[|result| - 1].tiempoSobrante, obj)]
                        else [])
  {
    feasible := true;
    assert forall i :: 0 <= i < |ord| ==> ord[i] in ord;
    var incomplete;
    incomplete, problems := QuantityErrors(result, reqs, ord);
    if |incomplete| > 0 {
      feasible := false;
    }
    ghost var capacity := problems;
    var critical, exceeded;
    notices, critical, exceeded := OverflowChecks(result, obj);
    problems := problems + exceeded;
    ghost var critHead: seq<Problem> := [];
    if |critical| > 0 {
      feasible := false;
      problems := [OverflowCritical(critical)] + problems;
      critHead := [OverflowCritical(critical)];
    }
    assert problems == critHead + (capacity + exceeded);
    ghost var tail: seq<Problem> := [];
    if |result| == 0 {
      problems := problems + [NoMachines];
      feasible := false;
      tail := [NoMachines];
    }
    assert problems == critHead + (capacity + exceeded) + tail;
    ProblemOrder(capacity, incomplete, critical, exceeded, |result| == 0);
    Verdict(reqs, ord, result);
  }

  /** The overflow checks: an alert per machine with one to ten tools out,
      an error per machine with more, and, when there is such a machine, a
      slack alert about the last report. */
  method OverflowChecks(result: seq<MachineAssignment>, obj: real)
    returns (notices: seq<Notice>, critical: seq<(string, nat)>, exceeded: seq<Problem>)
    ensures critical == Critical(result)
    ensures exceeded == Map(critical, ExceededError)
    ensures notices == Tolerated(result) +
                       (if Critical(result) != [] && result[|result| - 1].tiempoSobrante > obj * 0.5
                        then [HighSlack(result[|result| - 1].machineNombre, result[|result| - 1].tiempoSobrante, obj)]
                        else [])
  {
    notices, critical, exceeded := ScanOverflow(result);
    if |critical| > 0 {
      var last := result[|result| - 1];
      if last.tiempoSobrante > obj * 0.5 {
        notices := notices + [HighSlack(last.machineNombre, last.tiempoSobrante, obj)];
      }
    }
  }

  /** The order of the errors once both summaries are inserted at the front. */
  lemma ProblemOrder(capacity: seq<Problem>, incomplete: seq<(string, int)>, critical: seq<(string, nat)>,
                     exceeded: seq<Problem>, none: bool)
    requires capacity == (if incomplete != [] then [CapacityShort(incomplete)] else []) + Map(incomplete, MissingError)
    ensures (if critical != [] then [OverflowCritical(critical)] else []) + (capacity + exceeded)
              + (if none then [NoMachines] else [])
         == (if critical != [] then [OverflowCritical(critical)] else [])
              + (if incomplete != [] then [CapacityShort(incomplete)] else [])
              + Map(incomplete, MissingError) + exceeded
              + (if none then [NoMachines] else [])
  {
  }

  /** The quantity check: the requirements short of their quantity, one
      error each, headed by a capacity summary when there is any. */
  method QuantityErrors(result: seq<MachineAssignment>, reqs: map<int, Requirement>, ord: seq<int>)
    returns (incomplete: seq<(string, int)>, problems: seq<Problem>)
    requires forall i :: 0 <= i < |ord| ==> ord[i] in reqs
    ensures incomplete == Shortages(reqs, ord, result)
    ensures problems == (if incomplete != [] then [CapacityShort(incomplete)] else []) + Map(incomplete, MissingError)
  {
    var totals := TallyPieces(result);
    incomplete, problems := ListShortages(reqs, ord, totals, result);
    if |incomplete| > 0 {
      problems := [CapacityShort(incomplete)] + problems;
    }
  }

  /** The three checks together say what feasibility means. */
  lemma Verdict(reqs: map<int, Requirement>, ord: seq<int>, result: seq<MachineAssignment>)
    requires IsDict(reqs, ord)
    ensures forall i :: 0 <= i < |ord| ==> ord[i] in reqs
    ensures (Shortages(reqs, ord, result) == [] && Critical(result) == [] && |result| > 0) <==>
            && (forall id :: id in reqs ==> PiecesOf(result, reqs[id].partNumber) >= reqs[id].total)
            && (forall j :: 0 <= j < |result| ==> |result[j].overflow| <= 10)
            && |result| > 0
  {
    assert forall i :: 0 <= i < |ord| ==> ord[i] in ord;
    ShortagesEmpty(reqs, ord, result);
    CriticalEmpty(result);
  }

  // ---------------------------------------------------------------------------
  // generar_resumen

  datatype Summary = Summary(
    totalMaquinasUsadas: nat,
    demandaObjetivo: int,
    horasObjetivo: real,
    totalHorasProductivas: real,
    eficienciaPromedio: real,
    totalPartsDistintos: nat)

  /** The efficiency division raises when the budget is zero. */
  datatype Fault = DivisionByZero

  function UsedHours(a: MachineAssignment): real
  {
    a.tiempoTotalUsado
  }

  /** The allocations over all reports. */
  function PartCount(result: seq<MachineAssignment>): nat
  {
    if |result| == 0 then 0 else PartCount(result[..|result| - 1]) + |result[|result| - 1].parts|
  }

  /** generar_resumen: the summary fails exactly when there are reports and
      the budget is zero; with no reports the efficiency is 0. */
  function Summarize(result: seq<MachineAssignment>, demanda: int, obj: real): (r: Result<Summary, Fault>)
    ensures r.Err? <==> |result| > 0 && obj == 0.0
    ensures r.Ok? ==> r.value.totalMaquinasUsadas == |result| && r.value.demandaObjetivo == demanda
                      && r.value.horasObjetivo == obj
    ensures r.Ok? && |result| == 0 ==> r.value.eficienciaPromedio == 0.0 && r.value.totalHorasProductivas == 0.0
                                       && r.value.totalPartsDistintos == 0
  {
    var horas := SumOf(result, UsedHours);
    if |result| > 0 && obj == 0.0 then Err(DivisionByZero)
    else
      var eficiencia := if |result| > 0 then horas / (|result| as real * obj) * 100.0 else 0.0;
      Ok(Summary(|result|, demanda, obj, horas, eficiencia, PartCount(result)))
  }

  /** Hours each within [0, obj] sum to at most obj per report. */
  lemma {:induction false} HoursWithinBudget(result: seq<MachineAssignment>, obj: real)
    requires forall a :: a in result ==> 0.0 <= a.tiempoTotalUsado <= obj
    ensures 0.0 <= SumOf(result, UsedHours) <= |result| as real * obj
    decreases |result|
  {
    if |result| > 0 {
      var front := result[..|result| - 1];
      assert forall a :: a in front ==> a in result;
      HoursWithinBudget(front, obj);
    }
  }

  /** With a positive budget and every machine within it, the efficiency is
      a percentage. */
  lemma EfficiencyBounds(result: seq<MachineAssignment>, demanda: int, obj: real)
    requires obj > 0.0
    requires forall a :: a in result ==> 0.0 <= a.tiempoTotalUsado <= obj
    ensures Summarize(result, demanda, obj).Ok?
    ensures 0.0 <= Summarize(result, demanda, obj).value.eficienciaPromedio <= 100.0
  {
    HoursWithinBudget(result, obj);
    if |result| > 0 {
      var h := SumOf(result, UsedHours);
      var cap := |result| as real * obj;
      assert cap > 0.0;
      FractionAtMostOne(h, cap);
    }
  }

  lemma FractionAtMostOne(h: real, cap: real)
    requires 0.0 <= h <= cap && cap > 0.0
    ensures 0.0 <= h / cap <= 1.0
  {
    assert h / cap * cap == h;
  }

  /** The reports of the distribution driver are within the budget, so with
      a positive budget their summary is defined and its efficiency is a
      percentage. */
  lemma DistributionEfficiency(machines: seq<Machine>, states: seq<MachineState>, uses: seq<seq<ToolUse>>, obj: real,
                               result: seq<MachineAssignment>, picked: seq<nat>, demanda: int)
    requires obj > 0.0 && |states| == |machines| == |uses|
    requires ReportsSoFar(machines, states, uses, obj, |machines|, result, picked)
    ensures Summarize(result, demanda, obj).Ok?
    ensures 0.0 <= Summarize(result, demanda, obj).value.eficienciaPromedio <= 100.0
  {
    forall a | a in result ensures 0.0 <= a.tiempoTotalUsado <= obj {
      var j :| 0 <= j < |result| && result[j] == a;
      assert Reported(machines[picked[j]], states[picked[j]], uses[picked[j]], obj, result[j]);
    }
    EfficiencyBounds(result, demanda, obj);
  }
}
