/** The per-machine state of the distribution service and the allocation of
    one requirement over the machines (asignar_parts_a_machines,
    backend/app/services/distribucion_service.py:278-393): machines are
    ranked by a preference score, then each machine in turn takes as many
    whole pieces as fit in its remaining hours, until nothing is pending. */
module Allocation {
  import opened Common
  import opened Stations
  import opened Requirements

  /** The alert a machine records for a part whose UPH is zero or negative. */
  datatype Alert = InvalidUph(partNumber: string)

  /** The error every machine records when a part could not be placed in full. */
  datatype Shortfall = Shortfall(partNumber: string, missing: int)

  /** One allocation of a part to a machine (AsignacionPart). */
  datatype PartAssignment = PartAssignment(
    filename: string,
    partNumber: string,
    requerida: int,
    asignada: int,
    horas: real,
    estacionesUsadas: nat,
    estacionesUnificadas: nat)

  /** One value of asignaciones_dict: the parts given to the machine, its
      hours used, its unified tools (a dict: records by tool number and the
      key order), its alerts and its errors. */
  datatype MachineState = MachineState(
    parts: seq<PartAssignment>,
    used: real,
    tools: map<string, Unified>,
    toolOrder: seq<string>,
    alerts: seq<Alert>,
    errors: seq<Shortfall>)

  /** The state every machine starts from. */
  const Idle: MachineState := MachineState([], 0.0, map[], [], [], [])

  function Hours(p: PartAssignment): real
  {
    p.horas
  }

  /** What the service keeps true of a machine: its hours are the sum of its
      allocations, which are all positive, it is within the hour budget once
      it has any, and its unified tools describe the tools of the parts it
      was given (`uses`), with later autoindex occurrences promoting. */
  ghost predicate Tracks(m: Machine, st: MachineState, uses: seq<ToolUse>, obj: real)
  {
    && st.used == SumOf(st.parts, Hours)
    && (|st.parts| > 0 ==> st.used <= obj)
    && (forall p :: p in st.parts ==> p.asignada > 0 && p.horas > 0.0)
    && Unifies(st.tools, st.toolOrder, uses, m.template, true)
  }

  lemma IdleTracks(m: Machine, obj: real)
    ensures Tracks(m, Idle, [], obj)
  {
    UnifiesEmpty(m.template, true);
  }

  // ---------------------------------------------------------------------------
  // Machine preference (ordenar_machines_por_preferencia)

  function Abs(x: real): real
  {
    if x < 0.0 then -x else x
  }

  /** The preference score: 10 when the machine already has parts and its
      minimum thickness is within 0.01 of the group's, 5 when it already has
      unified tools, plus a tenth of the hours left out of a fixed 24. */
  function Score(m: Machine, st: MachineState, thickness: real): real
  {
    (if |st.parts| > 0 && Abs(m.thicknessMin - thickness) < 0.01 then 10.0 else 0.0)
    + (if |st.tools| > 0 then 5.0 else 0.0)
    + (24.0 - st.used) / 10.0
  }

  /** The machine positions 0 .. n-1 in list order. */
  function Range(n: nat): (r: seq<nat>)
    ensures |r| == n && forall i :: 0 <= i < n ==> r[i] == i
  {
    if n == 0 then [] else Range(n - 1) + [n - 1]
  }

  /** The sort key: the score negated, so that an ascending stable sort
      yields the descending stable order of sort(reverse=True). */
  function Preference(machines: seq<Machine>, states: seq<MachineState>, thickness: real): nat -> real
    requires |states| == |machines|
  {
    k => if 0 <= k < |machines| then -Score(machines[k], states[k], thickness) else 0.0
  }

  /** A visiting order of n machines: every position exactly once. */
  ghost predicate IsOrdering(order: seq<nat>, n: nat)
  {
    && |order| == n
    && NoDuplicates(order)
    && (forall i :: 0 <= i < |order| ==> order[i] < n)
    && (forall k :: 0 <= k < n ==> k in order)
  }

  lemma {:induction false} RangeDistinct(n: nat)
    ensures NoDuplicates(Range(n))
  {
    forall i, j | 0 <= i < j < n ensures Range(n)[i] != Range(n)[j] {
    }
  }

  /** Any rearrangement of the positions visits every machine exactly once. */
  lemma PermutationOfRange(r: seq<nat>, n: nat)
    requires multiset(r) == multiset(Range(n))
    ensures IsOrdering(r, n)
  {
    RangeDistinct(n);
    NoDuplicatesSubMultiset(Range(n), r);
    PermutationMembers(Range(n), r);
    assert |r| == n by {
      assert |multiset(r)| == |multiset(Range(n))|;
    }
    forall i | 0 <= i < |r| ensures r[i] < n {
      assert r[i] in r;
    }
    forall k | 0 <= k < n ensures k in r {
      assert Range(n)[k] == k;
    }
  }

  /** Sorting by the negated score ranks higher scores first. */
  lemma {:induction false} SortedByPreference(machines: seq<Machine>, states: seq<MachineState>, thickness: real, r: seq<nat>)
    requires |states| == |machines|
    requires SortedBy(r, Preference(machines, states, thickness)) && forall i :: 0 <= i < |r| ==> r[i] < |machines|
    ensures forall i, j :: 0 <= i < j < |r| ==>
              Score(machines[r[i]], states[r[i]], thickness) >= Score(machines[r[j]], states[r[j]], thickness)
  {
    var key := Preference(machines, states, thickness);
    forall i, j | 0 <= i < j < |r|
      ensures Score(machines[r[i]], states[r[i]], thickness) >= Score(machines[r[j]], states[r[j]], thickness)
    {
      assert key(r[i]) <= key(r[j]);
    }
  }

  /** The machines ranked by descending preference score. */
  function OrderMachines(machines: seq<Machine>, states: seq<MachineState>, thickness: real): (r: seq<nat>)
    requires |states| == |machines|
    ensures IsOrdering(r, |machines|)
    ensures forall i, j :: 0 <= i < j < |r| ==>
              Score(machines[r[i]], states[r[i]], thickness) >= Score(machines[r[j]], states[r[j]], thickness)
  {
    var r := SortBy(Range(|machines|), Preference(machines, states, thickness));
    PermutationOfRange(r, |machines|);
    SortedByPreference(machines, states, thickness, r);
    r
  }

  /** Machines with equal scores keep their list order (the sort is stable). */
  lemma OrderMachinesStable(machines: seq<Machine>, states: seq<MachineState>, thickness: real, u: real)
    requires |states| == |machines|
    ensures WithKey(OrderMachines(machines, states, thickness), Preference(machines, states, thickness), u)
            == WithKey(Range(|machines|), Preference(machines, states, thickness), u)
  {
    SortByStable(Range(|machines|), Preference(machines, states, thickness), u);
  }

  // ---------------------------------------------------------------------------
  // Hours arithmetic

  /** q whole pieces, with 0 < q <= int(t * uph), take positive hours within t. */
  lemma ShareFits(q: int, t: real, uph: real)
    requires uph > 0.0 && 0 < q <= Trunc(t * uph)
    ensures 0.0 < q as real / uph <= t
  {
    CutFits(t, uph);
    var c := Trunc(t * uph);
    assert q as real / uph <= c as real / uph by {
      assert (c as real / uph - q as real / uph) * uph == (c - q) as real;
    }
  }

  /** After taking int(t * uph) pieces, the hours left do not fit one more. */
  lemma CutLeavesNoPiece(t: real, uph: real)
    requires uph > 0.0 && t >= 0.0
    ensures Trunc((t - Trunc(t * uph) as real / uph) * uph) <= 0
  {
    var c := Trunc(t * uph) as real;
    assert (t - c / uph) * uph == t * uph - c;
  }

  /** With t hours left no piece at uph pieces per hour can be taken: at
      most 0.1 h, an invalid UPH, or not one whole piece in the time. */
  predicate FullAt(t: real, uph: real)
  {
    t <= 0.1 || uph <= 0.0 || Trunc(t * uph) <= 0
  }

  /** The share a machine with more than 0.1 h left takes of `pending`
      pieces: min(int(t * uph), pending). */
  function Share(t: real, uph: real, pending: int): int
    requires uph > 0.0 && t > 0.1 && pending > 0
  {
    Min(Trunc(t * uph), pending)
  }

  /** A share is some iff the machine is not full, fits in the hours left,
      and leaves the machine full when it is less than what is pending. */
  lemma ShareBounds(t: real, uph: real, pending: int)
    requires uph > 0.0 && t > 0.1 && pending > 0
    ensures var q := Share(t, uph, pending);
            && 0 <= q <= pending
            && (q > 0 <==> !FullAt(t, uph))
            && (q > 0 ==> 0.0 < q as real / uph <= t)
            && (0 < q < pending ==> FullAt(t - q as real / uph, uph))
  {
    var q := Share(t, uph, pending);
    if q > 0 {
      ShareFits(q, t, uph);
      if q < pending {
        CutLeavesNoPiece(t, uph);
      }
    }
  }

  /** What the machine loop takes from a machine that has used `used` hours
      while `pending` pieces are still pending: nothing when nothing is
      pending or the machine is full, and its Share otherwise. */
  function TakeAt(used: real, r: Requirement, obj: real, pending: int): (q: int)
    ensures q >= 0 && (pending > 0 ==> q <= pending)
    ensures q > 0 <==> pending > 0 && !FullAt(obj - used, r.uph)
  {
    if pending <= 0 || FullAt(obj - used, r.uph) then 0
    else
      ShareBounds(obj - used, r.uph, pending);
      Share(obj - used, r.uph, pending)
  }

  // ---------------------------------------------------------------------------
  // One machine visited for one requirement

  /** The machine can take nothing of the requirement: at most 0.1 h left,
      an invalid UPH, or not one whole piece in the hours left. */
  predicate Full(st: MachineState, r: Requirement, obj: real)
  {
    FullAt(obj - st.used, r.uph)
  }

  /** The alert a visit records: only when the machine has time left and the
      UPH is invalid. */
  function AlertFor(st: MachineState, r: Requirement, obj: real): seq<Alert>
  {
    if obj - st.used > 0.1 && r.uph <= 0.0 then [InvalidUph(r.partNumber)] else []
  }

  /** The allocation record of q pieces (its unified station count is filled
      in when the layout is built). */
  function Assigned(r: Requirement, q: int): PartAssignment
    requires r.uph > 0.0
  {
    PartAssignment(r.filename, r.partNumber, r.total, q, q as real / r.uph, |r.stations|, 0)
  }

  /** What allocating q pieces of r did to a machine: nothing when q is 0;
      otherwise one allocation record, its hours, and the part's tools
      folded into the unified tools. Alerts aside, nothing else changes. */
  ghost predicate Took(before: MachineState, after: MachineState, ub: seq<ToolUse>, ua: seq<ToolUse>,
                       r: Requirement, q: int)
  {
    && q >= 0
    && after.errors == before.errors
    && (q == 0 ==> after.parts == before.parts && after.used == before.used && ua == ub
                   && after.tools == before.tools && after.toolOrder == before.toolOrder)
    && (q > 0 ==> && r.uph > 0.0
                  && after.parts == before.parts + [Assigned(r, q)]
                  && after.used == before.used + q as real / r.uph
                  && ua == ub + UsesOf(PartTools(r), r.partNumber))
  }

  /** The allocation records q pieces of r add to a machine: one when any
      piece is taken. */
  function Added(r: Requirement, q: int): (a: seq<PartAssignment>)
    ensures |a| <= 1 && (|a| == 1 <==> q > 0 && r.uph > 0.0)
  {
    if q > 0 && r.uph > 0.0 then [Assigned(r, q)] else []
  }

  /** A machine that took q pieces gained the records Added says, and its
      hours did not fall. */
  lemma TookAdds(before: MachineState, after: MachineState, ub: seq<ToolUse>, ua: seq<ToolUse>, r: Requirement, q: int)
    requires Took(before, after, ub, ua, r, q)
    ensures after.parts == before.parts + Added(r, q)
    ensures before.used <= after.used
  {
    if q > 0 {
      assert q as real / r.uph >= 0.0;
    } else {
      assert before.parts + [] == before.parts;
    }
  }

  /** A machine full for a requirement stays full as its hours grow. */
  lemma FullLater(st: MachineState, st': MachineState, r: Requirement, obj: real)
    requires Full(st, r, obj) && st.used <= st'.used
    ensures Full(st', r, obj)
  {
    var t, t' := obj - st.used, obj - st'.used;
    if t' > 0.1 && r.uph > 0.0 {
      assert (t - t') * r.uph >= 0.0;
      assert t' * r.uph <= t * r.uph;
    }
  }

  /** One iteration of the machine loop, with pieces still pending: a full
      machine is skipped (with an alert for an invalid UPH); any other takes
      min(int(hours left * uph), pending) pieces. It never takes more than is
      pending, stays within the budget, and when it takes less than is
      pending it is full afterwards. */
  method Visit(m: Machine, st: MachineState, ghost uses: seq<ToolUse>, r: Requirement, pending: int, obj: real)
    returns (st': MachineState, ghost uses': seq<ToolUse>, got: int)
    requires pending > 0 && Tracks(m, st, uses, obj)
    ensures Tracks(m, st', uses', obj)
    ensures Took(st, st', uses, uses', r, got) && got <= pending
    ensures got > 0 <==> !Full(st, r, obj)
    ensures got > 0 ==> got == Share(obj - st.used, r.uph, pending)
    ensures got == TakeAt(st.used, r, obj, pending)
    ensures got < pending ==> Full(st', r, obj)
    ensures st'.alerts == st.alerts + AlertFor(st, r, obj)
  {
    st', uses', got := st, uses, 0;
    var t := obj - st.used;
    if t <= 0.1 {
      return;
    }
    if r.uph <= 0.0 {
      st' := st.(alerts := st.alerts + [InvalidUph(r.partNumber)]);
      return;
    }
    var q := Share(t, r.uph, pending);
    ShareBounds(t, r.uph, pending);
    if q <= 0 {
      assert FullAt(t, r.uph);
      return;
    }
    assert !FullAt(t, r.uph) && 0.0 < q as real / r.uph <= t;
    var d, o := UnifyTools(st.tools, st.toolOrder, uses, PartTools(r), r.partNumber, m.template, true);
    var a := Assigned(r, q);
    st' := st.(parts := st.parts + [a], used := st.used + a.horas, tools := d, toolOrder := o);
    uses' := uses + UsesOf(PartTools(r), r.partNumber);
    TracksAdd(m, st, uses, obj, a, d, o, uses');
    assert obj - st'.used == t - q as real / r.uph;
    got := q;
  }

  /** Adding an allocation whose hours fit keeps a machine tracked. */
  lemma TracksAdd(m: Machine, st: MachineState, uses: seq<ToolUse>, obj: real,
                  a: PartAssignment, d: map<string, Unified>, o: seq<string>, uses': seq<ToolUse>)
    requires Tracks(m, st, uses, obj) && Unifies(d, o, uses', m.template, true)
    requires a.asignada > 0 && 0.0 < a.horas <= obj - st.used
    ensures Tracks(m, st.(parts := st.parts + [a], used := st.used + a.horas, tools := d, toolOrder := o), uses', obj)
  {
    assert (st.parts + [a])[..|st.parts|] == st.parts;
  }

  // ---------------------------------------------------------------------------
  // One requirement over all machines

  /** Sum of integers, accumulated from the back. */
  function IntSum(s: seq<int>): int
  {
    if |s| == 0 then 0 else IntSum(s[..|s| - 1]) + s[|s| - 1]
  }

  lemma {:induction false} IntSumZeros(n: nat)
    ensures IntSum(Zeros(n)) == 0
  {
    if n > 0 {
      assert Zeros(n)[..n - 1] == Zeros(n - 1);
      IntSumZeros(n - 1);
    }
  }

  /** Changing one term changes the sum by the difference. */
  lemma {:induction false} IntSumUpdate(s: seq<int>, k: nat, v: int)
    requires k < |s|
    ensures IntSum(s[k := v]) == IntSum(s) - s[k] + v
    decreases |s|
  {
    var n := |s| - 1;
    if k < n {
      assert s[k := v][..n] == s[..n][k := v];
      IntSumUpdate(s[..n], k, v);
    } else {
      assert s[k := v][..n] == s[..n];
    }
  }

  lemma {:induction false} IntSumNonNegative(s: seq<int>)
    requires forall k :: 0 <= k < |s| ==> s[k] >= 0
    ensures IntSum(s) >= 0
    decreases |s|
  {
    if |s| > 0 {
      IntSumNonNegative(s[..|s| - 1]);
    }
  }

  ghost predicate AllTrack(machines: seq<Machine>, states: seq<MachineState>, uses: seq<seq<ToolUse>>, obj: real)
  {
    && |states| == |machines| && |uses| == |machines|
    && forall k :: 0 <= k < |machines| ==> Tracks(machines[k], states[k], uses[k], obj)
  }

  /** The machines after those marked `done` were visited: each changed as
      Took says by got[k] (nothing for the others), and the visited ones
      recorded their alert. */
  ghost predicate Changed(machines: seq<Machine>, states0: seq<MachineState>, uses0: seq<seq<ToolUse>>,
                          r: Requirement, obj: real, states: seq<MachineState>, uses: seq<seq<ToolUse>>,
                          got: seq<int>, done: seq<bool>)
  {
    && AllTrack(machines, states, uses, obj)
    && |states0| == |machines| && |uses0| == |machines| && |got| == |machines| && |done| == |machines|
    && (forall k :: 0 <= k < |machines| ==>
          && Took(states0[k], states[k], uses0[k], uses[k], r, got[k])
          && (!done[k] ==> got[k] == 0)
          && states[k].alerts == states0[k].alerts + (if done[k] then AlertFor(states0[k], r, obj) else []))
  }

  /** The pieces taken by the first j machines of `order`. */
  function TakenBefore(got: seq<int>, order: seq<nat>, j: nat): int
    requires j <= |order| && forall i :: 0 <= i < |order| ==> order[i] < |got|
  {
    if j == 0 then 0 else TakenBefore(got, order, j - 1) + got[order[j - 1]]
  }

  /** The pieces still pending when the j-th machine of `order` is visited. */
  function LeftAt(r: Requirement, got: seq<int>, order: seq<nat>, j: nat): int
    requires j <= |order| && forall i :: 0 <= i < |order| ==> order[i] < |got|
  {
    r.total - TakenBefore(got, order, j)
  }

  /** Changing what a machine not among the first j took leaves their total alone. */
  lemma {:induction false} TakenBeforeUpdate(got: seq<int>, order: seq<nat>, j: nat, k: nat, v: int)
    requires j <= |order| && (forall i :: 0 <= i < |order| ==> order[i] < |got|) && k < |got|
    requires forall i :: 0 <= i < j ==> order[i] != k
    ensures TakenBefore(got[k := v], order, j) == TakenBefore(got, order, j)
  {
    if j > 0 {
      TakenBeforeUpdate(got, order, j - 1, k, v);
    }
  }

  /** Machines that took nothing do not change the total. */
  lemma {:induction false} TakenBeforeZeros(got: seq<int>, order: seq<nat>, i: nat, j: nat)
    requires i <= j <= |order| && forall m :: 0 <= m < |order| ==> order[m] < |got|
    requires forall m :: i <= m < j ==> got[order[m]] == 0
    ensures TakenBefore(got, order, j) == TakenBefore(got, order, i)
    decreases j
  {
    if j > i {
      TakenBeforeZeros(got, order, i, j - 1);
    }
  }

  /** The machine loop, in the order of visit: the i-th machine took TakeAt
      of its hours and of what the machines before it left pending. */
  ghost predicate Shares(states0: seq<MachineState>, r: Requirement, obj: real, order: seq<nat>, i: nat,
                         got: seq<int>, pending: int)
  {
    && |states0| == |got| && i <= |order|
    && (forall j :: 0 <= j < |order| ==> order[j] < |got|)
    && pending == LeftAt(r, got, order, i)
    && (forall j {:trigger LeftAt(r, got, order, j)} :: 0 <= j < i ==>
          got[order[j]] == TakeAt(states0[order[j]].used, r, obj, LeftAt(r, got, order, j)))
  }

  /** The machine loop as a fold: what every machine has taken once the
      machines from position j of `order` on were visited, with `pending`
      pieces pending at position j and `got` taken before it. */
  ghost function Takes(states0: seq<MachineState>, r: Requirement, obj: real, order: seq<nat>, j: nat,
                       pending: int, got: seq<int>): seq<int>
    decreases |order| - j
  {
    if j >= |order| || pending <= 0 || order[j] >= |got| || order[j] >= |states0| then got
    else
      var q := TakeAt(states0[order[j]].used, r, obj, pending);
      Takes(states0, r, obj, order, j + 1, pending - q, got[order[j] := q])
  }

  /** One visit is one step of the fold. */
  lemma TakesStep(states0: seq<MachineState>, r: Requirement, obj: real, order: seq<nat>, i: nat,
                  pending: int, got: seq<int>, pending': int, got': seq<int>)
    requires i < |order| && pending > 0 && |states0| == |got| && forall j :: 0 <= j < |order| ==> order[j] < |got|
    requires |got'| == |got| && got' == got[order[i] := got'[order[i]]] && pending' == pending - got'[order[i]]
    requires got'[order[i]] == TakeAt(states0[order[i]].used, r, obj, pending)
    ensures Takes(states0, r, obj, order, i + 1, pending', got') == Takes(states0, r, obj, order, i, pending, got)
  {
  }

  /** The fold visits the machines in order: each one takes TakeAt of its
      hours and of what the machines before it left pending. */
  lemma {:induction false} TakesInOrder(states0: seq<MachineState>, r: Requirement, obj: real, order: seq<nat>, i: nat,
                                        pending: int, got: seq<int>)
    requires Shares(states0, r, obj, order, i, got, pending) && NoDuplicates(order)
    requires forall j :: i <= j < |order| ==> got[order[j]] == 0
    ensures var g := Takes(states0, r, obj, order, i, pending, got);
            |g| == |got| &&
            forall j :: 0 <= j < |order| ==> g[order[j]] == TakeAt(states0[order[j]].used, r, obj, LeftAt(r, g, order, j))
    decreases |order| - i
  {
    if i == |order| {
    } else if pending <= 0 {
      forall j | i <= j < |order|
        ensures got[order[j]] == TakeAt(states0[order[j]].used, r, obj, LeftAt(r, got, order, j))
      {
        TakenBeforeZeros(got, order, i, j);
      }
    } else {
      var q := TakeAt(states0[order[i]].used, r, obj, pending);
      StepShares(states0, r, obj, order, i, got, pending, q);
      forall j | i + 1 <= j < |order|
        ensures got[order[i] := q][order[j]] == 0
      {
        assert order[j] != order[i];
      }
      TakesInOrder(states0, r, obj, order, i + 1, pending - q, got[order[i] := q]);
    }
  }

  /** Where the loop stops, the machines took what the fold says. */
  lemma TakesOrdered(states0: seq<MachineState>, r: Requirement, obj: real, order: seq<nat>, got: seq<int>)
    requires IsOrdering(order, |states0|) && |got| == |states0|
    requires got == Takes(states0, r, obj, order, 0, r.total, Zeros(|states0|))
    ensures forall j :: 0 <= j < |order| ==> got[order[j]] == TakeAt(states0[order[j]].used, r, obj, LeftAt(r, got, order, j))
  {
    var zeros := Zeros(|states0|);
    assert got == Takes(states0, r, obj, order, 0, r.total, zeros);
    assert TakenBefore(zeros, order, 0) == 0;
    TakesInOrder(states0, r, obj, order, 0, r.total, zeros);
  }

  /** No machine visited yet. */
  function NoneDone(n: nat): (d: seq<bool>)
    ensures |d| == n && forall k :: 0 <= k < n ==> !d[k]
  {
    seq(n, _ => false)
  }

  /** Nothing taken yet. */
  function Zeros(n: nat): (z: seq<int>)
    ensures |z| == n && forall k :: 0 <= k < n ==> z[k] == 0
  {
    seq(n, _ => 0)
  }

  /** The first i machines of `order` are the ones marked `done`. */
  ghost predicate Visiting(order: seq<nat>, n: nat, i: nat, done: seq<bool>)
  {
    && IsOrdering(order, n) && i <= |order| && |done| == n
    && (forall j :: 0 <= j < i ==> done[order[j]])
    && (forall j :: i <= j < |order| ==> !done[order[j]])
  }

  /** The pending count fell by the pieces taken; it stays non-negative
      for a positive quantity, and nothing moves for a non-positive quantity
      (the loop stops at once) or an invalid UPH. */
  ghost predicate Counted(r: Requirement, i: nat, pending: int, got: seq<int>)
  {
    && pending == r.total - IntSum(got)
    && (r.total > 0 ==> pending >= 0)
    && (r.total <= 0 ==> i == 0 && pending == r.total)
    && (r.uph <= 0.0 ==> pending == r.total)
  }

  /** While anything is pending, every visited machine is full. */
  ghost predicate FullSoFar(states: seq<MachineState>, r: Requirement, obj: real, pending: int, done: seq<bool>)
  {
    pending > 0 ==> forall k :: 0 <= k < |states| && k < |done| && done[k] ==> Full(states[k], r, obj)
  }

  /** The machine loop after the first i machines of `order` were visited. */
  ghost predicate AllocatedSoFar(machines: seq<Machine>, states0: seq<MachineState>, uses0: seq<seq<ToolUse>>,
                                 r: Requirement, obj: real, order: seq<nat>, i: nat,
                                 states: seq<MachineState>, uses: seq<seq<ToolUse>>, pending: int,
                                 got: seq<int>, done: seq<bool>)
  {
    && Changed(machines, states0, uses0, r, obj, states, uses, got, done)
    && Visiting(order, |machines|, i, done)
    && Counted(r, i, pending, got)
    && FullSoFar(states, r, obj, pending, done)
  }

  lemma AllocationStart(machines: seq<Machine>, states: seq<MachineState>, uses: seq<seq<ToolUse>>,
                        r: Requirement, obj: real, order: seq<nat>)
    requires AllTrack(machines, states, uses, obj) && IsOrdering(order, |machines|)
    ensures AllocatedSoFar(machines, states, uses, r, obj, order, 0, states, uses, r.total,
                           Zeros(|machines|), NoneDone(|machines|))
  {
    IntSumZeros(|machines|);
  }

  /** Visiting the i-th machine of the order. */
  method AllocateStep(machines: seq<Machine>, ghost states0: seq<MachineState>, ghost uses0: seq<seq<ToolUse>>,
                      r: Requirement, obj: real, order: seq<nat>, i: nat,
                      states: seq<MachineState>, ghost uses: seq<seq<ToolUse>>, pending: int,
                      ghost got: seq<int>, ghost done: seq<bool>)
    returns (states': seq<MachineState>, ghost uses': seq<seq<ToolUse>>, pending': int,
             ghost got': seq<int>, ghost done': seq<bool>)
    requires i < |order| && pending > 0
    requires AllocatedSoFar(machines, states0, uses0, r, obj, order, i, states, uses, pending, got, done)
    ensures AllocatedSoFar(machines, states0, uses0, r, obj, order, i + 1, states', uses', pending', got', done')
    ensures Takes(states0, r, obj, order, i + 1, pending', got') == Takes(states0, r, obj, order, i, pending, got)
  {
    var k := order[i];
    var st, u, q := Visit(machines[k], states[k], uses[k], r, pending, obj);
    StepKeeps(machines, states0, uses0, r, obj, order, i, states, uses, pending, got, done, st, u, q);
    assert states[k].used == states0[k].used;
    states', uses', pending' := states[k := st], uses[k := u], pending - q;
    got', done' := got[k := q], done[k := true];
    TakesStep(states0, r, obj, order, i, pending, got, pending', got');
  }


  /** The loop state after visiting the i-th machine of the order, as Visit
      describes the visit. */
  lemma StepKeeps(machines: seq<Machine>, states0: seq<MachineState>, uses0: seq<seq<ToolUse>>,
                  r: Requirement, obj: real, order: seq<nat>, i: nat,
                  states: seq<MachineState>, uses: seq<seq<ToolUse>>, pending: int,
                  got: seq<int>, done: seq<bool>, st: MachineState, u: seq<ToolUse>, q: int)
    requires i < |order| && pending > 0
    requires AllocatedSoFar(machines, states0, uses0, r, obj, order, i, states, uses, pending, got, done)
    requires Tracks(machines[order[i]], st, u, obj)
    requires Took(states[order[i]], st, uses[order[i]], u, r, q) && q <= pending
    requires q > 0 ==> !Full(states[order[i]], r, obj)
    requires q < pending ==> Full(st, r, obj)
    requires st.alerts == states[order[i]].alerts + AlertFor(states[order[i]], r, obj)
    ensures AllocatedSoFar(machines, states0, uses0, r, obj, order, i + 1, states[order[i] := st],
                           uses[order[i] := u], pending - q, got[order[i] := q], done[order[i] := true])
  {
    var k := order[i];
    StepVisiting(order, |machines|, i, done);
    StepChanged(machines, states0, uses0, r, obj, states, uses, got, done, k, st, u, q);
    StepCounted(r, i, pending, got, k, q);
    StepFull(states, r, obj, pending, done, k, st, q);
  }

  /** The i-th visit takes TakeAt of the pending count. */
  lemma StepShares(states0: seq<MachineState>, r: Requirement, obj: real, order: seq<nat>, i: nat,
                   got: seq<int>, pending: int, q: int)
    requires Shares(states0, r, obj, order, i, got, pending) && i < |order| && NoDuplicates(order)
    requires q == TakeAt(states0[order[i]].used, r, obj, pending)
    ensures Shares(states0, r, obj, order, i + 1, got[order[i] := q], pending - q)
  {
    var k := order[i];
    var got' := got[k := q];
    TakenBeforeUpdate(got, order, i, k, q);
    assert TakenBefore(got', order, i + 1) == TakenBefore(got, order, i) + q;
    forall j | 0 <= j < i + 1
      ensures got'[order[j]] == TakeAt(states0[order[j]].used, r, obj, LeftAt(r, got', order, j))
    {
      TakenBeforeUpdate(got, order, j, k, q);
      assert LeftAt(r, got', order, j) == LeftAt(r, got, order, j);
      if j < i {
        assert order[j] != k;
      }
    }
  }

  lemma StepVisiting(order: seq<nat>, n: nat, i: nat, done: seq<bool>)
    requires Visiting(order, n, i, done) && i < |order|
    ensures Visiting(order, n, i + 1, done[order[i] := true])
  {
    var done' := done[order[i] := true];
    forall j | i + 1 <= j < |order| ensures !done'[order[j]] {
      assert order[j] != order[i];
    }
  }

  lemma StepCounted(r: Requirement, i: nat, pending: int, got: seq<int>, k: nat, q: int)
    requires Counted(r, i, pending, got) && pending > 0 && k < |got| && got[k] == 0
    requires 0 <= q <= pending && (r.uph <= 0.0 ==> q == 0)
    ensures Counted(r, i + 1, pending - q, got[k := q])
  {
    IntSumUpdate(got, k, q);
  }

  lemma StepFull(states: seq<MachineState>, r: Requirement, obj: real, pending: int, done: seq<bool>,
                 k: nat, st: MachineState, q: int)
    requires FullSoFar(states, r, obj, pending, done) && k < |states| && k < |done|
    requires 0 <= q <= pending && (q < pending ==> Full(st, r, obj))
    ensures FullSoFar(states[k := st], r, obj, pending - q, done[k := true])
  {
    var states', done' := states[k := st], done[k := true];
    if pending - q > 0 {
      forall k' | 0 <= k' < |states'| && k' < |done'| && done'[k'] ensures Full(states'[k'], r, obj) {
      }
    }
  }

  /** Visiting machine k, not visited before, as Visit describes it. */
  lemma StepChanged(machines: seq<Machine>, states0: seq<MachineState>, uses0: seq<seq<ToolUse>>,
                    r: Requirement, obj: real, states: seq<MachineState>, uses: seq<seq<ToolUse>>,
                    got: seq<int>, done: seq<bool>, k: nat, st: MachineState, u: seq<ToolUse>, q: int)
    requires Changed(machines, states0, uses0, r, obj, states, uses, got, done)
    requires k < |machines| && !done[k]
    requires Tracks(machines[k], st, u, obj) && Took(states[k], st, uses[k], u, r, q)
    requires st.alerts == states[k].alerts + AlertFor(states[k], r, obj)
    ensures Changed(machines, states0, uses0, r, obj, states[k := st], uses[k := u], got[k := q], done[k := true])
  {
    var states', uses', got', done' := states[k := st], uses[k := u], got[k := q], done[k := true];
    assert states[k].used == states0[k].used && states[k].alerts == states0[k].alerts;
    TookCompose(states0[k], states[k], st, uses0[k], uses[k], u, r, q);
    forall k' | 0 <= k' < |machines|
      ensures Tracks(machines[k'], states'[k'], uses'[k'], obj)
      ensures Took(states0[k'], states'[k'], uses0[k'], uses'[k'], r, got'[k'])
      ensures states'[k'].alerts == states0[k'].alerts + (if done'[k'] then AlertFor(states0[k'], r, obj) else [])
    {
    }
  }

  /** A machine the loop has not touched yet, then visited. */
  lemma TookCompose(s0: MachineState, s1: MachineState, s2: MachineState, u0: seq<ToolUse>, u1: seq<ToolUse>,
                    u2: seq<ToolUse>, r: Requirement, q: int)
    requires Took(s0, s1, u0, u1, r, 0) && Took(s1, s2, u1, u2, r, q)
    ensures Took(s0, s2, u0, u2, r, q)
  {
  }

  /** The machine loop for one requirement: the machines are visited in
      `order` until nothing is pending. Every machine changed only as Took
      says, by got[k] pieces; the pieces taken add up to the quantity
      allocated, never more than required; a machine records the UPH alert
      exactly when the requirement has a positive quantity, an invalid UPH
      and the machine had more than 0.1 h left; and a shortfall remains only
      when every machine is full. */
  method AllocateRequirement(machines: seq<Machine>, states: seq<MachineState>, ghost uses: seq<seq<ToolUse>>,
                             r: Requirement, obj: real, order: seq<nat>)
    returns (states': seq<MachineState>, ghost uses': seq<seq<ToolUse>>, pending: int, ghost got: seq<int>)
    requires AllTrack(machines, states, uses, obj) && IsOrdering(order, |machines|)
    ensures AllTrack(machines, states', uses', obj) && |got| == |machines|
    ensures forall k :: 0 <= k < |machines| ==> Took(states[k], states'[k], uses[k], uses'[k], r, got[k])
    ensures forall k :: 0 <= k < |machines| ==>
              states'[k].alerts == states[k].alerts + (if r.total > 0 then AlertFor(states[k], r, obj) else [])
    ensures pending == r.total - IntSum(got)
    ensures r.total > 0 ==> 0 <= pending <= r.total
    ensures r.total <= 0 ==> pending == r.total && forall k :: 0 <= k < |machines| ==> got[k] == 0
    ensures pending > 0 ==> forall k :: 0 <= k < |machines| ==> Full(states'[k], r, obj)
    ensures forall j :: 0 <= j < |order| ==> got[order[j]] == TakeAt(states[order[j]].used, r, obj, LeftAt(r, got, order, j))
  {
    var i;
    ghost var done;
    i, states', uses', pending, got, done := AllocateLoop(machines, states, uses, r, obj, order);
    AllocationEnd(machines, states, uses, r, obj, order, i, states', uses', pending, got, done);
    IntSumNonNegative(got);
    TakesOrdered(states, r, obj, order, got);
  }

  /** The machine loop of AllocateRequirement: it stops once every machine
      was visited or nothing is pending. */
  method AllocateLoop(machines: seq<Machine>, states: seq<MachineState>, ghost uses: seq<seq<ToolUse>>,
                      r: Requirement, obj: real, order: seq<nat>)
    returns (i: nat, states': seq<MachineState>, ghost uses': seq<seq<ToolUse>>, pending: int,
             ghost got: seq<int>, ghost done: seq<bool>)
    requires AllTrack(machines, states, uses, obj) && IsOrdering(order, |machines|)
    ensures AllocatedSoFar(machines, states, uses, r, obj, order, i, states', uses', pending, got, done)
    ensures i == |order| || pending <= 0
    ensures got == Takes(states, r, obj, order, 0, r.total, Zeros(|machines|))
  {
    AllocationStart(machines, states, uses, r, obj, order);
    states', uses', pending := states, uses, r.total;
    got := Zeros(|machines|);
    ghost var target := Takes(states, r, obj, order, 0, r.total, got);
    done := NoneDone(|machines|);
    i := 0;
    while i < |order| && pending > 0
      invariant AllocatedSoFar(machines, states, uses, r, obj, order, i, states', uses', pending, got, done)
      invariant Takes(states, r, obj, order, i, pending, got) == target
      decreases |order| - i
    {
      states', uses', pending, got, done := AllocateStep(machines, states, uses, r, obj, order, i,
                                                         states', uses', pending, got, done);
      i := i + 1;
    }
  }

  /** What holds at every position of an ordering holds at every machine. */
  lemma OrderingCovers(order: seq<nat>, n: nat, done: seq<bool>, v: bool)
    requires IsOrdering(order, n) && |done| == n
    requires forall j :: 0 <= j < |order| ==> done[order[j]] == v
    ensures forall k :: 0 <= k < n ==> done[k] == v
  {
    forall k | 0 <= k < n ensures done[k] == v {
      assert k in order;
      var j :| 0 <= j < |order| && order[j] == k;
    }
  }

  /** When the loop stops, either every machine was visited or nothing is
      pending; either way the visited ones are exactly those that matter. */
  lemma AllocationEnd(machines: seq<Machine>, states0: seq<MachineState>, uses0: seq<seq<ToolUse>>,
                      r: Requirement, obj: real, order: seq<nat>, i: nat,
                      states: seq<MachineState>, uses: seq<seq<ToolUse>>, pending: int,
                      got: seq<int>, done: seq<bool>)
    requires AllocatedSoFar(machines, states0, uses0, r, obj, order, i, states, uses, pending, got, done)
    requires i == |order| || pending <= 0
    ensures AllTrack(machines, states, uses, obj) && |got| == |machines|
    ensures forall k :: 0 <= k < |machines| ==> Took(states0[k], states[k], uses0[k], uses[k], r, got[k])
    ensures pending == r.total - IntSum(got) && (r.total > 0 ==> pending >= 0) && (r.total <= 0 ==> pending == r.total)
    ensures forall k :: 0 <= k < |machines| ==>
              states[k].alerts == states0[k].alerts + (if r.total > 0 then AlertFor(states0[k], r, obj) else [])
    ensures r.total <= 0 ==> forall k :: 0 <= k < |machines| ==> got[k] == 0
    ensures pending > 0 ==> forall k :: 0 <= k < |machines| ==> Full(states[k], r, obj)
  {
    if i == |order| {
      OrderingCovers(order, |machines|, done, true);
    } else if r.total <= 0 {
      OrderingCovers(order, |machines|, done, false);
    }
  }
}
