/** The allocation driver of the distribution service
    (asignar_parts_a_machines, backend/app/services/distribucion_service.py:278-426):
    every machine starts idle; the preference groups are taken in order and
    the requirements of each group in order, each allocated over the
    machines ranked for the group; a requirement left short records the same
    error on every machine and ends its group; finally every machine that got
    parts is reported with its layout and overflow. */
module Distribution {
  import opened Common
  import opened Stations
  import opened Requirements
  import opened ServiceLayout
  import opened Allocation

  /** The report of one used machine (AsignacionMaquina). */
  datatype MachineAssignment = MachineAssignment(
    machineId: int,
    machineNombre: string,
    tipoMaquina: string,
    parts: seq<PartAssignment>,
    tiempoTotalUsado: real,
    tiempoDisponible: real,
    tiempoSobrante: real,
    estilo: seq<Estilo>,
    overflow: seq<Estilo>,
    alerts: seq<Alert>,
    errors: seq<Shortfall>)

  // ---------------------------------------------------------------------------
  // The record of what happened to each requirement

  /** A requirement id with the quantity still pending after its machine
      loop: never negative nor above the required quantity when that is
      positive, and untouched when it is not. */
  ghost predicate Settled(reqs: map<int, Requirement>, e: (int, int))
  {
    && e.0 in reqs
    && (reqs[e.0].total > 0 ==> 0 <= e.1 <= reqs[e.0].total)
    && (reqs[e.0].total <= 0 ==> e.1 == reqs[e.0].total)
  }

  /** How a group was processed: its first |run| requirements, in order;
      only the last may be left short, and when the run stops before the end
      of the group, the last one was left short. */
  ghost predicate GroupRun(reqs: map<int, Requirement>, g: Group, run: seq<(int, int)>)
  {
    && |run| <= |g.partIds|
    && (forall j :: 0 <= j < |run| ==> run[j].0 == g.partIds[j] && Settled(reqs, run[j]))
    && (forall j :: 0 <= j < |run| - 1 ==> run[j].1 <= 0)
    && (|run| < |g.partIds| ==> |run| > 0 && run[|run| - 1].1 > 0)
  }

  /** Every logged id is a requirement. */
  ghost predicate Known(reqs: map<int, Requirement>, log: seq<(int, int)>)
  {
    forall j :: 0 <= j < |log| ==> log[j].0 in reqs
  }

  /** The errors the processed requirements recorded, in order: one per
      requirement left short, with the missing quantity. */
  function ShortfallsOf(reqs: map<int, Requirement>, log: seq<(int, int)>): seq<Shortfall>
    requires Known(reqs, log)
  {
    if |log| == 0 then []
    else
      var e := log[|log| - 1];
      ShortfallsOf(reqs, log[..|log| - 1]) + (if e.1 > 0 then [Shortfall(reqs[e.0].partNumber, e.1)] else [])
  }

  lemma {:induction false} ShortfallsSnoc(reqs: map<int, Requirement>, log: seq<(int, int)>, e: (int, int))
    requires Known(reqs, log) && e.0 in reqs
    ensures ShortfallsOf(reqs, log + [e]) ==
            ShortfallsOf(reqs, log) + (if e.1 > 0 then [Shortfall(reqs[e.0].partNumber, e.1)] else [])
  {
    assert (log + [e])[..|log|] == log;
  }

  lemma {:induction false} ShortfallsConcat(reqs: map<int, Requirement>, a: seq<(int, int)>, b: seq<(int, int)>)
    requires Known(reqs, a) && Known(reqs, b)
    ensures Known(reqs, a + b)
    ensures ShortfallsOf(reqs, a + b) == ShortfallsOf(reqs, a) + ShortfallsOf(reqs, b)
    decreases |b|
  {
    if |b| == 0 {
      assert a + b == a;
    } else {
      var n := |b| - 1;
      assert a + b == (a + b[..n]) + [b[n]];
      ShortfallsConcat(reqs, a, b[..n]);
      ShortfallsSnoc(reqs, a + b[..n], b[n]);
      ShortfallsSnoc(reqs, b[..n], b[n]);
      assert b[..n] + [b[n]] == b;
    }
  }

  /** Nothing short, no error. */
  lemma {:induction false} NoShortfalls(reqs: map<int, Requirement>, log: seq<(int, int)>)
    requires forall j :: 0 <= j < |log| ==> log[j].0 in reqs && log[j].1 <= 0
    ensures ShortfallsOf(reqs, log) == []
    decreases |log|
  {
    if |log| > 0 {
      NoShortfalls(reqs, log[..|log| - 1]);
    }
  }

  /** gots[j] are the pieces the j-th logged requirement put on each of the
      n machines: none negative, and as many in all as the requirement has
      fewer pending than required. */
  ghost predicate Ledger(reqs: map<int, Requirement>, log: seq<(int, int)>, gots: seq<seq<int>>, n: nat)
  {
    && Known(reqs, log) && |gots| == |log|
    && (forall j :: 0 <= j < |log| ==> |gots[j]| == n && IntSum(gots[j]) == reqs[log[j].0].total - log[j].1)
    && (forall j, k :: 0 <= j < |log| && 0 <= k < n ==> gots[j][k] >= 0)
  }

  /** The allocation records the logged requirements left on machine k, in
      log order. */
  ghost function Records(reqs: map<int, Requirement>, log: seq<(int, int)>, gots: seq<seq<int>>, k: nat): seq<PartAssignment>
    requires Known(reqs, log) && |gots| == |log| && forall j :: 0 <= j < |log| ==> k < |gots[j]|
  {
    if |log| == 0 then []
    else
      var n := |log| - 1;
      Records(reqs, log[..n], gots[..n], k) + Added(reqs[log[n].0], gots[n][k])
  }

  lemma {:induction false} LedgerSnoc(reqs: map<int, Requirement>, log: seq<(int, int)>, gots: seq<seq<int>>, n: nat,
                                      e: (int, int), got: seq<int>)
    requires Ledger(reqs, log, gots, n) && e.0 in reqs
    requires |got| == n && IntSum(got) == reqs[e.0].total - e.1 && forall k :: 0 <= k < n ==> got[k] >= 0
    ensures Ledger(reqs, log + [e], gots + [got], n)
  {
    var log' := log + [e];
    forall j | 0 <= j < |log'| ensures log'[j].0 in reqs {
      if j < |log| {
        assert log'[j] == log[j];
      }
    }
  }

  lemma RecordsSnoc(reqs: map<int, Requirement>, log: seq<(int, int)>, gots: seq<seq<int>>, n: nat,
                    e: (int, int), got: seq<int>, k: nat)
    requires Ledger(reqs, log, gots, n) && Ledger(reqs, log + [e], gots + [got], n) && e.0 in reqs && k < n == |got|
    ensures Records(reqs, log + [e], gots + [got], k) == Records(reqs, log, gots, k) + Added(reqs[e.0], got[k])
  {
    var log', gots' := log + [e], gots + [got];
    assert log'[..|log|] == log && gots'[..|log|] == gots;
  }

  lemma {:induction false} LedgerConcat(reqs: map<int, Requirement>, a: seq<(int, int)>, ga: seq<seq<int>>,
                                        b: seq<(int, int)>, gb: seq<seq<int>>, n: nat)
    requires Ledger(reqs, a, ga, n) && Ledger(reqs, b, gb, n)
    ensures Ledger(reqs, a + b, ga + gb, n)
    ensures forall k :: 0 <= k < n ==> Records(reqs, a + b, ga + gb, k) == Records(reqs, a, ga, k) + Records(reqs, b, gb, k)
    decreases |b|
  {
    if |b| == 0 {
      assert a + b == a && ga + gb == ga;
    } else {
      var m := |b| - 1;
      assert b[..m] + [b[m]] == b && gb[..m] + [gb[m]] == gb;
      assert a + b == (a + b[..m]) + [b[m]] && ga + gb == (ga + gb[..m]) + [gb[m]];
      LedgerPrefix(reqs, b, gb, n, m);
      LedgerConcat(reqs, a, ga, b[..m], gb[..m], n);
      LedgerSnoc(reqs, a + b[..m], ga + gb[..m], n, b[m], gb[m]);
      LedgerSnoc(reqs, b[..m], gb[..m], n, b[m], gb[m]);
      forall k | 0 <= k < n
        ensures Records(reqs, a + b, ga + gb, k) == Records(reqs, a, ga, k) + Records(reqs, b, gb, k)
      {
        RecordsSnoc(reqs, a + b[..m], ga + gb[..m], n, b[m], gb[m], k);
        RecordsSnoc(reqs, b[..m], gb[..m], n, b[m], gb[m], k);
      }
    }
  }

  lemma LedgerPrefix(reqs: map<int, Requirement>, log: seq<(int, int)>, gots: seq<seq<int>>, n: nat, m: nat)
    requires Ledger(reqs, log, gots, n) && m <= |log|
    ensures Ledger(reqs, log[..m], gots[..m], n)
  {
    forall j | 0 <= j < m ensures log[..m][j] == log[j] && gots[..m][j] == gots[j] {
    }
  }

  /** Every requirement left short found every machine full. */
  ghost predicate ShortOnFull(reqs: map<int, Requirement>, log: seq<(int, int)>, states: seq<MachineState>, obj: real)
    requires Known(reqs, log)
  {
    forall j, k :: 0 <= j < |log| && log[j].1 > 0 && 0 <= k < |states| ==> Full(states[k], reqs[log[j].0], obj)
  }

  // ---------------------------------------------------------------------------
  // The requirement loop

  /** All machines carry the same errors. */
  ghost predicate SameErrors(states: seq<MachineState>, errs: seq<Shortfall>)
  {
    forall k :: 0 <= k < |states| ==> states[k].errors == errs
  }

  /** The error loop: every machine records the shortfall; nothing else
      changes. */
  method RecordShortfall(states: seq<MachineState>, e: Shortfall) returns (states': seq<MachineState>)
    ensures |states'| == |states|
    ensures forall k :: 0 <= k < |states| ==> states'[k] == states[k].(errors := states[k].errors + [e])
  {
    states' := states;
    var k := 0;
    while k < |states|
      invariant 0 <= k <= |states| && |states'| == |states|
      invariant forall j :: 0 <= j < k ==> states'[j] == states[j].(errors := states[j].errors + [e])
      invariant forall j :: k <= j < |states| ==> states'[j] == states[j]
    {
      states' := states'[k := states[k].(errors := states[k].errors + [e])];
      k := k + 1;
    }
  }

  /** Recording an error keeps every machine tracked. */
  lemma RecordKeepsTracks(machines: seq<Machine>, states: seq<MachineState>, states': seq<MachineState>,
                          uses: seq<seq<ToolUse>>, obj: real, e: Shortfall)
    requires AllTrack(machines, states, uses, obj) && |states'| == |states|
    requires forall k :: 0 <= k < |states| ==> states'[k] == states[k].(errors := states[k].errors + [e])
    ensures AllTrack(machines, states', uses, obj)
  {
    forall k | 0 <= k < |machines| ensures Tracks(machines[k], states'[k], uses[k], obj) {
      assert states'[k].parts == states[k].parts && states'[k].used == states[k].used;
      assert states'[k].tools == states[k].tools && states'[k].toolOrder == states[k].toolOrder;
    }
  }

  /** One requirement of a group: the machines are ranked for the group's
      thickness, the requirement is allocated over them, and a quantity left
      pending is recorded as an error on every machine. */
  method AllocateOne(machines: seq<Machine>, states: seq<MachineState>, ghost uses: seq<seq<ToolUse>>,
                     r: Requirement, thickness: real, obj: real)
    returns (states': seq<MachineState>, ghost uses': seq<seq<ToolUse>>, pending: int, ghost got: seq<int>,
             ghost order: seq<nat>)
    requires AllTrack(machines, states, uses, obj)
    ensures AllTrack(machines, states', uses', obj)
    ensures |got| == |machines| && pending == r.total - IntSum(got)
    ensures order == OrderMachines(machines, states, thickness)
    ensures forall j :: 0 <= j < |order| ==> got[order[j]] == TakeAt(states[order[j]].used, r, obj, LeftAt(r, got, order, j))
    ensures forall k :: 0 <= k < |machines| ==>
              && Took(states[k], states'[k].(errors := states[k].errors), uses[k], uses'[k], r, got[k])
              && states'[k].alerts == states[k].alerts + (if r.total > 0 then AlertFor(states[k], r, obj) else [])
    ensures forall k :: 0 <= k < |machines| ==>
              && got[k] >= 0
              && states'[k].parts == states[k].parts + Added(r, got[k])
              && states[k].used <= states'[k].used
    ensures r.total > 0 ==> 0 <= pending <= r.total
    ensures r.total <= 0 ==> pending == r.total
    ensures forall k :: 0 <= k < |machines| ==>
              states'[k].errors == states[k].errors + (if pending > 0 then [Shortfall(r.partNumber, pending)] else [])
    ensures pending > 0 ==> forall k :: 0 <= k < |machines| ==> Full(states'[k], r, obj)
  {
    var ranked := OrderMachines(machines, states, thickness);
    order := ranked;
    states', uses', pending, got := AllocateRequirement(machines, states, uses, r, obj, ranked);
    forall k | 0 <= k < |machines|
      ensures states'[k].errors == states[k].errors && states'[k].(errors := states[k].errors) == states'[k]
      ensures states'[k].parts == states[k].parts + Added(r, got[k]) && states[k].used <= states'[k].used
    {
      TookAdds(states[k], states'[k], uses[k], uses'[k], r, got[k]);
    }
    if pending > 0 {
      var before := states';
      states' := RecordShortfall(states', Shortfall(r.partNumber, pending));
      RecordKeepsTracks(machines, before, states', uses', obj, Shortfall(r.partNumber, pending));
      RecordKeepsFull(before, states', r, obj, Shortfall(r.partNumber, pending));
    }
  }

  /** Recording an error changes no machine's hours, so a full machine stays
      full. */
  lemma RecordKeepsFull(states: seq<MachineState>, states': seq<MachineState>, r: Requirement, obj: real, e: Shortfall)
    requires |states'| == |states|
    requires forall k :: 0 <= k < |states| ==> states'[k] == states[k].(errors := states[k].errors + [e])
    requires forall k :: 0 <= k < |states| ==> Full(states[k], r, obj)
    ensures forall k :: 0 <= k < |states| ==> Full(states'[k], r, obj)
  {
    forall k | 0 <= k < |states| ensures Full(states'[k], r, obj) {
      var t := obj - states[k].used;
      assert obj - states'[k].used == t;
      assert FullAt(t, r.uph);
    }
  }

  /** Each machine, visited in the order ranked for the thickness, took
      what TakeAt gives for its hours and what was still pending. */
  ghost predicate Preferred(machines: seq<Machine>, states: seq<MachineState>, r: Requirement, thickness: real,
                            obj: real, got: seq<int>)
    requires |states| == |machines| == |got|
  {
    var order := OrderMachines(machines, states, thickness);
    forall j :: 0 <= j < |order| ==> got[order[j]] == TakeAt(states[order[j]].used, r, obj, LeftAt(r, got, order, j))
  }

  /** One requirement allocated from `s` to `s'` as the service does it:
      the shares follow the ranking, each machine changed as Took says,
      recorded its alert, and every machine recorded the shortfall, if any. */
  ghost predicate Allocated(machines: seq<Machine>, s: seq<MachineState>, u: seq<seq<ToolUse>>, r: Requirement,
                            thickness: real, obj: real, got: seq<int>, pending: int,
                            s': seq<MachineState>, u': seq<seq<ToolUse>>)
  {
    && AllTrack(machines, s, u, obj) && AllTrack(machines, s', u', obj)
    && |got| == |machines| && pending == r.total - IntSum(got)
    && Preferred(machines, s, r, thickness, obj, got)
    && (forall k :: 0 <= k < |machines| ==>
          && Took(s[k], s'[k].(errors := s[k].errors), u[k], u'[k], r, got[k])
          && s'[k].alerts == s[k].alerts + (if r.total > 0 then AlertFor(s[k], r, obj) else [])
          && s'[k].errors == s[k].errors + (if pending > 0 then [Shortfall(r.partNumber, pending)] else []))
  }

  /** The machine states before and after each logged requirement (`trail`,
      with the tool uses in `utrail`): the j-th requirement was allocated,
      for thickness ths[j], from trail[j] to trail[j + 1]. */
  ghost predicate Followed(machines: seq<Machine>, reqs: map<int, Requirement>, log: seq<(int, int)>, ths: seq<real>,
                           gots: seq<seq<int>>, obj: real, trail: seq<seq<MachineState>>, utrail: seq<seq<seq<ToolUse>>>)
    decreases |log|
  {
    && Known(reqs, log) && |ths| == |log| && |gots| == |log| && |trail| == |log| + 1 && |utrail| == |log| + 1
    && (|log| > 0 ==>
          var n := |log| - 1;
          && Followed(machines, reqs, log[..n], ths[..n], gots[..n], obj, trail[..n + 1], utrail[..n + 1])
          && Allocated(machines, trail[n], utrail[n], reqs[log[n].0], ths[n], obj, gots[n], log[n].1,
                       trail[n + 1], utrail[n + 1]))
  }

  /** n copies of a thickness. */
  function Repeat(x: real, n: nat): (r: seq<real>)
    ensures |r| == n && forall i :: 0 <= i < n ==> r[i] == x
  {
    seq(n, _ => x)
  }

  /** The thickness each logged requirement of the first |runs| groups was
      ranked for: its group's. */
  function Thicknesses(groups: seq<Group>, runs: seq<seq<(int, int)>>): (ths: seq<real>)
    requires |runs| <= |groups|
    ensures |ths| == |Flatten(runs)|
  {
    if |runs| == 0 then []
    else
      var n := |runs| - 1;
      assert runs[..n] + [runs[n]] == runs;
      FlattenSnoc(runs[..n], runs[n]);
      Thicknesses(groups, runs[..n]) + Repeat(groups[n].thickness, |runs[n]|)
  }

  /** What AllocateOne ensures is one Allocated step. */
  lemma AllocatedStep(machines: seq<Machine>, s: seq<MachineState>, u: seq<seq<ToolUse>>, r: Requirement,
                      thickness: real, obj: real, got: seq<int>, pending: int, order: seq<nat>,
                      s': seq<MachineState>, u': seq<seq<ToolUse>>)
    requires AllTrack(machines, s, u, obj) && AllTrack(machines, s', u', obj)
    requires |got| == |machines| && pending == r.total - IntSum(got)
    requires order == OrderMachines(machines, s, thickness)
    requires forall j :: 0 <= j < |order| ==> got[order[j]] == TakeAt(s[order[j]].used, r, obj, LeftAt(r, got, order, j))
    requires forall k :: 0 <= k < |machines| ==>
               && Took(s[k], s'[k].(errors := s[k].errors), u[k], u'[k], r, got[k])
               && s'[k].alerts == s[k].alerts + (if r.total > 0 then AlertFor(s[k], r, obj) else [])
    requires forall k :: 0 <= k < |machines| ==>
               s'[k].errors == s[k].errors + (if pending > 0 then [Shortfall(r.partNumber, pending)] else [])
    ensures Allocated(machines, s, u, r, thickness, obj, got, pending, s', u')
  {
  }

  /** Nothing logged: the trail is the starting point. */
  lemma FollowedNothing(machines: seq<Machine>, reqs: map<int, Requirement>, obj: real,
                        s: seq<MachineState>, u: seq<seq<ToolUse>>)
    ensures Followed(machines, reqs, [], [], [], obj, [s], [u])
  {
  }

  /** A trail without its last step, and that step. */
  lemma FollowedLast(machines: seq<Machine>, reqs: map<int, Requirement>, log: seq<(int, int)>, ths: seq<real>,
                     gots: seq<seq<int>>, obj: real, trail: seq<seq<MachineState>>, utrail: seq<seq<seq<ToolUse>>>)
    requires Followed(machines, reqs, log, ths, gots, obj, trail, utrail) && |log| > 0
    ensures Followed(machines, reqs, log[..|log| - 1], ths[..|log| - 1], gots[..|log| - 1], obj, trail[..|log|], utrail[..|log|])
    ensures Allocated(machines, trail[|log| - 1], utrail[|log| - 1], reqs[log[|log| - 1].0], ths[|log| - 1], obj,
                      gots[|log| - 1], log[|log| - 1].1, trail[|log|], utrail[|log|])
  {
  }

  /** One more requirement allocated extends the trail. */
  lemma FollowedSnoc(machines: seq<Machine>, reqs: map<int, Requirement>, log: seq<(int, int)>, ths: seq<real>,
                     gots: seq<seq<int>>, obj: real, trail: seq<seq<MachineState>>, utrail: seq<seq<seq<ToolUse>>>,
                     e: (int, int), th: real, got: seq<int>, s': seq<MachineState>, u': seq<seq<ToolUse>>)
    requires Followed(machines, reqs, log, ths, gots, obj, trail, utrail) && e.0 in reqs
    requires Allocated(machines, trail[|log|], utrail[|log|], reqs[e.0], th, obj, got, e.1, s', u')
    ensures Followed(machines, reqs, log + [e], ths + [th], gots + [got], obj, trail + [s'], utrail + [u'])
  {
    var n := |log|;
    assert (log + [e])[..n] == log && (ths + [th])[..n] == ths && (gots + [got])[..n] == gots;
    assert (trail + [s'])[..n + 1] == trail && (utrail + [u'])[..n + 1] == utrail;
    LedgerKnownSnoc(reqs, log, e);
  }

  lemma LedgerKnownSnoc(reqs: map<int, Requirement>, log: seq<(int, int)>, e: (int, int))
    requires Known(reqs, log) && e.0 in reqs
    ensures Known(reqs, log + [e])
  {
    forall j | 0 <= j < |log| + 1 ensures (log + [e])[j].0 in reqs {
      if j < |log| {
        assert (log + [e])[j] == log[j];
      }
    }
  }

  /** Two stretches of allocation in a row: the second trail starts where
      the first ends. */
  lemma {:induction false} FollowedConcat(machines: seq<Machine>, reqs: map<int, Requirement>, obj: real,
                       a: seq<(int, int)>, ta: seq<real>, ga: seq<seq<int>>, tra: seq<seq<MachineState>>,
                       ua: seq<seq<seq<ToolUse>>>,
                       b: seq<(int, int)>, tb: seq<real>, gb: seq<seq<int>>, trb: seq<seq<MachineState>>,
                       ub: seq<seq<seq<ToolUse>>>)
    requires Followed(machines, reqs, a, ta, ga, obj, tra, ua) && Followed(machines, reqs, b, tb, gb, obj, trb, ub)
    requires tra[|a|] == trb[0] && ua[|a|] == ub[0]
    ensures Followed(machines, reqs, a + b, ta + tb, ga + gb, obj, tra + trb[1..], ua + ub[1..])
    decreases |b|
  {
    if |b| == 0 {
      assert a + b == a && ta + tb == ta && ga + gb == ga;
      assert trb[1..] == [] && ub[1..] == [];
      assert tra + trb[1..] == tra && ua + ub[1..] == ua;
    } else {
      var m := |b| - 1;
      FollowedLast(machines, reqs, b, tb, gb, obj, trb, ub);
      FollowedConcat(machines, reqs, obj, a, ta, ga, tra, ua, b[..m], tb[..m], gb[..m], trb[..m + 1], ub[..m + 1]);
      FollowedJoin(machines, reqs, obj, a, ta, ga, tra, ua, b, tb, gb, trb, ub);
    }
  }

  /** The inductive step of FollowedConcat: the last step of b. */
  lemma FollowedJoin(machines: seq<Machine>, reqs: map<int, Requirement>, obj: real,
                     a: seq<(int, int)>, ta: seq<real>, ga: seq<seq<int>>, tra: seq<seq<MachineState>>,
                     ua: seq<seq<seq<ToolUse>>>,
                     b: seq<(int, int)>, tb: seq<real>, gb: seq<seq<int>>, trb: seq<seq<MachineState>>,
                     ub: seq<seq<seq<ToolUse>>>)
    requires |b| > 0 && |tb| == |gb| == |b| && |trb| == |ub| == |b| + 1 && |tra| == |ua| == |a| + 1
    requires tra[|a|] == trb[0] && ua[|a|] == ub[0] && b[|b| - 1].0 in reqs
    requires Followed(machines, reqs, a + b[..|b| - 1], ta + tb[..|b| - 1], ga + gb[..|b| - 1], obj,
                      tra + trb[..|b|][1..], ua + ub[..|b|][1..])
    requires Allocated(machines, trb[|b| - 1], ub[|b| - 1], reqs[b[|b| - 1].0], tb[|b| - 1], obj,
                       gb[|b| - 1], b[|b| - 1].1, trb[|b|], ub[|b|])
    ensures Followed(machines, reqs, a + b, ta + tb, ga + gb, obj, tra + trb[1..], ua + ub[1..])
  {
    var m := |b| - 1;
    ConcatSnoc(a, b);
    ConcatSnoc(ta, tb);
    ConcatSnoc(ga, gb);
    JoinSnoc(tra, trb);
    JoinSnoc(ua, ub);
    FollowedSnoc(machines, reqs, a + b[..m], ta + tb[..m], ga + gb[..m], obj, tra + trb[..m + 1][1..],
                 ua + ub[..m + 1][1..], b[m], tb[m], gb[m], trb[m + 1], ub[m + 1]);
  }

  /** From `before` to `after` the machines gained the allocation records
      of the logged requirements, as the ledger `gots` says, and no machine's
      hours fell. */
  ghost predicate Grew(reqs: map<int, Requirement>, log: seq<(int, int)>, gots: seq<seq<int>>,
                       before: seq<MachineState>, after: seq<MachineState>)
  {
    && |after| == |before| && Ledger(reqs, log, gots, |before|)
    && (forall k :: 0 <= k < |before| ==>
          after[k].parts == before[k].parts + Records(reqs, log, gots, k) && before[k].used <= after[k].used)
  }

  /** Nothing logged, nothing changed. */
  lemma GrewNothing(reqs: map<int, Requirement>, states: seq<MachineState>)
    ensures Grew(reqs, [], [], states, states)
  {
    forall k | 0 <= k < |states| ensures states[k].parts == states[k].parts + Records(reqs, [], [], k) {
      assert states[k].parts + [] == states[k].parts;
    }
  }

  /** One more requirement allocated. */
  lemma GrewSnoc(reqs: map<int, Requirement>, log: seq<(int, int)>, gots: seq<seq<int>>,
                 before: seq<MachineState>, mid: seq<MachineState>, after: seq<MachineState>, e: (int, int), got: seq<int>)
    requires Grew(reqs, log, gots, before, mid) && e.0 in reqs && |after| == |mid|
    requires |got| == |mid| && IntSum(got) == reqs[e.0].total - e.1
    requires forall k :: 0 <= k < |mid| ==>
               && got[k] >= 0
               && after[k].parts == mid[k].parts + Added(reqs[e.0], got[k])
               && mid[k].used <= after[k].used
    ensures Grew(reqs, log + [e], gots + [got], before, after)
  {
    LedgerSnoc(reqs, log, gots, |before|, e, got);
    forall k | 0 <= k < |before|
      ensures after[k].parts == before[k].parts + Records(reqs, log + [e], gots + [got], k)
    {
      GrewAt(reqs, log, gots, |before|, e, got, k, before[k].parts, mid[k].parts, after[k].parts);
    }
  }

  /** GrewSnoc on one machine's records. */
  lemma GrewAt(reqs: map<int, Requirement>, log: seq<(int, int)>, gots: seq<seq<int>>, n: nat, e: (int, int),
               got: seq<int>, k: nat, b: seq<PartAssignment>, m: seq<PartAssignment>, a: seq<PartAssignment>)
    requires Ledger(reqs, log, gots, n) && Ledger(reqs, log + [e], gots + [got], n) && e.0 in reqs && k < n == |got|
    requires m == b + Records(reqs, log, gots, k) && a == m + Added(reqs[e.0], got[k])
    ensures a == b + Records(reqs, log + [e], gots + [got], k)
  {
    RecordsSnoc(reqs, log, gots, n, e, got, k);
    AppendRecords(b, Records(reqs, log, gots, k), Added(reqs[e.0], got[k]), m, a);
  }

  lemma AppendRecords(a: seq<PartAssignment>, b: seq<PartAssignment>, c: seq<PartAssignment>,
                      mid: seq<PartAssignment>, after: seq<PartAssignment>)
    requires mid == a + b && after == mid + c
    ensures after == a + (b + c)
  {
  }

  /** Two stretches of allocation in a row. */
  lemma GrewConcat(reqs: map<int, Requirement>, a: seq<(int, int)>, ga: seq<seq<int>>, b: seq<(int, int)>, gb: seq<seq<int>>,
                   s0: seq<MachineState>, s1: seq<MachineState>, s2: seq<MachineState>)
    requires Grew(reqs, a, ga, s0, s1) && Grew(reqs, b, gb, s1, s2)
    ensures Grew(reqs, a + b, ga + gb, s0, s2)
  {
    LedgerConcat(reqs, a, ga, b, gb, |s0|);
    forall k | 0 <= k < |s0| ensures s2[k].parts == s0[k].parts + Records(reqs, a + b, ga + gb, k) {
      assert s2[k].parts == (s0[k].parts + Records(reqs, a, ga, k)) + Records(reqs, b, gb, k);
    }
  }

  /** Machines full for the requirements left short stay full as they fill. */
  lemma ShortStaysFull(reqs: map<int, Requirement>, log: seq<(int, int)>, mid: seq<MachineState>,
                       after: seq<MachineState>, obj: real)
    requires Known(reqs, log) && ShortOnFull(reqs, log, mid, obj) && |after| == |mid|
    requires forall k :: 0 <= k < |mid| ==> mid[k].used <= after[k].used
    ensures ShortOnFull(reqs, log, after, obj)
  {
    forall j, k | 0 <= j < |log| && log[j].1 > 0 && 0 <= k < |after|
      ensures Full(after[k], reqs[log[j].0], obj)
    {
      FullLater(mid[k], after[k], reqs[log[j].0], obj);
    }
  }

  /** The loop over one group after its first j requirements, none short. */
  ghost predicate GroupSoFar(machines: seq<Machine>, reqs: map<int, Requirement>, g: Group, obj: real,
                             errs: seq<Shortfall>, start: seq<MachineState>, j: nat, states: seq<MachineState>,
                             uses: seq<seq<ToolUse>>, run: seq<(int, int)>, gots: seq<seq<int>>)
  {
    && AllTrack(machines, states, uses, obj)
    && SameErrors(states, errs)
    && j == |run| <= |g.partIds|
    && (forall i :: 0 <= i < |run| ==> run[i].0 == g.partIds[i] && Settled(reqs, run[i]) && run[i].1 <= 0)
    && Grew(reqs, run, gots, start, states)
  }

  /** The trail of a group's run so far: each requirement allocated for the
      group's thickness, from `start` to `states`. */
  ghost predicate GroupTrail(machines: seq<Machine>, reqs: map<int, Requirement>, g: Group, obj: real,
                             start: seq<MachineState>, ustart: seq<seq<ToolUse>>, run: seq<(int, int)>,
                             gots: seq<seq<int>>, states: seq<MachineState>, uses: seq<seq<ToolUse>>,
                             trail: seq<seq<MachineState>>, utrail: seq<seq<seq<ToolUse>>>)
  {
    && Followed(machines, reqs, run, Repeat(g.thickness, |run|), gots, obj, trail, utrail)
    && trail[0] == start && utrail[0] == ustart && trail[|run|] == states && utrail[|run|] == uses
  }

  /** One more requirement of the group extends its trail. */
  lemma GroupTrailSnoc(machines: seq<Machine>, reqs: map<int, Requirement>, g: Group, obj: real,
                       start: seq<MachineState>, ustart: seq<seq<ToolUse>>, run: seq<(int, int)>,
                       gots: seq<seq<int>>, states: seq<MachineState>, uses: seq<seq<ToolUse>>,
                       trail: seq<seq<MachineState>>, utrail: seq<seq<seq<ToolUse>>>,
                       e: (int, int), got: seq<int>, states': seq<MachineState>, uses': seq<seq<ToolUse>>)
    requires GroupTrail(machines, reqs, g, obj, start, ustart, run, gots, states, uses, trail, utrail) && e.0 in reqs
    requires Allocated(machines, states, uses, reqs[e.0], g.thickness, obj, got, e.1, states', uses')
    ensures GroupTrail(machines, reqs, g, obj, start, ustart, run + [e], gots + [got], states', uses',
                       trail + [states'], utrail + [uses'])
  {
    FollowedSnoc(machines, reqs, run, Repeat(g.thickness, |run|), gots, obj, trail, utrail, e, g.thickness, got, states', uses');
    assert Repeat(g.thickness, |run|) + [g.thickness] == Repeat(g.thickness, |run| + 1);
  }

  /** The requirements of one group, in order, until one is left short
      (distribucion_service.py:317-393): the machines gain the allocation
      records of the run, and a requirement left short found every machine
      full. */
  method AllocateGroup(machines: seq<Machine>, states: seq<MachineState>, ghost uses: seq<seq<ToolUse>>,
                       reqs: map<int, Requirement>, g: Group, obj: real, ghost errs: seq<Shortfall>)
    returns (states': seq<MachineState>, ghost uses': seq<seq<ToolUse>>, ghost run: seq<(int, int)>,
             ghost gots: seq<seq<int>>, ghost trail: seq<seq<MachineState>>, ghost utrail: seq<seq<seq<ToolUse>>>)
    requires AllTrack(machines, states, uses, obj) && SameErrors(states, errs)
    requires forall id :: id in g.partIds ==> id in reqs
    ensures AllTrack(machines, states', uses', obj)
    ensures GroupRun(reqs, g, run)
    ensures SameErrors(states', errs + ShortfallsOf(reqs, run))
    ensures Grew(reqs, run, gots, states, states')
    ensures ShortOnFull(reqs, run, states', obj)
    ensures Followed(machines, reqs, run, Repeat(g.thickness, |run|), gots, obj, trail, utrail)
    ensures trail[0] == states && utrail[0] == uses && trail[|run|] == states' && utrail[|run|] == uses'
  {
    states', uses', run, gots := states, uses, [], [];
    trail, utrail := [states], [uses];
    GrewNothing(reqs, states);
    FollowedNothing(machines, reqs, obj, states, uses);
    var j := 0;
    while j < |g.partIds|
      invariant GroupSoFar(machines, reqs, g, obj, errs, states, j, states', uses', run, gots)
      invariant GroupTrail(machines, reqs, g, obj, states, uses, run, gots, states', uses', trail, utrail)
    {
      var pending;
      states', uses', run, gots, pending, trail, utrail :=
        GroupStep(machines, reqs, g, obj, errs, states, uses, j, states', uses', run, gots, trail, utrail);
      j := j + 1;
      if pending > 0 {
        return;
      }
    }
    NoShortfalls(reqs, run);
    assert errs + [] == errs;
  }

  /** One requirement of a group: either the group goes on, or the
      requirement was left short, on machines all full, and the group's run
      is complete. */
  method GroupStep(machines: seq<Machine>, reqs: map<int, Requirement>, g: Group, obj: real, ghost errs: seq<Shortfall>,
                   ghost start: seq<MachineState>, ghost ustart: seq<seq<ToolUse>>, j: nat, states: seq<MachineState>,
                   ghost uses: seq<seq<ToolUse>>, ghost run: seq<(int, int)>, ghost gots: seq<seq<int>>,
                   ghost trail: seq<seq<MachineState>>, ghost utrail: seq<seq<seq<ToolUse>>>)
    returns (states': seq<MachineState>, ghost uses': seq<seq<ToolUse>>, ghost run': seq<(int, int)>,
             ghost gots': seq<seq<int>>, pending: int, ghost trail': seq<seq<MachineState>>,
             ghost utrail': seq<seq<seq<ToolUse>>>)
    requires forall id :: id in g.partIds ==> id in reqs
    requires GroupSoFar(machines, reqs, g, obj, errs, start, j, states, uses, run, gots) && j < |g.partIds|
    requires GroupTrail(machines, reqs, g, obj, start, ustart, run, gots, states, uses, trail, utrail)
    ensures GroupTrail(machines, reqs, g, obj, start, ustart, run', gots', states', uses', trail', utrail')
    ensures pending <= 0 ==> GroupSoFar(machines, reqs, g, obj, errs, start, j + 1, states', uses', run', gots')
    ensures pending > 0 ==> && AllTrack(machines, states', uses', obj)
                            && GroupRun(reqs, g, run')
                            && SameErrors(states', errs + ShortfallsOf(reqs, run'))
                            && Grew(reqs, run', gots', start, states')
                            && ShortOnFull(reqs, run', states', obj)
  {
    var id := g.partIds[j];
    var r := reqs[id];
    ghost var got;
    ghost var order;
    states', uses', pending, got, order := AllocateOne(machines, states, uses, r, g.thickness, obj);
    run', gots' := run + [(id, pending)], gots + [got];
    trail', utrail' := trail + [states'], utrail + [uses'];
    GrewSnoc(reqs, run, gots, start, states, states', (id, pending), got);
    AllocatedStep(machines, states, uses, r, g.thickness, obj, got, pending, order, states', uses');
    GroupTrailSnoc(machines, reqs, g, obj, start, ustart, run, gots, states, uses, trail, utrail, (id, pending), got, states', uses');
    if pending > 0 {
      GroupStopped(machines, reqs, g, obj, errs, j, states, states', run, id, pending);
    } else {
      GroupGoesOn(machines, reqs, g, obj, errs, start, j, states', uses', run, gots, id, pending, got);
    }
  }

  /** A requirement that is not left short extends the group's run. */
  lemma GroupGoesOn(machines: seq<Machine>, reqs: map<int, Requirement>, g: Group, obj: real, errs: seq<Shortfall>,
                    start: seq<MachineState>, j: nat, states: seq<MachineState>, uses: seq<seq<ToolUse>>,
                    run: seq<(int, int)>, gots: seq<seq<int>>, id: int, pending: int, got: seq<int>)
    requires j == |run| < |g.partIds| && id == g.partIds[j]
    requires forall i :: 0 <= i < |run| ==> run[i].0 == g.partIds[i] && Settled(reqs, run[i]) && run[i].1 <= 0
    requires Settled(reqs, (id, pending)) && pending <= 0
    requires AllTrack(machines, states, uses, obj)
    requires SameErrors(states, errs)
    requires Grew(reqs, run + [(id, pending)], gots + [got], start, states)
    ensures GroupSoFar(machines, reqs, g, obj, errs, start, j + 1, states, uses, run + [(id, pending)], gots + [got])
  {
  }

  /** The run of a group that stops at a requirement left short. */
  lemma GroupStopped(machines: seq<Machine>, reqs: map<int, Requirement>, g: Group, obj: real,
                     errs: seq<Shortfall>, j: nat, before: seq<MachineState>, states: seq<MachineState>,
                     run: seq<(int, int)>, id: int, pending: int)
    requires |before| == |states| && SameErrors(before, errs) && j == |run| < |g.partIds|
    requires forall i :: 0 <= i < |run| ==> run[i].0 == g.partIds[i] && Settled(reqs, run[i]) && run[i].1 <= 0
    requires id == g.partIds[j] && Settled(reqs, (id, pending)) && pending > 0
    requires forall k :: 0 <= k < |states| ==>
               states[k].errors == before[k].errors + [Shortfall(reqs[id].partNumber, pending)]
    requires forall k :: 0 <= k < |states| ==> Full(states[k], reqs[id], obj)
    ensures GroupRun(reqs, g, run + [(id, pending)])
    ensures SameErrors(states, errs + ShortfallsOf(reqs, run + [(id, pending)]))
    ensures ShortOnFull(reqs, run + [(id, pending)], states, obj)
  {
    NoShortfalls(reqs, run);
    ShortfallsSnoc(reqs, run, (id, pending));
    var run' := run + [(id, pending)];
    forall i, k | 0 <= i < |run'| && run'[i].1 > 0 && 0 <= k < |states| ensures Full(states[k], reqs[run'[i].0], obj) {
      assert i == |run|;
    }
  }

  // ---------------------------------------------------------------------------
  // The group loop

  /** The group loop after the first |runs| groups. */
  ghost predicate GroupsSoFar(machines: seq<Machine>, reqs: map<int, Requirement>, groups: seq<Group>, obj: real,
                              init: seq<MachineState>, states: seq<MachineState>, uses: seq<seq<ToolUse>>,
                              runs: seq<seq<(int, int)>>, gots: seq<seq<int>>)
  {
    && AllTrack(machines, states, uses, obj)
    && |runs| <= |groups|
    && (forall i :: 0 <= i < |runs| ==> GroupRun(reqs, groups[i], runs[i]))
    && Known(reqs, Flatten(runs))
    && SameErrors(states, ShortfallsOf(reqs, Flatten(runs)))
    && Grew(reqs, Flatten(runs), gots, init, states)
    && ShortOnFull(reqs, Flatten(runs), states, obj)
  }

  /** The trail of the group loop after the first |runs| groups: every
      logged requirement allocated for its group's thickness, from `init`
      to `states`. */
  ghost predicate GroupsTrail(machines: seq<Machine>, reqs: map<int, Requirement>, groups: seq<Group>, obj: real,
                              init: seq<MachineState>, uinit: seq<seq<ToolUse>>, runs: seq<seq<(int, int)>>,
                              gots: seq<seq<int>>, states: seq<MachineState>, uses: seq<seq<ToolUse>>,
                              trail: seq<seq<MachineState>>, utrail: seq<seq<seq<ToolUse>>>)
  {
    && |runs| <= |groups|
    && Followed(machines, reqs, Flatten(runs), Thicknesses(groups, runs), gots, obj, trail, utrail)
    && trail[0] == init && utrail[0] == uinit
    && trail[|Flatten(runs)|] == states && utrail[|Flatten(runs)|] == uses
  }

  /** Before the first group the trail is the starting point. */
  lemma GroupsTrailStart(machines: seq<Machine>, reqs: map<int, Requirement>, groups: seq<Group>, obj: real,
                         init: seq<MachineState>, uinit: seq<seq<ToolUse>>)
    ensures GroupsTrail(machines, reqs, groups, obj, init, uinit, [], [], init, uinit, [init], [uinit])
  {
    FollowedNothing(machines, reqs, obj, init, uinit);
    assert Flatten<(int, int)>([]) == [] && Thicknesses(groups, []) == [];
  }

  /** One more group's run extends the loop's trail. */
  lemma GroupsTrailSnoc(machines: seq<Machine>, reqs: map<int, Requirement>, groups: seq<Group>, obj: real,
                        init: seq<MachineState>, uinit: seq<seq<ToolUse>>, runs: seq<seq<(int, int)>>,
                        gots: seq<seq<int>>, states: seq<MachineState>, uses: seq<seq<ToolUse>>,
                        trail: seq<seq<MachineState>>, utrail: seq<seq<seq<ToolUse>>>,
                        run: seq<(int, int)>, got: seq<seq<int>>, states': seq<MachineState>, uses': seq<seq<ToolUse>>,
                        tr: seq<seq<MachineState>>, utr: seq<seq<seq<ToolUse>>>)
    requires GroupsTrail(machines, reqs, groups, obj, init, uinit, runs, gots, states, uses, trail, utrail)
    requires |runs| < |groups|
    requires Followed(machines, reqs, run, Repeat(groups[|runs|].thickness, |run|), got, obj, tr, utr)
    requires tr[0] == states && utr[0] == uses && tr[|run|] == states' && utr[|run|] == uses'
    ensures GroupsTrail(machines, reqs, groups, obj, init, uinit, runs + [run], gots + got, states', uses',
                        trail + tr[1..], utrail + utr[1..])
  {
    var n := |Flatten(runs)|;
    FollowedConcat(machines, reqs, obj, Flatten(runs), Thicknesses(groups, runs), gots, trail, utrail,
                   run, Repeat(groups[|runs|].thickness, |run|), got, tr, utr);
    FlattenSnoc(runs, run);
    assert (runs + [run])[..|runs|] == runs;
    assert Thicknesses(groups, runs + [run]) == Thicknesses(groups, runs) + Repeat(groups[|runs|].thickness, |run|);
    JoinEnds(trail, tr);
    JoinEnds(utrail, utr);
  }

  /** The members of a preference group are requirements. */
  lemma MembersKnown(reqs: map<int, Requirement>, ord: seq<int>, g: Group)
    requires IsDict(reqs, ord) && ClassOf(reqs, ord, g)
    ensures forall id :: id in g.partIds ==> id in reqs
  {
    forall id | id in g.partIds ensures id in reqs {
      FilterMembership(ord, HasKey(reqs, GroupKey(g)), id);
    }
  }

  /** A run of a group only logs requirements. */
  lemma RunKnown(reqs: map<int, Requirement>, g: Group, run: seq<(int, int)>)
    requires GroupRun(reqs, g, run)
    ensures Known(reqs, run)
  {
    forall j | 0 <= j < |run| ensures run[j].0 in reqs {
      assert Settled(reqs, run[j]);
    }
  }

  /** The group loop after one more group. */
  lemma GroupsSnoc(machines: seq<Machine>, reqs: map<int, Requirement>, groups: seq<Group>, obj: real,
                   init: seq<MachineState>, states: seq<MachineState>, uses: seq<seq<ToolUse>>,
                   runs: seq<seq<(int, int)>>, gots: seq<seq<int>>,
                   states': seq<MachineState>, uses': seq<seq<ToolUse>>, run: seq<(int, int)>, got: seq<seq<int>>)
    requires GroupsSoFar(machines, reqs, groups, obj, init, states, uses, runs, gots) && |runs| < |groups|
    requires AllTrack(machines, states', uses', obj) && GroupRun(reqs, groups[|runs|], run)
    requires SameErrors(states', ShortfallsOf(reqs, Flatten(runs)) + ShortfallsOf(reqs, run))
    requires Grew(reqs, run, got, states, states') && ShortOnFull(reqs, run, states', obj)
    ensures GroupsSoFar(machines, reqs, groups, obj, init, states', uses', runs + [run], gots + got)
  {
    RunKnown(reqs, groups[|runs|], run);
    FlattenSnoc(runs, run);
    ShortfallsConcat(reqs, Flatten(runs), run);
    GrewConcat(reqs, Flatten(runs), gots, run, got, init, states, states');
    ShortStaysFull(reqs, Flatten(runs), states, states', obj);
    ShortOnFullConcat(reqs, Flatten(runs), run, states', obj);
    var runs' := runs + [run];
    forall i | 0 <= i < |runs'| ensures GroupRun(reqs, groups[i], runs'[i]) {
      if i < |runs| {
        assert runs'[i] == runs[i];
      }
    }
  }

  lemma ShortOnFullConcat(reqs: map<int, Requirement>, a: seq<(int, int)>, b: seq<(int, int)>,
                          states: seq<MachineState>, obj: real)
    requires Known(reqs, a) && Known(reqs, b) && Known(reqs, a + b)
    requires ShortOnFull(reqs, a, states, obj) && ShortOnFull(reqs, b, states, obj)
    ensures ShortOnFull(reqs, a + b, states, obj)
  {
    forall j, k | 0 <= j < |a + b| && (a + b)[j].1 > 0 && 0 <= k < |states|
      ensures Full(states[k], reqs[(a + b)[j].0], obj)
    {
      if j >= |a| {
        assert (a + b)[j] == b[j - |a|];
      }
    }
  }

  /** One iteration of the group loop. */
  method NextGroupRun(machines: seq<Machine>, reqs: map<int, Requirement>, ord: seq<int>, groups: seq<Group>,
                      obj: real, gi: nat, ghost init: seq<MachineState>, ghost uinit: seq<seq<ToolUse>>,
                      states: seq<MachineState>, ghost uses: seq<seq<ToolUse>>, ghost runs: seq<seq<(int, int)>>,
                      ghost gots: seq<seq<int>>, ghost trail: seq<seq<MachineState>>, ghost utrail: seq<seq<seq<ToolUse>>>)
    returns (states': seq<MachineState>, ghost uses': seq<seq<ToolUse>>, ghost runs': seq<seq<(int, int)>>,
             ghost gots': seq<seq<int>>, ghost trail': seq<seq<MachineState>>, ghost utrail': seq<seq<seq<ToolUse>>>)
    requires IsDict(reqs, ord) && gi == |runs| < |groups| && ClassOf(reqs, ord, groups[gi])
    requires GroupsSoFar(machines, reqs, groups, obj, init, states, uses, runs, gots)
    requires GroupsTrail(machines, reqs, groups, obj, init, uinit, runs, gots, states, uses, trail, utrail)
    ensures GroupsSoFar(machines, reqs, groups, obj, init, states', uses', runs', gots') && |runs'| == |runs| + 1
    ensures GroupsTrail(machines, reqs, groups, obj, init, uinit, runs', gots', states', uses', trail', utrail')
  {
    var g := groups[gi];
    MembersKnown(reqs, ord, g);
    ghost var run, got, tr, utr;
    states', uses', run, got, tr, utr := AllocateGroup(machines, states, uses, reqs, g, obj, ShortfallsOf(reqs, Flatten(runs)));
    GroupsSnoc(machines, reqs, groups, obj, init, states, uses, runs, gots, states', uses', run, got);
    GroupsTrailSnoc(machines, reqs, groups, obj, init, uinit, runs, gots, states, uses, trail, utrail,
                    run, got, states', uses', tr, utr);
    runs', gots' := runs + [run], gots + got;
    trail', utrail' := trail + tr[1..], utrail + utr[1..];
  }

  // ---------------------------------------------------------------------------
  // The reports

  /** The loop that fills in the unified station count of a machine's parts. */
  method SetUnifiedCount(parts: seq<PartAssignment>, n: nat) returns (parts': seq<PartAssignment>)
    ensures |parts'| == |parts|
    ensures forall i :: 0 <= i < |parts| ==> parts'[i] == parts[i].(estacionesUnificadas := n)
  {
    parts' := [];
    var i := 0;
    while i < |parts|
      invariant 0 <= i <= |parts| && |parts'| == i
      invariant forall j :: 0 <= j < i ==> parts'[j] == parts[j].(estacionesUnificadas := n)
    {
      parts' := parts' + [parts[i].(estacionesUnificadas := n)];
      i := i + 1;
    }
  }

  /** The report of a used machine: its identity, its allocations with the
      station count of its layout, its hours within the budget, its alerts
      and errors, and a layout plus overflow holding each unified tool number
      exactly once (the tool numbers its parts use), the layout no longer than
      the undamaged stations unless the pinned autoindex tools alone are. */
  ghost predicate Reported(m: Machine, st: MachineState, uses: seq<ToolUse>, obj: real, a: MachineAssignment)
  {
    && a.machineId == m.id && a.machineNombre == m.nombre && a.tipoMaquina == m.tipoMaquina
    && |a.parts| == |st.parts| > 0
    && (forall i :: 0 <= i < |st.parts| ==> a.parts[i] == st.parts[i].(estacionesUnificadas := |a.estilo|))
    && a.tiempoTotalUsado == st.used && a.tiempoDisponible == obj && a.tiempoSobrante == obj - st.used
    && 0.0 <= a.tiempoTotalUsado && 0.0 <= a.tiempoSobrante
    && a.alerts == st.alerts && a.errors == st.errors
    && IsDict(st.tools, st.toolOrder)
    && Styled(st.tools, st.toolOrder, m, a.estilo, a.overflow)
    && multiset(Map(a.estilo + a.overflow, EntryToolNumber)) == multiset(st.toolOrder)
    && NoDuplicates(Map(a.estilo + a.overflow, EntryToolNumber))
    && (forall tn :: tn in Map(a.estilo + a.overflow, EntryToolNumber) <==> tn in Numbers(uses))
    && (|a.estilo| <= |Filter(Values(st.tools, st.toolOrder), IsAuto)| || |a.estilo| <= |Available(m)|)
  }

  /** The report of one machine that got parts (distribucion_service.py:398-424). */
  method Report(m: Machine, st: MachineState, ghost uses: seq<ToolUse>, obj: real) returns (a: MachineAssignment)
    requires Tracks(m, st, uses, obj) && |st.parts| > 0
    ensures Reported(m, st, uses, obj, a)
  {
    UnifiesIsDict(st.tools, st.toolOrder, uses, m.template, true);
    SumOfNonNegative(st.parts, Hours);
    var estilo, overflow;
    ghost var full, found, keep;
    estilo, overflow, full, found, keep := GenerateStyle(st.tools, st.toolOrder, m);
    StyleToolsOnce(st.tools, st.toolOrder, uses, m, estilo, overflow, full, found, keep);
    StyleWithinStations(st.tools, st.toolOrder, m, estilo, full, found, keep);
    var parts := SetUnifiedCount(st.parts, |estilo|);
    a := MachineAssignment(m.id, m.nombre, m.tipoMaquina, parts, st.used, obj, obj - st.used,
                           estilo, overflow, st.alerts, st.errors);
  }

  /** The reports of the machines before position k that got parts, in
      list order; `picked` are their positions. */
  ghost predicate ReportsSoFar(machines: seq<Machine>, states: seq<MachineState>, uses: seq<seq<ToolUse>>, obj: real,
                               k: nat, result: seq<MachineAssignment>, picked: seq<nat>)
    requires |states| == |machines| == |uses|
  {
    && k <= |machines| && |result| == |picked|
    && (forall j :: 0 <= j < |picked| ==> picked[j] < k)
    && (forall i, j :: 0 <= i < j < |picked| ==> picked[i] < picked[j])
    && (forall k' :: 0 <= k' < k ==> (|states[k'].parts| > 0 <==> k' in picked))
    && (forall j :: 0 <= j < |picked| ==> Reported(machines[picked[j]], states[picked[j]], uses[picked[j]], obj, result[j]))
  }

  /** A machine without parts is skipped. */
  lemma ReportsSkip(machines: seq<Machine>, states: seq<MachineState>, uses: seq<seq<ToolUse>>, obj: real,
                    k: nat, result: seq<MachineAssignment>, picked: seq<nat>)
    requires |states| == |machines| == |uses| && k < |machines| && |states[k].parts| == 0
    requires ReportsSoFar(machines, states, uses, obj, k, result, picked)
    ensures ReportsSoFar(machines, states, uses, obj, k + 1, result, picked)
  {
  }

  /** A machine with parts adds its report. */
  lemma ReportsAppend(machines: seq<Machine>, states: seq<MachineState>, uses: seq<seq<ToolUse>>, obj: real,
                      k: nat, result: seq<MachineAssignment>, picked: seq<nat>, a: MachineAssignment)
    requires |states| == |machines| == |uses| && k < |machines| && |states[k].parts| > 0
    requires ReportsSoFar(machines, states, uses, obj, k, result, picked)
    requires Reported(machines[k], states[k], uses[k], obj, a)
    ensures ReportsSoFar(machines, states, uses, obj, k + 1, result + [a], picked + [k])
  {
    var result', picked' := result + [a], picked + [k];
    forall j | 0 <= j < |picked'|
      ensures Reported(machines[picked'[j]], states[picked'[j]], uses[picked'[j]], obj, result'[j])
    {
      if j < |picked| {
        assert picked'[j] == picked[j] && result'[j] == result[j];
      }
    }
  }

  /** One machine of the report loop. */
  method ReportStep(machines: seq<Machine>, states: seq<MachineState>, ghost uses: seq<seq<ToolUse>>, obj: real,
                    k: nat, result: seq<MachineAssignment>, ghost picked: seq<nat>)
    returns (result': seq<MachineAssignment>, ghost picked': seq<nat>)
    requires AllTrack(machines, states, uses, obj) && k < |machines|
    requires ReportsSoFar(machines, states, uses, obj, k, result, picked)
    ensures ReportsSoFar(machines, states, uses, obj, k + 1, result', picked')
  {
    if |states[k].parts| > 0 {
      var a := Report(machines[k], states[k], uses[k], obj);
      ReportsAppend(machines, states, uses, obj, k, result, picked, a);
      result', picked' := result + [a], picked + [k];
    } else {
      ReportsSkip(machines, states, uses, obj, k, result, picked);
      result', picked' := result, picked;
    }
  }

  /** The report loop over the machines in list order, skipping those with
      no parts; `picked` are the positions reported. */
  method BuildAssignments(machines: seq<Machine>, states: seq<MachineState>, ghost uses: seq<seq<ToolUse>>, obj: real)
    returns (result: seq<MachineAssignment>, ghost picked: seq<nat>)
    requires AllTrack(machines, states, uses, obj)
    ensures ReportsSoFar(machines, states, uses, obj, |machines|, result, picked)
  {
    result, picked := [], [];
    var k := 0;
    while k < |machines|
      invariant k <= |machines| && ReportsSoFar(machines, states, uses, obj, k, result, picked)
    {
      result, picked := ReportStep(machines, states, uses, obj, k, result, picked);
      k := k + 1;
    }
  }

  // ---------------------------------------------------------------------------
  // asignar_parts_a_machines

  /** The allocation of the requirements (`reqs` with its key order `ord`)
      to the machines under an hour budget `obj` per machine. The groups are
      those of the preference grouping; each group was processed as far as
      its first requirement left short; the machines reported are exactly
      those that got parts, in list order, each as Reported says for its
      final state; every report carries the same errors, one per
      requirement left short. Each machine's allocations are, in log order,
      the records of the pieces the ledger `gots` says each logged
      requirement put on it; a requirement put on the machines all it did
      not leave pending, and one left short found every machine full. */
  method AssignPartsToMachines(reqs: map<int, Requirement>, ord: seq<int>, machines: seq<Machine>, obj: real)
    returns (result: seq<MachineAssignment>, ghost groups: seq<Group>, ghost runs: seq<seq<(int, int)>>,
             ghost states: seq<MachineState>, ghost uses: seq<seq<ToolUse>>, ghost picked: seq<nat>,
             ghost gots: seq<seq<int>>, ghost trail: seq<seq<MachineState>>, ghost utrail: seq<seq<seq<ToolUse>>>)
    requires IsDict(reqs, ord)
    ensures forall i :: 0 <= i < |groups| ==> ClassOf(reqs, ord, groups[i])
    ensures NoDuplicates(groups)
    ensures forall id :: id in reqs ==> KeyOf(reqs[id]) in GroupKeys(groups)
    ensures SortedBy(groups, ByToolCount)
    ensures |runs| == |groups| && forall i :: 0 <= i < |groups| ==> GroupRun(reqs, groups[i], runs[i])
    ensures AllTrack(machines, states, uses, obj)
    ensures ReportsSoFar(machines, states, uses, obj, |machines|, result, picked)
    ensures Known(reqs, Flatten(runs))
    ensures forall j :: 0 <= j < |result| ==> result[j].errors == ShortfallsOf(reqs, Flatten(runs))
    ensures Ledger(reqs, Flatten(runs), gots, |machines|)
    ensures forall k :: 0 <= k < |machines| ==> states[k].parts == Records(reqs, Flatten(runs), gots, k)
    ensures ShortOnFull(reqs, Flatten(runs), states, obj)
    ensures Followed(machines, reqs, Flatten(runs), Thicknesses(groups, runs), gots, obj, trail, utrail)
    ensures |trail[0]| == |utrail[0]| == |machines|
    ensures forall k :: 0 <= k < |machines| ==> trail[0][k] == Idle && utrail[0][k] == []
    ensures trail[|Flatten(runs)|] == states && utrail[|Flatten(runs)|] == uses
  {
    var n := |machines|;
    var sts := seq(n, _ => Idle);
    uses := seq(n, _ => []);
    forall k | 0 <= k < n ensures Tracks(machines[k], sts[k], uses[k], obj) {
      IdleTracks(machines[k], obj);
    }
    var gs := GroupByPreferences(reqs, ord);
    groups, runs, gots := gs, [], [];
    assert Flatten(runs) == [];
    ghost var init, uinit := sts, uses;
    GrewNothing(reqs, init);
    trail, utrail := [init], [uinit];
    GroupsTrailStart(machines, reqs, gs, obj, init, uinit);
    var gi := 0;
    while gi < |gs|
      invariant gi == |runs| <= |gs|
      invariant GroupsSoFar(machines, reqs, gs, obj, init, sts, uses, runs, gots)
      invariant GroupsTrail(machines, reqs, gs, obj, init, uinit, runs, gots, sts, uses, trail, utrail)
    {
      sts, uses, runs, gots, trail, utrail :=
        NextGroupRun(machines, reqs, ord, gs, obj, gi, init, uinit, sts, uses, runs, gots, trail, utrail);
      gi := gi + 1;
    }
    states := sts;
    forall k | 0 <= k < n ensures states[k].parts == Records(reqs, Flatten(runs), gots, k) {
      assert init[k].parts == [];
    }
    result, picked := BuildAssignments(machines, sts, uses, obj);
    forall j | 0 <= j < |result| ensures result[j].errors == ShortfallsOf(reqs, Flatten(runs)) {
      assert Reported(machines[picked[j]], sts[picked[j]], uses[picked[j]], obj, result[j]);
    }
  }
}
