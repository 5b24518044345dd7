/** The inputs of the distribution service
    (backend/app/services/distribucion_service.py): the per-part requirements,
    the machines, the grouping of requirements by thickness and sheet size
    (agrupar_parts_por_preferencias) and the hard-rule machine filter
    (aplicar_reglas_duras). */
module Requirements {
  import opened Common
  import opened Stations

  /** One value of the requirements dict (built by calcular_requerimientos):
      `total` is cantidad_total (quantity per product times demand), the
      tool lists are those of the part's parsed setup. */
  datatype Requirement = Requirement(
    partId: int,
    filename: string,
    partNumber: string,
    total: int,
    uph: real,
    thickness: real,
    sheetSize: SheetSize,
    stations: seq<string>,
    toolNumbers: seq<string>,
    angles: seq<real>,
    toolsData: seq<ToolEntry>)

  /** A machine with its template (station name to configuration, in the
      template's order) and its damaged stations as strings. */
  datatype Machine = Machine(
    id: int,
    nombre: string,
    tipoMaquina: string,
    thicknessMin: real,
    thicknessMax: real,
    mesaX: real,
    mesaY: real,
    template: Template,
    damaged: seq<string>)

  /** The tool occurrences of a part (procesar_herramientas_part): its
      `tools_data` when non-empty, else stations, tool numbers and angles
      zipped, with all angles 0.0 when there are none. */
  function PartTools(r: Requirement): seq<ToolEntry>
  {
    if |r.toolsData| > 0 then r.toolsData
    else
      var angles := if |r.angles| == 0 then seq(|r.toolNumbers|, _ => 0.0) else r.angles;
      var n := Min(Min(|r.stations|, |r.toolNumbers|), |angles|);
      seq(n, i requires 0 <= i < n => ToolEntry(r.stations[i], r.toolNumbers[i], Some(angles[i])))
  }

  /** Without tools_data and angles, the zip pairs station i with tool
      number i at angle 0.0, as far as the shorter list goes. */
  lemma PartToolsZip(r: Requirement)
    requires |r.toolsData| == 0 && |r.angles| == 0
    ensures |PartTools(r)| == Min(|r.stations|, |r.toolNumbers|)
    ensures forall i :: 0 <= i < |PartTools(r)| ==>
              PartTools(r)[i] == ToolEntry(r.stations[i], r.toolNumbers[i], Some(0.0))
  {
  }

  // ---------------------------------------------------------------------------
  // Grouping by preferences (agrupar_parts_por_preferencias)

  /** What the grouping compares: thickness and sheet size. */
  datatype Key = Key(thickness: real, sheetSize: SheetSize)

  function KeyOf(r: Requirement): Key
  {
    Key(r.thickness, r.sheetSize)
  }

  /** A preference group: the requirement ids, the common thickness and sheet
      size, and the set of tool numbers of all members. */
  datatype Group = Group(partIds: seq<int>, thickness: real, sheetSize: SheetSize, tools: set<string>)

  function GroupKey(g: Group): Key
  {
    Key(g.thickness, g.sheetSize)
  }

  function ToolSetOf(r: Requirement): set<string>
  {
    set t | t in r.toolNumbers
  }

  /** The union of the tool numbers of the requirements `ids`. */
  function ToolsOf(reqs: map<int, Requirement>, ids: seq<int>): set<string>
    decreases |ids|
  {
    if |ids| == 0 then {}
    else
      var id := ids[|ids| - 1];
      ToolsOf(reqs, ids[..|ids| - 1]) + (if id in reqs then ToolSetOf(reqs[id]) else {})
  }

  /** The ids whose requirement has key `k`. */
  function HasKey(reqs: map<int, Requirement>, k: Key): (p: int -> bool)
    ensures forall id :: p(id) == (id in reqs && KeyOf(reqs[id]) == k)
  {
    id => id in reqs && KeyOf(reqs[id]) == k
  }

  /** `g` is the class of its key: every requirement with that key, in dict
      order, and the union of their tool numbers. */
  ghost predicate ClassOf(reqs: map<int, Requirement>, ord: seq<int>, g: Group)
  {
    && g.partIds == Filter(ord, HasKey(reqs, GroupKey(g)))
    && |g.partIds| > 0
    && g.tools == ToolsOf(reqs, g.partIds)
  }

  function GroupKeys(gs: seq<Group>): set<Key>
  {
    set g | g in gs :: GroupKey(g)
  }

  /** The sort key: more tools first. */
  function ByToolCount(g: Group): real
  {
    -(|g.tools| as real)
  }

  /** A list without an element that passes `p` filters to nothing. */
  lemma FilterNone<T>(s: seq<T>, p: T -> bool)
    requires forall j :: 0 <= j < |s| ==> !p(s[j])
    ensures Filter(s, p) == []
  {
    if Filter(s, p) != [] {
      var x := Filter(s, p)[0];
      FilterMembership(s, p, x);
    }
  }

  /** One step of the inner loop at position `j`: the requirement there is
      added iff it has the key and is not the one the group started from. */
  lemma CollectStep(reqs: map<int, Requirement>, ord: seq<int>, i: nat, j: nat, k: Key,
                    agrupados: set<int>, grouped: set<int>, ids: seq<int>)
    requires IsDict(reqs, ord) && i < |ord| && j < |ord| && k == KeyOf(reqs[ord[i]])
    requires forall j' :: 0 <= j' < i ==> !HasKey(reqs, k)(ord[j'])
    requires forall id :: id in agrupados ==> !HasKey(reqs, k)(id)
    requires j <= i ==> ids == [ord[i]]
    requires j > i ==> ids == Filter(ord[..j], HasKey(reqs, k))
    requires forall id :: id in grouped <==> id in agrupados || id == ord[i] || id in ids
    ensures ord[j] in reqs
    ensures (ord[j] !in grouped && KeyOf(reqs[ord[j]]) == k) <==> (j != i && HasKey(reqs, k)(ord[j]))
    ensures Filter(ord[..j + 1], HasKey(reqs, k))
         == Filter(ord[..j], HasKey(reqs, k)) + (if HasKey(reqs, k)(ord[j]) then [ord[j]] else [])
  {
    TakeSnoc(ord, j);
    FilterSnoc(ord[..j], ord[j], HasKey(reqs, k));
    if j > i {
      FilterMembership(ord[..j], HasKey(reqs, k), ord[j]);
      assert ord[j] !in ord[..j];
    }
  }

  /** The inner loop: starting from the requirement `ord[i]`, collects every
      requirement not yet grouped that has the same thickness and sheet
      size. Since none with that key was grouped before and none comes
      earlier in `ord`, the group is the whole class of the key. */
  method CollectGroup(reqs: map<int, Requirement>, ord: seq<int>, i: nat, agrupados: set<int>)
    returns (g: Group, grouped: set<int>)
    requires IsDict(reqs, ord) && i < |ord| && ord[i] !in agrupados
    requires forall j :: 0 <= j < i ==> !HasKey(reqs, KeyOf(reqs[ord[i]]))(ord[j])
    requires forall id :: id in agrupados ==> !HasKey(reqs, KeyOf(reqs[ord[i]]))(id)
    ensures GroupKey(g) == KeyOf(reqs[ord[i]]) && ClassOf(reqs, ord, g)
    ensures forall id :: id in grouped <==> id in agrupados || HasKey(reqs, GroupKey(g))(id)
  {
    var x := ord[i];
    var r := reqs[x];
    var k := KeyOf(r);
    var ids := [x];
    var tools := ToolSetOf(r);
    grouped := agrupados + {x};
    CollectStart(reqs, ord, i, agrupados);
    var j := 0;
    while j < |ord|
      invariant CollectedAt(reqs, ord, i, k, agrupados, j, ids, tools, grouped)
    {
      ids, tools, grouped := CollectOne(reqs, ord, i, k, agrupados, j, ids, tools, grouped);
      j := j + 1;
    }
    g := Group(ids, r.thickness, r.sheetSize, tools);
    CollectDone(reqs, ord, i, k, agrupados, ids, tools, grouped);
  }

  /** The inner loop after position j: `ids` are the requirements with key
      `k` up to j (or just `ord[i]` while j has not passed i), `tools` their
      tool numbers, `grouped` the requirements grouped so far. */
  ghost predicate CollectedAt(reqs: map<int, Requirement>, ord: seq<int>, i: nat, k: Key, agrupados: set<int>,
                              j: nat, ids: seq<int>, tools: set<string>, grouped: set<int>)
    requires i < |ord|
  {
    && j <= |ord|
    && (j <= i ==> ids == [ord[i]])
    && (j > i ==> ids == Filter(ord[..j], HasKey(reqs, k)))
    && |ids| > 0 && ord[i] in ids
    && tools == ToolsOf(reqs, ids)
    && (forall id :: id in grouped <==> id in agrupados || id == ord[i] || id in ids)
  }

  /** The inner loop starts from the group of `ord[i]` alone. */
  lemma CollectStart(reqs: map<int, Requirement>, ord: seq<int>, i: nat, agrupados: set<int>)
    requires IsDict(reqs, ord) && i < |ord|
    ensures CollectedAt(reqs, ord, i, KeyOf(reqs[ord[i]]), agrupados, 0, [ord[i]], ToolSetOf(reqs[ord[i]]),
                        agrupados + {ord[i]})
  {
    assert ToolsOf(reqs, [ord[i]]) == ToolSetOf(reqs[ord[i]]) by {
      assert [ord[i]][..0] == [];
    }
  }

  /** One position of the inner loop: a requirement not yet grouped with
      the key joins the group. */
  method CollectOne(reqs: map<int, Requirement>, ord: seq<int>, i: nat, k: Key, agrupados: set<int>,
                    j: nat, ids: seq<int>, tools: set<string>, grouped: set<int>)
    returns (ids': seq<int>, tools': set<string>, grouped': set<int>)
    requires IsDict(reqs, ord) && i < |ord| && j < |ord| && k == KeyOf(reqs[ord[i]])
    requires forall j' :: 0 <= j' < i ==> !HasKey(reqs, k)(ord[j'])
    requires forall id :: id in agrupados ==> !HasKey(reqs, k)(id)
    requires CollectedAt(reqs, ord, i, k, agrupados, j, ids, tools, grouped)
    ensures CollectedAt(reqs, ord, i, k, agrupados, j + 1, ids', tools', grouped')
  {
    var other := ord[j];
    CollectStep(reqs, ord, i, j, k, agrupados, grouped, ids);
    ids', tools', grouped' := ids, tools, grouped;
    if other in grouped {
      CollectSkip(reqs, ord, i, k, agrupados, j, ids, tools, grouped);
    } else if KeyOf(reqs[other]) == k {
      ids' := ids + [other];
      tools' := tools + ToolSetOf(reqs[other]);
      grouped' := grouped + {other};
      CollectAdd(reqs, ord, i, k, agrupados, j, ids, tools, grouped);
    } else {
      CollectSkip(reqs, ord, i, k, agrupados, j, ids, tools, grouped);
    }
  }

  /** A requirement without the key, or already grouped, is passed over. */
  lemma CollectSkip(reqs: map<int, Requirement>, ord: seq<int>, i: nat, k: Key, agrupados: set<int>,
                    j: nat, ids: seq<int>, tools: set<string>, grouped: set<int>)
    requires IsDict(reqs, ord) && i < |ord| && j < |ord| && ord[j] in reqs && k == KeyOf(reqs[ord[i]])
    requires forall j' :: 0 <= j' < i ==> !HasKey(reqs, k)(ord[j'])
    requires CollectedAt(reqs, ord, i, k, agrupados, j, ids, tools, grouped)
    requires !(ord[j] !in grouped && KeyOf(reqs[ord[j]]) == k) && (j != i ==> !HasKey(reqs, k)(ord[j]))
    requires Filter(ord[..j + 1], HasKey(reqs, k))
          == Filter(ord[..j], HasKey(reqs, k)) + (if HasKey(reqs, k)(ord[j]) then [ord[j]] else [])
    ensures CollectedAt(reqs, ord, i, k, agrupados, j + 1, ids, tools, grouped)
  {
    if j == i {
      FilterNone(ord[..i], HasKey(reqs, k));
      assert HasKey(reqs, k)(ord[i]);
    }
  }

  /** A requirement with the key, not yet grouped, joins the group. */
  lemma CollectAdd(reqs: map<int, Requirement>, ord: seq<int>, i: nat, k: Key, agrupados: set<int>,
                   j: nat, ids: seq<int>, tools: set<string>, grouped: set<int>)
    requires i < |ord| && j < |ord| && ord[j] in reqs && j != i && HasKey(reqs, k)(ord[j])
    requires forall j' :: 0 <= j' < i ==> !HasKey(reqs, k)(ord[j'])
    requires CollectedAt(reqs, ord, i, k, agrupados, j, ids, tools, grouped)
    requires Filter(ord[..j + 1], HasKey(reqs, k))
          == Filter(ord[..j], HasKey(reqs, k)) + (if HasKey(reqs, k)(ord[j]) then [ord[j]] else [])
    ensures CollectedAt(reqs, ord, i, k, agrupados, j + 1, ids + [ord[j]], tools + ToolSetOf(reqs[ord[j]]),
                        grouped + {ord[j]})
  {
    assert j > i;
    assert (ids + [ord[j]])[..|ids|] == ids;
  }

  /** At the end of the inner loop the group is the class of its key. */
  lemma CollectDone(reqs: map<int, Requirement>, ord: seq<int>, i: nat, k: Key, agrupados: set<int>,
                    ids: seq<int>, tools: set<string>, grouped: set<int>)
    requires IsDict(reqs, ord) && i < |ord| && k == KeyOf(reqs[ord[i]])
    requires CollectedAt(reqs, ord, i, k, agrupados, |ord|, ids, tools, grouped)
    requires forall id :: id in agrupados ==> !HasKey(reqs, k)(id)
    ensures GroupKey(Group(ids, reqs[ord[i]].thickness, reqs[ord[i]].sheetSize, tools)) == k
    ensures ClassOf(reqs, ord, Group(ids, reqs[ord[i]].thickness, reqs[ord[i]].sheetSize, tools))
    ensures forall id :: id in grouped <==> id in agrupados || HasKey(reqs, k)(id)
  {
    assert ord[..|ord|] == ord;
    forall id ensures HasKey(reqs, k)(id) <==> id in ids {
      FilterMembership(ord, HasKey(reqs, k), id);
    }
  }

  /** The state of the outer loop after the first `i` requirements: the
      groups built so far are classes with distinct keys, `agrupados` holds
      exactly the requirements whose key has a group, and the first `i`
      requirements are among them. */
  ghost predicate GroupedSoFar(reqs: map<int, Requirement>, ord: seq<int>, i: nat, built: seq<Group>, agrupados: set<int>)
  {
    && i <= |ord|
    && (forall k :: 0 <= k < |built| ==> ClassOf(reqs, ord, built[k]))
    && (forall k1, k2 :: 0 <= k1 < k2 < |built| ==> GroupKey(built[k1]) != GroupKey(built[k2]))
    && (forall id :: id in agrupados <==> id in reqs && KeyOf(reqs[id]) in GroupKeys(built))
    && (forall j :: 0 <= j < i ==> ord[j] in agrupados)
  }

  /** One step of the outer loop: a requirement not yet grouped starts the
      group of its key. */
  method NextGroup(reqs: map<int, Requirement>, ord: seq<int>, i: nat, built: seq<Group>, agrupados: set<int>)
    returns (built': seq<Group>, agrupados': set<int>)
    requires IsDict(reqs, ord) && i < |ord| && GroupedSoFar(reqs, ord, i, built, agrupados)
    ensures GroupedSoFar(reqs, ord, i + 1, built', agrupados')
  {
    built', agrupados' := built, agrupados;
    var x := ord[i];
    if x !in agrupados {
      var key := KeyOf(reqs[x]);
      assert key !in GroupKeys(built);
      forall j | 0 <= j < i
        ensures !HasKey(reqs, key)(ord[j])
      {
        var y := ord[j];
        assert y in agrupados;
        assert KeyOf(reqs[y]) in GroupKeys(built);
      }
      var g, grouped := CollectGroup(reqs, ord, i, agrupados);
      assert GroupKeys(built + [g]) == GroupKeys(built) + {key};
      assert HasKey(reqs, GroupKey(g))(x);
      forall j | 0 <= j <= i
        ensures ord[j] in grouped
      {
        var y := ord[j];
        assert y in agrupados || y == x;
      }
      built' := built + [g];
      agrupados' := grouped;
    }
  }

  /** agrupar_parts_por_preferencias. Every group is the class of one
      (thickness, sheet size) key: exactly the requirements with that key,
      in dict order, with the union of their tool numbers. No group appears
      twice, every requirement's key has a group, and the groups are sorted
      by their number of tools, most first. */
  method GroupByPreferences(reqs: map<int, Requirement>, ord: seq<int>) returns (groups: seq<Group>)
    requires IsDict(reqs, ord)
    ensures forall k :: 0 <= k < |groups| ==> ClassOf(reqs, ord, groups[k])
    ensures NoDuplicates(groups)
    ensures forall id :: id in reqs ==> KeyOf(reqs[id]) in GroupKeys(groups)
    ensures SortedBy(groups, ByToolCount)
  {
    var built: seq<Group> := [];
    var agrupados: set<int> := {};
    var i := 0;
    while i < |ord|
      invariant GroupedSoFar(reqs, ord, i, built, agrupados)
    {
      built, agrupados := NextGroup(reqs, ord, i, built, agrupados);
      i := i + 1;
    }
    groups := SortBy(built, ByToolCount);
    SortedGroups(reqs, ord, built, groups);
  }

  /** Sorting the classes keeps them classes and keeps them distinct. */
  lemma SortedGroups(reqs: map<int, Requirement>, ord: seq<int>, built: seq<Group>, groups: seq<Group>)
    requires forall k :: 0 <= k < |built| ==> ClassOf(reqs, ord, built[k])
    requires forall k1, k2 :: 0 <= k1 < k2 < |built| ==> GroupKey(built[k1]) != GroupKey(built[k2])
    requires multiset(groups) == multiset(built)
    ensures forall k :: 0 <= k < |groups| ==> ClassOf(reqs, ord, groups[k])
    ensures NoDuplicates(groups)
    ensures GroupKeys(groups) == GroupKeys(built)
  {
    assert NoDuplicates(built) by {
      forall k1, k2 | 0 <= k1 < k2 < |built|
        ensures built[k1] != built[k2]
      {
        assert GroupKey(built[k1]) != GroupKey(built[k2]);
      }
    }
    NoDuplicatesSubMultiset(built, groups);
    PermutationMembers(built, groups);
    assert forall g :: g in built ==> ClassOf(reqs, ord, g);
  }

  /** Two groups with the same key are the same group. */
  lemma ClassesByKey(reqs: map<int, Requirement>, ord: seq<int>, g1: Group, g2: Group)
    requires ClassOf(reqs, ord, g1) && ClassOf(reqs, ord, g2) && GroupKey(g1) == GroupKey(g2)
    ensures g1 == g2
  {
  }

  /** The groups partition the requirements: a requirement belongs to a
      group iff it has the group's thickness and sheet size, every
      requirement belongs to some group, and to one only. */
  lemma GroupsPartition(reqs: map<int, Requirement>, ord: seq<int>, groups: seq<Group>)
    requires IsDict(reqs, ord)
    requires forall k :: 0 <= k < |groups| ==> ClassOf(reqs, ord, groups[k])
    requires NoDuplicates(groups)
    requires forall id :: id in reqs ==> KeyOf(reqs[id]) in GroupKeys(groups)
    ensures forall k, id :: 0 <= k < |groups| ==>
              (id in groups[k].partIds <==> id in reqs && KeyOf(reqs[id]) == GroupKey(groups[k]))
    ensures forall id :: id in reqs ==> exists k :: 0 <= k < |groups| && id in groups[k].partIds
    ensures forall k1, k2, id :: (0 <= k1 < |groups| && 0 <= k2 < |groups|
                                  && id in groups[k1].partIds && id in groups[k2].partIds) ==> k1 == k2
  {
    forall k, id | 0 <= k < |groups|
      ensures id in groups[k].partIds <==> id in reqs && KeyOf(reqs[id]) == GroupKey(groups[k])
    {
      FilterMembership(ord, HasKey(reqs, GroupKey(groups[k])), id);
    }
    forall id | id in reqs
      ensures exists k :: 0 <= k < |groups| && id in groups[k].partIds
    {
      var g :| g in groups && GroupKey(g) == KeyOf(reqs[id]);
      var k :| 0 <= k < |groups| && groups[k] == g;
      FilterMembership(ord, HasKey(reqs, GroupKey(g)), id);
    }
    forall k1, k2, id | 0 <= k1 < |groups| && 0 <= k2 < |groups|
        && id in groups[k1].partIds && id in groups[k2].partIds
      ensures k1 == k2
    {
      FilterMembership(ord, HasKey(reqs, GroupKey(groups[k1])), id);
      FilterMembership(ord, HasKey(reqs, GroupKey(groups[k2])), id);
      ClassesByKey(reqs, ord, groups[k1], groups[k2]);
    }
  }

  /** A group's tools are exactly the tool numbers some member lists. */
  lemma {:induction false} ToolsOfMembership(reqs: map<int, Requirement>, ids: seq<int>, t: string)
    requires forall id :: id in ids ==> id in reqs
    ensures t in ToolsOf(reqs, ids) <==> exists id :: id in ids && t in reqs[id].toolNumbers
    decreases |ids|
  {
    if |ids| > 0 {
      var n := |ids| - 1;
      ToolsOfMembership(reqs, ids[..n], t);
      assert ids == ids[..n] + [ids[n]];
    }
  }

  // ---------------------------------------------------------------------------
  // Hard rules (aplicar_reglas_duras)

  /** Rule 1: when both thickness bounds are positive the thickness lies
      between them; rule 2: when both table dimensions are positive the sheet
      fits on the table. */
  predicate Fits(m: Machine, r: Requirement)
  {
    && (m.thicknessMin > 0.0 && m.thicknessMax > 0.0 ==> m.thicknessMin <= r.thickness <= m.thicknessMax)
    && (m.mesaX > 0.0 && m.mesaY > 0.0 ==> r.sheetSize.x <= m.mesaX && r.sheetSize.y <= m.mesaY)
  }

  predicate Compatible(m: Machine, rs: seq<Requirement>)
  {
    forall r :: r in rs ==> Fits(m, r)
  }

  function CompatibleWith(rs: seq<Requirement>): Machine -> bool
  {
    m => Compatible(m, rs)
  }

  /** The scan over the requirements that stops at the first rule broken. */
  method CheckMachine(m: Machine, rs: seq<Requirement>) returns (ok: bool)
    ensures ok <==> forall j :: 0 <= j < |rs| ==> Fits(m, rs[j])
  {
    ok := true;
    var j := 0;
    while j < |rs|
      invariant 0 <= j <= |rs|
      invariant ok && forall j' :: 0 <= j' < j ==> Fits(m, rs[j'])
    {
      var r := rs[j];
      if m.thicknessMin > 0.0 && m.thicknessMax > 0.0 {
        if !(m.thicknessMin <= r.thickness <= m.thicknessMax) {
          ok := false;
          return;
        }
      }
      if m.mesaX > 0.0 && m.mesaY > 0.0 {
        if r.sheetSize.x > m.mesaX || r.sheetSize.y > m.mesaY {
          ok := false;
          return;
        }
      }
      j := j + 1;
    }
  }

  /** aplicar_reglas_duras: the machines that satisfy both rules for every
      requirement, in their input order. */
  method ApplyHardRules(machines: seq<Machine>, rs: seq<Requirement>) returns (compatibles: seq<Machine>)
    ensures compatibles == Filter(machines, CompatibleWith(rs))
  {
    compatibles := [];
    var i := 0;
    while i < |machines|
      invariant 0 <= i <= |machines|
      invariant compatibles == Filter(machines[..i], CompatibleWith(rs))
    {
      var m := machines[i];
      TakeSnoc(machines, i);
      FilterSnoc(machines[..i], m, CompatibleWith(rs));
      var ok := CheckMachine(m, rs);
      if ok {
        compatibles := compatibles + [m];
      }
      i := i + 1;
    }
    assert machines[..i] == machines;
  }

  /** A machine survives the hard rules iff it was offered and fits every
      requirement. */
  lemma HardRulesKeep(machines: seq<Machine>, rs: seq<Requirement>, m: Machine)
    ensures m in Filter(machines, CompatibleWith(rs)) <==> m in machines && forall r :: r in rs ==> Fits(m, r)
  {
    FilterMembership(machines, CompatibleWith(rs), m);
  }
}
