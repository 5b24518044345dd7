/** Station templates and tool-number unification, shared by the
    distribution service (procesar_herramientas_part,
    backend/app/services/distribucion_service.py:436-489) and the standalone
    layout calculator (calcular_estilo_unificado,
    backend/app/services/machine_template_service.py:63-94). */
module Stations {
  import opened Common

  /** The configuration of one station: {tipo, tiene_guia, es_autoindex}. */
  datatype StationConfig = StationConfig(tipo: string, tieneGuia: bool, esAutoindex: bool)

  /** What `.get(station, {})` followed by `.get(key, default)` yields for a
      station the template does not list: tipo "A", no guide, not autoindex. */
  const DefaultConfig := StationConfig("A", false, false)

  /** A decoded `estaciones_config`: station names with their configuration,
      in the dict's insertion order (the order first-fit scans them in). */
  type Template = seq<(string, StationConfig)>

  /** The configuration of `station`, or the defaults when it is not listed. */
  function ConfigOf(tpl: Template, station: string): StationConfig
    decreases |tpl|
  {
    if |tpl| == 0 then DefaultConfig
    else if tpl[0].0 == station then tpl[0].1
    else ConfigOf(tpl[1..], station)
  }

  /** A station absent from the template gets tipo "A", no guide, not autoindex. */
  lemma {:induction false} ConfigOfAbsent(tpl: Template, station: string)
    requires forall i :: 0 <= i < |tpl| ==> tpl[i].0 != station
    ensures ConfigOf(tpl, station) == DefaultConfig
    decreases |tpl|
  {
    if |tpl| > 0 {
      assert tpl[0].0 != station;
      ConfigOfAbsent(tpl[1..], station);
    }
  }

  /** A listed station gets its own configuration. */
  lemma {:induction false} ConfigOfPresent(tpl: Template, station: string, i: nat)
    requires i < |tpl| && tpl[i].0 == station
    requires forall j :: 0 <= j < i ==> tpl[j].0 != station
    ensures ConfigOf(tpl, station) == tpl[i].1
    decreases i
  {
    if i > 0 {
      assert tpl[0].0 != station;
      ConfigOfPresent(tpl[1..], station, i - 1);
    }
  }

  // ---------------------------------------------------------------------------
  // Tool occurrences

  /** One tool of a part's setup: {station, tool_number, angle}; the angle may
      be missing. */
  datatype ToolEntry = ToolEntry(station: string, toolNumber: string, angle: Option<real>)

  /** One occurrence of a tool, with the part number it belongs to. */
  datatype ToolUse = ToolUse(tool: ToolEntry, partNumber: string)

  /** `tool_info.get("angle", 0.0)`. */
  function AngleOf(t: ToolEntry): real
  {
    if t.angle.Some? then t.angle.value else 0.0
  }

  /** The occurrences of a part's tools, all attributed to `partNumber`. */
  function UsesOf(tools: seq<ToolEntry>, partNumber: string): (r: seq<ToolUse>)
    ensures |r| == |tools|
    ensures forall i :: 0 <= i < |r| ==> r[i] == ToolUse(tools[i], partNumber)
  {
    seq(|tools|, i requires 0 <= i < |tools| => ToolUse(tools[i], partNumber))
  }

  /** The unified record of one tool number. `stationFinal` is only kept by
      the distribution service. */
  datatype Unified = Unified(
    toolNumber: string,
    angle: real,
    requiresGuide: bool,
    isAutoindex: bool,
    stationType: string,
    stationOrig: string,
    stationFinal: string,
    count: nat,
    parts: seq<string>)

  /** The record a first occurrence creates, from its station's configuration. */
  function Fresh(u: ToolUse, tpl: Template): Unified
  {
    var c := ConfigOf(tpl, u.tool.station);
    Unified(u.tool.toolNumber, AngleOf(u.tool), c.tieneGuia, c.esAutoindex, c.tipo,
            u.tool.station, u.tool.station, 1, [u.partNumber])
  }

  /** A later occurrence counts one more use and lists its part once. With
      `promote` (the distribution service) an occurrence at an autoindex
      station also marks the record autoindex and moves its final station
      there; without it (the layout calculator) nothing else changes. */
  function Bump(e: Unified, u: ToolUse, tpl: Template, promote: bool): Unified
  {
    var e1 := e.(count := e.count + 1, parts := if u.partNumber in e.parts then e.parts else e.parts + [u.partNumber]);
    if promote && ConfigOf(tpl, u.tool.station).esAutoindex then e1.(stationFinal := u.tool.station, isAutoindex := true)
    else e1
  }

  /** Folding one occurrence into the unified records (`d` with key order `ord`). */
  function MergeUse(d: map<string, Unified>, ord: seq<string>, u: ToolUse, tpl: Template, promote: bool)
    : (map<string, Unified>, seq<string>)
  {
    var tn := u.tool.toolNumber;
    if tn in d then (d[tn := Bump(d[tn], u, tpl, promote)], ord)
    else (d[tn := Fresh(u, tpl)], ord + [tn])
  }

  // ---------------------------------------------------------------------------
  // What the unified records say about the occurrences they were built from

  /** The tool numbers the occurrences name. */
  function Numbers(uses: seq<ToolUse>): set<string>
    decreases |uses|
  {
    if |uses| == 0 then {} else Numbers(uses[..|uses| - 1]) + {uses[|uses| - 1].tool.toolNumber}
  }

  /** The position of the first occurrence of `tn`. */
  function FirstIndex(uses: seq<ToolUse>, tn: string): (r: nat)
    requires tn in Numbers(uses)
    ensures r < |uses| && uses[r].tool.toolNumber == tn
    decreases |uses|
  {
    var n := |uses| - 1;
    if tn in Numbers(uses[..n]) then FirstIndex(uses[..n], tn) else n
  }

  /** No occurrence before FirstIndex names the tool number. */
  lemma {:induction false} FirstIndexIsFirst(uses: seq<ToolUse>, tn: string, j: nat)
    requires tn in Numbers(uses) && j < FirstIndex(uses, tn)
    ensures uses[j].tool.toolNumber != tn
    decreases |uses|
  {
    var n := |uses| - 1;
    if tn in Numbers(uses[..n]) {
      FirstIndexIsFirst(uses[..n], tn, j);
    } else {
      NumbersMember(uses[..n], j);
    }
  }

  /** Every occurrence's tool number is among the Numbers. */
  lemma {:induction false} NumbersMember(uses: seq<ToolUse>, j: nat)
    requires j < |uses|
    ensures uses[j].tool.toolNumber in Numbers(uses)
    decreases |uses|
  {
    var n := |uses| - 1;
    if j < n {
      NumbersMember(uses[..n], j);
    }
  }

  /** How many occurrences name `tn`. */
  function Count(uses: seq<ToolUse>, tn: string): nat
    decreases |uses|
  {
    if |uses| == 0 then 0
    else Count(uses[..|uses| - 1], tn) + (if uses[|uses| - 1].tool.toolNumber == tn then 1 else 0)
  }

  /** The part numbers of the occurrences that name `tn`. */
  function PartsWith(uses: seq<ToolUse>, tn: string): set<string>
    decreases |uses|
  {
    if |uses| == 0 then {}
    else
      var u := uses[|uses| - 1];
      PartsWith(uses[..|uses| - 1], tn) + (if u.tool.toolNumber == tn then {u.partNumber} else {})
  }

  /** The tool numbers in the order of their first occurrence. */
  function Order(uses: seq<ToolUse>): seq<string>
    decreases |uses|
  {
    if |uses| == 0 then []
    else
      var n := |uses| - 1;
      Order(uses[..n]) + (if uses[n].tool.toolNumber in Numbers(uses[..n]) then [] else [uses[n].tool.toolNumber])
  }

  /** Order lists every tool number used exactly once. */
  lemma {:induction false} OrderIsDict(uses: seq<ToolUse>)
    ensures NoDuplicates(Order(uses))
    ensures forall tn :: tn in Order(uses) <==> tn in Numbers(uses)
    decreases |uses|
  {
    if |uses| > 0 {
      var n := |uses| - 1;
      OrderIsDict(uses[..n]);
      var o := Order(uses[..n]);
      var tn := uses[n].tool.toolNumber;
      if tn !in Numbers(uses[..n]) {
        forall i, j | 0 <= i < j < |o| + 1
          ensures (o + [tn])[i] != (o + [tn])[j]
        {
          assert (o + [tn])[i] == o[i];
        }
      }
    }
  }

  /** Order lists the tool numbers by their first occurrence. */
  lemma {:induction false} OrderByFirstOccurrence(uses: seq<ToolUse>, i: nat, j: nat)
    requires i < j < |Order(uses)|
    ensures Order(uses)[i] in Numbers(uses) && Order(uses)[j] in Numbers(uses)
    ensures FirstIndex(uses, Order(uses)[i]) < FirstIndex(uses, Order(uses)[j])
    decreases |uses|
  {
    OrderIsDict(uses);
    var n := |uses| - 1;
    var o := Order(uses[..n]);
    OrderIsDict(uses[..n]);
    assert Order(uses)[i] == o[i];
    if j < |o| {
      assert Order(uses)[j] == o[j];
      OrderByFirstOccurrence(uses[..n], i, j);
    } else {
      assert Order(uses)[j] == uses[n].tool.toolNumber;
      assert FirstIndex(uses[..n], o[i]) < n;
    }
  }

  /** The station of the last occurrence of `tn` at an autoindex station. */
  function LastAutoindex(uses: seq<ToolUse>, tn: string, tpl: Template): Option<string>
    decreases |uses|
  {
    if |uses| == 0 then None
    else
      var u := uses[|uses| - 1];
      if u.tool.toolNumber == tn && ConfigOf(tpl, u.tool.station).esAutoindex then Some(u.tool.station)
      else LastAutoindex(uses[..|uses| - 1], tn, tpl)
  }

  /** The record `e` of tool number `tn` after the occurrences `uses`: the
      first occurrence fixes angle, guide, station type and original station;
      count is the number of occurrences; parts lists every part number of
      those occurrences once. Without `promote` the autoindex flag is the
      first occurrence's; with it, the flag is set by any occurrence at an
      autoindex station and the final station is the last such station. */
  ghost predicate Describes(e: Unified, uses: seq<ToolUse>, tn: string, tpl: Template, promote: bool)
    requires tn in Numbers(uses)
  {
    var f := uses[FirstIndex(uses, tn)].tool;
    var c := ConfigOf(tpl, f.station);
    var last := LastAutoindex(uses, tn, tpl);
    && e.toolNumber == tn
    && e.angle == AngleOf(f)
    && e.requiresGuide == c.tieneGuia
    && e.stationType == c.tipo
    && e.stationOrig == f.station
    && e.count == Count(uses, tn)
    && NoDuplicates(e.parts)
    && (forall p :: p in e.parts <==> p in PartsWith(uses, tn))
    && (if promote then
          e.isAutoindex == last.Some?
          && e.stationFinal == (if last.Some? then last.value else f.station)
        else
          e.isAutoindex == c.esAutoindex && e.stationFinal == f.station)
  }

  /** `d` (with key order `ord`) is the unification of `uses`: one record per
      tool number used, each describing its occurrences, keyed in the order
      of first occurrence (OrderIsDict, OrderByFirstOccurrence). */
  ghost predicate Unifies(d: map<string, Unified>, ord: seq<string>, uses: seq<ToolUse>, tpl: Template, promote: bool)
  {
    && ord == Order(uses)
    && (forall tn :: tn in d <==> tn in Numbers(uses))
    && (forall tn :: tn in d ==> Describes(d[tn], uses, tn, tpl, promote))
  }

  /** A unification is a dict: its key order lists each key once. */
  lemma UnifiesIsDict(d: map<string, Unified>, ord: seq<string>, uses: seq<ToolUse>, tpl: Template, promote: bool)
    requires Unifies(d, ord, uses, tpl, promote)
    ensures IsDict(d, ord)
  {
    OrderIsDict(uses);
  }

  /** How the occurrence summaries change when one occurrence is appended. */
  lemma Extend(uses: seq<ToolUse>, u: ToolUse, tn: string, tpl: Template)
    ensures Numbers(uses + [u]) == Numbers(uses) + {u.tool.toolNumber}
    ensures Count(uses + [u], tn) == Count(uses, tn) + (if u.tool.toolNumber == tn then 1 else 0)
    ensures PartsWith(uses + [u], tn) == PartsWith(uses, tn) + (if u.tool.toolNumber == tn then {u.partNumber} else {})
    ensures LastAutoindex(uses + [u], tn, tpl)
         == if u.tool.toolNumber == tn && ConfigOf(tpl, u.tool.station).esAutoindex then Some(u.tool.station)
            else LastAutoindex(uses, tn, tpl)
    ensures tn in Numbers(uses) ==> FirstIndex(uses + [u], tn) == FirstIndex(uses, tn)
    ensures tn !in Numbers(uses) && tn == u.tool.toolNumber ==> FirstIndex(uses + [u], tn) == |uses|
  {
    assert (uses + [u])[..|uses|] == uses;
  }

  /** A first occurrence is described by the record it creates. */
  lemma DescribesFresh(uses: seq<ToolUse>, u: ToolUse, tpl: Template, promote: bool)
    requires u.tool.toolNumber !in Numbers(uses)
    ensures u.tool.toolNumber in Numbers(uses + [u])
    ensures Describes(Fresh(u, tpl), uses + [u], u.tool.toolNumber, tpl, promote)
  {
    var tn := u.tool.toolNumber;
    Extend(uses, u, tn, tpl);
    assert Count(uses, tn) == 0 by {
      CountAbsent(uses, tn);
    }
    assert PartsWith(uses, tn) == {} by {
      PartsAbsent(uses, tn);
    }
    assert LastAutoindex(uses, tn, tpl) == None by {
      LastAutoindexAbsent(uses, tn, tpl);
    }
  }

  lemma {:induction false} CountAbsent(uses: seq<ToolUse>, tn: string)
    requires tn !in Numbers(uses)
    ensures Count(uses, tn) == 0
    decreases |uses|
  {
    if |uses| > 0 {
      var n := |uses| - 1;
      Extend(uses[..n], uses[n], tn, []);
      assert uses == uses[..n] + [uses[n]];
      CountAbsent(uses[..n], tn);
    }
  }

  lemma {:induction false} PartsAbsent(uses: seq<ToolUse>, tn: string)
    requires tn !in Numbers(uses)
    ensures PartsWith(uses, tn) == {}
    decreases |uses|
  {
    if |uses| > 0 {
      PartsAbsent(uses[..|uses| - 1], tn);
    }
  }

  lemma {:induction false} LastAutoindexAbsent(uses: seq<ToolUse>, tn: string, tpl: Template)
    requires tn !in Numbers(uses)
    ensures LastAutoindex(uses, tn, tpl) == None
    decreases |uses|
  {
    if |uses| > 0 {
      var n := |uses| - 1;
      Extend(uses[..n], uses[n], tn, tpl);
      assert uses == uses[..n] + [uses[n]];
      LastAutoindexAbsent(uses[..n], tn, tpl);
    }
  }

  /** A later occurrence is described by the bumped record. */
  lemma DescribesBump(e: Unified, uses: seq<ToolUse>, u: ToolUse, tpl: Template, promote: bool)
    requires u.tool.toolNumber in Numbers(uses)
    requires Describes(e, uses, u.tool.toolNumber, tpl, promote)
    ensures u.tool.toolNumber in Numbers(uses + [u])
    ensures Describes(Bump(e, u, tpl, promote), uses + [u], u.tool.toolNumber, tpl, promote)
  {
    var tn := u.tool.toolNumber;
    Extend(uses, u, tn, tpl);
    var b := Bump(e, u, tpl, promote);
    if u.partNumber !in e.parts {
      forall i, j | 0 <= i < j < |b.parts|
        ensures b.parts[i] != b.parts[j]
      {
        if j == |e.parts| {
          assert b.parts[i] == e.parts[i];
        }
      }
    }
    assert forall p :: p in b.parts <==> p in e.parts || p == u.partNumber;
  }

  /** An occurrence of another tool number leaves a record's description valid. */
  lemma DescribesOther(e: Unified, uses: seq<ToolUse>, u: ToolUse, tn: string, tpl: Template, promote: bool)
    requires tn != u.tool.toolNumber && tn in Numbers(uses)
    requires Describes(e, uses, tn, tpl, promote)
    ensures tn in Numbers(uses + [u])
    ensures Describes(e, uses + [u], tn, tpl, promote)
  {
    Extend(uses, u, tn, tpl);
  }

  /** The empty dict unifies no occurrences. */
  lemma UnifiesEmpty(tpl: Template, promote: bool)
    ensures Unifies(map[], [], [], tpl, promote)
  {
  }

  /** Folding one more occurrence keeps the unification. */
  lemma MergeUseKeeps(d: map<string, Unified>, ord: seq<string>, uses: seq<ToolUse>, u: ToolUse, tpl: Template, promote: bool)
    requires Unifies(d, ord, uses, tpl, promote)
    ensures Unifies(MergeUse(d, ord, u, tpl, promote).0, MergeUse(d, ord, u, tpl, promote).1, uses + [u], tpl, promote)
  {
    var w := uses + [u];
    var r := MergeUse(d, ord, u, tpl, promote);
    var un := u.tool.toolNumber;
    Extend(uses, u, un, tpl);
    assert w[..|uses|] == uses;
    forall tn | tn in r.0
      ensures Describes(r.0[tn], w, tn, tpl, promote)
    {
      if tn != un {
        DescribesOther(d[tn], uses, u, tn, tpl, promote);
      } else if un in d {
        DescribesBump(d[un], uses, u, tpl, promote);
      } else {
        DescribesFresh(uses, u, tpl, promote);
      }
    }
  }

  /** The inner tool loop of procesar_herramientas_part /
      calcular_estilo_unificado: folds one part's tools, in order, into the
      unified records. Whatever the records described before, they now also
      describe these occurrences. */
  method UnifyTools(d0: map<string, Unified>, ord0: seq<string>, ghost before: seq<ToolUse>,
                    tools: seq<ToolEntry>, partNumber: string, tpl: Template, promote: bool)
    returns (d: map<string, Unified>, ord: seq<string>)
    requires Unifies(d0, ord0, before, tpl, promote)
    ensures Unifies(d, ord, before + UsesOf(tools, partNumber), tpl, promote)
  {
    d, ord := d0, ord0;
    var uses := UsesOf(tools, partNumber);
    var i := 0;
    assert before + uses[..0] == before;
    while i < |tools|
      invariant 0 <= i <= |tools|
      invariant Unifies(d, ord, before + uses[..i], tpl, promote)
    {
      var u := ToolUse(tools[i], partNumber);
      MergeUseKeeps(d, ord, before + uses[..i], u, tpl, promote);
      PrefixSnoc(before, uses, i);
      var next := MergeUse(d, ord, u, tpl, promote);
      d, ord := next.0, next.1;
      i := i + 1;
    }
    assert uses[..i] == uses;
  }

  // ---------------------------------------------------------------------------
  // Station layout (generar_estilo / the second half of calcular_estilo_unificado)

  /** One station of a layout (EstiloEstacion). */
  datatype Estilo = Estilo(
    estacion: string,
    tipo: string,
    toolNumber: string,
    angulo: real,
    tieneGuia: bool,
    esAutoindex: bool,
    partsQueUsan: seq<string>)

  /** The station name given to a tool no station was found for. */
  const Unassigned: string := "SIN_ASIGNAR"

  /** The layout entry of a unified record placed at `station`. */
  function EntryOf(t: Unified, station: string, auto: bool): Estilo
  {
    Estilo(station, t.stationType, t.toolNumber, t.angle, t.requiresGuide, auto, t.parts)
  }

  /** `list(herramientas_unificadas.values())`: the records in key order. */
  function Values(d: map<string, Unified>, ord: seq<string>): (r: seq<Unified>)
    requires forall k :: k in ord ==> k in d
    ensures |r| == |ord| && forall i :: 0 <= i < |ord| ==> r[i] == d[ord[i]]
  {
    seq(|ord|, i requires 0 <= i < |ord| => d[ord[i]])
  }

  predicate IsAuto(t: Unified)
  {
    t.isAutoindex
  }

  predicate NotAuto(t: Unified)
  {
    !t.isAutoindex
  }

  /** The original stations of a list of records. */
  function Origins(ts: seq<Unified>): set<string>
  {
    set t | t in ts :: t.stationOrig
  }

  /** The autoindex pass: every autoindex record, in order, becomes an entry
      at its original station, and that station is taken. */
  method PinAutoindex(ts: seq<Unified>) returns (estilo: seq<Estilo>, taken: set<string>)
    ensures |estilo| == |Filter(ts, IsAuto)|
    ensures forall k :: 0 <= k < |estilo| ==>
              estilo[k] == EntryOf(Filter(ts, IsAuto)[k], Filter(ts, IsAuto)[k].stationOrig, true)
    ensures taken == Origins(Filter(ts, IsAuto))
  {
    estilo, taken := [], {};
    var i := 0;
    while i < |ts|
      invariant 0 <= i <= |ts|
      invariant |estilo| == |Filter(ts[..i], IsAuto)|
      invariant forall k :: 0 <= k < |estilo| ==>
                  estilo[k] == EntryOf(Filter(ts[..i], IsAuto)[k], Filter(ts[..i], IsAuto)[k].stationOrig, true)
      invariant taken == Origins(Filter(ts[..i], IsAuto))
    {
      var t := ts[i];
      TakeSnoc(ts, i);
      FilterSnoc(ts[..i], t, IsAuto);
      if t.isAutoindex {
        taken := taken + {t.stationOrig};
        estilo := estilo + [EntryOf(t, t.stationOrig, true)];
      }
      i := i + 1;
    }
    assert ts[..i] == ts;
  }

  /** A station configuration suits a record: same type and same guide. */
  predicate Matches(c: StationConfig, t: Unified)
  {
    c.tipo == t.stationType && c.tieneGuia == t.requiresGuide
  }

  /** Position `idx` is what the first-fit scan picks for `t` when `taken`
      is occupied: the first station, in template order, that is free and
      matches, or -1 when there is none. */
  ghost predicate FirstFree(stations: Template, taken: set<string>, t: Unified, idx: int)
  {
    && -1 <= idx < |stations|
    && (idx >= 0 ==> stations[idx].0 !in taken && Matches(stations[idx].1, t))
    && (forall j :: 0 <= j < |stations| && (idx < 0 || j < idx) ==> stations[j].0 in taken || !Matches(stations[j].1, t))
  }

  /** The scan for a free matching station. */
  method FindStation(stations: Template, taken: set<string>, t: Unified) returns (idx: int)
    ensures FirstFree(stations, taken, t, idx)
  {
    var j := 0;
    while j < |stations|
      invariant 0 <= j <= |stations|
      invariant forall j' :: 0 <= j' < j ==> stations[j'].0 in taken || !Matches(stations[j'].1, t)
    {
      if stations[j].0 !in taken && Matches(stations[j].1, t) {
        return j;
      }
      j := j + 1;
    }
    return -1;
  }

  /** A station was found, and its name is non-empty (Python truthiness). */
  predicate Found(stations: Template, idx: int)
  {
    0 <= idx < |stations| && stations[idx].0 != ""
  }

  /** The name of the station found, or Unassigned when none was found;
      a station with an empty name counts as none. */
  function Label(stations: Template, idx: int): string
  {
    if Found(stations, idx) then stations[idx].0 else Unassigned
  }

  /** A station whose name is empty is labelled Unassigned, as a falsy name
      is in the source. */
  lemma EmptyNameUnassigned(stations: Template, idx: int)
    requires 0 <= idx < |stations| && stations[idx].0 == ""
    ensures !Found(stations, idx) && Label(stations, idx) == Unassigned
  {
  }

  /** The occupied stations after the scans that picked `found`. */
  function TakenBy(taken0: set<string>, stations: Template, found: seq<int>): set<string>
    decreases |found|
  {
    if |found| == 0 then taken0
    else
      var idx := found[|found| - 1];
      TakenBy(taken0, stations, found[..|found| - 1]) + (if 0 <= idx < |stations| then {stations[idx].0} else {})
  }

  /** Each record of `rs` got what the first-fit scan picks given the stations
      the records before it took. */
  ghost predicate Placement(stations: Template, taken0: set<string>, rs: seq<Unified>, found: seq<int>)
  {
    |found| == |rs| && forall k :: 0 <= k < |rs| ==> FirstFree(stations, TakenBy(taken0, stations, found[..k]), rs[k], found[k])
  }

  /** One more first-fit scan extends a placement. */
  lemma PlacementSnoc(stations: Template, taken0: set<string>, rs: seq<Unified>, found: seq<int>, t: Unified, idx: int)
    requires Placement(stations, taken0, rs, found)
    requires FirstFree(stations, TakenBy(taken0, stations, found), t, idx)
    ensures Placement(stations, taken0, rs + [t], found + [idx])
    ensures TakenBy(taken0, stations, found + [idx])
         == TakenBy(taken0, stations, found) + (if idx >= 0 then {stations[idx].0} else {})
  {
    var f := found + [idx];
    assert f[..|found|] == found;
    forall k | 0 <= k < |rs| + 1
      ensures FirstFree(stations, TakenBy(taken0, stations, f[..k]), (rs + [t])[k], f[k])
    {
      if k < |rs| {
        assert f[..k] == found[..k];
      }
    }
  }

  /** The stations taken by earlier scans stay taken. */
  lemma {:induction false} TakenByGrows(taken0: set<string>, stations: Template, found: seq<int>, k: nat, n: nat)
    requires k < n <= |found| && 0 <= found[k] < |stations|
    ensures taken0 <= TakenBy(taken0, stations, found[..n])
    ensures stations[found[k]].0 in TakenBy(taken0, stations, found[..n])
    decreases n
  {
    var m := n - 1;
    assert found[..n][..m] == found[..m];
    if k < m {
      TakenByGrows(taken0, stations, found, k, m);
    } else {
      TakenByBase(taken0, stations, found[..m]);
    }
  }

  lemma {:induction false} TakenByBase(taken0: set<string>, stations: Template, found: seq<int>)
    ensures taken0 <= TakenBy(taken0, stations, found)
    decreases |found|
  {
    if |found| > 0 {
      TakenByBase(taken0, stations, found[..|found| - 1]);
    }
  }

  /** No station is picked twice, and none that was taken beforehand (by the
      autoindex pass). */
  lemma PlacementDistinct(stations: Template, taken0: set<string>, rs: seq<Unified>, found: seq<int>, k1: nat, k2: nat)
    requires Placement(stations, taken0, rs, found)
    requires k1 < k2 < |found| && found[k1] >= 0 && found[k2] >= 0
    ensures stations[found[k1]].0 != stations[found[k2]].0
    ensures stations[found[k2]].0 !in taken0
  {
    assert FirstFree(stations, TakenBy(taken0, stations, found[..k2]), rs[k2], found[k2]);
    TakenByGrows(taken0, stations, found, k1, k2);
  }

  /** The labels of a placement: two records share a station name only when
      both are "SIN_ASIGNAR", and a real station name is never one taken
      beforehand. */
  lemma LabelsDistinct(stations: Template, taken0: set<string>, rs: seq<Unified>, found: seq<int>)
    requires Placement(stations, taken0, rs, found)
    ensures forall k1, k2 :: 0 <= k1 < k2 < |found| && Label(stations, found[k1]) == Label(stations, found[k2])
              ==> Label(stations, found[k1]) == Unassigned
    ensures forall k :: 0 <= k < |found| && Label(stations, found[k]) != Unassigned ==> Label(stations, found[k]) !in taken0
  {
    forall k1, k2 | 0 <= k1 < k2 < |found| && Label(stations, found[k1]) == Label(stations, found[k2])
      ensures Label(stations, found[k1]) == Unassigned
    {
      if Found(stations, found[k1]) && Found(stations, found[k2]) {
        PlacementDistinct(stations, taken0, rs, found, k1, k2);
      }
    }
    forall k | 0 <= k < |found| && Label(stations, found[k]) != Unassigned
      ensures Label(stations, found[k]) !in taken0
    {
      assert FirstFree(stations, TakenBy(taken0, stations, found[..k]), rs[k], found[k]);
      TakenByBase(taken0, stations, found[..k]);
    }
  }

  /** The state of the second placement pass after the records `rs`: their
      placement, the stations taken so far and their entries in order. */
  ghost predicate PlacedSoFar(stations: Template, taken0: set<string>, rs: seq<Unified>, found: seq<int>,
                              taken: set<string>, entries: seq<Estilo>)
  {
    && |entries| == |found|
    && Placement(stations, taken0, rs, found)
    && taken == TakenBy(taken0, stations, found)
    && forall k :: 0 <= k < |entries| ==> entries[k] == EntryOf(rs[k], Label(stations, found[k]), false)
  }

  /** One more record placed by the first-fit scan. */
  lemma PlacedSoFarSnoc(stations: Template, taken0: set<string>, rs: seq<Unified>, found: seq<int>,
                        taken: set<string>, entries: seq<Estilo>, t: Unified, idx: int)
    requires PlacedSoFar(stations, taken0, rs, found, taken, entries)
    requires FirstFree(stations, taken, t, idx)
    ensures PlacedSoFar(stations, taken0, rs + [t], found + [idx],
                        taken + (if idx >= 0 then {stations[idx].0} else {}),
                        entries + [EntryOf(t, Label(stations, idx), false)])
  {
    PlacementSnoc(stations, taken0, rs, found, t, idx);
  }

  /** The two passes together form a layout. */
  lemma LaidOutConcat(pinned: seq<Estilo>, auto: seq<Unified>, rest: seq<Estilo>, others: seq<Unified>,
                      stations: Template, found: seq<int>, taken: set<string>)
    requires |pinned| == |auto|
    requires forall k :: 0 <= k < |pinned| ==> pinned[k] == EntryOf(auto[k], auto[k].stationOrig, true)
    requires PlacedSoFar(stations, Origins(auto), others, found, taken, rest)
    ensures LaidOut(pinned + rest, auto, others, stations, found)
  {
  }

  /** One step of the second placement pass: the first-fit scan for `t`, the
      station it claims, and the entry it produces. */
  method PlaceNext(stations: Template, taken: set<string>, t: Unified) returns (idx: int, claimed: set<string>, e: Estilo)
    ensures FirstFree(stations, taken, t, idx)
    ensures claimed == taken + (if idx >= 0 then {stations[idx].0} else {})
    ensures e == EntryOf(t, Label(stations, idx), false)
  {
    idx := FindStation(stations, taken, t);
    claimed := taken;
    if idx >= 0 {
      claimed := claimed + {stations[idx].0};
    }
    e := EntryOf(t, Label(stations, idx), false);
  }

  // ---------------------------------------------------------------------------
  // What a finished layout guarantees

  function ToolNumberOf(t: Unified): string
  {
    t.toolNumber
  }

  function EntryToolNumber(e: Estilo): string
  {
    e.toolNumber
  }

  /** `es` is the output of the two placement passes over records split into
      `auto` (the autoindex ones) and `rest`: first every autoindex record at
      its original station, then every other record, in order, at the
      station its first-fit scan picked (`found`). */
  ghost predicate LaidOut(es: seq<Estilo>, auto: seq<Unified>, rest: seq<Unified>, stations: Template, found: seq<int>)
  {
    && |es| == |auto| + |rest|
    && |found| == |rest|
    && (forall k :: 0 <= k < |auto| ==> es[k] == EntryOf(auto[k], auto[k].stationOrig, true))
    && (forall k :: |auto| <= k < |es| ==> es[k] == EntryOf(rest[k - |auto|], Label(stations, found[k - |auto|]), false))
    && Placement(stations, Origins(auto), rest, found)
  }

  /** The entry repeats the unified record's fields. */
  ghost predicate EntryAgrees(e: Estilo, t: Unified)
  {
    e.toolNumber == t.toolNumber && e.tipo == t.stationType && e.angulo == t.angle
    && e.tieneGuia == t.requiresGuide && e.esAutoindex == t.isAutoindex && e.partsQueUsan == t.parts
  }

  /** The records in key order carry their own keys as tool numbers. */
  lemma ValuesToolNumbers(d: map<string, Unified>, ord: seq<string>, uses: seq<ToolUse>, tpl: Template, promote: bool)
    requires Unifies(d, ord, uses, tpl, promote) && IsDict(d, ord)
    ensures Map(Values(d, ord), ToolNumberOf) == ord
  {
  }

  /** A layout of the unified records has exactly one entry per tool number used. */
  lemma LaidOutToolNumbers(d: map<string, Unified>, ord: seq<string>, uses: seq<ToolUse>, tpl: Template, promote: bool,
                           es: seq<Estilo>, stations: Template, found: seq<int>)
    requires Unifies(d, ord, uses, tpl, promote) && IsDict(d, ord)
    requires LaidOut(es, Filter(Values(d, ord), IsAuto), Filter(Values(d, ord), NotAuto), stations, found)
    ensures multiset(Map(es, EntryToolNumber)) == multiset(ord)
    ensures NoDuplicates(Map(es, EntryToolNumber))
    ensures forall tn :: tn in Map(es, EntryToolNumber) <==> tn in Numbers(uses)
  {
    var ts := Values(d, ord);
    var auto := Filter(ts, IsAuto);
    var rest := Filter(ts, NotAuto);
    var m := Map(es, EntryToolNumber);
    assert m == Map(auto, ToolNumberOf) + Map(rest, ToolNumberOf) by {
      forall k | |auto| <= k < |es|
        ensures m[k] == rest[k - |auto|].toolNumber
      {
      }
    }
    FilterSplit(ts, IsAuto, NotAuto, ToolNumberOf);
    ValuesToolNumbers(d, ord, uses, tpl, promote);
    NoDuplicatesSubMultiset(ord, m);
    PermutationMembers(ord, m);
    OrderIsDict(uses);
  }

  /** Autoindex entries come first. */
  lemma LaidOutAutoindexFirst(auto: seq<Unified>, rest: seq<Unified>, es: seq<Estilo>, stations: Template, found: seq<int>)
    requires LaidOut(es, auto, rest, stations, found)
    ensures forall i, j :: 0 <= i < j < |es| && es[j].esAutoindex ==> es[i].esAutoindex
  {
    assert forall k :: 0 <= k < |auto| ==> es[k].esAutoindex;
    assert forall k :: |auto| <= k < |es| ==> !es[k].esAutoindex;
  }

  /** Every entry of a layout of the unified records repeats the record of
      its tool number, and an autoindex entry sits at that record's original
      station. */
  lemma LaidOutEntries(d: map<string, Unified>, ord: seq<string>, uses: seq<ToolUse>, tpl: Template, promote: bool,
                       es: seq<Estilo>, stations: Template, found: seq<int>)
    requires Unifies(d, ord, uses, tpl, promote) && IsDict(d, ord)
    requires LaidOut(es, Filter(Values(d, ord), IsAuto), Filter(Values(d, ord), NotAuto), stations, found)
    ensures forall k :: 0 <= k < |es| ==> es[k].toolNumber in d && EntryAgrees(es[k], d[es[k].toolNumber])
    ensures forall k :: 0 <= k < |es| && es[k].esAutoindex ==> es[k].estacion == d[es[k].toolNumber].stationOrig
  {
    var ts := Values(d, ord);
    var auto := Filter(ts, IsAuto);
    var rest := Filter(ts, NotAuto);
    var a := |auto|;
    assert forall t :: t in ts ==> t.toolNumber in d && d[t.toolNumber] == t;
    forall k | 0 <= k < |es|
      ensures es[k].toolNumber in d && EntryAgrees(es[k], d[es[k].toolNumber])
      ensures es[k].esAutoindex ==> es[k].estacion == d[es[k].toolNumber].stationOrig
    {
      if k < a {
        assert auto[k] in auto;
        FilterMembership(ts, IsAuto, auto[k]);
        assert EntryAgrees(es[k], auto[k]);
      } else {
        var t := rest[k - a];
        assert t in rest;
        FilterMembership(ts, NotAuto, t);
        assert EntryAgrees(es[k], t);
      }
    }
  }

  /** No two non-autoindex entries share a station, unless both are
      "SIN_ASIGNAR". */
  lemma LaidOutStationsDistinct(auto: seq<Unified>, rest: seq<Unified>, es: seq<Estilo>, stations: Template, found: seq<int>)
    requires LaidOut(es, auto, rest, stations, found)
    ensures forall i, j :: 0 <= i < j < |es| && !es[i].esAutoindex && !es[j].esAutoindex && es[i].estacion == es[j].estacion
              ==> es[i].estacion == Unassigned
  {
    var a := |auto|;
    LabelsDistinct(stations, Origins(auto), rest, found);
    assert forall k :: 0 <= k < a ==> es[k].esAutoindex;
    forall i, j | 0 <= i < j < |es| && !es[i].esAutoindex && !es[j].esAutoindex && es[i].estacion == es[j].estacion
      ensures es[i].estacion == Unassigned
    {
      var i', j' := i - a, j - a;
      assert es[i].estacion == Label(stations, found[i']);
      assert es[j].estacion == Label(stations, found[j']);
      assert Label(stations, found[i']) == Label(stations, found[j']);
    }
  }

  /** No non-autoindex entry sits at a station an autoindex entry holds. */
  lemma LaidOutKeepsPinned(auto: seq<Unified>, rest: seq<Unified>, es: seq<Estilo>, stations: Template, found: seq<int>)
    requires LaidOut(es, auto, rest, stations, found)
    ensures forall i, j :: 0 <= i < |es| && 0 <= j < |es| && es[i].esAutoindex && !es[j].esAutoindex && es[j].estacion != Unassigned
              ==> es[i].estacion != es[j].estacion
  {
    var a := |auto|;
    LabelsDistinct(stations, Origins(auto), rest, found);
    assert forall k :: 0 <= k < a ==> es[k].esAutoindex;
    assert forall k :: a <= k < |es| ==> !es[k].esAutoindex;
    forall i, j | 0 <= i < |es| && 0 <= j < |es| && es[i].esAutoindex && !es[j].esAutoindex && es[j].estacion != Unassigned
      ensures es[i].estacion != es[j].estacion
    {
      assert auto[i] in auto;
      assert es[i].estacion in Origins(auto);
      var j' := j - a;
      assert es[j].estacion == Label(stations, found[j']);
    }
  }
}
