/** The standalone unified-layout calculator (calcular_estilo_unificado,
    backend/app/services/machine_template_service.py:41-146): it unifies the
    tools of a list of parsed setups by tool number and places them on the
    stations of one machine template, with no damaged stations and no
    overflow list. */
module TemplateLayout {
  import opened Common
  import opened Stations

  /** A parsed setup: its part number and its tools in order. */
  datatype Setup = Setup(partNumber: string, tools: seq<ToolEntry>)

  /** Every tool occurrence of the setups, setup by setup. */
  function SetupUses(setups: seq<Setup>): seq<ToolUse>
    decreases |setups|
  {
    if |setups| == 0 then []
    else
      var s := setups[|setups| - 1];
      SetupUses(setups[..|setups| - 1]) + UsesOf(s.tools, s.partNumber)
  }

  /** The unification loop (machine_template_service.py:63-94): later
      occurrences only bump the count and list their part once. */
  method UnifySetups(setups: seq<Setup>, tpl: Template) returns (d: map<string, Unified>, ord: seq<string>)
    ensures Unifies(d, ord, SetupUses(setups), tpl, false)
  {
    d, ord := map[], [];
    UnifiesEmpty(tpl, false);
    var i := 0;
    while i < |setups|
      invariant 0 <= i <= |setups|
      invariant Unifies(d, ord, SetupUses(setups[..i]), tpl, false)
    {
      assert setups[..i + 1][..i] == setups[..i];
      d, ord := UnifyTools(d, ord, SetupUses(setups[..i]), setups[i].tools, setups[i].partNumber, tpl, false);
      i := i + 1;
    }
    assert setups[..i] == setups;
  }

  /** The second placement pass (machine_template_service.py:118-144): every
      non-autoindex record, in order, takes the first free station of the
      template whose type and guide match, or "SIN_ASIGNAR". */
  method PlaceRest(ts: seq<Unified>, tpl: Template, taken0: set<string>)
    returns (rest: seq<Estilo>, ghost found: seq<int>, taken: set<string>)
    ensures PlacedSoFar(tpl, taken0, Filter(ts, NotAuto), found, taken, rest)
  {
    rest, found, taken := [], [], taken0;
    ghost var rs: seq<Unified> := [];
    assert ts[..0] == [];
    var i := 0;
    while i < |ts|
      invariant RestAt(ts, i, tpl, taken0, rs, found, taken, rest)
    {
      rs, found, taken, rest := PlaceRestOne(ts, i, tpl, taken0, rs, found, taken, rest);
      i := i + 1;
    }
    assert ts[..i] == ts;
  }

  /** The placement loop after the first `i` records. */
  ghost predicate RestAt(ts: seq<Unified>, i: nat, tpl: Template, taken0: set<string>,
                         rs: seq<Unified>, found: seq<int>, taken: set<string>, rest: seq<Estilo>)
  {
    i <= |ts| && rs == Filter(ts[..i], NotAuto) && PlacedSoFar(tpl, taken0, rs, found, taken, rest)
  }

  /** One record of the placement loop: an autoindex record is skipped, any
      other takes the first free matching station. */
  method PlaceRestOne(ts: seq<Unified>, i: nat, tpl: Template, taken0: set<string>,
                      ghost rs: seq<Unified>, ghost found: seq<int>, taken: set<string>, rest: seq<Estilo>)
    returns (ghost rs': seq<Unified>, ghost found': seq<int>, taken': set<string>, rest': seq<Estilo>)
    requires i < |ts| && RestAt(ts, i, tpl, taken0, rs, found, taken, rest)
    ensures RestAt(ts, i + 1, tpl, taken0, rs', found', taken', rest')
  {
    var t := ts[i];
    TakeSnoc(ts, i);
    FilterSnoc(ts[..i], t, NotAuto);
    rs', found', taken', rest' := rs, found, taken, rest;
    if !t.isAutoindex {
      var idx, claimed, e := PlaceNext(tpl, taken, t);
      PlacedSoFarSnoc(tpl, taken0, rs, found, taken, rest, t, idx);
      taken' := claimed;
      found' := found + [idx];
      rest' := rest + [e];
      rs' := rs + [t];
    }
  }

  /** calcular_estilo_unificado. The layout has exactly one entry per tool
      number used; each entry repeats the unified record of its tool number,
      whose fields come from the first occurrence; autoindex entries come
      first, each at its original station; the others take first-fit
      stations, never one taken before and never the same one twice. */
  method CalculateUnifiedStyle(setups: seq<Setup>, tpl: Template)
    returns (estilo: seq<Estilo>, ghost d: map<string, Unified>, ghost ord: seq<string>, ghost found: seq<int>)
    ensures Unifies(d, ord, SetupUses(setups), tpl, false) && IsDict(d, ord)
    ensures LaidOut(estilo, Filter(Values(d, ord), IsAuto), Filter(Values(d, ord), NotAuto), tpl, found)
    ensures NoDuplicates(Map(estilo, EntryToolNumber))
    ensures forall tn :: tn in Map(estilo, EntryToolNumber) <==> tn in Numbers(SetupUses(setups))
    ensures forall k :: 0 <= k < |estilo| ==> estilo[k].toolNumber in d && EntryAgrees(estilo[k], d[estilo[k].toolNumber])
    ensures forall k :: 0 <= k < |estilo| && estilo[k].esAutoindex ==> estilo[k].estacion == d[estilo[k].toolNumber].stationOrig
    ensures forall i, j :: 0 <= i < j < |estilo| && estilo[j].esAutoindex ==> estilo[i].esAutoindex
    ensures forall i, j :: (0 <= i < j < |estilo| && !estilo[i].esAutoindex && !estilo[j].esAutoindex
                            && estilo[i].estacion == estilo[j].estacion) ==> estilo[i].estacion == Unassigned
    ensures forall i, j :: (0 <= i < |estilo| && 0 <= j < |estilo| && estilo[i].esAutoindex && !estilo[j].esAutoindex
                            && estilo[j].estacion != Unassigned) ==> estilo[i].estacion != estilo[j].estacion
  {
    var dd, oo := UnifySetups(setups, tpl);
    d, ord := dd, oo;
    UnifiesIsDict(dd, oo, SetupUses(setups), tpl, false);
    var ts := seq(|oo|, i requires 0 <= i < |oo| => dd[oo[i]]);
    assert ts == Values(d, ord);
    var pinned, taken := PinAutoindex(ts);
    var rest, claimed;
    rest, found, claimed := PlaceRest(ts, tpl, taken);
    estilo := pinned + rest;
    ghost var auto, others := Filter(ts, IsAuto), Filter(ts, NotAuto);
    LaidOutConcat(pinned, auto, rest, others, tpl, found, claimed);
    LaidOutToolNumbers(d, ord, SetupUses(setups), tpl, false, estilo, tpl, found);
    LaidOutEntries(d, ord, SetupUses(setups), tpl, false, estilo, tpl, found);
    LaidOutAutoindexFirst(auto, others, estilo, tpl, found);
    LaidOutStationsDistinct(auto, others, estilo, tpl, found);
    LaidOutKeepsPinned(auto, others, estilo, tpl, found);
  }
}
