/** The distribution service's station layout (generar_estilo,
    backend/app/services/distribucion_service.py:492-575): the unified tools
    of one machine are laid out on its undamaged stations, autoindex tools
    first at their original stations, the others first-fit; a tool that got
    no station, or that would push the layout past the number of undamaged
    stations, goes to the overflow list instead. */
module ServiceLayout {
  import opened Common
  import opened Stations
  import opened Requirements

  function NotDamaged(damaged: seq<string>): ((string, StationConfig)) -> bool
  {
    (e: (string, StationConfig)) => e.0 !in damaged
  }

  /** The template without the damaged stations, in template order. */
  function Available(m: Machine): Template
  {
    Filter(m.template, NotDamaged(m.damaged))
  }

  /** How the k-th non-autoindex tool was routed: it stays in the layout iff
      a station was found for it and the running total of entries (the `a`
      pinned ones, the k placed before it, and itself) does not exceed the
      number of available stations. */
  ghost predicate Routed(avail: Template, a: nat, found: seq<int>, keep: seq<bool>)
  {
    |keep| == |found| && forall k :: 0 <= k < |found| ==> keep[k] == (Found(avail, found[k]) && a + k + 1 <= |avail|)
  }

  /** A tool whose station has an empty name goes to the overflow, as a
      falsy station name does in the source. */
  lemma EmptyNameOverflows(avail: Template, a: nat, found: seq<int>, keep: seq<bool>, k: nat)
    requires Routed(avail, a, found, keep) && k < |found|
    requires 0 <= found[k] < |avail| && avail[found[k]].0 == ""
    ensures !keep[k]
  {
  }

  /** The routing so far: the entries `rest` of the second pass were
      routed by `keep`, the layout holds the pinned entries and the kept
      ones, the overflow the others. */
  ghost predicate RoutedSoFar(avail: Template, pinned: seq<Estilo>, found: seq<int>, keep: seq<bool>,
                              rest: seq<Estilo>, estilo: seq<Estilo>, overflow: seq<Estilo>)
  {
    && |rest| == |found|
    && Routed(avail, |pinned|, found, keep)
    && estilo == pinned + Select(rest, keep, true)
    && overflow == Select(rest, keep, false)
    && |estilo| + |overflow| == |pinned| + |rest|
  }

  /** Routing one more entry. */
  lemma RoutedSnoc(avail: Template, pinned: seq<Estilo>, found: seq<int>, keep: seq<bool>,
                   rest: seq<Estilo>, estilo: seq<Estilo>, overflow: seq<Estilo>, idx: int, e: Estilo)
    requires RoutedSoFar(avail, pinned, found, keep, rest, estilo, overflow)
    ensures var stays := Found(avail, idx) && |estilo| + |overflow| + 1 <= |avail|;
            RoutedSoFar(avail, pinned, found + [idx], keep + [stays], rest + [e],
                        if stays then estilo + [e] else estilo, if stays then overflow else overflow + [e])
  {
    var stays := Found(avail, idx) && |estilo| + |overflow| + 1 <= |avail|;
    SelectSnoc(rest, keep, e, stays, true);
    SelectSnoc(rest, keep, e, stays, false);
  }

  /** The state of the second pass after the first `i` records. */
  ghost predicate SecondPassAt(ts: seq<Unified>, i: nat, avail: Template, taken0: set<string>, pinned: seq<Estilo>,
                               rs: seq<Unified>, found: seq<int>, taken: set<string>, rest: seq<Estilo>,
                               keep: seq<bool>, estilo: seq<Estilo>, overflow: seq<Estilo>)
  {
    && i <= |ts|
    && rs == Filter(ts[..i], NotAuto)
    && PlacedSoFar(avail, taken0, rs, found, taken, rest)
    && RoutedSoFar(avail, pinned, found, keep, rest, estilo, overflow)
  }

  /** One record of the second pass: an autoindex record is skipped; any
      other takes the first free matching station, and its entry goes to
      the layout or to the overflow. */
  method PlaceOne(ts: seq<Unified>, i: nat, avail: Template, taken0: set<string>, pinned: seq<Estilo>, ghost rs: seq<Unified>,
                  estilo: seq<Estilo>, overflow: seq<Estilo>, taken: set<string>,
                  ghost found: seq<int>, ghost rest: seq<Estilo>, ghost keep: seq<bool>)
    returns (ghost rs': seq<Unified>, estilo': seq<Estilo>, overflow': seq<Estilo>, taken': set<string>,
             ghost found': seq<int>, ghost rest': seq<Estilo>, ghost keep': seq<bool>)
    requires i < |ts| && SecondPassAt(ts, i, avail, taken0, pinned, rs, found, taken, rest, keep, estilo, overflow)
    ensures SecondPassAt(ts, i + 1, avail, taken0, pinned, rs', found', taken', rest', keep', estilo', overflow')
  {
    var t := ts[i];
    rs' := rs + (if NotAuto(t) then [t] else []);
    assert rs' == Filter(ts[..i + 1], NotAuto) by {
      TakeSnoc(ts, i);
      FilterSnoc(ts[..i], t, NotAuto);
    }
    estilo', overflow', taken', found', rest', keep' := estilo, overflow, taken, found, rest, keep;
    if !t.isAutoindex {
      var idx, claimed, e := PlaceNext(avail, taken, t);
      PlacedSoFarSnoc(avail, taken0, rs, found, taken, rest, t, idx);
      RoutedSnoc(avail, pinned, found, keep, rest, estilo, overflow, idx, e);
      var total := |estilo| + |overflow| + 1;
      var stays := Found(avail, idx) && total <= |avail|;
      if stays {
        estilo' := estilo + [e];
      } else {
        overflow' := overflow + [e];
      }
      taken', found', rest', keep' := claimed, found + [idx], rest + [e], keep + [stays];
    }
  }

  /** The second pass over all records. */
  method PlaceOrOverflow(ts: seq<Unified>, avail: Template, taken0: set<string>, pinned: seq<Estilo>)
    returns (estilo: seq<Estilo>, overflow: seq<Estilo>, taken: set<string>,
             ghost rest: seq<Estilo>, ghost found: seq<int>, ghost keep: seq<bool>)
    ensures PlacedSoFar(avail, taken0, Filter(ts, NotAuto), found, taken, rest)
    ensures RoutedSoFar(avail, pinned, found, keep, rest, estilo, overflow)
  {
    estilo, overflow := pinned, [];
    rest, found, keep := [], [], [];
    taken := taken0;
    ghost var rs: seq<Unified> := [];
    SecondPassStart(ts, avail, taken0, pinned);
    var i := 0;
    while i < |ts|
      invariant SecondPassAt(ts, i, avail, taken0, pinned, rs, found, taken, rest, keep, estilo, overflow)
    {
      rs, estilo, overflow, taken, found, rest, keep := PlaceOne(ts, i, avail, taken0, pinned, rs, estilo, overflow, taken, found, rest, keep);
      i := i + 1;
    }
    SecondPassEnd(ts, avail, taken0, pinned, rs, found, taken, rest, keep, estilo, overflow);
  }

  /** The second pass starts with the pinned entries and nothing placed. */
  lemma SecondPassStart(ts: seq<Unified>, avail: Template, taken0: set<string>, pinned: seq<Estilo>)
    ensures SecondPassAt(ts, 0, avail, taken0, pinned, [], [], taken0, [], [], pinned, [])
  {
    assert ts[..0] == [];
    assert pinned + [] == pinned;
  }

  /** After the last record the second pass has placed every non-autoindex one. */
  lemma SecondPassEnd(ts: seq<Unified>, avail: Template, taken0: set<string>, pinned: seq<Estilo>,
                      rs: seq<Unified>, found: seq<int>, taken: set<string>, rest: seq<Estilo>,
                      keep: seq<bool>, estilo: seq<Estilo>, overflow: seq<Estilo>)
    requires SecondPassAt(ts, |ts|, avail, taken0, pinned, rs, found, taken, rest, keep, estilo, overflow)
    ensures PlacedSoFar(avail, taken0, Filter(ts, NotAuto), found, taken, rest)
    ensures RoutedSoFar(avail, pinned, found, keep, rest, estilo, overflow)
  {
    assert ts[..|ts|] == ts;
  }

  /** A layout and an overflow as generar_estilo builds them from a
      machine's unified tools: some full layout `full`, laid out over the
      undamaged stations as `found` says and routed by `keep`, whose
      autoindex entries and kept entries form the layout and whose other
      entries form the overflow. */
  ghost predicate Styled(d: map<string, Unified>, ord: seq<string>, m: Machine, estilo: seq<Estilo>, overflow: seq<Estilo>)
  {
    && IsDict(d, ord)
    && var auto, rest := Filter(Values(d, ord), IsAuto), Filter(Values(d, ord), NotAuto);
       exists full: seq<Estilo>, found: seq<int>, keep: seq<bool> ::
         && LaidOut(full, auto, rest, Available(m), found)
         && Routed(Available(m), |auto|, found, keep)
         && estilo == full[..|auto|] + Select(full[|auto|..], keep, true)
         && overflow == Select(full[|auto|..], keep, false)
  }

  /** generar_estilo. `full` is the layout as if nothing overflowed (the
      autoindex entries at their original stations, then every other record
      at the station its first-fit scan over the undamaged stations picked);
      the result keeps the autoindex entries and the non-autoindex entries
      routed to the layout, and the overflow holds the rest, both in order. */
  method GenerateStyle(d: map<string, Unified>, ord: seq<string>, m: Machine)
    returns (estilo: seq<Estilo>, overflow: seq<Estilo>, ghost full: seq<Estilo>, ghost found: seq<int>, ghost keep: seq<bool>)
    requires IsDict(d, ord)
    ensures LaidOut(full, Filter(Values(d, ord), IsAuto), Filter(Values(d, ord), NotAuto), Available(m), found)
    ensures Routed(Available(m), |Filter(Values(d, ord), IsAuto)|, found, keep)
    ensures estilo == full[..|Filter(Values(d, ord), IsAuto)|] + Select(full[|Filter(Values(d, ord), IsAuto)|..], keep, true)
    ensures overflow == Select(full[|Filter(Values(d, ord), IsAuto)|..], keep, false)
  {
    var avail := Available(m);
    var ts := seq(|ord|, i requires 0 <= i < |ord| => d[ord[i]]);
    assert ts == Values(d, ord);
    var pinned, taken := PinAutoindex(ts);
    ghost var rest;
    var claimed;
    estilo, overflow, claimed, rest, found, keep := PlaceOrOverflow(ts, avail, taken, pinned);
    full := pinned + rest;
    LaidOutConcat(pinned, Filter(ts, IsAuto), rest, Filter(ts, NotAuto), avail, found, claimed);
    assert full[..|pinned|] == pinned && full[|pinned|..] == rest;
  }

  /** Every unified tool appears exactly once in the layout and overflow
      together: one entry per tool number used on the machine. */
  lemma StyleToolsOnce(d: map<string, Unified>, ord: seq<string>, uses: seq<ToolUse>, m: Machine,
                       estilo: seq<Estilo>, overflow: seq<Estilo>, full: seq<Estilo>, found: seq<int>, keep: seq<bool>)
    requires Unifies(d, ord, uses, m.template, true) && IsDict(d, ord)
    requires LaidOut(full, Filter(Values(d, ord), IsAuto), Filter(Values(d, ord), NotAuto), Available(m), found)
    requires Routed(Available(m), |Filter(Values(d, ord), IsAuto)|, found, keep)
    requires estilo == full[..|Filter(Values(d, ord), IsAuto)|] + Select(full[|Filter(Values(d, ord), IsAuto)|..], keep, true)
    requires overflow == Select(full[|Filter(Values(d, ord), IsAuto)|..], keep, false)
    ensures multiset(Map(estilo + overflow, EntryToolNumber)) == multiset(ord)
    ensures NoDuplicates(Map(estilo + overflow, EntryToolNumber))
    ensures forall tn :: tn in Map(estilo + overflow, EntryToolNumber) <==> tn in Numbers(uses)
  {
    var a := |Filter(Values(d, ord), IsAuto)|;
    LaidOutToolNumbers(d, ord, uses, m.template, true, full, Available(m), found);
    SplitKeepsAll(full, a, keep, EntryToolNumber);
    var all := Map(estilo + overflow, EntryToolNumber);
    NoDuplicatesSubMultiset(ord, all);
    PermutationMembers(ord, all);
    OrderIsDict(uses);
  }

  /** Keeping a head and splitting the tail in two loses and adds nothing. */
  lemma SplitKeepsAll<T, U>(s: seq<T>, a: nat, keep: seq<bool>, f: T -> U)
    requires a <= |s| && |keep| == |s| - a
    ensures multiset(Map(s[..a] + Select(s[a..], keep, true) + Select(s[a..], keep, false), f)) == multiset(Map(s, f))
  {
    var head, tail := s[..a], s[a..];
    var yes, no := Select(tail, keep, true), Select(tail, keep, false);
    assert s == head + tail;
    MapConcat(head, tail, f);
    SelectSplit(tail, keep, f);
    assert head + yes + no == head + (yes + no);
    MapConcat(head, yes + no, f);
    MapConcat(yes, no, f);
  }

  /** The layout never grows past the undamaged stations, except by the
      autoindex tools that are pinned regardless. */
  lemma StyleWithinStations(d: map<string, Unified>, ord: seq<string>, m: Machine,
                            estilo: seq<Estilo>, full: seq<Estilo>, found: seq<int>, keep: seq<bool>)
    requires IsDict(d, ord)
    requires LaidOut(full, Filter(Values(d, ord), IsAuto), Filter(Values(d, ord), NotAuto), Available(m), found)
    requires Routed(Available(m), |Filter(Values(d, ord), IsAuto)|, found, keep)
    requires estilo == full[..|Filter(Values(d, ord), IsAuto)|] + Select(full[|Filter(Values(d, ord), IsAuto)|..], keep, true)
    ensures |estilo| <= |Filter(Values(d, ord), IsAuto)| || |estilo| <= |Available(m)|
  {
    var a := |Filter(Values(d, ord), IsAuto)|;
    var n := if a <= |Available(m)| then |Available(m)| - a else 0;
    SelectBound(full[a..], keep, n);
  }
}
