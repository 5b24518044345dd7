/** The part records handled by the grouping/assignment engine
    (backend/app/utils/algoritmo_asignacion.py): their tool sets, the hours
    they need and the split portions the engine creates. */
module Parts {
  import opened Common

  /** One tool entry of a part: {tool_number, angle}. */
  datatype ToolRef = ToolRef(toolNumber: string, angle: real)

  /** A part dictionary. `isDivision` and `originalQuantity` are the
      `_es_division` / `_cantidad_original` keys that split portions carry. */
  datatype Part = Part(
    partId: int,
    partNumber: string,
    quantity: nat,
    uph: real,
    thickness: real,
    sheetSize: SheetSize,
    tools: seq<ToolRef>,
    isDivision: bool,
    originalQuantity: Option<nat>)

  // ---------------------------------------------------------------------------
  // Tool numbers (contar_herramientas_unicas)

  function ToolNumbersOf(tools: seq<ToolRef>): set<string>
  {
    set t | t in tools :: t.toolNumber
  }

  /** The distinct tool numbers of one part. */
  function ToolNumbers(p: Part): set<string>
  {
    ToolNumbersOf(p.tools)
  }

  /** The union of the tool numbers of a list of parts. */
  function ToolSet(ps: seq<Part>): set<string>
  {
    if |ps| == 0 then {} else ToolSet(ps[..|ps| - 1]) + ToolNumbers(ps[|ps| - 1])
  }

  /** contar_herramientas_unicas: the number of distinct tool numbers. */
  function UniqueToolCount(ps: seq<Part>): nat
  {
    |ToolSet(ps)|
  }

  /** The number of tool entries over all parts, repeated numbers included. */
  function ToolEntries(ps: seq<Part>): nat
  {
    if |ps| == 0 then 0 else ToolEntries(ps[..|ps| - 1]) + |ps[|ps| - 1].tools|
  }

  /** A tool number is counted iff some part of the list uses it. */
  lemma {:induction false} ToolSetMembership(ps: seq<Part>, n: string)
    ensures n in ToolSet(ps) <==> exists i :: 0 <= i < |ps| && n in ToolNumbers(ps[i])
    decreases |ps|
  {
    if |ps| > 0 {
      var m := |ps| - 1;
      ToolSetMembership(ps[..m], n);
      if n in ToolSet(ps[..m]) {
        var i :| 0 <= i < m && n in ToolNumbers(ps[..m][i]);
        assert ps[i] == ps[..m][i];
      }
      if exists i :: 0 <= i < |ps| && n in ToolNumbers(ps[i]) {
        var i :| 0 <= i < |ps| && n in ToolNumbers(ps[i]);
        if i < m {
          assert ps[..m][i] == ps[i];
        }
      }
    }
  }

  lemma {:induction false} ToolSetConcat(a: seq<Part>, b: seq<Part>)
    ensures ToolSet(a + b) == ToolSet(a) + ToolSet(b)
    decreases |b|
  {
    if |b| == 0 {
      assert a + b == a;
    } else {
      var n := |b| - 1;
      assert (a + b)[..|a| + n] == a + b[..n];
      ToolSetConcat(a, b[..n]);
    }
  }

  /** Adding parts never lowers the distinct tool count. */
  lemma UniqueToolCountMonotone(ps: seq<Part>, more: seq<Part>)
    ensures ToolSet(ps) <= ToolSet(ps + more)
    ensures UniqueToolCount(ps) <= UniqueToolCount(ps + more)
  {
    ToolSetConcat(ps, more);
    var u := ToolSet(ps + more);
    assert ToolSet(ps) * u == ToolSet(ps);
    assert |u - ToolSet(ps)| + |ToolSet(ps) * u| == |u|;
  }

  /** A list whose members all belong to another list uses no tool the other
      does not, so it has no more distinct tools. */
  lemma UniqueToolCountSubset(sub: seq<Part>, ps: seq<Part>)
    requires forall p :: p in sub ==> p in ps
    ensures ToolSet(sub) <= ToolSet(ps)
    ensures UniqueToolCount(sub) <= UniqueToolCount(ps)
  {
    forall n | n in ToolSet(sub)
      ensures n in ToolSet(ps)
    {
      ToolSetMembership(sub, n);
      var i :| 0 <= i < |sub| && n in ToolNumbers(sub[i]);
      assert sub[i] in ps;
      var j :| 0 <= j < |ps| && ps[j] == sub[i];
      ToolSetMembership(ps, n);
    }
    var u := ToolSet(ps);
    assert ToolSet(sub) * u == ToolSet(sub);
    assert |u - ToolSet(sub)| + |ToolSet(sub) * u| == |u|;
  }

  lemma {:induction false} ToolNumbersOfBound(tools: seq<ToolRef>)
    ensures |ToolNumbersOf(tools)| <= |tools|
    decreases |tools|
  {
    if |tools| > 0 {
      var n := |tools| - 1;
      ToolNumbersOfBound(tools[..n]);
      assert tools == tools[..n] + [tools[n]];
      assert ToolNumbersOf(tools) == ToolNumbersOf(tools[..n]) + {tools[n].toolNumber};
    }
  }

  /** The distinct tool count never exceeds the number of tool entries. */
  lemma {:induction false} UniqueToolCountBound(ps: seq<Part>)
    ensures UniqueToolCount(ps) <= ToolEntries(ps)
    decreases |ps|
  {
    if |ps| > 0 {
      var n := |ps| - 1;
      UniqueToolCountBound(ps[..n]);
      ToolNumbersOfBound(ps[n].tools);
      var a, b := ToolSet(ps[..n]), ToolNumbers(ps[n]);
      assert |a + b| + |a * b| == |a| + |b|;
    }
  }

  // ---------------------------------------------------------------------------
  // Hours (calcular_horas_parte / calcular_horas_grupo)

  /** Hours to produce a part: quantity / uph, or 0 when uph is not positive. */
  function HoursPart(p: Part): (r: real)
    ensures r >= 0.0
    ensures p.uph > 0.0 ==> r * p.uph == p.quantity as real
    ensures p.uph <= 0.0 ==> r == 0.0
  {
    if p.uph > 0.0 then p.quantity as real / p.uph else 0.0
  }

  /** Hours of a list of parts: the sum of their hours. */
  function HoursGroup(ps: seq<Part>): (r: real)
    ensures r >= 0.0
  {
    SumOfNonNegative(ps, HoursPart);
    SumOf(ps, HoursPart)
  }

  lemma HoursGroupConcat(a: seq<Part>, b: seq<Part>)
    ensures HoursGroup(a + b) == HoursGroup(a) + HoursGroup(b)
  {
    SumOfConcat(a, b, HoursPart);
  }

  lemma HoursGroupPermutation(a: seq<Part>, b: seq<Part>)
    requires multiset(a) == multiset(b)
    ensures HoursGroup(a) == HoursGroup(b)
  {
    SumOfPermutation(a, b, HoursPart);
  }

  lemma HoursGroupSingleton(p: Part)
    ensures HoursGroup([p]) == HoursPart(p)
  {
    assert [p][..0] == [];
    assert SumOf([p], HoursPart) == SumOf([], HoursPart) + HoursPart(p);
  }

  /** Every member's hours are part of the group's hours. */
  lemma {:induction false} HoursGroupMember(ps: seq<Part>, i: nat)
    requires i < |ps|
    ensures HoursPart(ps[i]) <= HoursGroup(ps)
  {
    assert ps == ps[..i] + [ps[i]] + ps[i + 1..];
    HoursGroupConcat(ps[..i] + [ps[i]], ps[i + 1..]);
    HoursGroupConcat(ps[..i], [ps[i]]);
    HoursGroupSingleton(ps[i]);
  }

  /** Removing a member takes exactly its hours off the group. */
  lemma HoursGroupRemove(ps: seq<Part>, x: Part)
    requires x in ps
    ensures HoursGroup(Remove(ps, x)) == HoursGroup(ps) - HoursPart(x)
  {
    HoursGroupPermutation(Remove(ps, x) + [x], ps);
    HoursGroupConcat(Remove(ps, x), [x]);
    HoursGroupSingleton(x);
  }

  /** A list that needs no hours is made of parts that need no hours. */
  lemma HoursGroupZero(ps: seq<Part>)
    requires HoursGroup(ps) == 0.0
    ensures forall p :: p in ps ==> HoursPart(p) == 0.0
  {
    forall p | p in ps
      ensures HoursPart(p) == 0.0
    {
      var i :| 0 <= i < |ps| && ps[i] == p;
      HoursGroupMember(ps, i);
    }
  }

  /** Parts that need no hours add nothing to a list's hours. */
  lemma IdleHours(kept: seq<Part>, idle: seq<Part>, all: seq<Part>)
    requires multiset(kept) + multiset(idle) == multiset(all)
    requires forall p :: p in idle ==> HoursPart(p) == 0.0
    ensures HoursGroup(kept) == HoursGroup(all)
  {
    HoursGroupPermutation(kept + idle, all);
    HoursGroupConcat(kept, idle);
    SumOfBounds(idle, HoursPart, 0.0, 0.0);
  }

  // ---------------------------------------------------------------------------
  // Quantities per part id and split portions

  /** The pieces one part stands for: its id, `quantity` times. */
  function PiecesOf(p: Part): multiset<int>
  {
    multiset{}[p.partId := p.quantity]
  }

  /** The pieces a list of parts stands for: each part id occurs as often as
      the quantities of its entries add up to. */
  function Pieces(ps: seq<Part>): multiset<int>
  {
    UnionOf(ps, PiecesOf)
  }

  lemma PiecesConcat(a: seq<Part>, b: seq<Part>)
    ensures Pieces(a + b) == Pieces(a) + Pieces(b)
  {
    UnionOfConcat(a, b, PiecesOf);
  }

  lemma PiecesSingleton(p: Part)
    ensures Pieces([p]) == PiecesOf(p)
  {
    UnionOfSingleton(p, PiecesOf);
  }

  lemma PiecesPermutation(a: seq<Part>, b: seq<Part>)
    requires multiset(a) == multiset(b)
    ensures Pieces(a) == Pieces(b)
  {
    UnionOfPermutation(a, b, PiecesOf);
  }

  /** A portion of `p` with `qty` pieces, marked as a division of the original
      quantity (the copies built at algoritmo_asignacion.py:268-277, 434-442). */
  function Portion(p: Part, qty: nat): (r: Part)
    ensures r.quantity == qty && r.isDivision && r.originalQuantity == Some(p.quantity)
    ensures r.partId == p.partId && r.uph == p.uph && r.tools == p.tools
    ensures r.thickness == p.thickness && r.sheetSize == p.sheetSize && r.partNumber == p.partNumber
  {
    p.(quantity := qty, isDivision := true, originalQuantity := Some(p.quantity))
  }

  /** The two portions of a split stand for exactly the pieces of the part. */
  lemma PortionsPieces(p: Part, c: nat)
    requires c <= p.quantity
    ensures PiecesOf(Portion(p, c)) + PiecesOf(Portion(p, p.quantity - c)) == PiecesOf(p)
  {
    var m := PiecesOf(Portion(p, c)) + PiecesOf(Portion(p, p.quantity - c));
    forall x
      ensures m[x] == PiecesOf(p)[x]
    {
    }
  }

  /** A portion never needs more hours than the whole part. */
  lemma PortionHours(p: Part, c: nat)
    requires c <= p.quantity
    ensures HoursPart(Portion(p, c)) <= HoursPart(p)
  {
    if p.uph > 0.0 {
      assert c as real / p.uph <= p.quantity as real / p.uph by {
        assert c as real <= p.quantity as real;
      }
    }
  }
}
