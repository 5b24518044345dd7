/** Small building blocks shared by every module of the model: failure-compatible
    wrappers, Python's int() on a float, the stable sort that Python's sorted()
    and list.sort() perform, and list helpers (flatten, remove, filter). */
module Common {

  datatype Option<+T> = None | Some(value: T)

  datatype Result<+T, +E> = Ok(value: T) | Err(error: E)

  /** A sheet size as the source compares it: a pair of dimensions. */
  datatype SheetSize = SheetSize(x: real, y: real)

  /** Python's int() applied to a float: truncation toward zero. */
  function Trunc(x: real): (r: int)
    ensures 0.0 <= x ==> r >= 0 && r as real <= x < r as real + 1.0
    ensures x < 0.0 ==> r <= 0 && x <= r as real
    ensures r > 0 <==> x >= 1.0
  {
    if x >= 0.0 then x.Floor else -((-x).Floor)
  }

  function Min(a: int, b: int): (r: int)
    ensures r <= a && r <= b && (r == a || r == b)
  {
    if a <= b then a else b
  }

  /** Producing int(t * uph) pieces at uph pieces per hour takes no more than t hours. */
  lemma CutFits(t: real, uph: real)
    requires uph > 0.0 && Trunc(t * uph) > 0
    ensures Trunc(t * uph) as real / uph <= t
  {
    var c := Trunc(t * uph) as real;
    assert c <= t * uph;
    assert c / uph * uph == c;
    assert (c / uph - t) * uph <= 0.0;
  }

  /** When q pieces need more than t hours and int(t * uph) is positive, it is
      strictly less than q. */
  lemma CutBelowQuantity(q: nat, t: real, uph: real)
    requires uph > 0.0 && q as real / uph > t && Trunc(t * uph) > 0
    ensures Trunc(t * uph) < q
  {
    var c := Trunc(t * uph);
    assert q as real / uph * uph == q as real;
    assert (q as real / uph - t) * uph > 0.0;
    assert c as real <= t * uph;
  }

  // ---------------------------------------------------------------------------
  // Stable sorting by a real-valued key (Python's sorted(..., key=...))

  ghost predicate SortedBy<T>(s: seq<T>, key: T -> real)
  {
    forall i, j :: 0 <= i < j < |s| ==> key(s[i]) <= key(s[j])
  }

  /** Inserts x before the first element whose key is not smaller than x's. */
  function InsertBy<T(==)>(x: T, s: seq<T>, key: T -> real): (r: seq<T>)
    ensures multiset(r) == multiset(s) + multiset{x}
    ensures SortedBy(s, key) ==> SortedBy(r, key)
    decreases |s|
  {
    if |s| == 0 || key(x) <= key(s[0]) then [x] + s
    else
      var rest := InsertBy(x, s[1..], key);
      assert s == [s[0]] + s[1..];
      assert SortedBy(s, key) ==> SortedBy([s[0]] + rest, key) by {
        if SortedBy(s, key) {
          HeadBelowInsert(x, s, key, rest);
        }
      }
      [s[0]] + rest
  }

  /** The head of a sorted list that x does not go before stays below
      everything the rest of the insertion holds. */
  lemma HeadBelowInsert<T>(x: T, s: seq<T>, key: T -> real, rest: seq<T>)
    requires |s| > 0 && key(s[0]) < key(x) && SortedBy(s, key)
    requires multiset(rest) == multiset(s[1..]) + multiset{x}
    ensures forall j :: 0 <= j < |rest| ==> key(s[0]) <= key(rest[j])
  {
    forall j | 0 <= j < |rest| ensures key(s[0]) <= key(rest[j]) {
      assert rest[j] in multiset(rest);
      assert rest[j] == x || rest[j] in s[1..];
    }
  }

  /** Insertion sort: a stable sort, so equal keys keep their input order. */
  function SortBy<T(==)>(s: seq<T>, key: T -> real): (r: seq<T>)
    ensures multiset(r) == multiset(s)
    ensures |r| == |s|
    ensures SortedBy(r, key)
    decreases |s|
  {
    if |s| == 0 then []
    else
      assert s == [s[0]] + s[1..];
      InsertBy(s[0], SortBy(s[1..], key), key)
  }

  /** The elements of s whose key is u, in order. */
  function WithKey<T>(s: seq<T>, key: T -> real, u: real): (r: seq<T>)
    ensures |r| <= |s|
    ensures forall y :: y in r ==> y in s && key(y) == u
  {
    if |s| == 0 then []
    else (if key(s[0]) == u then [s[0]] else []) + WithKey(s[1..], key, u)
  }

  lemma {:induction false} WithKeyConcat<T>(a: seq<T>, b: seq<T>, key: T -> real, u: real)
    ensures WithKey(a + b, key, u) == WithKey(a, key, u) + WithKey(b, key, u)
    decreases |a|
  {
    if |a| > 0 {
      assert (a + b)[1..] == a[1..] + b;
      WithKeyConcat(a[1..], b, key, u);
    } else {
      assert a + b == b;
    }
  }

  lemma {:induction false} InsertByStable<T>(x: T, t: seq<T>, key: T -> real, u: real)
    requires SortedBy(t, key)
    ensures WithKey(InsertBy(x, t, key), key, u) == WithKey([x] + t, key, u)
    decreases |t|
  {
    if |t| > 0 && key(t[0]) < key(x) {
      var t0, tail := t[0], t[1..];
      var hx: seq<T> := if key(x) == u then [x] else [];
      var h0: seq<T> := if key(t0) == u then [t0] else [];
      assert t == [t0] + tail;
      assert ([x] + t)[1..] == t;
      assert ([x] + tail)[1..] == tail;
      // x and t0 carry different keys, so at most one of them survives WithKey
      assert hx == [] || h0 == [];
      calc {
        WithKey(InsertBy(x, t, key), key, u);
        WithKey([t0] + InsertBy(x, tail, key), key, u);
        h0 + WithKey(InsertBy(x, tail, key), key, u);
        { InsertByStable(x, tail, key, u); }
        h0 + WithKey([x] + tail, key, u);
        h0 + (hx + WithKey(tail, key, u));
        hx + (h0 + WithKey(tail, key, u));
        hx + WithKey(t, key, u);
        WithKey([x] + t, key, u);
      }
    }
  }

  /** SortBy is stable: for every key value, the elements carrying it appear in
      the same relative order as in the input. */
  lemma {:induction false} SortByStable<T>(s: seq<T>, key: T -> real, u: real)
    ensures WithKey(SortBy(s, key), key, u) == WithKey(s, key, u)
    decreases |s|
  {
    if |s| > 0 {
      SortByStable(s[1..], key, u);
      InsertByStable(s[0], SortBy(s[1..], key), key, u);
      WithKeyConcat([s[0]], SortBy(s[1..], key), key, u);
      WithKeyConcat([s[0]], s[1..], key, u);
      assert s == [s[0]] + s[1..];
    }
  }

  // ---------------------------------------------------------------------------
  // List helpers

  /** Python's list.remove(x): drops the first element equal to x. */
  function Remove<T(==)>(s: seq<T>, x: T): (r: seq<T>)
    ensures x in s ==> |r| == |s| - 1 && multiset(r) == multiset(s) - multiset{x}
    ensures x !in s ==> r == s
    ensures forall y :: y in r ==> y in s
  {
    if |s| == 0 then []
    else
      assert s == [s[0]] + s[1..];
      if s[0] == x then s[1..] else [s[0]] + Remove(s[1..], x)
  }

  /** The concatenation of a list of lists. */
  function Flatten<T>(gs: seq<seq<T>>): seq<T>
  {
    if |gs| == 0 then [] else Flatten(gs[..|gs| - 1]) + gs[|gs| - 1]
  }

  lemma {:induction false} FlattenSnoc<T>(gs: seq<seq<T>>, g: seq<T>)
    ensures Flatten(gs + [g]) == Flatten(gs) + g
  {
    assert (gs + [g])[..|gs|] == gs;
  }

  /** The last element of the second part of a concatenation is its last. */
  lemma ConcatSnoc<T>(a: seq<T>, b: seq<T>)
    requires |b| > 0
    ensures a + b == (a + b[..|b| - 1]) + [b[|b| - 1]]
  {
  }

  /** Two lists that share their joint element, joined without repeating it. */
  lemma JoinSnoc<T>(a: seq<T>, b: seq<T>)
    requires |a| > 0 && |b| > 1 && a[|a| - 1] == b[0]
    ensures a + b[1..] == (a + b[..|b| - 1][1..]) + [b[|b| - 1]]
    ensures (a + b[..|b| - 1][1..])[|a| + |b| - 3] == b[|b| - 2]
  {
    assert b[..|b| - 1][1..] + [b[|b| - 1]] == b[1..];
  }

  /** The ends of two lists joined at a shared element. */
  lemma JoinEnds<T>(a: seq<T>, b: seq<T>)
    requires |a| > 0 && |b| > 0 && a[|a| - 1] == b[0]
    ensures |a + b[1..]| == |a| + |b| - 1
    ensures (a + b[1..])[0] == a[0] && (a + b[1..])[|a| + |b| - 2] == b[|b| - 1]
  {
  }

  /** Appending x to one list of gs adds exactly one x to the flattened multiset. */
  lemma {:induction false} FlattenAppendAt<T>(gs: seq<seq<T>>, k: nat, x: T)
    requires k < |gs|
    ensures multiset(Flatten(gs[k := gs[k] + [x]])) == multiset(Flatten(gs)) + multiset{x}
    decreases |gs|
  {
    var hs := gs[k := gs[k] + [x]];
    var n := |gs| - 1;
    assert hs[..n] == if k == n then gs[..n] else gs[..n][k := gs[k] + [x]];
    if k < n {
      FlattenAppendAt(gs[..n], k, x);
    }
  }

  lemma {:induction false} FlattenMember<T>(gs: seq<seq<T>>, k: nat, x: T)
    requires k < |gs| && x in gs[k]
    ensures x in Flatten(gs)
    decreases |gs|
  {
    if k < |gs| - 1 {
      FlattenMember(gs[..|gs| - 1], k, x);
    }
  }

  /** The elements of s that satisfy p, in order. */
  function Filter<T>(s: seq<T>, p: T -> bool): (r: seq<T>)
    ensures |r| <= |s|
  {
    if |s| == 0 then [] else (if p(s[0]) then [s[0]] else []) + Filter(s[1..], p)
  }

  lemma {:induction false} FilterMembership<T>(s: seq<T>, p: T -> bool, x: T)
    ensures x in Filter(s, p) <==> x in s && p(x)
    decreases |s|
  {
    if |s| > 0 {
      FilterMembership(s[1..], p, x);
      assert s == [s[0]] + s[1..];
    }
  }

  lemma {:induction false} FilterSnoc<T>(s: seq<T>, x: T, p: T -> bool)
    ensures Filter(s + [x], p) == Filter(s, p) + (if p(x) then [x] else [])
    decreases |s|
  {
    if |s| == 0 {
      assert s + [x] == [x];
      assert [x][1..] == [];
    } else {
      var tail := s[1..];
      var h: seq<T> := if p(s[0]) then [s[0]] else [];
      assert (s + [x])[0] == s[0];
      assert (s + [x])[1..] == tail + [x];
      calc {
        Filter(s + [x], p);
        h + Filter(tail + [x], p);
        { FilterSnoc(tail, x, p); }
        h + (Filter(tail, p) + (if p(x) then [x] else []));
        (h + Filter(tail, p)) + (if p(x) then [x] else []);
      }
    }
  }

  /** f applied to every element of s. */
  function Map<T, U>(s: seq<T>, f: T -> U): (r: seq<U>)
    ensures |r| == |s| && forall i :: 0 <= i < |s| ==> r[i] == f(s[i])
  {
    seq(|s|, i requires 0 <= i < |s| => f(s[i]))
  }

  lemma MapConcat<T, U>(a: seq<T>, b: seq<T>, f: T -> U)
    ensures Map(a + b, f) == Map(a, f) + Map(b, f)
  {
  }

  /** Mapping a list counts its head once beside the mapped tail. */
  lemma MapHead<T, U>(s: seq<T>, f: T -> U)
    requires |s| > 0
    ensures multiset(Map(s, f)) == multiset{f(s[0])} + multiset(Map(s[1..], f))
  {
    assert s == [s[0]] + s[1..];
    MapConcat([s[0]], s[1..], f);
    assert Map([s[0]], f) == [f(s[0])];
  }

  /** Filtering then mapping a list keeps its head exactly when it passes. */
  lemma MapFilterHead<T, U>(s: seq<T>, p: T -> bool, f: T -> U)
    requires |s| > 0
    ensures multiset(Map(Filter(s, p), f))
         == (if p(s[0]) then multiset{f(s[0])} else multiset{}) + multiset(Map(Filter(s[1..], p), f))
  {
    var t := Filter(s[1..], p);
    if p(s[0]) {
      assert Filter(s, p) == [s[0]] + t;
      MapConcat([s[0]], t, f);
      assert Map([s[0]], f) == [f(s[0])];
    } else {
      assert Filter(s, p) == t;
    }
  }

  /** Splitting a list by a condition and its negation loses and adds nothing. */
  lemma {:induction false} FilterSplit<T, U>(s: seq<T>, p: T -> bool, q: T -> bool, f: T -> U)
    requires forall x :: q(x) == !p(x)
    ensures multiset(Map(Filter(s, p), f)) + multiset(Map(Filter(s, q), f)) == multiset(Map(s, f))
    decreases |s|
  {
    if |s| > 0 {
      FilterSplit(s[1..], p, q, f);
      MapHead(s, f);
      MapFilterHead(s, p, f);
      MapFilterHead(s, q, f);
      assert q(s[0]) == !p(s[0]);
    }
  }

  /** The elements of s whose flag in `keep` equals v, in order: the two
      lists an if/else that appends to one of two lists builds. */
  function Select<T>(s: seq<T>, keep: seq<bool>, v: bool): seq<T>
    requires |keep| == |s|
    decreases |s|
  {
    if |s| == 0 then []
    else
      var n := |s| - 1;
      Select(s[..n], keep[..n], v) + (if keep[n] == v then [s[n]] else [])
  }

  lemma SelectSnoc<T>(s: seq<T>, keep: seq<bool>, x: T, b: bool, v: bool)
    requires |keep| == |s|
    ensures Select(s + [x], keep + [b], v) == Select(s, keep, v) + (if b == v then [x] else [])
  {
    assert (s + [x])[..|s|] == s;
    assert (keep + [b])[..|s|] == keep;
  }

  /** Mapping a list counts its last element once beside the mapped front. */
  lemma MapLast<T, U>(s: seq<T>, f: T -> U)
    requires |s| > 0
    ensures multiset(Map(s, f)) == multiset(Map(s[..|s| - 1], f)) + multiset{f(s[|s| - 1])}
  {
    var n := |s| - 1;
    assert s == s[..n] + [s[n]];
    MapConcat(s[..n], [s[n]], f);
    assert Map([s[n]], f) == [f(s[n])];
  }

  /** Selecting then mapping keeps the last element exactly when its flag is v. */
  lemma MapSelectLast<T, U>(s: seq<T>, keep: seq<bool>, v: bool, f: T -> U)
    requires |keep| == |s| > 0
    ensures multiset(Map(Select(s, keep, v), f))
         == multiset(Map(Select(s[..|s| - 1], keep[..|s| - 1], v), f))
          + (if keep[|s| - 1] == v then multiset{f(s[|s| - 1])} else multiset{})
  {
    var n := |s| - 1;
    var a := Select(s[..n], keep[..n], v);
    if keep[n] == v {
      assert Select(s, keep, v) == a + [s[n]];
      MapConcat(a, [s[n]], f);
      assert Map([s[n]], f) == [f(s[n])];
    } else {
      assert Select(s, keep, v) == a;
    }
  }

  /** The two selections together lose and add nothing. */
  lemma {:induction false} SelectSplit<T, U>(s: seq<T>, keep: seq<bool>, f: T -> U)
    requires |keep| == |s|
    ensures multiset(Map(Select(s, keep, true), f)) + multiset(Map(Select(s, keep, false), f)) == multiset(Map(s, f))
    decreases |s|
  {
    if |s| > 0 {
      var n := |s| - 1;
      SelectSplit(s[..n], keep[..n], f);
      MapLast(s, f);
      MapSelectLast(s, keep, true, f);
      MapSelectLast(s, keep, false, f);
    }
  }

  /** When only the first n flags can be set, at most n elements are selected. */
  lemma {:induction false} SelectBound<T>(s: seq<T>, keep: seq<bool>, n: nat)
    requires |keep| == |s|
    requires forall k :: 0 <= k < |s| && keep[k] ==> k < n
    ensures |Select(s, keep, true)| <= n
    decreases |s|
  {
    if |s| > 0 {
      var m := |s| - 1;
      if keep[m] {
        SelectBound(s[..m], keep[..m], m);
      } else {
        SelectBound(s[..m], keep[..m], n);
      }
    }
  }

  // ---------------------------------------------------------------------------
  // Sums (Python's sum(f(x) for x in s)), accumulated from the back so that
  // appending one element adds one term

  function SumOf<T>(s: seq<T>, f: T -> real): real
  {
    if |s| == 0 then 0.0 else SumOf(s[..|s| - 1], f) + f(s[|s| - 1])
  }

  lemma {:induction false} SumOfConcat<T>(a: seq<T>, b: seq<T>, f: T -> real)
    ensures SumOf(a + b, f) == SumOf(a, f) + SumOf(b, f)
    decreases |b|
  {
    if |b| == 0 {
      assert a + b == a;
    } else {
      var n := |b| - 1;
      assert (a + b)[..|a| + n] == a + b[..n];
      SumOfConcat(a, b[..n], f);
    }
  }

  lemma {:induction false} SumOfNonNegative<T>(s: seq<T>, f: T -> real)
    requires forall x :: x in s ==> f(x) >= 0.0
    ensures SumOf(s, f) >= 0.0
    decreases |s|
  {
    if |s| > 0 {
      SumOfNonNegative(s[..|s| - 1], f);
    }
  }

  /** A sum does not depend on the order of its terms. */
  lemma {:induction false} SumOfPermutation<T>(a: seq<T>, b: seq<T>, f: T -> real)
    requires multiset(a) == multiset(b)
    ensures SumOf(a, f) == SumOf(b, f)
    decreases |a|
  {
    if |a| > 0 {
      var n := |a| - 1;
      var x := a[n];
      assert x in multiset(b);
      var k :| 0 <= k < |b| && b[k] == x;
      var rest := b[..k] + b[k + 1..];
      assert b == b[..k] + [x] + b[k + 1..];
      assert a == a[..n] + [x];
      assert multiset(b) == multiset(b[..k]) + multiset{x} + multiset(b[k + 1..]);
      assert multiset(a) == multiset(a[..n]) + multiset{x};
      assert multiset(rest) == multiset(b[..k]) + multiset(b[k + 1..]);
      assert multiset(a[..n]) == multiset(a) - multiset{x};
      assert multiset(rest) == multiset(b) - multiset{x};
      SumOfPermutation(a[..n], rest, f);
      SumOfConcat(b[..k] + [x], b[k + 1..], f);
      SumOfConcat(b[..k], [x], f);
      SumOfConcat(b[..k], b[k + 1..], f);
      assert SumOf([x], f) == f(x) by {
        assert [x][..0] == [];
      }
    }
  }

  /** The union of f(x) over the elements x of s (a multiset-valued sum). */
  function UnionOf<T, U>(s: seq<T>, f: T -> multiset<U>): multiset<U>
  {
    if |s| == 0 then multiset{} else UnionOf(s[..|s| - 1], f) + f(s[|s| - 1])
  }

  lemma {:induction false} UnionOfConcat<T, U>(a: seq<T>, b: seq<T>, f: T -> multiset<U>)
    ensures UnionOf(a + b, f) == UnionOf(a, f) + UnionOf(b, f)
    decreases |b|
  {
    if |b| == 0 {
      assert a + b == a;
    } else {
      var n := |b| - 1;
      assert (a + b)[..|a| + n] == a + b[..n];
      UnionOfConcat(a, b[..n], f);
    }
  }

  lemma UnionOfSingleton<T, U>(x: T, f: T -> multiset<U>)
    ensures UnionOf([x], f) == f(x)
  {
    assert [x][..0] == [];
  }

  /** A union does not depend on the order of its terms. */
  lemma {:induction false} UnionOfPermutation<T, U>(a: seq<T>, b: seq<T>, f: T -> multiset<U>)
    requires multiset(a) == multiset(b)
    ensures UnionOf(a, f) == UnionOf(b, f)
    decreases |a|
  {
    if |a| > 0 {
      var n := |a| - 1;
      var x := a[n];
      assert x in multiset(b);
      var k :| 0 <= k < |b| && b[k] == x;
      var rest := b[..k] + b[k + 1..];
      assert b == b[..k] + [x] + b[k + 1..];
      assert a == a[..n] + [x];
      assert multiset(b) == multiset(b[..k]) + multiset{x} + multiset(b[k + 1..]);
      assert multiset(a) == multiset(a[..n]) + multiset{x};
      assert multiset(rest) == multiset(b[..k]) + multiset(b[k + 1..]);
      assert multiset(a[..n]) == multiset(a) - multiset{x};
      assert multiset(rest) == multiset(b) - multiset{x};
      UnionOfPermutation(a[..n], rest, f);
      UnionOfConcat(b[..k] + [x], b[k + 1..], f);
      UnionOfConcat(b[..k], [x], f);
      UnionOfConcat(b[..k], b[k + 1..], f);
      UnionOfSingleton(x, f);
    } else {
      assert b == [];
    }
  }

  /** Extending one list of gs by xs adds the union over xs to the union over
      the flattened lists. */
  lemma {:induction false} UnionOfFlattenExtend<T, U>(gs: seq<seq<T>>, k: nat, xs: seq<T>, f: T -> multiset<U>)
    requires k < |gs|
    ensures UnionOf(Flatten(gs[k := gs[k] + xs]), f) == UnionOf(Flatten(gs), f) + UnionOf(xs, f)
    decreases |gs|
  {
    var hs := gs[k := gs[k] + xs];
    var n := |gs| - 1;
    if k == n {
      assert hs[..n] == gs[..n];
      assert Flatten(hs) == Flatten(gs[..n]) + (gs[n] + xs);
      UnionOfConcat(Flatten(gs[..n]), gs[n] + xs, f);
      UnionOfConcat(gs[n], xs, f);
      UnionOfConcat(Flatten(gs[..n]), gs[n], f);
    } else {
      assert hs[..n] == gs[..n][k := gs[k] + xs];
      UnionOfFlattenExtend(gs[..n], k, xs, f);
      UnionOfConcat(Flatten(hs[..n]), hs[n], f);
      UnionOfConcat(Flatten(gs[..n]), gs[n], f);
    }
  }

  /** Adding an empty list changes nothing in the flattened union. */
  lemma UnionOfFlattenSnoc<T, U>(gs: seq<seq<T>>, g: seq<T>, f: T -> multiset<U>)
    ensures UnionOf(Flatten(gs + [g]), f) == UnionOf(Flatten(gs), f) + UnionOf(g, f)
  {
    FlattenSnoc(gs, g);
    UnionOfConcat(Flatten(gs), g, f);
  }

  /** A sum of |s| terms that each lie in [lo, hi] lies in [lo * |s|, hi * |s|]. */
  lemma {:induction false} SumOfBounds<T>(s: seq<T>, f: T -> real, lo: real, hi: real)
    requires forall x :: x in s ==> lo <= f(x) <= hi
    ensures lo * |s| as real <= SumOf(s, f) <= hi * |s| as real
    decreases |s|
  {
    if |s| > 0 {
      var n := |s| - 1;
      SumOfBounds(s[..n], f, lo, hi);
      assert s[n] in s;
      assert lo * |s| as real == lo * n as real + lo;
      assert hi * |s| as real == hi * n as real + hi;
    }
  }

  /** The first element of s whose key is u heads WithKey(s, key, u). */
  lemma {:induction false} WithKeyHead<T>(s: seq<T>, key: T -> real, u: real, k: nat)
    requires k < |s| && key(s[k]) == u
    requires forall j :: 0 <= j < k ==> key(s[j]) != u
    ensures WithKey(s, key, u) != [] && WithKey(s, key, u)[0] == s[k]
    decreases k
  {
    if k > 0 {
      forall j | 0 <= j < k - 1
        ensures key(s[1..][j]) != u
      {
        assert s[1..][j] == s[j + 1];
      }
      WithKeyHead(s[1..], key, u, k - 1);
    }
  }

  /** The head of a sorted permutation of s carries the least key of s. */
  lemma SortedHeadIsLeast<T>(s: seq<T>, r: seq<T>, key: T -> real, x: T)
    requires SortedBy(r, key) && multiset(r) == multiset(s) && |r| > 0 && x in s
    ensures key(r[0]) <= key(x)
  {
    assert x in multiset(r);
    var q :| 0 <= q < |r| && r[q] == x;
  }

  // ---------------------------------------------------------------------------
  // Lists without repeats, and dicts kept as a map plus their key order

  /** No element occurs twice. */
  ghost predicate NoDuplicates<T>(s: seq<T>)
  {
    forall i, j :: 0 <= i < j < |s| ==> s[i] != s[j]
  }

  lemma {:induction false} NoDuplicatesCount<T>(s: seq<T>, x: T)
    requires NoDuplicates(s)
    ensures multiset(s)[x] <= 1
    decreases |s|
  {
    if |s| > 0 {
      var n := |s| - 1;
      assert s == s[..n] + [s[n]];
      NoDuplicatesCount(s[..n], x);
      if x == s[n] {
        assert x !in s[..n];
      }
    }
  }

  lemma DuplicateCount<T>(s: seq<T>, i: nat, j: nat)
    requires i < j < |s| && s[i] == s[j]
    ensures multiset(s)[s[j]] >= 2
  {
    assert s == s[..j] + [s[j]] + s[j + 1..];
    assert s[i] in s[..j];
  }

  /** Taking elements away from a list without repeats leaves none. */
  lemma NoDuplicatesSubMultiset<T>(a: seq<T>, b: seq<T>)
    requires NoDuplicates(a) && multiset(b) <= multiset(a)
    ensures NoDuplicates(b)
  {
    forall i, j | 0 <= i < j < |b|
      ensures b[i] != b[j]
    {
      if b[i] == b[j] {
        DuplicateCount(b, i, j);
        NoDuplicatesCount(a, b[j]);
      }
    }
  }

  /** The lists of d concatenated in the order their keys have in ord. */
  function Gather<K, T>(d: map<K, seq<T>>, ord: seq<K>): seq<T>
    requires forall k :: k in ord ==> k in d
  {
    if |ord| == 0 then [] else d[ord[0]] + Gather(d, ord[1..])
  }

  /** Gather only looks at the keys it is given. */
  lemma {:induction false} GatherFrame<K, T>(d: map<K, seq<T>>, e: map<K, seq<T>>, ord: seq<K>)
    requires forall k :: k in ord ==> k in d && k in e && d[k] == e[k]
    ensures Gather(d, ord) == Gather(e, ord)
    decreases |ord|
  {
    if |ord| > 0 {
      GatherFrame(d, e, ord[1..]);
    }
  }

  /** Gathering two key lists that name equal lists position by position. */
  lemma {:induction false} GatherPointwise<K, T>(d: map<K, seq<T>>, a: seq<K>, e: map<K, seq<T>>, b: seq<K>)
    requires |a| == |b|
    requires forall i :: 0 <= i < |a| ==> a[i] in d && b[i] in e && d[a[i]] == e[b[i]]
    ensures Gather(d, a) == Gather(e, b)
    decreases |a|
  {
    if |a| > 0 {
      assert a[0] in d && b[0] in e;
      GatherPointwise(d, a[1..], e, b[1..]);
    }
  }

  /** Dropping one key from the order drops exactly its list from the gathered multiset. */
  lemma {:induction false} GatherRemove<K, T>(d: map<K, seq<T>>, ord: seq<K>, k: K)
    requires forall x :: x in ord ==> x in d
    requires k in ord
    ensures multiset(Gather(d, ord)) == multiset(Gather(d, Remove(ord, k))) + multiset(d[k])
    decreases |ord|
  {
    if ord[0] != k {
      assert ord == [ord[0]] + ord[1..];
      GatherRemove(d, ord[1..], k);
      var r := Remove(ord, k);
      assert r[0] == ord[0] && r[1..] == Remove(ord[1..], k);
    }
  }

  /** Gathering along a permutation of the keys gives a permutation of the lists. */
  lemma {:induction false} GatherPermutation<K, T>(d: map<K, seq<T>>, a: seq<K>, b: seq<K>)
    requires forall x :: x in a ==> x in d
    requires forall x :: x in b ==> x in d
    requires multiset(a) == multiset(b)
    ensures multiset(Gather(d, a)) == multiset(Gather(d, b))
    decreases |a|
  {
    if |a| > 0 {
      var k := a[0];
      assert k in multiset(b);
      assert multiset(a[1..]) == multiset(a) - multiset{k} by {
        assert a == [k] + a[1..];
      }
      assert forall x :: x in b ==> x in multiset(a);
      GatherRemove(d, b, k);
      GatherPermutation(d, a[1..], Remove(b, k));
    } else {
      assert b == [];
    }
  }

  /** Replacing the list under one key changes the gathered multiset by exactly that list. */
  lemma {:induction false} GatherUpdate<K, T>(d: map<K, seq<T>>, ord: seq<K>, k: K, v: seq<T>)
    requires forall x :: x in ord ==> x in d
    requires NoDuplicates(ord) && k in ord
    ensures multiset(Gather(d[k := v], ord)) + multiset(d[k]) == multiset(Gather(d, ord)) + multiset(v)
    decreases |ord|
  {
    var e := d[k := v];
    if ord[0] == k {
      assert forall x :: x in ord[1..] ==> x != k by {
        forall x | x in ord[1..] ensures x != k {
          var i :| 0 <= i < |ord[1..]| && ord[1..][i] == x;
          assert ord[i + 1] == x;
        }
      }
      GatherFrame(d, e, ord[1..]);
      assert Gather(e, ord) == v + Gather(e, ord[1..]);
      assert Gather(d, ord) == d[k] + Gather(d, ord[1..]);
      assert multiset(Gather(e, ord)) == multiset(v) + multiset(Gather(d, ord[1..]));
      assert multiset(Gather(d, ord)) == multiset(d[k]) + multiset(Gather(d, ord[1..]));
      assert multiset(Gather(e, ord)) + multiset(d[k]) == multiset(Gather(d, ord)) + multiset(v);
    } else {
      assert k in ord[1..] by {
        assert ord == [ord[0]] + ord[1..];
      }
      GatherUpdate(d, ord[1..], k, v);
      var rest := ord[1..];
      assert e[ord[0]] == d[ord[0]];
      calc {
        multiset(Gather(e, ord)) + multiset(d[k]);
        multiset(d[ord[0]]) + (multiset(Gather(e, rest)) + multiset(d[k]));
        multiset(d[ord[0]]) + (multiset(Gather(d, rest)) + multiset(v));
        multiset(Gather(d, ord)) + multiset(v);
      }
    }
  }

  /** A permutation has the same members. */
  lemma PermutationMembers<T>(a: seq<T>, b: seq<T>)
    requires multiset(a) == multiset(b)
    ensures forall x :: x in b <==> x in a
  {
    forall x
      ensures x in b <==> x in a
    {
      assert x in b <==> x in multiset(b);
      assert x in a <==> x in multiset(a);
    }
  }

  /** Items lost in one step join the items lost before it. */
  lemma LostStep<T>(now: seq<T>, step: seq<T>, before: seq<T>, lost: seq<T>, all: seq<T>)
    requires multiset(now) + multiset(step) == multiset(before)
    requires multiset(before) + multiset(lost) == multiset(all)
    ensures multiset(now) + multiset(lost + step) == multiset(all)
  {
    assert multiset(lost + step) == multiset(lost) + multiset(step);
    forall x
      ensures (multiset(now) + multiset(lost + step))[x] == multiset(all)[x]
    {
      assert (multiset(now) + multiset(step))[x] == multiset(before)[x];
      assert (multiset(before) + multiset(lost))[x] == multiset(all)[x];
    }
  }

  lemma MultisetCancel<T>(a: multiset<T>, b: multiset<T>, c: multiset<T>)
    requires a + c == b + c
    ensures a == b
  {
    forall x
      ensures a[x] == b[x]
    {
      assert (a + c)[x] == (b + c)[x];
    }
  }

  /** Adding the same multiset to both sides of an equation of sums. */
  lemma MultisetShift<T>(a: multiset<T>, b: multiset<T>, c: multiset<T>, d: multiset<T>, e: multiset<T>)
    requires b + c == d + e
    ensures a + b + c == a + d + e
  {
    forall x
      ensures (a + b + c)[x] == (a + d + e)[x]
    {
      assert (b + c)[x] == (d + e)[x];
    }
  }

  /** One step of a ledger: a state that received `add` and gave up `gone`,
      after earlier states gave up `lost`, accounts for `all` and `add`. */
  lemma MultisetStep<T>(after: multiset<T>, gone: multiset<T>, before: multiset<T>, add: multiset<T>, lost: multiset<T>, all: multiset<T>)
    requires after + gone == before + add
    requires before + lost == all
    ensures after + (lost + gone) == all + add
  {
    forall x
      ensures (after + (lost + gone))[x] == (all + add)[x]
    {
      assert (after + gone)[x] == (before + add)[x];
      assert (before + lost)[x] == all[x];
    }
  }

  /** Concatenation is associative. */
  lemma ConcatAssoc<T>(a: seq<T>, b: seq<T>, c: seq<T>)
    ensures a + b + c == a + (b + c)
  {
  }

  /** A prefix one element longer. */
  lemma TakeSnoc<T>(s: seq<T>, i: nat)
    requires i < |s|
    ensures s[..i + 1] == s[..i] + [s[i]]
  {
  }

  /** Extending a prefix taken after a fixed head by one element. */
  lemma PrefixSnoc<T>(a: seq<T>, b: seq<T>, i: nat)
    requires i < |b|
    ensures a + b[..i + 1] == (a + b[..i]) + [b[i]]
  {
    assert b[..i + 1] == b[..i] + [b[i]];
  }

  /** `ord` lists every key of `d` exactly once: a dict and its iteration order. */
  ghost predicate IsDict<K(!new), V>(d: map<K, V>, ord: seq<K>)
  {
    NoDuplicates(ord) && forall k :: k in ord <==> k in d
  }

  /** Deleting key k drops exactly its list from the gathered multiset. */
  lemma GatherDelete<K(!new), T>(d: map<K, seq<T>>, ord: seq<K>, k: K)
    requires IsDict(d, ord) && k in d
    ensures IsDict(d - {k}, Remove(ord, k))
    ensures multiset(Gather(d - {k}, Remove(ord, k))) + multiset(d[k]) == multiset(Gather(d, ord))
  {
    var r := Remove(ord, k);
    NoDuplicatesSubMultiset(ord, r);
    NoDuplicatesCount(ord, k);
    assert k !in multiset(r);
    forall x
      ensures x in r <==> x in d - {k}
    {
      assert x in r <==> x in multiset(r);
    }
    GatherRemove(d, ord, k);
    GatherFrame(d - {k}, d, r);
  }

  /** Appending the list of k to the list of t and then deleting k keeps the
      gathered multiset. */
  lemma GatherMerge<K(!new), T>(d: map<K, seq<T>>, ord: seq<K>, k: K, t: K)
    requires IsDict(d, ord) && k in d && t in d && k != t
    ensures IsDict(d[t := d[t] + d[k]] - {k}, Remove(ord, k))
    ensures multiset(Gather(d[t := d[t] + d[k]] - {k}, Remove(ord, k))) == multiset(Gather(d, ord))
  {
    var grown := d[t := d[t] + d[k]];
    assert grown.Keys == d.Keys;
    GatherUpdate(d, ord, t, d[t] + d[k]);
    MultisetCancel(multiset(Gather(grown, ord)), multiset(Gather(d, ord)) + multiset(d[k]), multiset(d[t]));
    GatherDelete(grown, ord, k);
    MultisetCancel(multiset(Gather(grown - {k}, Remove(ord, k))), multiset(Gather(d, ord)), multiset(d[k]));
  }
}
