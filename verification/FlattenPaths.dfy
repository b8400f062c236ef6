/** The order in which a flattening lists its variants: by the positions that are taken in the lists. */
module FlattenPaths {
  import opened Flatten

  /** For each entry of a description, the positions taken in its nested lists, from the outermost in. */
  type Path = seq<seq<nat>>

  /** Taking these positions in v, one after the other, ends at the atom x. */
  predicate Ends(v: Value, p: seq<nat>, x: Value)
    decreases |p|
  {
    match v
    case Atom(_) => p == [] && x == v
    case List(items) => p != [] && p[0] < |items| && Ends(items[p[0]], p[1..], x)
  }

  /** e is what d comes down to by taking these positions in its choices. */
  ghost predicate AtPath(d: Desc, p: Path, e: Desc)
  {
    && |p| == |e| == |d|
    && forall i :: 0 <= i < |d| ==>
         && e[i].key == d[i].key
         && (if IsChoice(d[i]) then Ends(d[i].value, p[i], e[i].value) else p[i] == [] && e[i].value == d[i].value)
  }

  /** At the first position where they differ, a comes before b. */
  ghost predicate Before(a: seq<nat>, b: seq<nat>)
  {
    exists n :: 0 <= n < |a| && n < |b| && a[..n] == b[..n] && a[n] < b[n]
  }

  /** At the first entry where they differ, p comes before q. */
  ghost predicate Less(p: Path, q: Path)
  {
    exists i :: 0 <= i < |p| && i < |q| && p[..i] == q[..i] && Before(p[i], q[i])
  }

  ghost predicate Sorted(ps: seq<Path>)
  {
    forall a, b :: 0 <= a < b < |ps| ==> Less(ps[a], ps[b])
  }

  // ---------------------------------------------------------------- the paths of an expansion

  function Prefix(p: Path, i: nat, j: nat): Path
    requires i < |p|
  {
    p[i := [j] + p[i]]
  }

  function PathsOf(d: Desc): (ps: seq<Path>)
    ensures forall k :: 0 <= k < |ps| ==> |ps[k]| == |d|
    decreases DescWeight(d), 1, 0
  {
    var i := First(d);
    if i == |d| then [seq(|d|, _ => [])] else PathItems(d, i, 0)
  }

  function PathItems(d: Desc, i: nat, j: nat): (ps: seq<Path>)
    requires i < |d| && d[i].value.List? && j <= |d[i].value.items|
    ensures forall k :: 0 <= k < |ps| ==> |ps[k]| == |d|
    decreases DescWeight(d), 0, |d[i].value.items| - j
  {
    if j == |d[i].value.items| then []
    else
      ChoiceLighter(d, i, j);
      var ps := PathsOf(Put(d, i, d[i].value.items[j]));
      seq(|ps|, k requires 0 <= k < |ps| => Prefix(ps[k], i, j)) + PathItems(d, i, j + 1)
  }

  lemma PrefixEnds(d: Desc, i: nat, j: nat, p: Path, e: Desc)
    requires i < |d| && IsChoice(d[i]) && j < |d[i].value.items|
    requires AtPath(Put(d, i, d[i].value.items[j]), p, e)
    ensures AtPath(d, Prefix(p, i, j), e)
  {
    var d', q := Put(d, i, d[i].value.items[j]), Prefix(p, i, j);
    assert q[i][1..] == p[i];
    forall k | 0 <= k < |d|
      ensures e[k].key == d[k].key
      ensures if IsChoice(d[k]) then Ends(d[k].value, q[k], e[k].value) else q[k] == [] && e[k].value == d[k].value
    {
      assert e[k].key == d'[k].key;
      assert k != i ==> d'[k] == d[k] && q[k] == p[k];
    }
  }

  /** Position k of the expansion is what position k of the paths leads to. */
  lemma {:induction false} PathsSound(d: Desc)
    ensures |PathsOf(d)| == |Full(d)|
    ensures forall k :: 0 <= k < |Full(d)| ==> AtPath(d, PathsOf(d)[k], Full(d)[k])
    decreases DescWeight(d), 1, 0
  {
    var i := First(d);
    if i < |d| {
      PathItemsSound(d, i, 0);
    }
  }

  lemma {:induction false} PathItemsSound(d: Desc, i: nat, j: nat)
    requires i < |d| && IsChoice(d[i]) && j <= |d[i].value.items|
    ensures |PathItems(d, i, j)| == |FullItems(d, i, j)|
    ensures forall k :: 0 <= k < |FullItems(d, i, j)| ==> AtPath(d, PathItems(d, i, j)[k], FullItems(d, i, j)[k])
    decreases DescWeight(d), 0, |d[i].value.items| - j
  {
    hide AtPath;
    if j < |d[i].value.items| {
      var d' := Put(d, i, d[i].value.items[j]);
      ChoiceLighter(d, i, j);
      PathsSound(d');
      PathItemsSound(d, i, j + 1);
      var ps, es := PathsOf(d'), Full(d');
      forall k | 0 <= k < |FullItems(d, i, j)|
        ensures AtPath(d, PathItems(d, i, j)[k], FullItems(d, i, j)[k])
      {
        if k < |es| {
          PrefixEnds(d, i, j, ps[k], es[k]);
        } else {
          assert FullItems(d, i, j)[k] == FullItems(d, i, j + 1)[k - |es|];
          assert PathItems(d, i, j)[k] == PathItems(d, i, j + 1)[k - |es|];
        }
      }
    }
  }

  // ---------------------------------------------------------------- order

  /** No position is taken before entry i, and in entry i the first one taken is at least j. */
  ghost predicate From(p: Path, i: nat, j: nat)
  {
    i < |p| && (forall k :: 0 <= k < i ==> p[k] == []) && p[i] != [] && p[i][0] >= j
  }

  lemma FirstTaken(d: Desc, p: Path, e: Desc)
    requires AtPath(d, p, e)
    ensures forall k :: 0 <= k < First(d) ==> p[k] == []
  {
  }

  lemma {:induction false} PathItemsFrom(d: Desc, i: nat, j: nat)
    requires i == First(d) < |d| && j <= |d[i].value.items|
    ensures forall k :: 0 <= k < |PathItems(d, i, j)| ==> From(PathItems(d, i, j)[k], i, j)
    decreases |d[i].value.items| - j
  {
    hide AtPath;
    if j < |d[i].value.items| {
      var d' := Put(d, i, d[i].value.items[j]);
      PathItemsFrom(d, i, j + 1);
      PathsSound(d');
      FirstMoves(d, i, d[i].value.items[j]);
      var ps := PathsOf(d');
      forall k | 0 <= k < |PathItems(d, i, j)|
        ensures From(PathItems(d, i, j)[k], i, j)
      {
        if k < |ps| {
          FirstTaken(d', ps[k], Full(d')[k]);
          assert PathItems(d, i, j)[k] == Prefix(ps[k], i, j);
        } else {
          assert PathItems(d, i, j)[k] == PathItems(d, i, j + 1)[k - |ps|];
        }
      }
    }
  }

  /** Choosing an item for the first choice moves the first choice to the right, if at all. */
  lemma FirstMoves(d: Desc, i: nat, v: Value)
    requires i == First(d) < |d|
    ensures First(Put(d, i, v)) >= i
  {
    var d' := Put(d, i, v);
    assert forall k :: 0 <= k < i ==> d'[k] == d[k];
  }

  lemma PrefixLess(p: Path, q: Path, i: nat, j: nat)
    requires i < |p| == |q| && Less(p, q) && forall k :: 0 <= k < i ==> p[k] == q[k] == []
    ensures Less(Prefix(p, i, j), Prefix(q, i, j))
  {
    var p', q' := Prefix(p, i, j), Prefix(q, i, j);
    var m :| 0 <= m < |p| && p[..m] == q[..m] && Before(p[m], q[m]);
    assert m >= i;
    if m == i {
      var n :| 0 <= n < |p[i]| && n < |q[i]| && p[i][..n] == q[i][..n] && p[i][n] < q[i][n];
      assert p'[i][..n + 1] == [j] + p[i][..n] && q'[i][..n + 1] == [j] + q[i][..n];
      assert Before(p'[i], q'[i]);
      assert p'[..i] == p[..i] && q'[..i] == q[..i];
    } else {
      assert p[i] == p[..m][i] == q[..m][i] == q[i];
      assert p'[..m] == p[..m][i := p'[i]] && q'[..m] == q[..m][i := q'[i]];
    }
  }

  lemma EarlierItem(p: Path, q: Path, i: nat, j: nat)
    requires From(p, i, j) && From(q, i, j + 1) && p[i][0] == j && |p| == |q|
    ensures Less(p, q)
  {
    assert p[..i] == q[..i];
    assert p[i][..0] == q[i][..0];
    assert Before(p[i], q[i]);
  }

  /** The paths come in lexicographic order; so each comes once. */
  lemma {:induction false} PathsSorted(d: Desc)
    ensures Sorted(PathsOf(d))
    decreases DescWeight(d), 1, 0
  {
    var i := First(d);
    if i < |d| {
      PathItemsSorted(d, i, 0);
    }
  }

  lemma {:induction false} PathItemsSorted(d: Desc, i: nat, j: nat)
    requires i == First(d) < |d| && j <= |d[i].value.items|
    ensures Sorted(PathItems(d, i, j))
    decreases DescWeight(d), 0, |d[i].value.items| - j
  {
    hide AtPath, Less;
    if j < |d[i].value.items| {
      var d' := Put(d, i, d[i].value.items[j]);
      ChoiceLighter(d, i, j);
      PathsSorted(d');
      PathItemsSorted(d, i, j + 1);
      PathItemsFrom(d, i, j);
      PathItemsFrom(d, i, j + 1);
      PathsSound(d');
      FirstMoves(d, i, d[i].value.items[j]);
      var ps, qs, all := PathsOf(d'), PathItems(d, i, j + 1), PathItems(d, i, j);
      forall a, b | 0 <= a < b < |all|
        ensures Less(all[a], all[b])
      {
        if b < |ps| {
          FirstTaken(d', ps[a], Full(d')[a]);
          FirstTaken(d', ps[b], Full(d')[b]);
          PrefixLess(ps[a], ps[b], i, j);
        } else if a < |ps| {
          assert all[a] == Prefix(ps[a], i, j) && all[b] == qs[b - |ps|];
          EarlierItem(all[a], all[b], i, j);
        } else {
          assert all[a] == qs[a - |ps|] && all[b] == qs[b - |ps|];
        }
      }
    }
  }

  // ---------------------------------------------------------------- completeness

  lemma AllEmpty(d: Desc, p: Path, e: Desc)
    requires First(d) == |d| && AtPath(d, p, e)
    ensures p == seq(|d|, _ => [])
  {
  }

  /** What a path leads to in d, the path behind its first position leads to in the item taken there. */
  lemma TakeFirst(d: Desc, p: Path, e: Desc)
    requires First(d) < |d| && AtPath(d, p, e)
    ensures var i := First(d);
            && |p| == |d| && p[i] != [] && p[i][0] < |d[i].value.items|
            && AtPath(Put(d, i, d[i].value.items[p[i][0]]), p[i := p[i][1..]], e)
  {
    var i := First(d);
    var j := p[i][0];
    var d', q := Put(d, i, d[i].value.items[j]), p[i := p[i][1..]];
    assert Ends(d[i].value.items[j], q[i], e[i].value);
    forall k | 0 <= k < |d|
      ensures e[k].key == d'[k].key
      ensures if IsChoice(d'[k]) then Ends(d'[k].value, q[k], e[k].value)
              else q[k] == [] && e[k].value == d'[k].value
    {
      assert e[k].key == d[k].key;
      assert k != i ==> d'[k] == d[k] && q[k] == p[k];
    }
  }

  lemma {:induction false} ItemListed(d: Desc, i: nat, j: nat, n: nat, p: Path)
    requires i < |d| && d[i].value.List? && j <= n < |d[i].value.items|
    requires p in PathsOf(Put(d, i, d[i].value.items[n]))
    ensures Prefix(p, i, n) in PathItems(d, i, j)
    decreases n - j
  {
    var ps := PathsOf(Put(d, i, d[i].value.items[j]));
    if j < n {
      ItemListed(d, i, j + 1, n, p);
    } else {
      var k :| 0 <= k < |ps| && ps[k] == p;
      assert PathItems(d, i, j)[k] == Prefix(p, i, n);
    }
  }

  /** Every way of taking positions is listed. */
  lemma {:induction false} PathsComplete(d: Desc, p: Path, e: Desc)
    requires AtPath(d, p, e)
    ensures p in PathsOf(d)
    decreases DescWeight(d)
  {
    hide AtPath;
    var i := First(d);
    if i == |d| {
      AllEmpty(d, p, e);
      assert PathsOf(d)[0] == p;
    } else {
      TakeFirst(d, p, e);
      var j, q := p[i][0], p[i := p[i][1..]];
      ChoiceLighter(d, i, j);
      PathsComplete(Put(d, i, d[i].value.items[j]), q, e);
      ItemListed(d, i, 0, j, q);
      assert Prefix(q, i, j) == p by {
        assert [j] + p[i][1..] == p[i];
      }
    }
  }

  // ---------------------------------------------------------------- length

  /** How many atoms a value holds. */
  function Leaves(v: Value): nat
  {
    match v
    case Atom(_) => 1
    case List(items) => ItemLeaves(items)
  }

  function ItemLeaves(items: seq<Value>): nat
  {
    if items == [] then 0 else Leaves(items[0]) + ItemLeaves(items[1..])
  }

  lemma ItemLeavesFrom(items: seq<Value>, j: nat)
    requires j < |items|
    ensures ItemLeaves(items[j..]) == Leaves(items[j]) + ItemLeaves(items[j + 1..])
  {
    assert items[j..][1..] == items[j + 1..];
  }

  /** How many ways there are to take an entry. */
  function Factor(e: Entry): nat
  {
    if IsChoice(e) then Leaves(e.value) else 1
  }

  /** The product of that over all entries. */
  function Variants(d: Desc): nat
  {
    if d == [] then 1 else Factor(d[0]) * Variants(d[1..])
  }

  /** The same without entry i. */
  function Others(d: Desc, i: nat): nat
    requires i < |d|
  {
    Variants(d[..i]) * Variants(d[i + 1..])
  }

  lemma {:induction false} VariantsAt(d: Desc, i: nat)
    requires i < |d|
    ensures Variants(d) == Others(d, i) * Factor(d[i])
  {
    hide Factor;
    if i == 0 {
      assert d[..0] == [] && d[0 + 1..] == d[1..];
      Commute(Factor(d[0]), Variants(d[1..]));
    } else {
      var a, b := Variants(d[1..i]), Variants(d[i + 1..]);
      assert d[1..][..i - 1] == d[1..i] && d[1..][i..] == d[i + 1..];
      VariantsAt(d[1..], i - 1);
      assert d[..i][1..] == d[1..i];
      Associate(Factor(d[0]), a, b, Factor(d[i]));
    }
  }

  lemma Commute(a: nat, b: nat)
    ensures a * b == 1 * b * a
  {
  }

  lemma Associate(g: nat, a: nat, b: nat, f: nat)
    ensures g * (a * b * f) == g * a * b * f
  {
    assert a * b * f == a * (b * f);
    assert g * a * b * f == g * a * (b * f);
  }

  lemma Distribute(o: nat, x: nat, y: nat)
    ensures o * (x + y) == o * x + o * y
  {
  }

  lemma {:induction false} NoChoices(d: Desc)
    requires First(d) == |d|
    ensures Variants(d) == 1
  {
    if d != [] {
      assert forall i :: 0 <= i < |d[1..]| ==> d[1..][i] == d[i + 1];
      assert First(d[1..]) == |d[1..]|;
      NoChoices(d[1..]);
    }
  }

  /** A flattening has as many variants as the choices multiply to. */
  lemma {:induction false} FullLength(d: Desc)
    ensures |Full(d)| == Variants(d)
    decreases DescWeight(d), 1, 0
  {
    var i := First(d);
    if i == |d| {
      NoChoices(d);
    } else {
      FullItemsLength(d, i, 0);
      VariantsAt(d, i);
      assert d[i].value.items[0..] == d[i].value.items;
    }
  }

  lemma {:induction false} FullItemsLength(d: Desc, i: nat, j: nat)
    requires i < |d| && IsChoice(d[i]) && j <= |d[i].value.items|
    ensures |FullItems(d, i, j)| == Others(d, i) * ItemLeaves(d[i].value.items[j..])
    decreases DescWeight(d), 0, |d[i].value.items| - j
  {
    var items := d[i].value.items;
    if j < |items| {
      var d' := Put(d, i, items[j]);
      ChoiceLighter(d, i, j);
      FullLength(d');
      FullItemsLength(d, i, j + 1);
      VariantsAt(d', i);
      assert d'[..i] == d[..i] && d'[i + 1..] == d[i + 1..];
      assert Factor(d'[i]) == Leaves(items[j]);
      ItemLeavesFrom(items, j);
      hide Leaves, ItemLeaves, Others, Variants;
      Distribute(Others(d, i), Leaves(items[j]), ItemLeaves(items[j + 1..]));
    } else {
      assert items[j..] == [];
    }
  }
}
