/** The flattening as it is done: round by round over all elements, until nothing is left to expand. */
module FlattenLoop {
  import opened Flatten
  import opened FlattenPaths

  // ---------------------------------------------------------------- round by round

  /** The expansions of all elements, in order. */
  function FullAll<R>(elems: seq<Elem<R>>): seq<Elem<R>>
  {
    if elems == [] then [] else Carry(Full(elems[0].desc), elems[0].rest) + FullAll(elems[1..])
  }

  /** Each description with the same rest. */
  function Carry<R>(ds: seq<Desc>, rest: R): (es: seq<Elem<R>>)
    ensures |es| == |ds|
  {
    seq(|ds|, i requires 0 <= i < |ds| => Elem(ds[i], rest))
  }

  /** The heaviest element that is not flat. */
  function Tallest<R>(elems: seq<Elem<R>>): nat
  {
    if elems == [] then 0
    else
      var t := Tallest(elems[1..]);
      if IsFlat(elems[0].desc) || DescWeight(elems[0].desc) + 1 <= t then t else DescWeight(elems[0].desc) + 1
  }

  lemma {:induction false} FullAllAppend<R>(a: seq<Elem<R>>, b: seq<Elem<R>>)
    ensures FullAll(a + b) == FullAll(a) + FullAll(b)
  {
    if a == [] {
      assert a + b == b;
    } else {
      assert (a + b)[1..] == a[1..] + b;
      FullAllAppend(a[1..], b);
    }
  }

  lemma {:induction false} TallestAppend<R>(a: seq<Elem<R>>, b: seq<Elem<R>>)
    ensures Tallest(a + b) == if Tallest(a) >= Tallest(b) then Tallest(a) else Tallest(b)
  {
    if a == [] {
      assert a + b == b;
    } else {
      assert (a + b)[1..] == a[1..] + b;
      TallestAppend(a[1..], b);
    }
  }

  lemma FirstIsFlat(d: Desc)
    ensures First(d) == |d| <==> IsFlat(d)
  {
  }

  /** The inner loop: one element is replaced by its copies, one for each item of its first choice. */
  method ExpandOnce<R>(elem: Elem<R>) returns (out: seq<Elem<R>>, flattened: bool)
    ensures flattened == !IsFlat(elem.desc)
    ensures !flattened ==> out == [elem]
    ensures FullAll(out) == Carry(Full(elem.desc), elem.rest)
    ensures flattened ==> Tallest(out) < DescWeight(elem.desc) + 1
  {
    out, flattened := [], false;
    FirstIsFlat(elem.desc);
    var k := 0;
    while k < |elem.desc|
      invariant 0 <= k <= First(elem.desc)
    {
      if elem.desc[k].key != FSTRINGS && elem.desc[k].value.List? {
        out := Copies(elem, k);
        return out, true;
      }
      k := k + 1;
    }
    out := [elem];
    assert FullAll(out) == Carry(Full(elem.desc), elem.rest) + FullAll(out[1..]);
  }

  /** The copies made so far, together with those still to come, are the whole expansion. */
  ghost predicate Copying<R>(elem: Elem<R>, k: nat, j: nat, out: seq<Elem<R>>)
    requires k < |elem.desc| && elem.desc[k].value.List? && j <= |elem.desc[k].value.items|
  {
    && FullAll(out) + Carry(FullItems(elem.desc, k, j), elem.rest) == Carry(Full(elem.desc), elem.rest)
    && Tallest(out) < DescWeight(elem.desc) + 1
  }

  lemma CopyGoesOn<R>(elem: Elem<R>, k: nat, j: nat, out: seq<Elem<R>>)
    requires k < |elem.desc| && elem.desc[k].value.List? && j < |elem.desc[k].value.items| && Copying(elem, k, j, out)
    ensures Copying(elem, k, j + 1, out + [Elem(Put(elem.desc, k, elem.desc[k].value.items[j]), elem.rest)])
  {
    hide FullAll, Carry, Tallest, DescWeight;
    var d := elem.desc;
    var copy := Elem(Put(d, k, d[k].value.items[j]), elem.rest);
    ChoiceLighter(d, k, j);
    FullAllAppend(out, [copy]);
    TallestAppend(out, [copy]);
    OneElem(copy);
    CarryAppend(Full(copy.desc), FullItems(d, k, j + 1), elem.rest);
    var x, y, z := FullAll(out), Carry(Full(copy.desc), elem.rest), Carry(FullItems(d, k, j + 1), elem.rest);
    assert x + (y + z) == x + y + z;
  }

  method Copies<R>(elem: Elem<R>, k: nat) returns (out: seq<Elem<R>>)
    requires k == First(elem.desc) < |elem.desc|
    ensures FullAll(out) == Carry(Full(elem.desc), elem.rest)
    ensures Tallest(out) < DescWeight(elem.desc) + 1
  {
    var items := elem.desc[k].value.items;
    out := [];
    var j := 0;
    while j < |items|
      invariant 0 <= j <= |items| && Copying(elem, k, j, out)
    {
      CopyGoesOn(elem, k, j, out);
      out := out + [Elem(Put(elem.desc, k, items[j]), elem.rest)];
      j := j + 1;
    }
  }

  lemma OneElem<R>(e: Elem<R>)
    ensures FullAll([e]) == Carry(Full(e.desc), e.rest)
    ensures Tallest([e]) <= DescWeight(e.desc) + 1
  {
    assert [e][1..] == [];
  }

  lemma CarryAppend<R>(a: seq<Desc>, b: seq<Desc>, rest: R)
    ensures Carry(a + b, rest) == Carry(a, rest) + Carry(b, rest)
  {
  }

  /** The round so far has made `out` of `done`. */
  ghost predicate Rounded<R>(done: seq<Elem<R>>, out: seq<Elem<R>>, any: bool)
  {
    && FullAll(out) == FullAll(done)
    && (any <==> exists i :: 0 <= i < |done| && !IsFlat(done[i].desc))
    && (!any ==> out == done)
    && (if any then Tallest(out) < Tallest(done) else Tallest(out) == Tallest(done) == 0)
  }

  lemma RoundGoesOn<R>(done: seq<Elem<R>>, out: seq<Elem<R>>, any: bool,
                       e: Elem<R>, part: seq<Elem<R>>, flattened: bool)
    requires Rounded(done, out, any) && FullAll(part) == Carry(Full(e.desc), e.rest)
    requires flattened == !IsFlat(e.desc) && (!flattened ==> part == [e])
    requires flattened ==> Tallest(part) < DescWeight(e.desc) + 1
    ensures Rounded(done + [e], out + part, any || flattened)
  {
    hide FullAll, Tallest, IsFlat, Carry, Full, DescWeight;
    FullAllAppend(out, part);
    FullAllAppend(done, [e]);
    TallestAppend(out, part);
    TallestAppend(done, [e]);
    OneElem(e);
    TallestOne(e);
    var all := done + [e];
    if i :| 0 <= i < |done| && !IsFlat(done[i].desc) {
      assert all[i] == done[i];
    }
    assert all[|done|] == e;
  }

  /** One round over all elements. */
  method Round<R>(elems: seq<Elem<R>>) returns (out: seq<Elem<R>>, any: bool)
    ensures FullAll(out) == FullAll(elems)
    ensures any <==> exists i :: 0 <= i < |elems| && !IsFlat(elems[i].desc)
    ensures !any ==> out == elems
    ensures any ==> Tallest(out) < Tallest(elems)
  {
    hide FullAll, IsFlat, Carry, Full, DescWeight;
    out, any := [], false;
    var n := 0;
    while n < |elems|
      invariant 0 <= n <= |elems| && Rounded(elems[..n], out, any)
    {
      var part, flattened := ExpandOnce(elems[n]);
      RoundGoesOn(elems[..n], out, any, elems[n], part, flattened);
      assert elems[..n + 1] == elems[..n] + [elems[n]];
      out := out + part;
      any := any || flattened;
      n := n + 1;
    }
    assert elems[..n] == elems;
  }

  lemma TallestOne<R>(e: Elem<R>)
    ensures Tallest([e]) == if IsFlat(e.desc) then 0 else DescWeight(e.desc) + 1
  {
    assert [e][1..] == [];
  }

  lemma {:induction false} FullAllFlat<R>(elems: seq<Elem<R>>)
    requires forall i :: 0 <= i < |elems| ==> IsFlat(elems[i].desc)
    ensures FullAll(elems) == elems
  {
    if elems != [] {
      FirstIsFlat(elems[0].desc);
      FullAllFlat(elems[1..]);
      assert Carry(Full(elems[0].desc), elems[0].rest) == [elems[0]];
    }
  }

  // ---------------------------------------------------------------- what the result lists

  /** Where a variant comes from: its element, and the positions taken in that. */
  datatype Origin = Origin(elem: nat, path: Path)

  ghost predicate Earlier(a: Origin, b: Origin)
  {
    a.elem < b.elem || (a.elem == b.elem && Less(a.path, b.path))
  }

  ghost predicate ComesFrom<R>(elems: seq<Elem<R>>, o: Origin, e: Elem<R>)
  {
    o.elem < |elems| && AtPath(elems[o.elem].desc, o.path, e.desc) && e.rest == elems[o.elem].rest
  }

  /** out lists, element by element and within each in lexicographic order of the positions taken, every
      variant once: these are their origins. */
  ghost predicate Lists<R>(elems: seq<Elem<R>>, out: seq<Elem<R>>, origins: seq<Origin>)
  {
    && |origins| == |out|
    && (forall k :: 0 <= k < |out| ==> ComesFrom(elems, origins[k], out[k]))
    && (forall a, b :: 0 <= a < b < |out| ==> Earlier(origins[a], origins[b]))
    && (forall i: nat, p, e :: i < |elems| && AtPath(elems[i].desc, p, e) ==> Origin(i, p) in origins)
  }

  ghost function Total<R>(elems: seq<Elem<R>>): nat
  {
    if elems == [] then 0 else Variants(elems[0].desc) + Total(elems[1..])
  }

  ghost function FirstOrigins(ps: seq<Path>): (os: seq<Origin>)
    ensures |os| == |ps|
  {
    seq(|ps|, k requires 0 <= k < |ps| => Origin(0, ps[k]))
  }

  ghost function LaterOrigins(os: seq<Origin>): (ls: seq<Origin>)
    ensures |ls| == |os|
  {
    seq(|os|, k requires 0 <= k < |os| => Origin(os[k].elem + 1, os[k].path))
  }

  ghost function Origins<R>(elems: seq<Elem<R>>): seq<Origin>
  {
    if elems == [] then [] else FirstOrigins(PathsOf(elems[0].desc)) + LaterOrigins(Origins(elems[1..]))
  }

  lemma {:induction false} OriginsSplit<R>(elems: seq<Elem<R>>, k: nat)
    requires elems != [] && |PathsOf(elems[0].desc)| == |Full(elems[0].desc)|
    requires |Origins(elems[1..])| == |FullAll(elems[1..])| && k < |FullAll(elems)|
    ensures |Origins(elems)| == |FullAll(elems)|
    ensures var n := |Full(elems[0].desc)|;
            if k < n
            then && Origins(elems)[k] == Origin(0, PathsOf(elems[0].desc)[k])
                 && FullAll(elems)[k] == Elem(Full(elems[0].desc)[k], elems[0].rest)
            else && Origins(elems)[k] == Origin(Origins(elems[1..])[k - n].elem + 1, Origins(elems[1..])[k - n].path)
                 && FullAll(elems)[k] == FullAll(elems[1..])[k - n]
  {
  }

  lemma {:induction false} OriginsSound<R>(elems: seq<Elem<R>>)
    ensures |Origins(elems)| == |FullAll(elems)|
    ensures forall k :: 0 <= k < |FullAll(elems)| ==> ComesFrom(elems, Origins(elems)[k], FullAll(elems)[k])
  {
    hide AtPath;
    if elems != [] {
      PathsSound(elems[0].desc);
      OriginsSound(elems[1..]);
      forall k | 0 <= k < |FullAll(elems)|
        ensures ComesFrom(elems, Origins(elems)[k], FullAll(elems)[k])
      {
        OriginsSplit(elems, k);
      }
    }
  }

  lemma {:induction false} OriginsOrdered<R>(elems: seq<Elem<R>>)
    ensures |Origins(elems)| == |FullAll(elems)|
    ensures forall a, b :: 0 <= a < b < |Origins(elems)| ==> Earlier(Origins(elems)[a], Origins(elems)[b])
  {
    hide Less;
    OriginsSound(elems);
    if elems != [] {
      PathsSound(elems[0].desc);
      PathsSorted(elems[0].desc);
      OriginsSound(elems[1..]);
      OriginsOrdered(elems[1..]);
      forall a, b | 0 <= a < b < |Origins(elems)|
        ensures Earlier(Origins(elems)[a], Origins(elems)[b])
      {
        OriginsSplit(elems, a);
        OriginsSplit(elems, b);
      }
    }
  }

  lemma {:induction false} OriginsComplete<R>(elems: seq<Elem<R>>, i: nat, p: Path, e: Desc)
    requires i < |elems| && AtPath(elems[i].desc, p, e)
    ensures Origin(i, p) in Origins(elems)
  {
    hide AtPath;
    var ps, later := PathsOf(elems[0].desc), Origins(elems[1..]);
    if i == 0 {
      PathsComplete(elems[0].desc, p, e);
      var k :| 0 <= k < |ps| && ps[k] == p;
      assert FirstOrigins(ps)[k] == Origin(0, p);
      assert Origins(elems)[k] == Origin(0, p);
    } else {
      OriginsComplete(elems[1..], i - 1, p, e);
      var k :| 0 <= k < |later| && later[k] == Origin(i - 1, p);
      assert LaterOrigins(later)[k] == Origin(i, p);
      assert Origins(elems)[|ps| + k] == Origin(i, p);
    }
  }

  /** The recursive expansion of the elements lists their variants. */
  lemma FullAllLists<R>(elems: seq<Elem<R>>)
    ensures Lists(elems, FullAll(elems), Origins(elems))
  {
    hide AtPath, Less, Origins, FullAll;
    OriginsSound(elems);
    OriginsOrdered(elems);
    forall i: nat, p, e | i < |elems| && AtPath(elems[i].desc, p, e)
      ensures Origin(i, p) in Origins(elems)
    {
      OriginsComplete(elems, i, p, e);
    }
  }

  lemma {:induction false} FullAllLength<R>(elems: seq<Elem<R>>)
    ensures |FullAll(elems)| == Total(elems)
  {
    if elems != [] {
      FullLength(elems[0].desc);
      FullAllLength(elems[1..]);
    }
  }

  /** The elements with the common entries before their own. */
  function Merged<R>(common: Desc, input: seq<Elem<R>>): (elems: seq<Elem<R>>)
    ensures |elems| == |input|
    ensures forall i :: 0 <= i < |input| ==>
              elems[i].rest == input[i].rest && elems[i].desc == Merge(common, input[i].desc)
  {
    seq(|input|, i requires 0 <= i < |input| => Elem(Merge(common, input[i].desc), input[i].rest))
  }

  /** Rounds until nothing changes: the result lists every variant of every element once, flat and in order. */
  method MakeFlat<R>(input: seq<Elem<R>>, common: Desc) returns (output: seq<Elem<R>>, ghost origins: seq<Origin>)
    ensures Lists(Merged(common, input), output, origins)
    ensures forall i :: 0 <= i < |output| ==> IsFlat(output[i].desc)
    ensures |output| == Total(Merged(common, input))
  {
    hide Lists, FullAll, Merged, Origins;
    var elems := Merged(common, input);
    ghost var merged := elems;
    FullAllLists(merged);
    FullAllLength(merged);
    origins := Origins(merged);
    while true
      invariant FullAll(elems) == FullAll(merged)
      decreases Tallest(elems)
    {
      var any;
      output, any := Round(elems);
      if !any {
        FullAllFlat(elems);
        return;
      }
      elems := output;
    }
  }

  // ---------------------------------------------------------------- common entries

  function Lookup(d: Desc, key: string): (i: nat)
    ensures i <= |d|
    ensures i < |d| ==> d[i].key == key
    ensures forall k :: 0 <= k < i ==> d[k].key != key
  {
    if d == [] || d[0].key == key then 0 else 1 + Lookup(d[1..], key)
  }

  /** One dictionary assignment: in place if the key is there, else at the end. */
  function Assign(d: Desc, e: Entry): Desc
  {
    var i := Lookup(d, e.key);
    if i < |d| then Put(d, i, e.value) else d + [e]
  }

  /** The dictionary of the common entries overridden and extended by the element's own. */
  function Merge(common: Desc, own: Desc): Desc
  {
    if own == [] then common else Assign(Merge(common, own[..|own| - 1]), own[|own| - 1])
  }

  predicate Has(d: Desc, key: string)
  {
    Lookup(d, key) < |d|
  }

  function Get(d: Desc, key: string): Value
    requires Has(d, key)
  {
    d[Lookup(d, key)].value
  }

  lemma AssignMeaning(d: Desc, e: Entry, key: string)
    ensures Has(Assign(d, e), key) <==> key == e.key || Has(d, key)
    ensures key == e.key ==> Get(Assign(d, e), key) == e.value
    ensures key != e.key && Has(d, key) ==> Get(Assign(d, e), key) == Get(d, key)
  {
    var d', i, n := Assign(d, e), Lookup(d, e.key), Lookup(d, key);
    assert forall k :: 0 <= k < |d| ==> d'[k].key == d[k].key;
    LookupUnique(d', key, if key == e.key then i else n);
  }

  /** The first position that has the key. */
  lemma LookupUnique(d: Desc, key: string, i: nat)
    requires i <= |d| && forall k :: 0 <= k < i ==> d[k].key != key
    ensures i < |d| && d[i].key == key ==> Lookup(d, key) == i
    ensures i == |d| ==> Lookup(d, key) == i
    ensures i < |d| && d[i].key != key && i + 1 == |d| ==> Lookup(d, key) == |d|
  {
  }

  /** Every key of a merged description has the element's own value if the element has one, else the
      common one. */
  lemma {:induction false} MergeMeaning(common: Desc, own: Desc, key: string)
    requires forall i, j :: 0 <= i < j < |own| ==> own[i].key != own[j].key
    ensures Has(Merge(common, own), key) <==> Has(own, key) || Has(common, key)
    ensures Has(own, key) ==> Get(Merge(common, own), key) == Get(own, key)
    ensures !Has(own, key) && Has(common, key) ==> Get(Merge(common, own), key) == Get(common, key)
  {
    if own != [] {
      var n := |own| - 1;
      var init := own[..n];
      MergeMeaning(common, init, key);
      AssignMeaning(Merge(common, init), own[n], key);
      var i := Lookup(init, key);
      assert forall k :: 0 <= k < n ==> init[k] == own[k];
      LookupUnique(own, key, i);
    }
  }

  /** The own keys that are not in common, in order. */
  function NewKeys(common: Desc, own: Desc): seq<string>
  {
    if own == [] then []
    else
      var n := |own| - 1;
      NewKeys(common, own[..n]) + if Has(common, own[n].key) then [] else [own[n].key]
  }

  function Keys(d: Desc): (ks: seq<string>)
    ensures |ks| == |d|
  {
    seq(|d|, i requires 0 <= i < |d| => d[i].key)
  }

  /** The keys come in the order of a dictionary: the common ones first, and then the element's own new ones. */
  lemma {:induction false} MergeOrder(common: Desc, own: Desc)
    requires forall i, j :: 0 <= i < j < |own| ==> own[i].key != own[j].key
    ensures Keys(Merge(common, own)) == Keys(common) + NewKeys(common, own)
  {
    if own != [] {
      var n := |own| - 1;
      var init, key := own[..n], own[n].key;
      MergeOrder(common, init);
      MergeMeaning(common, init, key);
      assert !Has(init, key) by {
        LookupUnique(init, key, n);
      }
      var m := Merge(common, init);
      if Has(common, key) {
        assert Keys(Merge(common, own)) == Keys(m);
      } else {
        assert Keys(Merge(common, own)) == Keys(m) + [key];
      }
    }
  }
}
