/** Flattening of multidimensional figure descriptions: each list value stands for alternatives. */
module Flatten {

  datatype Value = Atom(text: string) | List(items: seq<Value>)

  /** An ordered dictionary. */
  datatype Entry = Entry(key: string, value: Value)
  type Desc = seq<Entry>

  /** An element: the descriptor that is flattened and whatever else it carries. */
  datatype Elem<R> = Elem(desc: Desc, rest: R)

  /** A list under this key is not a set of alternatives. */
  const FSTRINGS := "fstrings"

  predicate IsChoice(e: Entry)
  {
    e.key != FSTRINGS && e.value.List?
  }

  predicate IsFlat(d: Desc)
  {
    forall i :: 0 <= i < |d| ==> !IsChoice(d[i])
  }

  /** The position of the first choice, or the length. */
  function First(d: Desc): (n: nat)
    ensures n <= |d|
    ensures forall i :: 0 <= i < n ==> !IsChoice(d[i])
    ensures n < |d| ==> IsChoice(d[n])
  {
    if d == [] || IsChoice(d[0]) then 0 else 1 + First(d[1..])
  }

  /** d with the value at position i replaced. */
  function Put(d: Desc, i: nat, v: Value): Desc
    requires i < |d|
  {
    d[i := Entry(d[i].key, v)]
  }

  // ---------------------------------------------------------------- size

  function Weight(v: Value): nat
  {
    match v
    case Atom(_) => 0
    case List(items) => 1 + ItemsWeight(items)
  }

  function ItemsWeight(items: seq<Value>): nat
  {
    if items == [] then 0 else Weight(items[0]) + ItemsWeight(items[1..])
  }

  function DescWeight(d: Desc): nat
  {
    if d == [] then 0 else Weight(d[0].value) + DescWeight(d[1..])
  }

  lemma {:induction false} ItemLighter(items: seq<Value>, i: nat)
    requires i < |items|
    ensures Weight(items[i]) <= ItemsWeight(items)
  {
    if i > 0 {
      ItemLighter(items[1..], i - 1);
    }
  }

  lemma {:induction false} PutWeight(d: Desc, i: nat, v: Value)
    requires i < |d|
    ensures DescWeight(Put(d, i, v)) + Weight(d[i].value) == DescWeight(d) + Weight(v)
  {
    if i == 0 {
      assert Put(d, i, v)[1..] == d[1..];
    } else {
      assert Put(d, i, v)[1..] == Put(d[1..], i - 1, v);
      PutWeight(d[1..], i - 1, v);
    }
  }

  /** Choosing one item makes a description lighter. */
  lemma ChoiceLighter(d: Desc, i: nat, j: nat)
    requires i < |d| && d[i].value.List? && j < |d[i].value.items|
    ensures DescWeight(Put(d, i, d[i].value.items[j])) < DescWeight(d)
  {
    ItemLighter(d[i].value.items, j);
    PutWeight(d, i, d[i].value.items[j]);
  }

  // ---------------------------------------------------------------- reference expansion

  /** The recursive expansion of a description by its first choice. */
  function Full(d: Desc): seq<Desc>
    decreases DescWeight(d), 1, 0
  {
    var i := First(d);
    if i == |d| then [d] else FullItems(d, i, 0)
  }

  function FullItems(d: Desc, i: nat, j: nat): seq<Desc>
    requires i < |d| && d[i].value.List? && j <= |d[i].value.items|
    decreases DescWeight(d), 0, |d[i].value.items| - j
  {
    if j == |d[i].value.items| then []
    else
      ChoiceLighter(d, i, j);
      Full(Put(d, i, d[i].value.items[j])) + FullItems(d, i, j + 1)
  }

  /** A value an alternative may come down to. */
  predicate Leaf(v: Value, x: Value)
    decreases v
  {
    match v
    case Atom(_) => x == v
    case List(items) => exists j :: 0 <= j < |items| && Leaf(items[j], x)
  }

  /** e is a flat variant of d: the same keys in the same order, and for each choice one of its leaves. */
  ghost predicate Variant(d: Desc, e: Desc)
  {
    && |e| == |d|
    && forall i :: 0 <= i < |d| ==>
         && e[i].key == d[i].key
         && (if IsChoice(d[i]) then Leaf(d[i].value, e[i].value) else e[i].value == d[i].value)
  }

  lemma {:induction false} LeafIsAtom(v: Value, x: Value)
    requires Leaf(v, x)
    ensures x.Atom?
    decreases v
  {
    if v.List? {
      var j :| 0 <= j < |v.items| && Leaf(v.items[j], x);
      LeafIsAtom(v.items[j], x);
    }
  }

  /** A variant of d is a variant of some description that takes one item for the first choice. */
  lemma VariantByItem(d: Desc, e: Desc)
    requires First(d) < |d|
    ensures Variant(d, e) <==>
            exists j :: 0 <= j < |d[First(d)].value.items| && Variant(Put(d, First(d), d[First(d)].value.items[j]), e)
  {
    var i := First(d);
    var items := d[i].value.items;
    if Variant(d, e) {
      var j :| 0 <= j < |items| && Leaf(items[j], e[i].value);
      LeafIsAtom(items[j], e[i].value);
      assert Variant(Put(d, i, items[j]), e);
    }
    if j :| 0 <= j < |items| && Variant(Put(d, i, items[j]), e) {
      var d' := Put(d, i, items[j]);
      assert Leaf(items[j], e[i].value) by {
        assert d'[i].value == items[j];
      }
      forall k | 0 <= k < |d|
        ensures e[k].key == d[k].key
        ensures if IsChoice(d[k]) then Leaf(d[k].value, e[k].value) else e[k].value == d[k].value
      {
        assert e[k].key == d'[k].key;
        if k != i {
          assert d'[k] == d[k];
        }
      }
    }
  }

  lemma {:induction false} FullItemsMembers(d: Desc, i: nat, j: nat, e: Desc)
    requires i < |d| && d[i].value.List? && j <= |d[i].value.items|
    ensures e in FullItems(d, i, j) <==>
            exists n :: j <= n < |d[i].value.items| && e in Full(Put(d, i, d[i].value.items[n]))
    decreases |d[i].value.items| - j
  {
    if j < |d[i].value.items| {
      FullItemsMembers(d, i, j + 1, e);
    }
  }

  /** Flattening yields all flat variants and nothing else. */
  lemma {:induction false} FullIsVariants(d: Desc, e: Desc)
    ensures e in Full(d) <==> Variant(d, e)
    decreases DescWeight(d)
  {
    var i := First(d);
    if i == |d| {
      if Variant(d, e) {
        assert e == d;
      }
    } else {
      var items := d[i].value.items;
      FullItemsMembers(d, i, 0, e);
      VariantByItem(d, e);
      forall j | 0 <= j < |items|
        ensures e in Full(Put(d, i, items[j])) <==> Variant(Put(d, i, items[j]), e)
      {
        ChoiceLighter(d, i, j);
        FullIsVariants(Put(d, i, items[j]), e);
      }
    }
  }

  lemma VariantIsFlat(d: Desc, e: Desc)
    requires Variant(d, e)
    ensures IsFlat(e)
  {
    forall i | 0 <= i < |e|
      ensures !IsChoice(e[i])
    {
      assert e[i].key == d[i].key;
      if IsChoice(d[i]) {
        LeafIsAtom(d[i].value, e[i].value);
      }
    }
  }
}
