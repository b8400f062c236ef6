/** The hopscotch bucket array as a value: its invariant, the plain map it stands for,
    and what one displacement, insertion or removal does to both. */
module HopscotchSpec {
  import opened Bits
  import opened ByteStrings

  const HOP_NUMBER := 32

  datatype Slot = Vacant | Entry(key: Bytes, data: Bytes)

  datatype Bucket = Bucket(slot: Slot, hopinfo: Word32)

  /** What fixes an index: how many key bytes count, and the bucket each such prefix calls home. */
  datatype Params = Params(keylen: nat, home: Bytes -> nat)

  /** The part of a key buffer that the table compares and hashes. */
  function Ident(p: Params, key: Bytes): Bytes
  {
    if |key| <= p.keylen then key else key[..p.keylen]
  }

  function Home(p: Params, key: Bytes): nat
  {
    p.home(Ident(p, key))
  }

  predicate Full(bs: seq<Bucket>, s: int)
  {
    0 <= s < |bs| && bs[s].slot.Entry?
  }

  ghost function Occupied(bs: seq<Bucket>): set<nat>
  {
    set s: nat | s < |bs| && Full(bs, s)
  }

  function HomeAt(p: Params, bs: seq<Bucket>, s: int): (b: nat)
    requires Full(bs, s)
  {
    Home(p, bs[s].slot.key)
  }

  function IdentAt(p: Params, bs: seq<Bucket>, s: int): Bytes
    requires Full(bs, s)
  {
    Ident(p, bs[s].slot.key)
  }

  /** Bit i of bucket b's neighbourhood bitmap. */
  predicate HopBit(bs: seq<Bucket>, b: int, i: int)
    requires 0 <= b < |bs| && 0 <= i
  {
    Bit(bs[b].hopinfo, i)
  }

  /** Slot s holds a key whose home is bucket b. */
  predicate Belongs(p: Params, bs: seq<Bucket>, b: int, s: int)
  {
    Full(bs, s) && HomeAt(p, bs, s) == b
  }

  ghost predicate BitmapsExact(p: Params, bs: seq<Bucket>)
  {
    forall b, i :: 0 <= b < |bs| && 0 <= i < HOP_NUMBER ==> (HopBit(bs, b, i) <==> Belongs(p, bs, b, b + i))
  }

  ghost predicate InNeighbourhood(p: Params, bs: seq<Bucket>)
  {
    forall s :: Full(bs, s) ==> HomeAt(p, bs, s) <= s < HomeAt(p, bs, s) + HOP_NUMBER
  }

  ghost predicate KeysDistinct(p: Params, bs: seq<Bucket>)
  {
    forall s, t :: Full(bs, s) && Full(bs, t) && IdentAt(p, bs, s) == IdentAt(p, bs, t) ==> s == t
  }

  ghost predicate KeysWide(p: Params, bs: seq<Bucket>)
  {
    forall s :: Full(bs, s) ==> |bs[s].slot.key| >= p.keylen
  }

  /** The table invariant. */
  ghost predicate Inv(p: Params, bs: seq<Bucket>)
  {
    && |bs| > 0
    && BitmapsExact(p, bs)
    && InNeighbourhood(p, bs)
    && KeysDistinct(p, bs)
    && KeysWide(p, bs)
  }

  /** Slot s holds identity k. */
  ghost predicate HeldAt(p: Params, bs: seq<Bucket>, s: int, k: Bytes)
  {
    Full(bs, s) && IdentAt(p, bs, s) == k
  }

  ghost function Idents(p: Params, bs: seq<Bucket>): set<Bytes>
  {
    set s | 0 <= s < |bs| && Full(bs, s) :: IdentAt(p, bs, s)
  }

  ghost function DataOf(p: Params, bs: seq<Bucket>, k: Bytes): Bytes
    requires k in Idents(p, bs)
  {
    var s :| 0 <= s < |bs| && Full(bs, s) && IdentAt(p, bs, s) == k;
    bs[s].slot.data
  }

  /** The plain map a table stands for. */
  ghost function Contents(p: Params, bs: seq<Bucket>): map<Bytes, Bytes>
  {
    map k | k in Idents(p, bs) :: DataOf(p, bs, k)
  }

  lemma ContentsKeys(p: Params, bs: seq<Bucket>, k: Bytes)
    requires KeysDistinct(p, bs)
    ensures k in Contents(p, bs) <==> exists s :: HeldAt(p, bs, s, k)
    ensures forall s :: HeldAt(p, bs, s, k) ==> k in Contents(p, bs) && Contents(p, bs)[k] == bs[s].slot.data
  {
    forall s | HeldAt(p, bs, s, k)
      ensures k in Contents(p, bs) && Contents(p, bs)[k] == bs[s].slot.data
    {
      assert IdentAt(p, bs, s) == k;
      assert k in Idents(p, bs);
    }
    if k in Contents(p, bs) {
      var s :| 0 <= s < |bs| && Full(bs, s) && IdentAt(p, bs, s) == k;
      assert HeldAt(p, bs, s, k);
    }
  }

  lemma HeldAfterVacate(p: Params, bs: seq<Bucket>, cs: seq<Bucket>, s: nat, k: Bytes)
    requires KeysDistinct(p, bs) && KeysDistinct(p, cs)
    requires Full(bs, s) && |cs| == |bs| && !Full(cs, s)
    requires forall t :: 0 <= t < |bs| && t != s ==> cs[t].slot == bs[t].slot
    ensures k in Contents(p, cs) <==> k in Contents(p, bs) && k != IdentAt(p, bs, s)
    ensures k in Contents(p, cs) ==> Contents(p, cs)[k] == Contents(p, bs)[k]
  {
    ContentsKeys(p, bs, k);
    ContentsKeys(p, cs, k);
    if t :| HeldAt(p, cs, t, k) {
      assert HeldAt(p, bs, t, k) && IdentAt(p, bs, t) != IdentAt(p, bs, s);
    } else if t :| HeldAt(p, bs, t, k) && t != s {
      assert HeldAt(p, cs, t, k);
    }
  }

  /** Vacating slot s, and nothing else, removes exactly its key; filling it adds exactly its pair. */
  lemma ContentsVacate(p: Params, bs: seq<Bucket>, cs: seq<Bucket>, s: nat)
    requires KeysDistinct(p, bs) && KeysDistinct(p, cs)
    requires Full(bs, s) && |cs| == |bs| && !Full(cs, s)
    requires forall t :: 0 <= t < |bs| && t != s ==> cs[t].slot == bs[t].slot
    ensures Contents(p, cs) == Contents(p, bs) - {IdentAt(p, bs, s)}
    ensures Contents(p, bs) == Contents(p, cs)[IdentAt(p, bs, s) := bs[s].slot.data]
  {
    var id, m, n := IdentAt(p, bs, s), Contents(p, bs), Contents(p, cs);
    forall k
      ensures k in n <==> k in m && k != id
      ensures k in n ==> n[k] == m[k]
    {
      HeldAfterVacate(p, bs, cs, s, k);
    }
    ContentsKeys(p, bs, id);
    assert HeldAt(p, bs, s, id);
    assert m == n[id := bs[s].slot.data];
  }

  // ---------------------------------------------------------------- lookup

  /** A key is stored exactly when its home's bitmap leads to it. */
  lemma FoundThroughHome(p: Params, bs: seq<Bucket>, key: Bytes)
    requires Inv(p, bs) && Home(p, key) < |bs|
    ensures Ident(p, key) in Contents(p, bs) <==>
            exists i :: 0 <= i < HOP_NUMBER && HopBit(bs, Home(p, key), i) &&
                        HeldAt(p, bs, Home(p, key) + i, Ident(p, key))
  {
    var b := Home(p, key);
    ContentsKeys(p, bs, Ident(p, key));
    if s :| HeldAt(p, bs, s, Ident(p, key)) {
      SameIdentSameHome(p, bs[s].slot.key, key);
      assert Belongs(p, bs, b, b + (s - b));
      assert HopBit(bs, b, s - b);
    }
  }

  lemma SameIdentSameHome(p: Params, j: Bytes, k: Bytes)
    requires Ident(p, j) == Ident(p, k)
    ensures Home(p, j) == Home(p, k)
  {
  }

  // ---------------------------------------------------------------- displacement

  /** cs is bs after the entry of slot `from`, whose home is bucket b, moved into slot `to`. */
  ghost predicate Moved(bs: seq<Bucket>, cs: seq<Bucket>, b: nat, from: nat, to: nat)
    requires b <= from < to < |bs|
  {
    && |cs| == |bs|
    && (forall s :: 0 <= s < |bs| ==>
          cs[s].slot == if s == to then bs[from].slot else if s == from then Vacant else bs[s].slot)
    && (forall c, i :: 0 <= c < |bs| && 0 <= i < HOP_NUMBER ==>
          (HopBit(cs, c, i) <==> (c == b && i == to - b) || (HopBit(bs, c, i) && !(c == b && i == from - b))))
  }

  lemma MoveKeepsInv(p: Params, bs: seq<Bucket>, cs: seq<Bucket>, b: nat, from: nat, to: nat)
    requires Inv(p, bs)
    requires b <= from < to < |bs| && to - b < HOP_NUMBER
    requires Belongs(p, bs, b, from) && !Full(bs, to)
    requires Moved(bs, cs, b, from, to)
    ensures Inv(p, cs)
  {
    assert forall s :: Full(cs, s) ==> cs[s].slot == bs[if s == to then from else s].slot;
    forall t | Full(cs, t)
      ensures HomeAt(p, cs, t) <= t < HomeAt(p, cs, t) + HOP_NUMBER
    {
      assert t != to ==> HomeAt(p, cs, t) == HomeAt(p, bs, t);
    }
    forall c, i | 0 <= c < |cs| && 0 <= i < HOP_NUMBER
      ensures HopBit(cs, c, i) <==> Belongs(p, cs, c, c + i)
    {
      assert HopBit(bs, c, i) <==> Belongs(p, bs, c, c + i);
    }
    forall s, t | Full(cs, s) && Full(cs, t) && IdentAt(p, cs, s) == IdentAt(p, cs, t)
      ensures s == t
    {
      var s0, t0 := if s == to then from else s, if t == to then from else t;
      assert IdentAt(p, bs, s0) == IdentAt(p, bs, t0);
    }
  }

  /** One displacement keeps the invariant and the stored map, and moves the vacancy. */
  lemma MoveKeeps(p: Params, bs: seq<Bucket>, cs: seq<Bucket>, b: nat, from: nat, to: nat)
    requires Inv(p, bs)
    requires b <= from < to < |bs| && to - b < HOP_NUMBER
    requires Belongs(p, bs, b, from) && !Full(bs, to)
    requires Moved(bs, cs, b, from, to)
    ensures Inv(p, cs)
    ensures Contents(p, cs) == Contents(p, bs)
    ensures Occupied(cs) == Occupied(bs) - {from} + {to}
  {
    MoveKeepsInv(p, bs, cs, b, from, to);
    var mid := bs[from := Bucket(Vacant, 0)];
    assert forall s :: Full(mid, s) ==> IdentAt(p, mid, s) == IdentAt(p, bs, s);
    ContentsVacate(p, bs, mid, from);
    ContentsVacate(p, cs, mid, to);
  }

  /** The entry in slot s may legally move into slot hole. */
  ghost predicate CanMove(p: Params, bs: seq<Bucket>, s: int, hole: int)
  {
    Full(bs, s) && s < hole < HomeAt(p, bs, s) + HOP_NUMBER
  }

  /** The test the code makes for bucket hole - j: its lowest set bit lies before the hole. */
  predicate Offers(bs: seq<Bucket>, hole: nat, j: nat)
    requires 1 <= j <= hole < |bs|
  {
    bs[hole - j].hopinfo != 0 && Ctz(bs[hole - j].hopinfo) < j
  }

  /** A bucket that passes the test names an entry that may move. */
  lemma OfferIsMove(p: Params, bs: seq<Bucket>, hole: nat, j: nat)
    requires Inv(p, bs) && 1 <= j <= hole < |bs| && j < HOP_NUMBER
    requires Offers(bs, hole, j)
    ensures Belongs(p, bs, hole - j, hole - j + Ctz(bs[hole - j].hopinfo))
  {
    var h := bs[hole - j].hopinfo;
    ZeroMeansNoBit(h);
    assert HopBit(bs, hole - j, Ctz(h));
  }

  /** Looking only at the lowest set bit loses no move: no bucket passes the test exactly when
      no entry at all may move into the hole. */
  lemma NoOfferMeansStuck(p: Params, bs: seq<Bucket>, hole: nat)
    requires Inv(p, bs) && HOP_NUMBER <= hole < |bs|
    ensures (forall j :: 1 <= j < HOP_NUMBER ==> !Offers(bs, hole, j)) <==> (forall s :: !CanMove(p, bs, s, hole))
  {
    if s :| CanMove(p, bs, s, hole) {
      var b := HomeAt(p, bs, s);
      assert Belongs(p, bs, b, b + (s - b));
      assert HopBit(bs, b, s - b);
      ZeroMeansNoBit(bs[b].hopinfo);
      CtzMeaning(bs[b].hopinfo, s - b);
      assert Offers(bs, hole, hole - b);
    }
    if j :| 1 <= j < HOP_NUMBER && Offers(bs, hole, j) {
      OfferIsMove(p, bs, hole, j);
      assert CanMove(p, bs, hole - j + Ctz(bs[hole - j].hopinfo), hole);
    }
  }

  // ---------------------------------------------------------------- placement

  /** cs is bs after a new entry went into slot s and its bit was set in the home bucket. */
  ghost predicate Placed(bs: seq<Bucket>, cs: seq<Bucket>, home: nat, s: nat, key: Bytes, data: Bytes)
    requires home <= s < |bs|
  {
    && |cs| == |bs|
    && (forall t :: 0 <= t < |bs| ==> cs[t].slot == if t == s then Entry(key, data) else bs[t].slot)
    && (forall c, i :: 0 <= c < |bs| && 0 <= i < HOP_NUMBER ==>
          (HopBit(cs, c, i) <==> (c == home && i == s - home) || HopBit(bs, c, i)))
  }

  lemma PlaceKeepsInv(p: Params, bs: seq<Bucket>, cs: seq<Bucket>, home: nat, s: nat, key: Bytes, data: Bytes)
    requires Inv(p, bs) && |key| >= p.keylen
    requires home == Home(p, key) <= s < |bs| && s - home < HOP_NUMBER
    requires !Full(bs, s) && Ident(p, key) !in Contents(p, bs)
    requires Placed(bs, cs, home, s, key, data)
    ensures Inv(p, cs)
  {
    forall c, i | 0 <= c < |cs| && 0 <= i < HOP_NUMBER
      ensures HopBit(cs, c, i) <==> Belongs(p, cs, c, c + i)
    {
      assert HopBit(bs, c, i) <==> Belongs(p, bs, c, c + i);
    }
    forall t | Full(cs, t)
      ensures HomeAt(p, cs, t) <= t < HomeAt(p, cs, t) + HOP_NUMBER
    {
      assert t != s ==> HomeAt(p, cs, t) == HomeAt(p, bs, t);
    }
    ContentsKeys(p, bs, Ident(p, key));
    forall t, u | Full(cs, t) && Full(cs, u) && IdentAt(p, cs, t) == IdentAt(p, cs, u)
      ensures t == u
    {
      assert t != s ==> HeldAt(p, bs, t, IdentAt(p, cs, t));
      assert u != s ==> HeldAt(p, bs, u, IdentAt(p, cs, u));
    }
  }

  lemma PlaceKeeps(p: Params, bs: seq<Bucket>, cs: seq<Bucket>, home: nat, s: nat, key: Bytes, data: Bytes)
    requires Inv(p, bs) && |key| >= p.keylen
    requires home == Home(p, key) <= s < |bs| && s - home < HOP_NUMBER
    requires !Full(bs, s) && Ident(p, key) !in Contents(p, bs)
    requires Placed(bs, cs, home, s, key, data)
    ensures Inv(p, cs)
    ensures Contents(p, cs) == Contents(p, bs)[Ident(p, key) := data]
    ensures Occupied(cs) == Occupied(bs) + {s}
  {
    PlaceKeepsInv(p, bs, cs, home, s, key, data);
    ContentsVacate(p, cs, bs, s);
  }

  // ---------------------------------------------------------------- removal

  /** cs is bs after slot s was vacated and its bit cleared in the home bucket. */
  ghost predicate Erased(bs: seq<Bucket>, cs: seq<Bucket>, home: nat, s: nat)
    requires home <= s < |bs|
  {
    && |cs| == |bs|
    && (forall t :: 0 <= t < |bs| ==> cs[t].slot == if t == s then Vacant else bs[t].slot)
    && (forall c, i :: 0 <= c < |bs| && 0 <= i < HOP_NUMBER ==>
          (HopBit(cs, c, i) <==> HopBit(bs, c, i) && !(c == home && i == s - home)))
  }

  lemma EraseKeepsInv(p: Params, bs: seq<Bucket>, cs: seq<Bucket>, home: nat, s: nat)
    requires Inv(p, bs) && home <= s < |bs| && Belongs(p, bs, home, s)
    requires Erased(bs, cs, home, s)
    ensures Inv(p, cs)
  {
    assert forall t :: Full(cs, t) ==> cs[t].slot == bs[t].slot;
    forall t | Full(cs, t)
      ensures HomeAt(p, cs, t) <= t < HomeAt(p, cs, t) + HOP_NUMBER
    {
      assert HomeAt(p, cs, t) == HomeAt(p, bs, t);
    }
    forall c, i | 0 <= c < |cs| && 0 <= i < HOP_NUMBER
      ensures HopBit(cs, c, i) <==> Belongs(p, cs, c, c + i)
    {
      assert HopBit(bs, c, i) <==> Belongs(p, bs, c, c + i);
    }
    forall t, u | Full(cs, t) && Full(cs, u) && IdentAt(p, cs, t) == IdentAt(p, cs, u)
      ensures t == u
    {
      assert IdentAt(p, bs, t) == IdentAt(p, bs, u);
    }
  }

  lemma EraseKeeps(p: Params, bs: seq<Bucket>, cs: seq<Bucket>, home: nat, s: nat)
    requires Inv(p, bs) && home <= s < |bs| && Belongs(p, bs, home, s)
    requires Erased(bs, cs, home, s)
    ensures Inv(p, cs)
    ensures Contents(p, cs) == Contents(p, bs) - {IdentAt(p, bs, s)}
    ensures Occupied(cs) == Occupied(bs) - {s}
  {
    EraseKeepsInv(p, bs, cs, home, s);
    ContentsVacate(p, bs, cs, s);
  }

  // ---------------------------------------------------------------- insertion as a whole

  /** The first vacant slot at or after idx. */
  ghost predicate FirstVacant(bs: seq<Bucket>, idx: nat, hole: nat)
  {
    idx <= hole < |bs| && !Full(bs, hole) && forall q :: idx <= q < hole ==> Full(bs, q)
  }

  /** cs is a state an insertion at idx may reach from bs by displacements: the vacancy `end` has
      travelled to `hole`, nothing was gained or lost, and only entries between idx and end moved. */
  ghost predicate Shifted(p: Params, bs: seq<Bucket>, cs: seq<Bucket>, idx: nat, end: nat, hole: nat)
    requires Inv(p, bs)
  {
    && Inv(p, cs) && |cs| == |bs|
    && Contents(p, cs) == Contents(p, bs)
    && FirstVacant(bs, idx, end)
    && idx <= hole <= end
    && Occupied(cs) == Occupied(bs) + {end} - {hole}
    && (forall t :: Full(cs, t) ==>
          || (Full(bs, t) && cs[t].slot == bs[t].slot)
          || (idx <= HomeAt(p, cs, t) && t <= end))
  }

  /** A displacement continues such a journey, strictly to the left and never past idx. */
  lemma ShiftOnce(p: Params, bs: seq<Bucket>, cs: seq<Bucket>, ds: seq<Bucket>,
                  idx: nat, end: nat, hole: nat, j: nat)
    requires Inv(p, bs) && Shifted(p, bs, cs, idx, end, hole)
    requires hole - idx >= HOP_NUMBER > j >= 1 && Offers(cs, hole, j)
    requires var from := hole - j + Ctz(cs[hole - j].hopinfo); Moved(cs, ds, hole - j, from, hole)
    ensures var from := hole - j + Ctz(cs[hole - j].hopinfo);
            idx < from < hole && Shifted(p, bs, ds, idx, end, from)
  {
    var b, from := hole - j, hole - j + Ctz(cs[hole - j].hopinfo);
    OfferIsMove(p, cs, hole, j);
    assert hole !in Occupied(cs) && end < |bs|;
    MoveKeeps(p, cs, ds, b, from, hole);
    assert from in Occupied(cs) && from != end;
    forall t | Full(ds, t)
      ensures (Full(bs, t) && ds[t].slot == bs[t].slot) || (idx <= HomeAt(p, ds, t) && t <= end)
    {
      if t == hole {
        assert HomeAt(p, ds, t) == b;
      } else {
        assert Full(cs, t) && ds[t].slot == cs[t].slot;
        assert HomeAt(p, ds, t) == HomeAt(p, cs, t);
      }
    }
  }

  /** The state in which the code gives up: every one of the 31 slots before the hole is full,
      and each of their keys has its home at least 32 slots before the hole. */
  ghost predicate Stuck(p: Params, bs: seq<Bucket>, hole: nat)
  {
    && HOP_NUMBER <= hole < |bs| && !Full(bs, hole)
    && forall s :: hole - HOP_NUMBER < s < hole ==> Full(bs, s) && HomeAt(p, bs, s) + HOP_NUMBER <= hole
  }

  lemma NoOfferStuck(p: Params, bs: seq<Bucket>, cs: seq<Bucket>, idx: nat, end: nat, hole: nat)
    requires Inv(p, bs) && Shifted(p, bs, cs, idx, end, hole)
    requires hole - idx >= HOP_NUMBER
    requires forall j :: 1 <= j < HOP_NUMBER ==> !Offers(cs, hole, j)
    ensures Stuck(p, cs, hole)
  {
    NoOfferMeansStuck(p, cs, hole);
    assert hole !in Occupied(cs);
    forall s | hole - HOP_NUMBER < s < hole
      ensures Full(cs, s) && HomeAt(p, cs, s) + HOP_NUMBER <= hole
    {
      assert s in Occupied(bs);
      assert s in Occupied(cs);
      assert !CanMove(p, cs, s, hole);
    }
  }

  // ---------------------------------------------------------------- probe runs

  /** Every slot from an entry's home to the entry itself is full. */
  ghost predicate NoGaps(p: Params, bs: seq<Bucket>)
  {
    forall s, q :: Full(bs, s) && HomeAt(p, bs, s) <= q <= s ==> Full(bs, q)
  }

  /** A completed insertion fills the first vacancy and leaves no gap behind. */
  lemma InsertKeepsNoGaps(p: Params, bs: seq<Bucket>, cs: seq<Bucket>, ds: seq<Bucket>,
                          idx: nat, end: nat, hole: nat, key: Bytes, data: Bytes)
    requires Inv(p, bs) && Shifted(p, bs, cs, idx, end, hole)
    requires |key| >= p.keylen && Ident(p, key) !in Contents(p, bs)
    requires idx == Home(p, key) && hole - idx < HOP_NUMBER
    requires Placed(cs, ds, idx, hole, key, data)
    ensures Occupied(ds) == Occupied(bs) + {end}
    ensures NoGaps(p, bs) ==> NoGaps(p, ds)
  {
    assert hole !in Occupied(cs);
    PlaceKeeps(p, cs, ds, idx, hole, key, data);
    assert Occupied(ds) == Occupied(bs) + {end};
    if NoGaps(p, bs) {
      forall s, q | Full(ds, s) && HomeAt(p, ds, s) <= q <= s
        ensures Full(ds, q)
      {
        assert q in Occupied(ds) by {
          if s == hole {
            assert HomeAt(p, ds, s) == idx;
          } else {
            assert Full(cs, s) && HomeAt(p, ds, s) == HomeAt(p, cs, s);
          }
          if idx <= q < end {
            assert q in Occupied(bs);
          } else if q != end {
            assert HomeAt(p, cs, s) == HomeAt(p, bs, s);
            assert Full(bs, q);
            assert q in Occupied(bs);
          }
        }
      }
    }
  }

  /** Without gaps, a bucket that some key calls home is itself full. */
  lemma NoGapsHomeFull(p: Params, bs: seq<Bucket>, b: nat)
    requires Inv(p, bs) && NoGaps(p, bs)
    requires b < |bs| && bs[b].hopinfo != 0
    ensures Full(bs, b)
  {
    ZeroMeansNoBit(bs[b].hopinfo);
    assert HopBit(bs, b, Ctz(bs[b].hopinfo));
  }

  /** An entry other than that of slot s lies beyond s with its home at or before s. */
  ghost predicate Spanned(p: Params, bs: seq<Bucket>, s: int)
  {
    exists t :: t != s && Full(bs, t) && HomeAt(p, bs, t) <= s <= t
  }

  /** A displacement leaves a gap: the entry that moved spans the slot it left. */
  lemma MoveLeavesGap(p: Params, bs: seq<Bucket>, cs: seq<Bucket>, b: nat, from: nat, to: nat)
    requires b <= from < to < |bs| && Belongs(p, bs, b, from) && Moved(bs, cs, b, from, to)
    ensures !NoGaps(p, cs)
  {
    assert Full(cs, to) && HomeAt(p, cs, to) == b <= from <= to && !Full(cs, from);
  }

  /** A removal leaves no gap if and only if no other entry spans the slot it vacates. */
  lemma EraseNoGapsIff(p: Params, bs: seq<Bucket>, cs: seq<Bucket>, home: nat, s: nat)
    requires NoGaps(p, bs) && home <= s < |bs| && Full(bs, s) && Erased(bs, cs, home, s)
    ensures NoGaps(p, cs) <==> !Spanned(p, bs, s)
  {
    assert forall t :: Full(cs, t) <==> Full(bs, t) && t != s;
    assert forall t :: Full(cs, t) ==> HomeAt(p, cs, t) == HomeAt(p, bs, t);
    if Spanned(p, bs, s) {
      var t :| t != s && Full(bs, t) && HomeAt(p, bs, t) <= s <= t;
      assert Full(cs, t) && !Full(cs, s);
    } else {
      forall t, q | Full(cs, t) && HomeAt(p, cs, t) <= q <= t
        ensures Full(cs, q)
      {
        assert Full(bs, q);
      }
    }
  }

  /** Where nothing may move, no bucket passes the test. */
  lemma StuckOffersNothing(p: Params, bs: seq<Bucket>, hole: nat, j: nat)
    requires Inv(p, bs) && Stuck(p, bs, hole) && 1 <= j < HOP_NUMBER
    ensures !Offers(bs, hole, j)
  {
    if Offers(bs, hole, j) {
      OfferIsMove(p, bs, hole, j);
    }
  }

  // ---------------------------------------------------------------- keys that share a home

  /** The stored keys whose home is bucket b. */
  ghost function Sharers(p: Params, m: map<Bytes, Bytes>, b: nat): set<Bytes>
  {
    set k | k in m && p.home(k) == b
  }

  /** The keys in the first n slots of bucket b's neighbourhood that its bitmap names. */
  ghost function NamedBelow(p: Params, bs: seq<Bucket>, b: nat, n: nat): set<Bytes>
    requires Inv(p, bs) && b < |bs| && n <= HOP_NUMBER
  {
    set s | b <= s < b + n && Belongs(p, bs, b, s) :: IdentAt(p, bs, s)
  }

  lemma {:induction false} FewNamed(p: Params, bs: seq<Bucket>, b: nat, n: nat)
    requires Inv(p, bs) && b < |bs| && n <= HOP_NUMBER
    ensures |NamedBelow(p, bs, b, n)| <= n
  {
    if n == 0 {
      assert NamedBelow(p, bs, b, 0) == {};
    } else {
      FewNamed(p, bs, b, n - 1);
      var below, s := NamedBelow(p, bs, b, n - 1), b + (n - 1);
      if Belongs(p, bs, b, s) {
        assert NamedBelow(p, bs, b, n) == below + {IdentAt(p, bs, s)};
      } else {
        assert NamedBelow(p, bs, b, n) == below;
      }
    }
  }

  /** A bitmap whose value is at most 32 names at most five keys. */
  lemma FewSharers(p: Params, bs: seq<Bucket>, b: nat)
    requires Inv(p, bs) && b < |bs| && bs[b].hopinfo <= 32
    ensures |Sharers(p, Contents(p, bs), b)| <= 5
  {
    var h, sharers := bs[b].hopinfo, Sharers(p, Contents(p, bs), b);
    forall k | k in sharers
      ensures exists s :: Belongs(p, bs, b, s) && IdentAt(p, bs, s) == k &&
                          if h < 32 then b <= s < b + 5 else s == b + 5
    {
      ContentsKeys(p, bs, k);
      var s :| HeldAt(p, bs, s, k);
      SharersHome(p, bs, s, k);
      assert Belongs(p, bs, b, b + (s - b));
      assert HopBit(bs, b, s - b);
      SmallBitmap(h);
    }
    if h < 32 {
      FewNamed(p, bs, b, 5);
      Subset(sharers, NamedBelow(p, bs, b, 5));
    } else if Full(bs, b + 5) {
      Subset(sharers, {IdentAt(p, bs, b + 5)});
    } else {
      Subset(sharers, {});
    }
  }

  lemma SharersHome(p: Params, bs: seq<Bucket>, s: int, k: Bytes)
    requires Inv(p, bs) && HeldAt(p, bs, s, k)
    ensures HomeAt(p, bs, s) == p.home(k)
  {
  }

  lemma {:induction false} Subset(a: set<Bytes>, b: set<Bytes>)
    requires a <= b
    ensures |a| <= |b|
  {
    if a != {} {
      var x :| x in a;
      Subset(a - {x}, b - {x});
    }
  }
}
