/** The hopscotch hash table: a bucket array updated in place. */
module Hopscotch {
  import opened Wrappers
  import opened Bits
  import opened ByteStrings
  import opened HopscotchSpec
  import opened HopscotchReplay

  /** log2 of the bucket count a new table starts with. */
  const TABLE_SIZE := 21

  /** Prefixes are hashed and the hash reduced to the table size, a power of two. */
  function IndexOf(keylen: nat, hash: Bytes -> Word32, sz: nat): (p: Params)
    requires sz > 0
    ensures p.keylen == keylen
  {
    Params(keylen, (k: Bytes) => hash(k) % sz)
  }

  /** No set bit of bucket idx below `upto` leads to identity k. */
  ghost predicate Misses(p: Params, bs: seq<Bucket>, idx: nat, upto: nat, k: Bytes)
    requires idx < |bs|
  {
    forall j :: 0 <= j < upto && HopBit(bs, idx, j) ==> !HeldAt(p, bs, idx + j, k)
  }

  /** A scan that misses everywhere proves the key absent. */
  lemma MissesMeansAbsent(p: Params, bs: seq<Bucket>, key: Bytes)
    requires Inv(p, bs) && Home(p, key) < |bs|
    ensures Misses(p, bs, Home(p, key), HOP_NUMBER, Ident(p, key)) <==> Ident(p, key) !in Contents(p, bs)
  {
    FoundThroughHome(p, bs, key);
  }

  /** Visit the slots that bucket idx's bitmap names, in order, until one holds the key. */
  method Scan(buckets: array<Bucket>, ghost p: Params, keylen: nat, idx: nat, key: Bytes) returns (i: nat)
    requires Inv(p, buckets[..]) && p.keylen == keylen <= |key| && idx < buckets.Length
    ensures i <= HOP_NUMBER
    ensures Misses(p, buckets[..], idx, i, Ident(p, key))
    ensures i < HOP_NUMBER ==> HopBit(buckets[..], idx, i) && HeldAt(p, buckets[..], idx + i, Ident(p, key))
  {
    ghost var bs := buckets[..];
    if buckets[idx].hopinfo == 0 {
      ZeroMeansNoBit(buckets[idx].hopinfo);
      assert forall j: nat :: !HopBit(bs, idx, j);
      return HOP_NUMBER;
    }
    i := 0;
    while i < HOP_NUMBER
      invariant i <= HOP_NUMBER
      invariant Misses(p, bs, idx, i, Ident(p, key))
    {
      if Bit(buckets[idx].hopinfo, i) {
        assert HopBit(bs, idx, i);
        assert Belongs(p, bs, idx, idx + i);
        if buckets[idx + i].slot.key[..keylen] == key[..keylen] {
          assert HeldAt(p, bs, idx + i, Ident(p, key));
          return;
        }
      }
      i := i + 1;
    }
  }

  /** The inner search of an insertion: the nearest bucket before the hole whose lowest set bit
      names an entry that may move, or HOP_NUMBER. */
  method FindMove(buckets: array<Bucket>, hole: nat) returns (j: nat)
    requires HOP_NUMBER <= hole < buckets.Length
    ensures j == Nearest(buckets[..], hole, 1)
  {
    j := 1;
    while j < HOP_NUMBER
      invariant 1 <= j <= HOP_NUMBER && Nearest(buckets[..], hole, j) == Nearest(buckets[..], hole, 1)
    {
      if buckets[hole - j].hopinfo != 0 {
        var off := Ctz(buckets[hole - j].hopinfo);
        if off < j {
          return;
        }
      }
      j := j + 1;
    }
  }

  /** Move one entry into the hole; its old slot becomes the hole. */
  method Displace(buckets: array<Bucket>, hole: nat, j: nat) returns (from: nat)
    requires 1 <= j < HOP_NUMBER && j <= hole < buckets.Length
    requires Offers(buckets[..], hole, j)
    modifies buckets
    ensures from == hole - j + Ctz(old(buckets[hole - j].hopinfo))
    ensures buckets[..] == Displaced(old(buckets[..]), hole, j)
  {
    var b, off := hole - j, Ctz(buckets[hole - j].hopinfo);
    from := b + off;
    buckets[hole] := Bucket(buckets[from].slot, buckets[hole].hopinfo);
    buckets[from] := Bucket(Vacant, buckets[from].hopinfo);
    buckets[b] := Bucket(buckets[b].slot, WithoutBit(buckets[b].hopinfo, off));
    buckets[b] := Bucket(buckets[b].slot, WithBit(buckets[b].hopinfo, j));
  }

  lemma NothingShifted(p: Params, bs: seq<Bucket>, idx: nat, end: nat)
    requires Inv(p, bs) && FirstVacant(bs, idx, end)
    ensures Shifted(p, bs, bs, idx, end, end)
  {
    assert end !in Occupied(bs);
  }

  lemma ShiftedBounds(p: Params, bs: seq<Bucket>, cs: seq<Bucket>, idx: nat, end: nat, hole: nat)
    requires Inv(p, bs) && Shifted(p, bs, cs, idx, end, hole)
    ensures |cs| == |bs| && idx <= hole <= end < |bs| && Inv(p, cs)
  {
  }

  /** A displacement shows that its start was not stuck, and leaves a gap. */
  lemma DisplacedOnce(p: Params, cs: seq<Bucket>, ds: seq<Bucket>, hole: nat, j: nat, from: nat)
    requires Inv(p, cs) && HOP_NUMBER <= hole < |cs| && 1 <= j < HOP_NUMBER && Offers(cs, hole, j)
    requires from == hole - j + Ctz(cs[hole - j].hopinfo) && Moved(cs, ds, hole - j, from, hole)
    ensures !Stuck(p, cs, hole) && !NoGaps(p, ds)
  {
    OfferIsMove(p, cs, hole, j);
    MoveLeavesGap(p, cs, ds, hole - j, from, hole);
    if Stuck(p, cs, hole) {
      StuckOffersNothing(p, cs, hole, j);
    }
  }

  /** The vacancy is on its way from `end` to where it can be pulled, and has come to `hole`. */
  ghost predicate Pulling(p: Params, bs: seq<Bucket>, cs: seq<Bucket>, idx: nat, end: nat, hole: nat)
  {
    && Inv(p, bs) && Shifted(p, bs, cs, idx, end, hole)
    && hole < |cs| == |bs| && end < |bs| && Pulled(bs, idx, end) == Pulled(cs, idx, hole)
    && (hole == end ==> cs == bs)
    && (hole < end ==> idx + HOP_NUMBER <= end && !Stuck(p, bs, end) && !NoGaps(p, cs))
  }

  lemma PullStarts(p: Params, bs: seq<Bucket>, idx: nat, end: nat)
    requires Inv(p, bs) && FirstVacant(bs, idx, end)
    ensures Pulling(p, bs, bs, idx, end, end)
  {
    NothingShifted(p, bs, idx, end);
  }

  lemma PullGoesOn(p: Params, bs: seq<Bucket>, cs: seq<Bucket>, idx: nat, end: nat, hole: nat, j: nat, from: nat)
    requires idx + HOP_NUMBER <= hole < |cs| && j == Nearest(cs, hole, 1) < HOP_NUMBER
    requires from == hole - j + Ctz(cs[hole - j].hopinfo)
    requires Pulling(p, bs, cs, idx, end, hole)
    ensures from < hole && Pulling(p, bs, Displaced(cs, hole, j), idx, end, from)
  {
    hide Displaced, Moved, Shifted, Stuck, NoGaps, Offers;
    var ds := Displaced(cs, hole, j);
    ShiftedBounds(p, bs, cs, idx, end, hole);
    DisplacedMoves(cs, hole, j);
    DisplacedOnce(p, cs, ds, hole, j, from);
    ShiftOnce(p, bs, cs, ds, idx, end, hole, j);
    PulledOnce(cs, idx, hole);
  }

  lemma PullEnds(p: Params, bs: seq<Bucket>, cs: seq<Bucket>, idx: nat, end: nat, hole: nat)
    requires hole < |cs| && end < |bs| && Pulling(p, bs, cs, idx, end, hole)
    requires hole - idx < HOP_NUMBER || Nearest(cs, hole, 1) == HOP_NUMBER
    ensures Pulled(bs, idx, end) == (cs, hole)
    ensures hole - idx >= HOP_NUMBER ==> Stuck(p, cs, hole)
  {
    PulledOnce(cs, idx, hole);
    if hole - idx >= HOP_NUMBER {
      NoOfferStuck(p, bs, cs, idx, end, hole);
    }
  }

  /** Bring the vacancy `end` into the neighbourhood of idx, one displacement at a time. */
  method PullHole(buckets: array<Bucket>, ghost p: Params, idx: nat, end: nat) returns (hole: nat, ok: bool)
    requires Inv(p, buckets[..]) && FirstVacant(buckets[..], idx, end)
    modifies buckets
    ensures Pulling(p, old(buckets[..]), buckets[..], idx, end, hole)
    ensures (buckets[..], hole) == Pulled(old(buckets[..]), idx, end) && (ok <==> hole - idx < HOP_NUMBER)
    ensures !ok ==> Stuck(p, buckets[..], hole)
  {
    hide Inv, Pulling, Stuck, Displaced, Nearest, Pulled;
    ghost var bs := buckets[..];
    PullStarts(p, bs, idx, end);
    hole := end;
    ok := true;
    while hole - idx >= HOP_NUMBER
      invariant hole < buckets.Length && Pulling(p, bs, buckets[..], idx, end, hole)
      decreases hole
    {
      ghost var cs := buckets[..];
      var j := FindMove(buckets, hole);
      if j >= HOP_NUMBER {
        ok := false;
        break;
      }
      var from := Displace(buckets, hole, j);
      PullGoesOn(p, bs, cs, idx, end, hole, j, from);
      hole := from;
    }
    PullEnds(p, bs, buckets[..], idx, end, hole);
  }

  /** Store the pair in slot s and record it in the home bucket's bitmap. */
  method Place(buckets: array<Bucket>, home: nat, s: nat, key: Bytes, data: Bytes)
    requires home <= s < buckets.Length && s - home < HOP_NUMBER
    modifies buckets
    ensures buckets[..] == PlacedAt(old(buckets[..]), home, s, key, data)
  {
    buckets[s] := Bucket(Entry(key, data), buckets[s].hopinfo);
    buckets[home] := Bucket(buckets[home].slot, WithBit(buckets[home].hopinfo, s - home));
  }

  /** Clear the slot's bit in the home bucket's bitmap and vacate it. */
  method Erase(buckets: array<Bucket>, home: nat, s: nat)
    requires home <= s < buckets.Length
    modifies buckets
    ensures Erased(old(buckets[..]), buckets[..], home, s)
  {
    buckets[home] := Bucket(buckets[home].slot, WithoutBit(buckets[home].hopinfo, s - home));
    buckets[s] := Bucket(Vacant, buckets[s].hopinfo);
  }

  /** Linear probing, without wrap-around. */
  method Probe(buckets: array<Bucket>, idx: nat) returns (end: nat)
    requires idx < buckets.Length
    ensures end == Vacancy(buckets[..], idx)
  {
    end := idx;
    while end < buckets.Length
      invariant idx <= end <= buckets.Length && Vacancy(buckets[..], end) == Vacancy(buckets[..], idx)
    {
      if buckets[end].slot.Vacant? {
        return;
      }
      end := end + 1;
    }
  }

  /** The first vacancy has been pulled from `end` to `hole` and is stuck there, out of reach; nothing has
      moved exactly if it was stuck where it was. */
  ghost predicate GaveUp(p: Params, bs: seq<Bucket>, cs: seq<Bucket>, home: nat, end: nat, hole: nat)
  {
    && FirstVacant(bs, home, end) && home + HOP_NUMBER <= hole <= end && Stuck(p, cs, hole)
    && Occupied(cs) == Occupied(bs) + {end} - {hole}
    && (cs == bs <==> Stuck(p, bs, end))
  }

  /** What an insertion of key into bs may leave behind, by result code. */
  ghost predicate Inserted(p: Params, bs: seq<Bucket>, cs: seq<Bucket>, key: Bytes, data: Bytes, ret: int)
    requires Inv(p, bs) && |cs| == |bs| && Home(p, key) < |bs|
  {
    var id, home := Ident(p, key), Home(p, key);
    && Inv(p, cs)
    && ret in {OK, FULL, DUPLICATE, UNMOVABLE, CROWDED}
    && (ret == DUPLICATE <==> id in Contents(p, bs))
    && (ret == FULL <==> id !in Contents(p, bs) && forall q :: home <= q < |bs| ==> Full(bs, q))
    && (ret in {OK, CROWDED} ==>
          && Contents(p, cs) == Contents(p, bs)[id := data]
          && (NoGaps(p, bs) ==> NoGaps(p, cs))
          && (exists end: nat :: FirstVacant(bs, home, end) && Occupied(cs) == Occupied(bs) + {end}
                            && (end - home < HOP_NUMBER ==> Placed(bs, cs, home, end, key, data)))
          && (ret == CROWDED <==> cs[home].hopinfo > 32))
    && (ret in {FULL, DUPLICATE} ==> cs == bs)
    && (ret == UNMOVABLE ==>
          && Contents(p, cs) == Contents(p, bs)
          && (exists end: nat, hole: nat :: GaveUp(p, bs, cs, home, end, hole))
          && (NoGaps(p, cs) ==> cs == bs))
  }

  lemma ShowGaveUp(p: Params, bs: seq<Bucket>, cs: seq<Bucket>, home: nat, end: nat, hole: nat)
    requires Pulling(p, bs, cs, home, end, hole) && home + HOP_NUMBER <= hole && Stuck(p, cs, hole)
    ensures GaveUp(p, bs, cs, home, end, hole)
  {
    hide Inv, Stuck, NoGaps, Pulled;
    assert end !in Occupied(bs);
    if hole < end {
      assert end in Occupied(cs);
    }
  }

  /** The insertion of an absent key that gives up. */
  lemma ShowUnmovable(p: Params, bs: seq<Bucket>, cs: seq<Bucket>, key: Bytes, data: Bytes, end: nat, hole: nat)
    requires Home(p, key) < |bs| && Ident(p, key) !in Contents(p, bs)
    requires Pulling(p, bs, cs, Home(p, key), end, hole)
    requires Home(p, key) + HOP_NUMBER <= hole && Stuck(p, cs, hole)
    ensures Inserted(p, bs, cs, key, data, UNMOVABLE)
  {
    hide Inv, Stuck, NoGaps, Pulled, Contents;
    ShowGaveUp(p, bs, cs, Home(p, key), end, hole);
    assert !Full(bs, end);
  }

  /** The insertion of an absent key that succeeds. */
  lemma ShowPlaced(p: Params, bs: seq<Bucket>, cs: seq<Bucket>, ds: seq<Bucket>, key: Bytes, data: Bytes,
                   end: nat, hole: nat)
    requires Home(p, key) < |bs| && |key| >= p.keylen && Ident(p, key) !in Contents(p, bs)
    requires Pulling(p, bs, cs, Home(p, key), end, hole) && hole - Home(p, key) < HOP_NUMBER
    requires Home(p, key) <= hole < |cs| && ds == PlacedAt(cs, Home(p, key), hole, key, data)
    ensures Inserted(p, bs, ds, key, data, if ds[Home(p, key)].hopinfo > 32 then CROWDED else OK)
  {
    hide Pulled, PlacedAt;
    var home := Home(p, key);
    PlacedAtPlaces(cs, home, hole, key, data);
    InsertKeepsNoGaps(p, bs, cs, ds, home, end, hole, key, data);
    PlaceKeeps(p, cs, ds, home, hole, key, data);
    hide Inv, NoGaps, Contents, Placed, Stuck;
    assert FirstVacant(bs, home, end) && Occupied(ds) == Occupied(bs) + {end};
    assert !Full(bs, end);
    if end - home < HOP_NUMBER {
      assert hole == end && cs == bs;
    }
  }

  /** The insertion once the key is known to be absent. */
  method InsertAbsent(buckets: array<Bucket>, ghost p: Params, idx: nat, key: Bytes, data: Bytes)
      returns (ret: int)
    requires Inv(p, buckets[..]) && |key| >= p.keylen && idx == Home(p, key) < buckets.Length
    requires Ident(p, key) !in Contents(p, buckets[..])
    modifies buckets
    ensures Outcome(buckets[..], ret) == AbsentOutcome(old(buckets[..]), idx, key, data)
    ensures Inserted(p, old(buckets[..]), buckets[..], key, data, ret)
  {
    hide Inv, Pulled, PlacedAt, Pulling, Stuck, Contents, Inserted;
    ghost var bs := buckets[..];
    var end := Probe(buckets, idx);
    if end >= buckets.Length {
      ShowFull(p, bs, key, data);
      return FULL;
    }
    var hole, ok := PullHole(buckets, p, idx, end);
    ghost var cs := buckets[..];
    if !ok {
      ShowUnmovable(p, bs, cs, key, data, end, hole);
      return UNMOVABLE;
    }
    Place(buckets, idx, hole, key, data);
    ShowPlaced(p, bs, cs, buckets[..], key, data, end, hole);
    if buckets[idx].hopinfo > 32 {
      return CROWDED;
    }
    return OK;
  }

  /** A key whose home bucket has an empty bitmap is not stored. */
  lemma FreeMeansAbsent(p: Params, bs: seq<Bucket>, key: Bytes)
    requires Inv(p, bs) && Home(p, key) < |bs|
    ensures bs[Home(p, key)].hopinfo == 0 ==> Ident(p, key) !in Contents(p, bs)
  {
    ZeroMeansNoBit(bs[Home(p, key)].hopinfo);
    FoundThroughHome(p, bs, key);
  }

  lemma ShowDuplicate(p: Params, bs: seq<Bucket>, key: Bytes, data: Bytes)
    requires Inv(p, bs) && Home(p, key) < |bs| && Ident(p, key) in Contents(p, bs)
    ensures Inserted(p, bs, bs, key, data, DUPLICATE)
  {
  }

  lemma ShowFull(p: Params, bs: seq<Bucket>, key: Bytes, data: Bytes)
    requires Inv(p, bs) && Home(p, key) < |bs| && Ident(p, key) !in Contents(p, bs)
    requires forall q :: Home(p, key) <= q < |bs| ==> Full(bs, q)
    ensures Inserted(p, bs, bs, key, data, FULL)
  {
  }

  /** Slot s has been vacated, and a table without gaps is left without exactly if no other entry spans it. */
  ghost predicate Removed(p: Params, bs: seq<Bucket>, cs: seq<Bucket>, home: nat, s: nat)
  {
    home <= s < |bs| && Erased(bs, cs, home, s) && (NoGaps(p, bs) ==> (NoGaps(p, cs) <==> !Spanned(p, bs, s)))
  }

  lemma HeldHere(p: Params, bs: seq<Bucket>, idx: nat, i: nat, key: Bytes)
    requires Inv(p, bs) && idx == Home(p, key) && HeldAt(p, bs, idx + i, Ident(p, key))
    ensures Belongs(p, bs, idx, idx + i)
    ensures Ident(p, key) in Contents(p, bs) && Contents(p, bs)[Ident(p, key)] == bs[idx + i].slot.data
  {
    ContentsKeys(p, bs, Ident(p, key));
  }

  class HashTable {
    const keylen: nat
    const hash: Bytes -> Word32
    var exponent: nat
    var buckets: array<Bucket>

    ghost function P(): Params
      reads this
    {
      IndexOf(keylen, hash, Pow2(exponent))
    }

    ghost predicate Valid()
      reads this, buckets
    {
      buckets.Length == Pow2(exponent) && Inv(P(), buckets[..])
    }

    /** The plain map this table stands for. */
    ghost function Pairs(): map<Bytes, Bytes>
      reads this, buckets
    {
      Contents(P(), buckets[..])
    }

    constructor (keylen: nat, hash: Bytes -> Word32)
      ensures Valid() && fresh(buckets)
      ensures this.keylen == keylen && this.hash == hash && exponent == TABLE_SIZE == 21
      ensures Pairs() == map[] && Occupied(buckets[..]) == {} && NoGaps(P(), buckets[..])
    {
      this.keylen, this.hash, exponent := keylen, hash, TABLE_SIZE;
      buckets := new Bucket[Pow2(TABLE_SIZE)](_ => Bucket(Vacant, 0));
      new;
      EmptyTable(P(), buckets[..]);
    }

    /** The home bucket of a key: its hash masked to the table size. */
    method HomeIndex(key: Bytes) returns (idx: nat)
      requires Valid() && |key| >= keylen
      ensures idx == Home(P(), key) < buckets.Length
      ensures idx == hash(key[..keylen]) % Pow2(exponent)
    {
      assert Ident(P(), key) == key[..keylen];
      idx := hash(key[..keylen]) % buckets.Length;
    }

    /** The scan that lookup and removal share: the home bucket and the offset from it at which the
        key sits, or HOP_NUMBER. */
    method Find(key: Bytes) returns (idx: nat, i: nat)
      requires Valid() && |key| >= keylen
      ensures idx == Home(P(), key) < buckets.Length
      ensures i <= HOP_NUMBER
      ensures i < HOP_NUMBER ==> HeldAt(P(), buckets[..], idx + i, Ident(P(), key))
      ensures i == HOP_NUMBER ==> Ident(P(), key) !in Pairs()
    {
      idx := HomeIndex(key);
      i := Scan(buckets, P(), keylen, idx, key);
      MissesMeansAbsent(P(), buckets[..], key);
    }

    method Lookup(key: Bytes) returns (data: Option<Bytes>)
      requires Valid() && |key| >= keylen
      ensures data == if Ident(P(), key) in Pairs() then Some(Pairs()[Ident(P(), key)]) else None
    {
      var idx, i := Find(key);
      if i == HOP_NUMBER {
        return None;
      }
      ContentsKeys(P(), buckets[..], Ident(P(), key));
      return Some(buckets[idx + i].slot.data);
    }

    method Insert(key: Bytes, data: Bytes) returns (ret: int)
      requires Valid() && |key| >= keylen
      modifies buckets
      ensures Valid()
      ensures Home(P(), key) < buckets.Length
      ensures Outcome(buckets[..], ret) == InsertOutcome(P(), old(buckets[..]), key, data)
      ensures var home := hash(key[..keylen]) % Pow2(exponent);
              && home < buckets.Length
              && var end := Vacancy(old(buckets[..]), home);
                 ret == if key[..keylen] in old(Pairs()) then -2
                        else if end == buckets.Length then -1
                        else if Pulled(old(buckets[..]), home, end).1 >= home + 32 then -3
                        else if buckets[home].hopinfo > 32 then -4
                        else 0
      ensures var home := hash(key[..keylen]) % Pow2(exponent);
              old(buckets[home]) == Bucket(Vacant, 0) ==> ret == 0 && buckets[home] == Bucket(Entry(key, data), 1)
      ensures Inserted(P(), old(buckets[..]), buckets[..], key, data, ret)
    {
      hide Inv, Pulled, Vacancy, AbsentOutcome, IndexOf, Pow2;
      var found := Lookup(key);
      var idx := HomeIndex(key);
      assert Ident(P(), key) == key[..keylen];
      FreeMeansAbsent(P(), buckets[..], key);
      if found.Some? {
        ShowDuplicate(P(), buckets[..], key, data);
        return DUPLICATE;
      }
      InsertCodes(P(), buckets[..], key, data);
      if buckets[idx] == Bucket(Vacant, 0) {
        FreeHome(buckets[..], idx, key, data);
      }
      ret := InsertAbsent(buckets, P(), idx, key, data);
    }

    method Remove(key: Bytes) returns (data: Option<Bytes>)
      requires Valid() && |key| >= keylen
      modifies buckets
      ensures Valid()
      ensures Pairs() == old(Pairs()) - {Ident(P(), key)}
      ensures data == if Ident(P(), key) in old(Pairs()) then Some(old(Pairs())[Ident(P(), key)]) else None
      ensures data == None ==> buckets[..] == old(buckets[..])
      ensures data.Some? ==>
                exists s: nat :: HeldAt(P(), old(buckets[..]), s, Ident(P(), key)) &&
                            Removed(P(), old(buckets[..]), buckets[..], Home(P(), key), s)
    {
      hide Inv, NoGaps, Contents, IndexOf, Pow2;
      ghost var p, bs := P(), buckets[..];
      var idx, i := Find(key);
      if i == HOP_NUMBER {
        return None;
      }
      HeldHere(p, bs, idx, i, key);
      data := Some(buckets[idx + i].slot.data);
      Erase(buckets, idx, idx + i);
      EraseKeeps(p, bs, buckets[..], idx, idx + i);
      if NoGaps(p, bs) {
        EraseNoGapsIff(p, bs, buckets[..], idx, idx + i);
      }
      assert HeldAt(p, bs, idx + i, Ident(p, key)) && Removed(p, bs, buckets[..], idx, idx + i);
    }

    /** One turn of the loop of a resize: slot i of the old buckets bs, if it holds an entry. */
    method Reinsert(ghost p: Params, ghost bs: seq<Bucket>, ghost i: nat, slot: Slot) returns (ok: bool)
      requires Valid() && NoGaps(P(), buckets[..]) && FewSharing(P(), Pairs())
      requires HomesBelow(P(), buckets.Length) && i < |bs| && Rebuilt(P(), buckets.Length, bs, i) == Some(buckets[..])
      requires Inv(p, bs) && p.keylen == keylen && i < |bs| && slot == bs[i].slot && Pairs() == Contents(p, bs[..i])
      modifies buckets
      ensures Valid()
      ensures ok ==>
                Pairs() == Contents(p, bs[..i + 1]) && NoGaps(P(), buckets[..]) && FewSharing(P(), Pairs())
      ensures Rebuilt(P(), buckets.Length, bs, i + 1) == if ok then Some(buckets[..]) else None
    {
      hide Inv, Inserted, InsertOutcome, NoGaps, Contents, FewSharing, IndexOf, Pow2, Ident, Home, HomesBelow;
      ok := true;
      PrefixGrows(p, bs, i);
      if slot.Entry? {
        SameIdent(p, P(), slot.key);
        ghost var cs := buckets[..];
        var r := Insert(slot.key, slot.data);
        if r < 0 {
          ok := false;
        } else {
          StillFew(P(), cs, buckets[..], slot.key, slot.data, r);
        }
      }
    }

    /** Rebuild over 2^(exponent + delta) buckets; `granted` says whether the memory was granted.  It succeeds
        exactly if memory is granted and every re-insertion, slot by slot from an empty table, is answered by
        0; a bitmap whose value exceeds 32 is enough to undo it all.  So it never succeeds if more than five
        keys share a home in the new table. */
    method Resize(delta: int, granted: bool) returns (ret: int)
      requires Valid() && exponent + delta >= 0
      modifies this
      ensures Valid()
      ensures ret == 0 || ret == -1
      ensures ret == 0 ==> granted && exponent == old(exponent) + delta && fresh(buckets) && Pairs() == old(Pairs())
      ensures ret == 0 ==> NoGaps(P(), buckets[..]) && FewSharing(P(), Pairs())
      ensures ret == -1 ==> exponent == old(exponent) && buckets == old(buckets)
      ensures var size := Pow2(old(exponent) + delta);
              var q := IndexOf(keylen, hash, size);
              && HomesBelow(q, size)
              && var r := Rebuilt(q, size, old(buckets[..]), |old(buckets[..])|);
                 (ret == 0 <==> granted && r.Some?) && (ret == 0 ==> buckets[..] == r.value)
      ensures var old', size := old(buckets[..]), Pow2(old(exponent) + delta);
              granted
              && (forall s, t :: 0 <= s < t < |old'| && old'[s].slot.Entry? && old'[t].slot.Entry? ==>
                    hash(old'[s].slot.key[..keylen]) % size != hash(old'[t].slot.key[..keylen]) % size) ==>
                ret == 0
    {
      hide Inv, Rebuilt, NoGaps, Contents, FewSharing, IndexOf, Pow2, HomesBelow;
      IndexBelow(keylen, hash, Pow2(exponent + delta));
      HashedApart(P(), buckets[..], keylen, hash, Pow2(exponent + delta));
      if !granted {
        return -1;
      }
      ghost var p, bs := P(), buckets[..];
      var obuckets, oexp := buckets, exponent;
      exponent := oexp + delta;
      buckets := new Bucket[Pow2(exponent)](_ => Bucket(Vacant, 0));
      EmptyTable(P(), buckets[..]);
      PrefixEmpty(p, bs);
      NoSharers(P());
      RebuiltNothing(P(), buckets[..], bs);
      var i := 0;
      while i < obuckets.Length
        invariant i <= |bs| == obuckets.Length && bs == obuckets[..]
        invariant fresh(buckets) && exponent == oexp + delta
        invariant Valid() && NoGaps(P(), buckets[..])
        invariant Pairs() == Contents(p, bs[..i])
        invariant FewSharing(P(), Pairs())
        invariant HomesBelow(P(), buckets.Length) && Rebuilt(P(), buckets.Length, bs, i) == Some(buckets[..])
      {
        var ok := Reinsert(p, bs, i, obuckets[i].slot);
        if !ok {
          RebuiltFails(P(), buckets.Length, bs, i + 1, |bs|);
          buckets, exponent := obuckets, oexp;
          return -1;
        }
        i := i + 1;
      }
      assert bs[..i] == bs;
      return 0;
    }
  }

  /** A new table, unless the memory for its buckets, or for the table itself if the caller brings none, is
      refused; in the latter case the buckets are leaked. */
  method Init(keylen: nat, hash: Bytes -> Word32, bucketsGranted: bool, given: bool, tableGranted: bool)
      returns (ht: Option<HashTable>, leaked: bool)
    ensures leaked <==> bucketsGranted && !given && !tableGranted
    ensures ht.None? <==> !bucketsGranted || (!given && !tableGranted)
    ensures ht.Some? ==>
              && fresh(ht.value) && fresh(ht.value.buckets) && ht.value.Valid()
              && ht.value.keylen == keylen && ht.value.hash == hash && ht.value.exponent == TABLE_SIZE
              && ht.value.Pairs() == map[] && NoGaps(ht.value.P(), ht.value.buckets[..])
  {
    if !bucketsGranted {
      return None, false;
    }
    if !given && !tableGranted {
      return None, true;
    }
    var table := new HashTable(keylen, hash);
    return Some(table), false;
  }

  /** No more than five keys share any home. */
  ghost predicate FewSharing(p: Params, m: map<Bytes, Bytes>)
  {
    forall b :: |Sharers(p, m, b)| <= 5
  }

  /** An insertion that reports no crowding keeps every bucket below six keys. */
  lemma StillFew(p: Params, bs: seq<Bucket>, cs: seq<Bucket>, key: Bytes, data: Bytes, ret: int)
    requires Inv(p, bs) && |cs| == |bs| && Home(p, key) < |bs| && Inserted(p, bs, cs, key, data, ret) && ret >= 0
    requires NoGaps(p, bs) && FewSharing(p, Contents(p, bs))
    ensures Contents(p, cs) == Contents(p, bs)[Ident(p, key) := data] && NoGaps(p, cs)
    ensures FewSharing(p, Contents(p, cs))
  {
    hide NoGaps;
    var m, home := Contents(p, bs), Home(p, key);
    forall b
      ensures |Sharers(p, Contents(p, cs), b)| <= 5
    {
      if b == home {
        FewSharers(p, cs, home);
      } else {
        assert Sharers(p, m[Ident(p, key) := data], b) == Sharers(p, m, b);
      }
    }
  }

  lemma IndexBelow(keylen: nat, hash: Bytes -> Word32, sz: nat)
    requires sz > 0
    ensures HomesBelow(IndexOf(keylen, hash, sz), sz)
  {
  }

  /** Keys whose hashes differ modulo the new size are rebuilt. */
  lemma HashedApart(p: Params, bs: seq<Bucket>, keylen: nat, hash: Bytes -> Word32, size: nat)
    requires Inv(p, bs) && p.keylen == keylen && size > 0 && HomesBelow(IndexOf(keylen, hash, size), size)
    ensures (forall s, t :: 0 <= s < t < |bs| && bs[s].slot.Entry? && bs[t].slot.Entry? ==>
               hash(bs[s].slot.key[..keylen]) % size != hash(bs[t].slot.key[..keylen]) % size) ==>
              Rebuilt(IndexOf(keylen, hash, size), size, bs, |bs|).Some?
  {
    var q := IndexOf(keylen, hash, size);
    if forall s, t :: 0 <= s < t < |bs| && bs[s].slot.Entry? && bs[t].slot.Entry? ==>
         hash(bs[s].slot.key[..keylen]) % size != hash(bs[t].slot.key[..keylen]) % size {
      forall s, t | 0 <= s < t < |bs| && Full(bs, s) && Full(bs, t)
        ensures Home(q, bs[s].slot.key) != Home(q, bs[t].slot.key)
      {
        IndexIs(keylen, hash, size, bs[s].slot.key);
        IndexIs(keylen, hash, size, bs[t].slot.key);
      }
      ApartRebuilt(q, size, bs, |bs|);
    }
  }

  /** The home of a key, from its hash. */
  lemma IndexIs(keylen: nat, hash: Bytes -> Word32, sz: nat, key: Bytes)
    requires sz > 0 && |key| >= keylen
    ensures Home(IndexOf(keylen, hash, sz), key) == hash(key[..keylen]) % sz
  {
    assert Ident(IndexOf(keylen, hash, sz), key) == key[..keylen];
  }

  lemma RebuiltNothing(q: Params, cs: seq<Bucket>, bs: seq<Bucket>)
    requires HomesBelow(q, |cs|) && forall s :: 0 <= s < |cs| ==> cs[s] == Bucket(Vacant, 0)
    ensures Rebuilt(q, |cs|, bs, 0) == Some(cs)
  {
    assert Blank(|cs|) == cs;
  }

  lemma NoSharers(p: Params)
    ensures FewSharing(p, map[])
  {
    assert forall b :: Sharers(p, map[], b) == {};
  }

  lemma SameIdent(p: Params, q: Params, key: Bytes)
    requires p.keylen == q.keylen
    ensures Ident(p, key) == Ident(q, key)
  {
  }

  lemma PrefixEmpty(p: Params, bs: seq<Bucket>)
    ensures Contents(p, bs[..0]) == map[]
  {
    assert forall k :: k !in Contents(p, bs[..0]);
  }

  /** The pairs of the first i + 1 slots are those of the first i, plus slot i's own, which is new. */
  lemma PrefixGrows(p: Params, bs: seq<Bucket>, i: nat)
    requires Inv(p, bs) && i < |bs|
    ensures !Full(bs, i) ==> Contents(p, bs[..i + 1]) == Contents(p, bs[..i])
    ensures Full(bs, i) ==>
              && |bs[i].slot.key| >= p.keylen
              && IdentAt(p, bs, i) !in Contents(p, bs[..i])
              && Contents(p, bs[..i + 1]) == Contents(p, bs[..i])[IdentAt(p, bs, i) := bs[i].slot.data]
  {
    PrefixDistinct(p, bs, i);
    PrefixDistinct(p, bs, i + 1);
    hide Contents, KeysDistinct, Ident;
    var m, n := Contents(p, bs[..i]), Contents(p, bs[..i + 1]);
    forall k
      ensures Full(bs, i) && IdentAt(p, bs, i) == k ==> k !in m && k in n && n[k] == bs[i].slot.data
      ensures !(Full(bs, i) && IdentAt(p, bs, i) == k) ==> (k in n <==> k in m) && (k in n ==> n[k] == m[k])
    {
      HeldInPrefix(p, bs, i, k);
    }
  }

  lemma PrefixDistinct(p: Params, bs: seq<Bucket>, i: nat)
    requires KeysDistinct(p, bs) && i <= |bs|
    ensures KeysDistinct(p, bs[..i])
  {
    forall s, t | Full(bs[..i], s) && Full(bs[..i], t) && IdentAt(p, bs[..i], s) == IdentAt(p, bs[..i], t)
      ensures s == t
    {
      assert IdentAt(p, bs, s) == IdentAt(p, bs, t);
    }
  }

  lemma KeysOnce(p: Params, bs: seq<Bucket>, k: Bytes)
    requires KeysDistinct(p, bs)
    ensures forall s, t :: HeldAt(p, bs, s, k) && HeldAt(p, bs, t, k) ==> s == t
  {
  }

  lemma HeldInPrefix(p: Params, bs: seq<Bucket>, i: nat, k: Bytes)
    requires i < |bs| && KeysDistinct(p, bs) && KeysDistinct(p, bs[..i]) && KeysDistinct(p, bs[..i + 1])
    ensures var m, n := Contents(p, bs[..i]), Contents(p, bs[..i + 1]);
            && (HeldAt(p, bs, i, k) ==> k !in m && k in n && n[k] == bs[i].slot.data)
            && (!HeldAt(p, bs, i, k) ==> (k in n <==> k in m) && (k in n ==> n[k] == m[k]))
  {
    hide Contents, KeysDistinct;
    ContentsKeys(p, bs[..i], k);
    ContentsKeys(p, bs[..i + 1], k);
    KeysOnce(p, bs, k);
    if HeldAt(p, bs, i, k) {
      assert HeldAt(p, bs[..i + 1], i, k);
      assert forall s :: HeldAt(p, bs[..i], s, k) ==> HeldAt(p, bs, s, k);
    } else {
      assert forall s :: HeldAt(p, bs[..i + 1], s, k) <==> HeldAt(p, bs[..i], s, k);
    }
  }

  lemma EmptyTable(p: Params, bs: seq<Bucket>)
    requires |bs| > 0 && forall s :: 0 <= s < |bs| ==> bs[s] == Bucket(Vacant, 0)
    ensures Inv(p, bs) && NoGaps(p, bs)
    ensures Contents(p, bs) == map[] && Occupied(bs) == {}
  {
    ZeroMeansNoBit(0);
    assert forall k :: k !in Contents(p, bs);
  }
}
