/** Runs that show what the hash table and its client do not promise. */
module HashExamples {
  import opened Bits
  import opened ByteStrings
  import opened HopscotchSpec
  import opened HopscotchReplay
  import opened Hopscotch
  import opened HashImage

  // ---------------------------------------------------------------- an insertion that gives up half way

  /** No bucket is home to more than 32 keys. */
  lemma HomeCapacity(p: Params, bs: seq<Bucket>, b: nat)
    requires Inv(p, bs) && b < |bs|
    ensures |Sharers(p, Contents(p, bs), b)| <= HOP_NUMBER
  {
    var sharers := Sharers(p, Contents(p, bs), b);
    FewNamed(p, bs, b, HOP_NUMBER);
    forall k | k in sharers
      ensures k in NamedBelow(p, bs, b, HOP_NUMBER)
    {
      ContentsKeys(p, bs, k);
      var s :| HeldAt(p, bs, s, k);
      SharersHome(p, bs, s, k);
      assert Belongs(p, bs, b, s);
    }
    Subset(sharers, NamedBelow(p, bs, b, HOP_NUMBER));
  }

  /** Keys of one byte: 100 has its home in bucket 2, every other in bucket 0. */
  const CROWD := Params(1, (k: Bytes) => if k == [100] then 2 else 0)

  /** 32 keys of bucket 0 fill its neighbourhood, and the key of bucket 2 comes right after them. */
  function CrowdBucket(i: nat): Bucket
  {
    var slot := if i < 32 then Entry([i], []) else if i == 32 then Entry([100], []) else Vacant;
    Bucket(slot, if i == 0 then 0xFFFF_FFFF else if i == 2 then WithBit(0, 30) else 0)
  }

  function Crowd(): (bs: seq<Bucket>)
    ensures |bs| == 64 && forall i :: 0 <= i < 64 ==> bs[i] == CrowdBucket(i)
  {
    seq(64, i requires 0 <= i < 64 => CrowdBucket(i))
  }

  lemma {:induction false} AllOnes(n: nat, i: nat)
    requires i < n
    ensures Bit(Pow2(n) - 1, i)
  {
    if i > 0 {
      AllOnes(n - 1, i - 1);
      assert (Pow2(n) - 1) / 2 == Pow2(n - 1) - 1;
    }
  }

  lemma CrowdBits(b: nat, i: nat)
    requires b < 64 && i < HOP_NUMBER
    ensures HopBit(Crowd(), b, i) <==> b == 0 || (b == 2 && i == 30)
  {
    Pow32();
    AllOnes(WORD_BITS, i);
    ZeroHasNoBit(i);
  }

  lemma CrowdHomes(s: int)
    ensures Full(Crowd(), s) <==> 0 <= s <= 32
    ensures Full(Crowd(), s) ==> HomeAt(CROWD, Crowd(), s) == (if s == 32 then 2 else 0)
    ensures Full(Crowd(), s) ==> IdentAt(CROWD, Crowd(), s) == (if s == 32 then [100] else [s])
  {
  }

  lemma CrowdInv()
    ensures Inv(CROWD, Crowd()) && NoGaps(CROWD, Crowd())
    ensures FirstVacant(Crowd(), 0, 33) && !Stuck(CROWD, Crowd(), 33)
  {
    hide Crowd, IdentAt, HomeAt;
    var bs := Crowd();
    forall s
      ensures Full(bs, s) <==> 0 <= s <= 32
      ensures Full(bs, s) ==> HomeAt(CROWD, bs, s) == (if s == 32 then 2 else 0)
      ensures Full(bs, s) ==> IdentAt(CROWD, bs, s) == (if s == 32 then [100] else [s])
    {
      CrowdHomes(s);
    }
    forall b, i | 0 <= b < |bs| && 0 <= i < HOP_NUMBER
      ensures HopBit(bs, b, i) <==> Belongs(CROWD, bs, b, b + i)
    {
      CrowdBits(b, i);
    }
    assert Full(bs, 32);
  }

  function Singles(n: nat): (s: set<Bytes>)
    requires n <= 32
    ensures forall i :: 0 <= i < n ==> [i] in s
  {
    if n == 0 then {} else Singles(n - 1) + {[n - 1]}
  }

  lemma {:induction false} CountSingles(n: nat)
    requires n <= 32
    ensures |Singles(n)| == n && forall k :: k in Singles(n) ==> |k| == 1 && k[0] < n
  {
    if n > 0 {
      CountSingles(n - 1);
    }
  }

  lemma CrowdKeys(i: nat)
    requires i < 32
    ensures [i] in Contents(CROWD, Crowd())
  {
    CrowdInv();
    CrowdHomes(i);
    ContentsKeys(CROWD, Crowd(), [i]);
    assert HeldAt(CROWD, Crowd(), i, [i]);
  }

  lemma SingleShares(m: map<Bytes, Bytes>, k: Bytes)
    requires m == Contents(CROWD, Crowd())[[50] := []] && |k| == 1 && k[0] < 32
    ensures k in Sharers(CROWD, m, 0)
  {
    hide Contents, Crowd;
    assert k == [k[0]];
    CrowdKeys(k[0]);
  }

  /** A 33rd key of bucket 0 cannot be inserted. */
  lemma NoRoom(m: map<Bytes, Bytes>)
    requires m == Contents(CROWD, Crowd())[[50] := []]
    ensures |Sharers(CROWD, m, 0)| > HOP_NUMBER
  {
    hide Contents, Crowd, Singles;
    var fifty: Bytes := [50];
    var keys: set<Bytes> := Singles(32) + {fifty};
    CountSingles(32);
    assert fifty !in Singles(32);
    forall k: Bytes | k in Singles(32)
      ensures k in Sharers(CROWD, m, 0)
    {
      SingleShares(m, k);
    }
    Subset(keys, Sharers(CROWD, m, 0));
  }

  /** The insertion moves the key of bucket 2 out of the way, finds nothing more to move and gives up: the
      stored keys are the same, but there is now a gap where there was none. */
  method GivesUpHalfWay() returns (ret: int, ghost bs: seq<Bucket>, ghost cs: seq<Bucket>)
    ensures ret == UNMOVABLE
    ensures Inv(CROWD, bs) && Inv(CROWD, cs) && Contents(CROWD, cs) == Contents(CROWD, bs)
    ensures NoGaps(CROWD, bs) && !NoGaps(CROWD, cs)
  {
    hide Inv, NoGaps, Contents, Stuck;
    var buckets := new Bucket[64](i => if 0 <= i < 64 then CrowdBucket(i) else Bucket(Vacant, 0));
    bs := buckets[..];
    assert bs == Crowd();
    CrowdInv();
    AbsentFifty();
    ret := InsertAbsent(buckets, CROWD, 0, [50], []);
    cs := buckets[..];
    if ret == OK || ret == CROWDED {
      NoRoom(Contents(CROWD, cs));
      HomeCapacity(CROWD, cs, 0);
      assert false;
    }
    OnlyVacancy();
  }

  lemma AbsentFifty()
    ensures [50] !in Contents(CROWD, Crowd()) && Home(CROWD, [50]) == 0
  {
    CrowdInv();
    ContentsKeys(CROWD, Crowd(), [50]);
    forall s
      ensures !HeldAt(CROWD, Crowd(), s, [50])
    {
      CrowdHomes(s);
    }
  }

  lemma OnlyVacancy()
    ensures forall end :: FirstVacant(Crowd(), 0, end) ==> end == 33
    ensures !Full(Crowd(), 33)
  {
    CrowdInv();
  }

  // ---------------------------------------------------------------- two keys of one home

  const DATA: Bytes := [49, 0]

  /** An insertion near its home fills the first vacancy and moves nothing. */
  lemma InsertNear(p: Params, bs: seq<Bucket>, cs: seq<Bucket>, key: Bytes, data: Bytes, ret: int, end: nat)
    requires Inv(p, bs) && |cs| == |bs| && Home(p, key) < |bs| && Inserted(p, bs, cs, key, data, ret)
    requires Ident(p, key) !in Contents(p, bs) && FirstVacant(bs, Home(p, key), end) && end < Home(p, key) + HOP_NUMBER
    ensures ret in {OK, CROWDED} && Placed(bs, cs, Home(p, key), end, key, data)
  {
    hide Inv, NoGaps, Contents, Stuck;
    assert forall e :: FirstVacant(bs, Home(p, key), e) ==> e == end;
  }

  lemma ConstantHome(ht: HashTable, key: Bytes)
    requires forall k :: ht.hash(k) == 0
    ensures Home(ht.P(), key) == 0
  {
    hide Pow2;
    ZeroModulo(Pow2(ht.exponent));
  }

  lemma ZeroModulo(n: nat)
    requires n > 0
    ensures 0 % n == 0
  {
  }

  /** Slots 0 and 1 hold the two keys, and nothing else is stored. */
  ghost predicate HoldsPair(bs: seq<Bucket>, first: Bytes, second: Bytes)
  {
    && |bs| > 1 && bs[0].slot == Entry(first, DATA) && bs[1].slot == Entry(second, DATA)
    && forall s :: 1 < s < |bs| ==> bs[s].slot == Vacant
  }

  method TwoKeys(first: Bytes, second: Bytes) returns (ht: HashTable)
    requires |first| >= KEYLEN && |second| >= KEYLEN && first[..KEYLEN] != second[..KEYLEN]
    ensures fresh(ht) && fresh(ht.buckets) && ht.Valid() && ht.keylen == KEYLEN && forall k :: ht.hash(k) == 0
    ensures HoldsPair(ht.buckets[..], first, second)
    ensures Ident(ht.P(), first) in ht.Pairs() && Ident(ht.P(), second) in ht.Pairs()
  {
    hide Inv, NoGaps, Contents, Inserted, Pow2, IndexOf;
    ht := new HashTable(KEYLEN, _ => 0);
    ghost var bs0 := ht.buckets[..];
    ConstantHome(ht, first);
    ConstantHome(ht, second);
    BigTable(ht);
    AllVacant(bs0);
    var ret := ht.Insert(first, DATA);
    ghost var bs1 := ht.buckets[..];
    InsertNear(ht.P(), bs0, bs1, first, DATA, ret, 0);
    AddedKey(ht.P(), bs0, bs1, first, DATA, ret);
    ret := ht.Insert(second, DATA);
    InsertNear(ht.P(), bs1, ht.buckets[..], second, DATA, ret, 1);
    AddedKey(ht.P(), bs1, ht.buckets[..], second, DATA, ret);
  }

  lemma AllVacant(bs: seq<Bucket>)
    requires Occupied(bs) == {}
    ensures forall s :: 0 <= s < |bs| ==> bs[s].slot == Vacant
  {
    forall s | 0 <= s < |bs|
      ensures bs[s].slot == Vacant
    {
      assert s !in Occupied(bs);
    }
  }

  lemma AddedKey(p: Params, bs: seq<Bucket>, cs: seq<Bucket>, key: Bytes, data: Bytes, ret: int)
    requires Inv(p, bs) && |cs| == |bs| && Home(p, key) < |bs| && Inserted(p, bs, cs, key, data, ret)
    requires ret in {OK, CROWDED}
    ensures Contents(p, cs) == Contents(p, bs)[Ident(p, key) := data]
  {
  }

  lemma BigTable(ht: HashTable)
    requires ht.Valid() && ht.exponent == TABLE_SIZE
    ensures ht.buckets.Length > 1
  {
    assert Pow2(21) == 2 * Pow2(20);
  }

  /** A word all of whose bits are below w is below 2^w. */
  lemma {:induction false} HighBitsClear(h: nat, w: nat)
    requires forall j: nat :: Bit(h, j) ==> j < w
    ensures h < Pow2(w)
    decreases w
  {
    if w == 0 {
      if h > 0 {
        CtzMeaning(h, 0);
      }
    } else {
      assert forall j: nat :: Bit(h / 2, j) ==> Bit(h, j + 1);
      HighBitsClear(h / 2, w - 1);
    }
  }

  /** A bucket whose bitmap names nothing beyond offset w has a bitmap below 2^w. */
  lemma SmallHop(p: Params, bs: seq<Bucket>, b: nat, w: nat)
    requires Inv(p, bs) && b < |bs| && w <= HOP_NUMBER
    requires forall s :: b + w <= s < b + HOP_NUMBER ==> !Belongs(p, bs, b, s)
    ensures bs[b].hopinfo < Pow2(w)
  {
    forall j: nat | Bit(bs[b].hopinfo, j)
      ensures j < w
    {
      Pow32();
      BitWidth(bs[b].hopinfo, j, WORD_BITS);
      assert HopBit(bs, b, j);
      assert Belongs(p, bs, b, b + j);
    }
    HighBitsClear(bs[b].hopinfo, w);
  }

  lemma SmallPowers()
    ensures Pow2(0) == 1 && Pow2(2) == 4
  {
  }

  /** A full key field: 20 bytes that are compared, three that are not, and a NUL. */
  function Key(compared: Byte, rest: Byte): (k: Bytes)
    requires compared != 0 && rest != 0
    ensures |k| == KEYLEN && IsCString(k) && k[0] == compared && k[COMPARED] == rest
    ensures k[..COMPARED] == seq(COMPARED, _ => compared)
  {
    seq(COMPARED, _ => compared) + [rest, rest, rest, 0]
  }

  /** Buckets other than the home of all keys have empty bitmaps. */
  lemma ElsewhereEmpty(p: Params, bs: seq<Bucket>, b: nat)
    requires Inv(p, bs) && 0 < b < |bs| && forall s :: Full(bs, s) ==> HomeAt(p, bs, s) == 0
    ensures bs[b].hopinfo == 0
  {
    SmallPowers();
    SmallHop(p, bs, b, 0);
  }

  /** With all keys in slots 0 and 1, all at home in bucket 0, every bucket fits its record. */
  lemma PairFits(p: Params, bs: seq<Bucket>)
    requires Inv(p, bs) && |bs| > 1 && forall s :: Full(bs, s) ==> s <= 1 && HomeAt(p, bs, s) == 0
    requires forall s :: Full(bs, s) ==>
               IsCString(bs[s].slot.key) && |bs[s].slot.key| == KEYLEN && bs[s].slot.data == DATA
    ensures forall s :: 0 <= s < |bs| ==> Fits(bs[s])
  {
    SmallPowers();
    SmallHop(p, bs, 0, 2);
    ElsewhereEmpty(p, bs, 1);
    forall s | 0 <= s < |bs|
      ensures Fits(bs[s])
    {
      assert Full(bs, s) <==> bs[s].slot.Entry?;
      assert IsCString(DATA);
    }
  }

  method Publish(ht: HashTable) returns (addr: array<Byte>)
    requires ht.Valid() && ht.keylen == KEYLEN && forall s :: 0 <= s < ht.buckets.Length ==> Fits(ht.buckets[s])
    ensures fresh(addr) && Published(ht.P(), ht.buckets[..], addr[..])
  {
    hide Inv, Fits, Pow2, IndexOf, Describes;
    addr := new Byte[RECORD * ht.buckets.Length + WINDOW](_ => 32);
    ghost var bs := ht.buckets[..];
    forall s | 0 <= s < |bs|
      ensures Writable(addr.Length, RECORD * s, bs[s])
    {
      FitsWritable(addr.Length, RECORD * s, bs[s]);
    }
    WriteImage(ht.buckets, addr);
  }

  /** Two keys of one home; the first is removed; the client does not find the second. */
  method HiddenKey() returns (ht: HashTable, key: Bytes, a: Answer)
    ensures ht.Valid() && Ident(ht.P(), key) in ht.Pairs()
    ensures a == NotFound
  {
    hide Inv, NoGaps, Contents, Pow2, IndexOf, Erased, Key, Fits, Published, Answers;
    var first: Bytes := Key(65, 65);
    key := Key(66, 65);
    assert first[..KEYLEN] == first && key[..KEYLEN] == key && first != key;
    ht := TwoKeys(first, key);
    ghost var p, bs := ht.P(), ht.buckets[..];
    ConstantHome(ht, first);
    ConstantHome(ht, key);
    var _ := ht.Remove(first);
    ghost var s: nat :| HeldAt(p, bs, s, Ident(p, first)) && Removed(p, bs, ht.buckets[..], 0, s);
    FirstGone(p, bs, ht.buckets[..], first, key, s);
    var addr := Publish(ht);
    a := Query(addr[..], 0, key);
    QueryReachesIff(p, ht.buckets[..], addr[..], key, 1, a);
  }

  lemma FirstGone(p: Params, bs: seq<Bucket>, cs: seq<Bucket>, first: Bytes, key: Bytes, s: nat)
    requires HoldsPair(bs, first, key) && Inv(p, cs) && p.keylen == KEYLEN && first != key
    requires |first| == |key| == KEYLEN && IsCString(first) && IsCString(key)
    requires Home(p, first) == Home(p, key) == 0
    requires HeldAt(p, bs, s, Ident(p, first)) && Removed(p, bs, cs, 0, s)
    ensures |cs| > 1 && !Full(cs, 0) && HeldAt(p, cs, 1, Ident(p, key))
    ensures forall t :: 0 <= t < |cs| ==> Fits(cs[t])
  {
    assert s == 0;
    assert forall t :: Full(cs, t) ==> t == 1;
    PairFits(p, cs);
  }

  /** Two keys of one home that differ only in their last bytes: asked for the first, the client hits both. */
  method WrongHit() returns (ht: HashTable, key: Bytes, a: Answer)
    ensures ht.Valid() && |key| == KEYLEN && a.Scanned? && 0 in a.hits && 1 in a.hits
    ensures HeldAt(ht.P(), ht.buckets[..], 0, Ident(ht.P(), key)) && Confused(ht.P(), ht.buckets[..], key, 1)
  {
    hide Inv, NoGaps, Contents, Pow2, IndexOf, Key, Fits, Published, Answers;
    key := Key(65, 65);
    var second: Bytes := Key(65, 66);
    assert key[..KEYLEN] == key && second[..KEYLEN] == second && key != second;
    ht := TwoKeys(key, second);
    ghost var p, bs := ht.P(), ht.buckets[..];
    ConstantHome(ht, key);
    ConstantHome(ht, second);
    PairFits(p, bs);
    var addr := Publish(ht);
    a := Query(addr[..], 0, key);
    PairScanned(p, bs, addr[..], key, second, a);
    HitIff(p, bs, addr[..], key, 0, a);
    HitIff(p, bs, addr[..], key, 1, a);
  }

  lemma PairScanned(p: Params, bs: seq<Bucket>, region: Bytes, key: Bytes, second: Bytes, a: Answer)
    requires Published(p, bs, region) && HoldsPair(bs, key, second) && |key| == |second| == KEYLEN
    requires Home(p, key) == Home(p, second) == 0 && Answers(region, 0, key, a)
    ensures a.Scanned?
  {
    WindowShowsHome(p, bs, region, 0);
    assert Belongs(p, bs, 0, 0 + 1);
    assert HopBit(bs, 0, 1);
    assert !Bit(1, 1);
  }

  // ---------------------------------------------------------------- an answer without a comparison

  /** One key is stored; asked for another of the same home, the client answers with the one that is. */
  method WrongKey() returns (ht: HashTable, key: Bytes, a: Answer)
    ensures ht.Valid() && Ident(ht.P(), key) !in ht.Pairs()
    ensures a.Direct? && a.key != Ident(ht.P(), key)
  {
    hide Inv, NoGaps, Contents, Pow2, IndexOf, Inserted, Key, Fits, Published, Answers;
    var stored: Bytes := Key(65, 65);
    key := Key(66, 65);
    assert stored[..KEYLEN] == stored && key[..KEYLEN] == key && stored != key;
    ht := new HashTable(KEYLEN, _ => 0);
    ghost var p, bs := ht.P(), ht.buckets[..];
    ConstantHome(ht, stored);
    ConstantHome(ht, key);
    BigTable(ht);
    AllVacant(bs);
    var ret := ht.Insert(stored, DATA);
    InsertNear(p, bs, ht.buckets[..], stored, DATA, ret, 0);
    AddedKey(p, bs, ht.buckets[..], stored, DATA, ret);
    PairFits(p, ht.buckets[..]);
    var addr := Publish(ht);
    a := Query(addr[..], 0, key);
    LoneAnswered(p, ht.buckets[..], addr[..], stored, key, a);
    DirectIsRightIff(p, ht.buckets[..], addr[..], key, a);
  }

  lemma LoneAnswered(p: Params, bs: seq<Bucket>, region: Bytes, stored: Bytes, key: Bytes, a: Answer)
    requires Published(p, bs, region) && |key| >= KEYLEN && Home(p, stored) == 0 && Answers(region, 0, key, a)
    requires bs[0].slot == Entry(stored, DATA) && forall s :: 0 < s < |bs| ==> bs[s].slot == Vacant
    ensures a.Direct?
  {
    WindowShowsHome(p, bs, region, 0);
    SmallHop(p, bs, 0, 1);
    assert Pow2(1) == 2;
    assert Belongs(p, bs, 0, 0 + 0);
    assert HopBit(bs, 0, 0);
  }

  // ---------------------------------------------------------------- a table that cannot be resized

  /** The first n slots, and no others, are full. */
  ghost predicate FilledTo(bs: seq<Bucket>, n: nat)
  {
    n < |bs| && forall s :: 0 <= s < |bs| ==> (Full(bs, s) <==> s < n)
  }

  /** A table of one-byte keys that all have their home in bucket 0, with the first i of them stored. */
  ghost predicate Filled(ht: HashTable, i: nat)
    reads ht, ht.buckets
  {
    && ht.Valid() && ht.keylen == 1 && (forall k :: ht.hash(k) == 0)
    && i <= 32 < ht.buckets.Length && FilledTo(ht.buckets[..], i) && ht.Pairs().Keys == Singles(i)
  }

  method AddOne(ht: HashTable, i: nat)
    requires i < 32 && Filled(ht, i)
    modifies ht.buckets
    ensures Filled(ht, i + 1)
  {
    hide Inv, NoGaps, Contents, Pow2, IndexOf, Inserted, FilledTo, Singles, InsertOutcome, Pulled;
    ghost var p, bs := ht.P(), ht.buckets[..];
    var key: Bytes := [i];
    ConstantHome(ht, key);
    CountSingles(i);
    FilledVacancy(bs, i);
    assert Ident(p, key) == key && key !in Singles(i);
    var ret := ht.Insert(key, []);
    InsertNear(p, bs, ht.buckets[..], key, [], ret, i);
    AddedKey(p, bs, ht.buckets[..], key, [], ret);
    FilledMore(bs, ht.buckets[..], i, key);
    MoreSingles(i);
  }

  lemma FilledVacancy(bs: seq<Bucket>, i: nat)
    requires FilledTo(bs, i)
    ensures FirstVacant(bs, 0, i)
  {
  }

  lemma FilledMore(bs: seq<Bucket>, cs: seq<Bucket>, i: nat, key: Bytes)
    requires FilledTo(bs, i) && i + 1 < |bs| && Placed(bs, cs, 0, i, key, [])
    ensures FilledTo(cs, i + 1)
  {
    forall s | 0 <= s < |cs|
      ensures Full(cs, s) <==> s < i + 1
    {
      assert Full(bs, s) <==> s < i;
      assert cs[s].slot == if s == i then Entry(key, []) else bs[s].slot;
    }
  }

  lemma MoreSingles(i: nat)
    requires i < 32
    ensures Singles(i + 1) == Singles(i) + {[i]}
  {
  }

  method FillNone() returns (ht: HashTable)
    ensures fresh(ht) && fresh(ht.buckets) && Filled(ht, 0)
  {
    hide Inv, NoGaps, Contents, Pow2, IndexOf;
    ht := new HashTable(1, _ => 0);
    ManyBuckets(ht);
    AllVacant(ht.buckets[..]);
  }

  method Fill(n: nat) returns (ht: HashTable)
    requires n <= 32
    ensures fresh(ht) && fresh(ht.buckets) && Filled(ht, n)
  {
    hide Filled;
    ht := FillNone();
    for i := 0 to n
      invariant fresh(ht) && fresh(ht.buckets) && Filled(ht, i)
    {
      AddOne(ht, i);
    }
  }

  lemma ManyBuckets(ht: HashTable)
    requires ht.Valid() && ht.exponent == TABLE_SIZE
    ensures ht.buckets.Length > 32
  {
    assert Pow2(6) == 64;
    PowGrows(6, 21);
  }

  lemma {:induction false} PowGrows(m: nat, n: nat)
    requires m <= n
    ensures Pow2(m) <= Pow2(n)
  {
    if m < n {
      PowGrows(m, n - 1);
    }
  }

  /** Six keys of one home, and memory for the new buckets is granted: the table cannot be resized, and is
      left as it was. */
  method CannotResize(delta: nat) returns (ht: HashTable, ret: int, ghost before: map<Bytes, Bytes>)
    ensures ret == -1 && ht.Valid() && ht.Pairs() == before && |before.Keys| == 6
  {
    hide Inv, NoGaps, Contents, Pow2, IndexOf, Rebuilt, HomesBelow, Singles, FewSharing, FilledTo;
    ht := Fill(6);
    before := ht.Pairs();
    CountSingles(6);
    ret := ht.Resize(delta, true);
    if ret == 0 {
      SixShare(ht, before);
      assert false;
    }
  }

  lemma SixShare(ht: HashTable, m: map<Bytes, Bytes>)
    requires (forall k :: ht.hash(k) == 0) && m.Keys == Singles(6)
    ensures !FewSharing(ht.P(), m)
  {
    hide Singles;
    CountSingles(6);
    forall k | k in m
      ensures ht.P().home(k) == 0
    {
      ZeroHome(ht, k);
    }
    assert Sharers(ht.P(), m, 0) == Singles(6);
  }

  lemma ZeroHome(ht: HashTable, k: Bytes)
    requires forall k :: ht.hash(k) == 0
    ensures ht.P().home(k) == 0
  {
    hide Pow2;
    ZeroModulo(Pow2(ht.exponent));
  }
}
