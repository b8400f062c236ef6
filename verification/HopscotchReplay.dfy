/** What an insertion and a resize do to a bucket array, as functions of the array: every result code and
    every bucket they leave behind is determined by them. */
module HopscotchReplay {
  import opened Wrappers
  import opened Bits
  import opened ByteStrings
  import opened HopscotchSpec

  const OK := 0
  const FULL := -1
  const DUPLICATE := -2
  const UNMOVABLE := -3
  const CROWDED := -4

  /** The buckets once the entry that bucket hole - j offers has moved into the hole. */
  function Displaced(bs: seq<Bucket>, hole: nat, j: nat): (cs: seq<Bucket>)
    requires 1 <= j < HOP_NUMBER && j <= hole < |bs| && Offers(bs, hole, j)
    ensures |cs| == |bs|
  {
    var b, off := hole - j, Ctz(bs[hole - j].hopinfo);
    var filled := bs[hole := Bucket(bs[b + off].slot, bs[hole].hopinfo)];
    var vacated := filled[b + off := Bucket(Vacant, filled[b + off].hopinfo)];
    vacated[b := Bucket(vacated[b].slot, WithBit(WithoutBit(vacated[b].hopinfo, off), j))]
  }

  lemma DisplacedMoves(bs: seq<Bucket>, hole: nat, j: nat)
    requires 1 <= j < HOP_NUMBER && j <= hole < |bs| && Offers(bs, hole, j)
    ensures Moved(bs, Displaced(bs, hole, j), hole - j, hole - j + Ctz(bs[hole - j].hopinfo), hole)
  {
  }

  /** The nearest bucket, from distance j on, that offers an entry to move. */
  function Nearest(bs: seq<Bucket>, hole: nat, j: nat): (k: nat)
    requires 1 <= j <= HOP_NUMBER <= hole < |bs|
    ensures j <= k <= HOP_NUMBER && (k < HOP_NUMBER ==> Offers(bs, hole, k))
    ensures forall i :: j <= i < k ==> !Offers(bs, hole, i)
    decreases HOP_NUMBER - j
  {
    if j == HOP_NUMBER || Offers(bs, hole, j) then j else Nearest(bs, hole, j + 1)
  }

  /** Where a vacancy can be pulled to from `hole`, and the buckets then: into the reach of idx, or to
      where nothing more is offered. */
  function Pulled(bs: seq<Bucket>, idx: nat, hole: nat): (r: (seq<Bucket>, nat))
    requires hole < |bs|
    ensures |r.0| == |bs| && r.1 <= hole && (idx <= hole ==> idx <= r.1)
    decreases hole
  {
    if hole - idx < HOP_NUMBER then (bs, hole)
    else
      var j := Nearest(bs, hole, 1);
      if j == HOP_NUMBER then (bs, hole)
      else Pulled(Displaced(bs, hole, j), idx, hole - j + Ctz(bs[hole - j].hopinfo))
  }

  lemma PulledOnce(bs: seq<Bucket>, idx: nat, hole: nat)
    requires hole < |bs|
    ensures hole - idx < HOP_NUMBER ==> Pulled(bs, idx, hole) == (bs, hole)
    ensures hole - idx >= HOP_NUMBER ==>
              var j := Nearest(bs, hole, 1);
              Pulled(bs, idx, hole) ==
                if j == HOP_NUMBER then (bs, hole)
                else Pulled(Displaced(bs, hole, j), idx, hole - j + Ctz(bs[hole - j].hopinfo))
  {
  }

  /** The first vacant slot at or after idx, or the length. */
  function Vacancy(bs: seq<Bucket>, idx: nat): (end: nat)
    requires idx <= |bs|
    ensures idx <= end <= |bs| && (end < |bs| ==> FirstVacant(bs, idx, end))
    ensures forall q :: idx <= q < end ==> Full(bs, q)
    decreases |bs| - idx
  {
    if idx == |bs| || bs[idx].slot.Vacant? then idx else Vacancy(bs, idx + 1)
  }

  function PlacedAt(bs: seq<Bucket>, home: nat, s: nat, key: Bytes, data: Bytes): (cs: seq<Bucket>)
    requires home <= s < |bs| && s - home < HOP_NUMBER
    ensures |cs| == |bs|
  {
    var filled := bs[s := Bucket(Entry(key, data), bs[s].hopinfo)];
    filled[home := Bucket(filled[home].slot, WithBit(filled[home].hopinfo, s - home))]
  }

  lemma PlacedAtPlaces(bs: seq<Bucket>, home: nat, s: nat, key: Bytes, data: Bytes)
    requires home <= s < |bs| && s - home < HOP_NUMBER
    ensures Placed(bs, PlacedAt(bs, home, s, key, data), home, s, key, data)
  {
  }

  datatype Outcome = Outcome(table: seq<Bucket>, ret: int)

  /** The vacancy is as far as it can be pulled; it may still be out of reach. */
  function Settled(bs: seq<Bucket>, home: nat, hole: nat, key: Bytes, data: Bytes): (o: Outcome)
    requires hole < |bs| && home <= hole
    ensures |o.table| == |bs|
  {
    if hole - home >= HOP_NUMBER then Outcome(bs, UNMOVABLE)
    else
      var cs := PlacedAt(bs, home, hole, key, data);
      Outcome(cs, if cs[home].hopinfo > 32 then CROWDED else OK)
  }

  /** The insertion of a key that is not stored. */
  function AbsentOutcome(bs: seq<Bucket>, home: nat, key: Bytes, data: Bytes): (o: Outcome)
    requires home < |bs|
    ensures |o.table| == |bs|
  {
    var end := Vacancy(bs, home);
    if end == |bs| then Outcome(bs, FULL)
    else
      var (cs, hole) := Pulled(bs, home, end);
      Settled(cs, home, hole, key, data)
  }

  ghost function InsertOutcome(p: Params, bs: seq<Bucket>, key: Bytes, data: Bytes): (o: Outcome)
    requires Home(p, key) < |bs|
    ensures |o.table| == |bs|
  {
    if Ident(p, key) in Contents(p, bs) then Outcome(bs, DUPLICATE) else AbsentOutcome(bs, Home(p, key), key, data)
  }

  /** When an insertion answers what: -2 for a stored key; else -1 without a vacancy from the home on; else -3
      if the first one cannot be pulled into reach; else -4 if the home's bitmap then exceeds 32. */
  lemma InsertCodes(p: Params, bs: seq<Bucket>, key: Bytes, data: Bytes)
    requires Home(p, key) < |bs|
    ensures var home, o := Home(p, key), InsertOutcome(p, bs, key, data);
            var end := Vacancy(bs, home);
            o.ret == if Ident(p, key) in Contents(p, bs) then DUPLICATE
                     else if end == |bs| then FULL
                     else if Pulled(bs, home, end).1 >= home + HOP_NUMBER then UNMOVABLE
                     else if o.table[home].hopinfo > 32 then CROWDED
                     else OK
  {
  }

  /** A home that is vacant with an empty bitmap takes its key itself. */
  lemma FreeHome(bs: seq<Bucket>, home: nat, key: Bytes, data: Bytes)
    requires home < |bs| && bs[home] == Bucket(Vacant, 0)
    ensures AbsentOutcome(bs, home, key, data) == Outcome(bs[home := Bucket(Entry(key, data), 1)], OK)
  {
    assert Vacancy(bs, home) == home;
    PulledOnce(bs, home, home);
    assert WithBit(0, 0) == 1;
  }

  // ---------------------------------------------------------------- rebuilding

  /** Every key has its home among the first `size` buckets. */
  ghost predicate HomesBelow(q: Params, size: nat)
  {
    forall k :: q.home(k) < size
  }

  function Blank(size: nat): (bs: seq<Bucket>)
    ensures |bs| == size && forall s :: 0 <= s < size ==> bs[s] == Bucket(Vacant, 0)
  {
    seq(size, _ => Bucket(Vacant, 0))
  }

  /** The entries of the first n slots of bs inserted one after the other into an empty table of this size;
      nothing if one of them is answered by a negative code. */
  ghost function Rebuilt(q: Params, size: nat, bs: seq<Bucket>, n: nat): (r: Option<seq<Bucket>>)
    requires HomesBelow(q, size) && n <= |bs|
    ensures r.Some? ==> |r.value| == size
  {
    if n == 0 then Some(Blank(size))
    else
      var r := Rebuilt(q, size, bs, n - 1);
      if r.None? || bs[n - 1].slot.Vacant? then r
      else
        var o := InsertOutcome(q, r.value, bs[n - 1].slot.key, bs[n - 1].slot.data);
        if o.ret < 0 then None else Some(o.table)
  }

  /** One negative answer settles it. */
  lemma {:induction false} RebuiltFails(q: Params, size: nat, bs: seq<Bucket>, m: nat, n: nat)
    requires HomesBelow(q, size) && m <= n <= |bs| && Rebuilt(q, size, bs, m).None?
    ensures Rebuilt(q, size, bs, n).None?
  {
    hide InsertOutcome;
    if m < n {
      RebuiltFails(q, size, bs, m, n - 1);
    }
  }

  // ---------------------------------------------------------------- keys that share no home

  /** The keys of bs have different homes. */
  ghost predicate Apart(q: Params, bs: seq<Bucket>)
  {
    forall s, t :: 0 <= s < t < |bs| && Full(bs, s) && Full(bs, t) ==>
                     Home(q, bs[s].slot.key) != Home(q, bs[t].slot.key)
  }

  /** Bucket b is the home of one of the first n keys. */
  ghost predicate Taken(q: Params, bs: seq<Bucket>, n: nat, b: nat)
    requires n <= |bs|
  {
    exists s :: 0 <= s < n && Full(bs, s) && Home(q, bs[s].slot.key) == b
  }

  /** Every entry of cs is in its home, and a bucket that is the home of none is as new. */
  ghost predicate AllAtHome(q: Params, bs: seq<Bucket>, n: nat, cs: seq<Bucket>)
    requires n <= |bs|
  {
    && (forall s :: Full(cs, s) ==> HomeAt(q, cs, s) == s)
    && (forall b :: 0 <= b < |cs| ==> Taken(q, bs, n, b) || cs[b] == Bucket(Vacant, 0))
  }

  lemma NotAtHome(q: Params, cs: seq<Bucket>, key: Bytes)
    requires (forall s :: Full(cs, s) ==> HomeAt(q, cs, s) == s) && !Full(cs, Home(q, key))
    ensures Ident(q, key) !in Contents(q, cs)
  {
  }

  lemma OneMoreAtHome(q: Params, bs: seq<Bucket>, n: nat, cs: seq<Bucket>, ds: seq<Bucket>)
    requires n < |bs| && Full(bs, n) && Home(q, bs[n].slot.key) < |cs| && AllAtHome(q, bs, n, cs)
    requires ds == cs[Home(q, bs[n].slot.key) := Bucket(bs[n].slot, 1)]
    ensures AllAtHome(q, bs, n + 1, ds)
  {
    var home := Home(q, bs[n].slot.key);
    forall s | Full(ds, s)
      ensures HomeAt(q, ds, s) == s
    {
      assert s == home || Full(cs, s);
    }
    forall b | 0 <= b < |ds|
      ensures Taken(q, bs, n + 1, b) || ds[b] == Bucket(Vacant, 0)
    {
      assert Taken(q, bs, n, b) ==> Taken(q, bs, n + 1, b);
      assert b == home || ds[b] == cs[b];
    }
  }

  /** Keys with different homes are rebuilt, each into its home. */
  lemma {:induction false} ApartRebuilt(q: Params, size: nat, bs: seq<Bucket>, n: nat)
    requires HomesBelow(q, size) && n <= |bs| && Apart(q, bs)
    ensures Rebuilt(q, size, bs, n).Some? && AllAtHome(q, bs, n, Rebuilt(q, size, bs, n).value)
  {
    hide AbsentOutcome, Contents;
    if n > 0 {
      ApartRebuilt(q, size, bs, n - 1);
      var cs, slot := Rebuilt(q, size, bs, n - 1).value, bs[n - 1].slot;
      if slot.Vacant? {
        assert forall b :: Taken(q, bs, n - 1, b) ==> Taken(q, bs, n, b);
      } else {
        var home := Home(q, slot.key);
        assert !Taken(q, bs, n - 1, home);
        NotAtHome(q, cs, slot.key);
        FreeHome(cs, home, slot.key, slot.data);
        OneMoreAtHome(q, bs, n - 1, cs, cs[home := Bucket(slot, 1)]);
      }
    }
  }
}
