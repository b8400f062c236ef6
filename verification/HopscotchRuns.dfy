/** Whole runs of table operations against a plain map that replays the same calls. */
module HopscotchRuns {
  import opened Wrappers
  import opened Bits
  import opened ByteStrings
  import opened HopscotchSpec
  import opened HopscotchReplay
  import opened Hopscotch
  import opened HashImage

  datatype Call =
    | LookupCall(key: Bytes)
    | InsertCall(key: Bytes, data: Bytes)
    | RemoveCall(key: Bytes)
    | ResizeCall(exponent: nat, granted: bool)

  datatype Reply = Code(ret: int) | Data(data: Option<Bytes>)

  type PlainMap = map<Bytes, Bytes>

  /** What the plain map becomes after a call that was answered with reply. */
  function After(keylen: nat, m: PlainMap, c: Call, r: Reply): PlainMap
    requires KeyOk(keylen, c)
  {
    match c
    case LookupCall(_) => m
    case InsertCall(k, d) => if r == Code(OK) || r == Code(CROWDED) then m[k[..keylen] := d] else m
    case RemoveCall(k) => m - {k[..keylen]}
    case ResizeCall(_, _) => m
  }

  function Get(m: PlainMap, k: Bytes): Option<Bytes>
  {
    if k in m then Some(m[k]) else None
  }

  /** The answers that the plain map m allows for a call. */
  predicate Allowed(keylen: nat, m: PlainMap, c: Call, r: Reply)
    requires KeyOk(keylen, c)
  {
    match c
    case LookupCall(k) => r == Data(Get(m, k[..keylen]))
    case InsertCall(k, _) =>
      && r.Code? && r.ret in {OK, FULL, DUPLICATE, UNMOVABLE, CROWDED}
      && (r.ret == DUPLICATE <==> k[..keylen] in m)
    case RemoveCall(k) => r == Data(Get(m, k[..keylen]))
    case ResizeCall(_, granted) => r == Code(-1) || (granted && r == Code(0))
  }

  /** Callers pass key buffers of at least keylen bytes. */
  predicate KeyOk(keylen: nat, c: Call)
  {
    c.ResizeCall? || |c.key| >= keylen
  }

  predicate KeysOk(keylen: nat, calls: seq<Call>)
  {
    forall i :: 0 <= i < |calls| ==> KeyOk(keylen, calls[i])
  }

  /** The plain map after replaying a run from an empty map. */
  function Replay(keylen: nat, calls: seq<Call>, replies: seq<Reply>): PlainMap
    requires |calls| == |replies| && KeysOk(keylen, calls)
  {
    if calls == [] then map[] else
      var n := |calls| - 1;
      After(keylen, Replay(keylen, calls[..n], replies[..n]), calls[n], replies[n])
  }

  ghost predicate AllAllowed(keylen: nat, calls: seq<Call>, replies: seq<Reply>)
    requires |calls| == |replies| && KeysOk(keylen, calls)
  {
    forall i :: 0 <= i < |calls| ==> Allowed(keylen, Replay(keylen, calls[..i], replies[..i]), calls[i], replies[i])
  }

  /** No removal was called and no insertion was abandoned half way. */
  predicate Undisturbed(calls: seq<Call>, replies: seq<Reply>)
  {
    (forall c :: c in calls ==> !c.RemoveCall?) && Code(UNMOVABLE) !in replies
  }

  method Step(ht: HashTable, c: Call) returns (r: Reply)
    requires ht.Valid() && KeyOk(ht.keylen, c)
    modifies ht, ht.buckets
    ensures ht.Valid() && (ht.buckets == old(ht.buckets) || fresh(ht.buckets))
    ensures Allowed(ht.keylen, old(ht.Pairs()), c, r)
    ensures ht.Pairs() == After(ht.keylen, old(ht.Pairs()), c, r)
    ensures old(NoGaps(ht.P(), ht.buckets[..])) && !c.RemoveCall? && r != Code(UNMOVABLE) ==>
              NoGaps(ht.P(), ht.buckets[..])
  {
    if !c.ResizeCall? {
      assert Ident(ht.P(), c.key) == c.key[..ht.keylen];
    }
    match c {
      case LookupCall(k) =>
        var d := ht.Lookup(k);
        r := Data(d);
      case InsertCall(k, d) =>
        var ret := ht.Insert(k, d);
        r := Code(ret);
      case RemoveCall(k) =>
        var d := ht.Remove(k);
        r := Data(d);
      case ResizeCall(e, granted) =>
        var ret := ht.Resize(e - ht.exponent, granted);
        r := Code(ret);
    }
  }

  /** The run so far explains the present map m, and `tidy` (no gaps) if it was undisturbed. */
  ghost predicate Explains(keylen: nat, calls: seq<Call>, replies: seq<Reply>, m: PlainMap, tidy: bool)
  {
    && |calls| == |replies| && KeysOk(keylen, calls)
    && AllAllowed(keylen, calls, replies)
    && m == Replay(keylen, calls, replies)
    && (Undisturbed(calls, replies) ==> tidy)
  }

  lemma ExplainsGrows(keylen: nat, calls: seq<Call>, replies: seq<Reply>, m: PlainMap, tidy: bool,
                      c: Call, r: Reply, n: PlainMap, tidy': bool)
    requires Explains(keylen, calls, replies, m, tidy)
    requires KeyOk(keylen, c) && Allowed(keylen, m, c, r) && n == After(keylen, m, c, r)
    requires tidy && !c.RemoveCall? && r != Code(UNMOVABLE) ==> tidy'
    ensures Explains(keylen, calls + [c], replies + [r], n, tidy')
  {
    var cs, rs := calls + [c], replies + [r];
    assert cs[..|calls|] == calls && rs[..|calls|] == replies;
    forall i | 0 <= i < |cs|
      ensures Allowed(keylen, Replay(keylen, cs[..i], rs[..i]), cs[i], rs[i])
    {
      if i < |calls| {
        assert cs[..i] == calls[..i] && rs[..i] == replies[..i];
      }
    }
    if Undisturbed(cs, rs) {
      assert c in cs && r in rs;
      assert forall d :: d in calls ==> d in cs;
      assert forall q :: q in replies ==> q in rs;
    }
  }

  /** Every run from initialisation: each answer is one the plain map allows, the table ends up
      standing for the plain map, and an undisturbed run leaves no gaps. */
  method Run(keylen: nat, hash: Bytes -> Word32, calls: seq<Call>) returns (ht: HashTable, replies: seq<Reply>)
    requires KeysOk(keylen, calls)
    ensures |replies| == |calls| && ht.Valid() && ht.keylen == keylen
    ensures AllAllowed(keylen, calls, replies)
    ensures ht.Pairs() == Replay(keylen, calls, replies)
    ensures Undisturbed(calls, replies) ==> NoGaps(ht.P(), ht.buckets[..])
  {
    ht := new HashTable(keylen, hash);
    replies := [];
    for i := 0 to |calls|
      invariant ht.keylen == keylen && fresh(ht) && fresh(ht.buckets) && ht.Valid()
      invariant Explains(keylen, calls[..i], replies, ht.Pairs(), NoGaps(ht.P(), ht.buckets[..]))
    {
      ghost var m, tidy := ht.Pairs(), NoGaps(ht.P(), ht.buckets[..]);
      var r := Step(ht, calls[i]);
      ExplainsGrows(keylen, calls[..i], replies, m, tidy, calls[i], r,
                    ht.Pairs(), NoGaps(ht.P(), ht.buckets[..]));
      replies := replies + [r];
      assert calls[..i + 1] == calls[..i] + [calls[i]];
    }
    assert calls[..|calls|] == calls;
  }

  /** Publish a table and answer one query from it: a stored key is reached exactly when its home
      bucket is full, and so always after an undisturbed run. */
  method PublishAndQuery(ht: HashTable, addr: array<Byte>, key: Bytes) returns (a: Answer)
    requires ht.Valid() && ht.keylen == KEYLEN <= |key|
    requires forall s :: 0 <= s < ht.buckets.Length ==> Fits(ht.buckets[s])
    requires RECORD * ht.buckets.Length + WINDOW <= addr.Length
    modifies addr
    ensures Ident(ht.P(), key) in ht.Pairs() ==>
              exists s: nat :: HeldAt(ht.P(), ht.buckets[..], s, Ident(ht.P(), key)) &&
                          (Reaches(ht.P(), a, key, s) <==> Full(ht.buckets[..], Home(ht.P(), key)))
    ensures Ident(ht.P(), key) in ht.Pairs() && NoGaps(ht.P(), ht.buckets[..]) ==>
              exists s: nat :: HeldAt(ht.P(), ht.buckets[..], s, Ident(ht.P(), key)) && Reaches(ht.P(), a, key, s)
  {
    ghost var p, bs, id := ht.P(), ht.buckets[..], Ident(ht.P(), key);
    forall s | 0 <= s < |bs|
      ensures Writable(addr.Length, RECORD * s, bs[s])
    {
      FitsWritable(addr.Length, RECORD * s, bs[s]);
    }
    WriteImage(ht.buckets, addr);
    var home := ht.HomeIndex(key);
    a := Query(addr[..], home, key);
    assert Published(p, bs, addr[..]);
    if id in ht.Pairs() {
      ContentsKeys(p, bs, id);
      ghost var s :| HeldAt(p, bs, s, id);
      QueryReachesIff(p, bs, addr[..], key, s, a);
      if NoGaps(p, bs) {
        QueryReachesAll(p, bs, addr[..], key, s, a);
      }
    }
  }
}
