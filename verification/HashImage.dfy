/** The table laid out as 64-byte records, and the client that answers a query from the 32
    records that start at the key's home bucket. */
module HashImage {
  import opened Bits
  import opened ByteStrings
  import opened HopscotchSpec

  const RECORD := 64
  const HOP_AT := 1
  const KEY_AT := 5
  const DATA_AT := 37
  const WINDOW := 2048
  const KEYLEN := 24
  const COMPARED := 20
  const ZERO: Byte := 48
  const ONE: Byte := 49

  // ---------------------------------------------------------------- decimal numbers

  function Digits(n: nat): (ds: Bytes)
    ensures |ds| > 0
  {
    if n < 10 then [ZERO + n] else Digits(n / 10) + [ZERO + n % 10]
  }

  predicate IsDigit(b: Byte)
  {
    ZERO <= b <= ZERO + 9
  }

  predicate AllDigits(ds: Bytes)
  {
    forall i :: 0 <= i < |ds| ==> IsDigit(ds[i])
  }

  function Value(ds: Bytes): nat
    requires AllDigits(ds)
  {
    if ds == [] then 0 else Value(ds[..|ds| - 1]) * 10 + ds[|ds| - 1] - ZERO
  }

  /** The longest prefix of digits. */
  function DigitPrefix(s: Bytes): (ds: Bytes)
    ensures AllDigits(ds)
  {
    if s == [] || !IsDigit(s[0]) then [] else [s[0]] + DigitPrefix(s[1..])
  }

  function Atoi(s: Bytes): nat
  {
    Value(DigitPrefix(s))
  }

  lemma {:induction false} DigitsMeaning(n: nat)
    ensures AllDigits(Digits(n)) && Value(Digits(n)) == n
    ensures n < 1000 ==> |Digits(n)| <= 3
    ensures n < 100 ==> |Digits(n)| <= 2
  {
    if n >= 10 {
      DigitsMeaning(n / 10);
      assert Digits(n)[..|Digits(n)| - 1] == Digits(n / 10);
    } else {
      assert Digits(n)[..0] == [];
    }
  }

  function Pow10(n: nat): (r: nat)
    ensures r > 0
  {
    if n == 0 then 1 else 10 * Pow10(n - 1)
  }

  /** The i-th character is the i-th decimal digit, the most significant first. */
  lemma {:induction false} DigitAt(n: nat, i: nat)
    requires i < |Digits(n)|
    ensures Digits(n)[i] == ZERO + n / Pow10(|Digits(n)| - 1 - i) % 10
    decreases n
  {
    var k := |Digits(n)| - 1 - i;
    if n >= 10 && k > 0 {
      DigitAt(n / 10, i);
      DivideTwice(n, 10, Pow10(k - 1));
    }
  }

  lemma {:induction false} DigitPrefixStops(ds: Bytes, rest: Bytes)
    requires AllDigits(ds)
    requires rest == [] || !IsDigit(rest[0])
    ensures DigitPrefix(ds + rest) == ds
  {
    if ds == [] {
      assert ds + rest == rest;
    } else {
      assert (ds + rest)[1..] == ds[1..] + rest;
      DigitPrefixStops(ds[1..], rest);
    }
  }

  /** Printing a bitmap and reading it back gives the same number, whatever follows its NUL. */
  lemma AtoiOfDigits(n: nat, s: Bytes)
    requires |Digits(n)| < |s| && s[..|Digits(n)| + 1] == Digits(n) + [0]
    ensures Atoi(s) == n
  {
    var ds := Digits(n);
    DigitsMeaning(n);
    assert s == ds + s[|ds|..] by {
      assert s[..|ds|] == s[..|ds| + 1][..|ds|] == ds;
    }
    assert s[|ds|..][0] == s[..|ds| + 1][|ds|] == 0;
    DigitPrefixStops(ds, s[|ds|..]);
  }

  // ---------------------------------------------------------------- the image

  /** A C string with its terminating NUL. */
  predicate IsCString(s: Bytes)
  {
    |s| > 0 && s[|s| - 1] == 0 && forall i :: 0 <= i < |s| - 1 ==> s[i] != 0
  }

  /** A bucket whose fields fit their places in a record. */
  predicate Fits(b: Bucket)
  {
    b.slot.Entry? ==>
      && b.hopinfo < 1000
      && IsCString(b.slot.key) && KEYLEN <= |b.slot.key| <= DATA_AT - KEY_AT
      && IsCString(b.slot.data) && |b.slot.data| <= RECORD - DATA_AT
  }

  /** The record at offset off describes bucket b. */
  predicate Describes(img: Bytes, off: nat, b: Bucket)
  {
    match b.slot
    case Vacant => At(img, off, [ZERO])
    case Entry(key, data) =>
      && At(img, off, [ONE])
      && At(img, off + HOP_AT, Digits(b.hopinfo) + [0])
      && At(img, off + KEY_AT, key)
      && At(img, off + DATA_AT, data)
  }

  ghost predicate ImageOf(img: Bytes, bs: seq<Bucket>)
  {
    forall s :: 0 <= s < |bs| ==> Describes(img, RECORD * s, bs[s])
  }

  /** b differs from a at most between lo and hi. */
  predicate SameOutside(a: Bytes, b: Bytes, lo: nat, hi: nat)
  {
    |b| == |a| && forall q :: 0 <= q < |a| && !(lo <= q < hi) ==> b[q] == a[q]
  }

  /** The string in a buffer: up to and including the first NUL. */
  function CString(s: Bytes): (c: Bytes)
    requires 0 in s
    ensures IsCString(c) && c <= s
    ensures IsCString(s) ==> c == s
  {
    if s[0] == 0 then [0]
    else
      assert 0 in s[1..];
      [s[0]] + CString(s[1..])
  }

  /** Copy a string up to and including its NUL. */
  method StrCpy(addr: array<Byte>, off: nat, s: Bytes)
    requires 0 in s && off + |CString(s)| <= addr.Length
    modifies addr
    ensures addr[..] == Patch(old(addr[..]), off, CString(s))
  {
    ghost var c := CString(s);
    hide CString, Patch;
    var i := 0;
    PatchNothing(addr[..], off);
    while true
      invariant 0 <= i < |c| && addr[..] == Patch(old(addr[..]), off, c[..i])
      decreases |c| - i
    {
      assert s[i] == c[i];
      addr[off + i] := s[i];
      PatchNext(old(addr[..]), off, c, i);
      if s[i] == 0 {
        break;
      }
      i := i + 1;
    }
    assert c[..i + 1] == c;
  }

  lemma PatchNothing(mem: Bytes, off: nat)
    requires off <= |mem|
    ensures Patch(mem, off, []) == mem
  {
  }

  /** One more byte of s. */
  lemma PatchNext(mem: Bytes, off: nat, s: Bytes, i: nat)
    requires i < |s| && off + |s| <= |mem|
    ensures Patch(mem, off, s[..i])[off + i := s[i]] == Patch(mem, off, s[..i + 1])
  {
    assert s[..i + 1] == s[..i] + [s[i]];
  }

  lemma PatchMeaning(mem: Bytes, off: nat, s: Bytes)
    requires off + |s| <= |mem|
    ensures At(Patch(mem, off, s), off, s) && SameOutside(mem, Patch(mem, off, s), off, off + |s|)
  {
  }

  /** What is stored outside a changed range stays stored. */
  lemma AtFrame(a: Bytes, b: Bytes, lo: nat, hi: nat, off: nat, s: Bytes)
    requires At(a, off, s) && SameOutside(a, b, lo, hi)
    requires off + |s| <= lo || hi <= off
    ensures At(b, off, s)
  {
  }

  /** The record can be written: the bitmap has at most three digits, the buffers hold strings, and what
      is written stays inside the mapping. */
  predicate Writable(size: nat, off: nat, b: Bucket)
  {
    && off + RECORD <= size
    && (b.slot.Entry? ==>
          && b.hopinfo < 1000 && 0 in b.slot.key && 0 in b.slot.data
          && off + KEY_AT + |CString(b.slot.key)| <= size && off + DATA_AT + |CString(b.slot.data)| <= size)
  }

  /** The memory with a bucket's strings written one after the other, each over what was there before. */
  function Recorded(mem: Bytes, off: nat, b: Bucket): (r: Bytes)
    requires Writable(|mem|, off, b)
    ensures |r| == |mem|
  {
    match b.slot
    case Vacant => Patch(mem, off, [ZERO, 0])
    case Entry(key, data) =>
      var hop := Digits(b.hopinfo) + [0];
      assert |hop| <= 4 by { DigitsMeaning(b.hopinfo); }
      Patch(Patch(Patch(Patch(mem, off, [ONE, 0]), off + HOP_AT, hop), off + KEY_AT, CString(key)),
            off + DATA_AT, CString(data))
  }

  lemma DigitsString(n: nat)
    ensures IsCString(Digits(n) + [0])
  {
    DigitsMeaning(n);
  }

  method WriteRecord(addr: array<Byte>, off: nat, b: Bucket)
    requires Writable(addr.Length, off, b)
    modifies addr
    ensures addr[..] == Recorded(old(addr[..]), off, b)
  {
    if b.slot.Entry? {
      var hop := Digits(b.hopinfo) + [0];
      DigitsMeaning(b.hopinfo);
      DigitsString(b.hopinfo);
      StrCpy(addr, off, [ONE, 0]);
      StrCpy(addr, off + HOP_AT, hop);
      StrCpy(addr, off + KEY_AT, b.slot.key);
      StrCpy(addr, off + DATA_AT, b.slot.data);
    } else {
      StrCpy(addr, off, [ZERO, 0]);
    }
  }

  /** The occupied mark and the bitmap. */
  lemma HeadWritten(mem: Bytes, off: nat, hop: Bytes)
    requires |hop| <= KEY_AT - HOP_AT && off + KEY_AT <= |mem|
    ensures var r := Patch(Patch(mem, off, [ONE, 0]), off + HOP_AT, hop);
            At(r, off, [ONE]) && At(r, off + HOP_AT, hop) && SameOutside(mem, r, off, off + KEY_AT)
  {
    var mid := Patch(mem, off, [ONE, 0]);
    PatchMeaning(mem, off, [ONE, 0]);
    assert [ONE, 0] == [ONE] + [0];
    AtPrefix(mid, off, [ONE], [0]);
    PatchMeaning(mid, off + HOP_AT, hop);
    AtFrame(mid, Patch(mid, off + HOP_AT, hop), off + HOP_AT, off + HOP_AT + |hop|, off, [ONE]);
  }

  /** The key and the data. */
  lemma BodyWritten(mem: Bytes, off: nat, key: Bytes, data: Bytes)
    requires |key| <= DATA_AT - KEY_AT && |data| <= RECORD - DATA_AT && off + RECORD <= |mem|
    ensures var r := Patch(Patch(mem, off + KEY_AT, key), off + DATA_AT, data);
            && At(r, off + KEY_AT, key) && At(r, off + DATA_AT, data)
            && SameOutside(mem, r, off + KEY_AT, off + RECORD)
  {
    var mid := Patch(mem, off + KEY_AT, key);
    PatchMeaning(mem, off + KEY_AT, key);
    PatchMeaning(mid, off + DATA_AT, data);
    AtFrame(mid, Patch(mid, off + DATA_AT, data), off + DATA_AT, off + DATA_AT + |data|, off + KEY_AT, key);
  }

  /** If the fields fit their places, the record describes its bucket and nothing outside it changes. */
  lemma RecordedDescribes(mem: Bytes, off: nat, b: Bucket)
    requires Writable(|mem|, off, b) && Fits(b)
    ensures Describes(Recorded(mem, off, b), off, b)
    ensures SameOutside(mem, Recorded(mem, off, b), off, off + RECORD)
  {
    hide Patch, At, SameOutside;
    if b.slot.Entry? {
      var hop := Digits(b.hopinfo) + [0];
      DigitsMeaning(b.hopinfo);
      HeadWritten(mem, off, hop);
      var mid := Patch(Patch(mem, off, [ONE, 0]), off + HOP_AT, hop);
      BodyWritten(mid, off, b.slot.key, b.slot.data);
      AtFrame(mid, Recorded(mem, off, b), off + KEY_AT, off + RECORD, off, [ONE]);
      AtFrame(mid, Recorded(mem, off, b), off + KEY_AT, off + RECORD, off + HOP_AT, hop);
      Widen(mem, mid, Recorded(mem, off, b), off);
    } else {
      PatchMeaning(mem, off, [ZERO, 0]);
      assert [ZERO, 0] == [ZERO] + [0];
      AtPrefix(Recorded(mem, off, b), off, [ZERO], [0]);
      Wider(mem, Recorded(mem, off, b), off);
    }
  }

  lemma Widen(a: Bytes, b: Bytes, c: Bytes, off: nat)
    requires SameOutside(a, b, off, off + KEY_AT) && SameOutside(b, c, off + KEY_AT, off + RECORD)
    ensures SameOutside(a, c, off, off + RECORD)
  {
  }

  lemma Wider(a: Bytes, b: Bytes, off: nat)
    requires SameOutside(a, b, off, off + 2)
    ensures SameOutside(a, b, off, off + RECORD)
  {
  }

  lemma AtPrefix(img: Bytes, off: nat, s: Bytes, t: Bytes)
    requires At(img, off, s + t)
    ensures At(img, off, s)
  {
    assert forall k :: 0 <= k < |s| ==> (s + t)[k] == s[k];
  }

  lemma DescribesFrame(a: Bytes, b: Bytes, lo: nat, off: nat, bucket: Bucket)
    requires Fits(bucket) && Describes(a, off, bucket)
    requires SameOutside(a, b, lo, lo + RECORD) && off + RECORD <= lo
    ensures Describes(b, off, bucket)
  {
    if bucket.slot.Entry? {
      DigitsMeaning(bucket.hopinfo);
      AtFrame(a, b, lo, lo + RECORD, off + HOP_AT, Digits(bucket.hopinfo) + [0]);
    }
  }

  lemma FitsWritable(size: nat, off: nat, b: Bucket)
    requires Fits(b) && off + RECORD <= size
    ensures Writable(size, off, b)
  {
  }

  ghost predicate AllWritable(size: nat, bs: seq<Bucket>)
  {
    forall s :: 0 <= s < |bs| ==> Writable(size, RECORD * s, bs[s])
  }

  /** The memory with the first n buckets written, in order. */
  ghost function Imaged(mem: Bytes, bs: seq<Bucket>, n: nat): (r: Bytes)
    requires AllWritable(|mem|, bs) && n <= |bs|
    ensures |r| == |mem|
  {
    if n == 0 then mem else Recorded(Imaged(mem, bs, n - 1), RECORD * (n - 1), bs[n - 1])
  }

  /** If all fields fit their places, the image describes every bucket. */
  lemma {:induction false} ImagedDescribes(mem: Bytes, bs: seq<Bucket>, n: nat)
    requires AllWritable(|mem|, bs) && n <= |bs| && forall s :: 0 <= s < |bs| ==> Fits(bs[s])
    ensures forall s :: 0 <= s < n ==> Describes(Imaged(mem, bs, n), RECORD * s, bs[s])
  {
    hide Describes, Recorded, Writable;
    if n > 0 {
      ImagedDescribes(mem, bs, n - 1);
      var before, off := Imaged(mem, bs, n - 1), RECORD * (n - 1);
      assert Writable(|mem|, off, bs[n - 1]);
      RecordedDescribes(before, off, bs[n - 1]);
      forall s | 0 <= s < n - 1
        ensures Describes(Imaged(mem, bs, n), RECORD * s, bs[s])
      {
        DescribesFrame(before, Imaged(mem, bs, n), off, RECORD * s, bs[s]);
      }
    }
  }

  /** The loop that writes every bucket at a running offset. */
  method WriteImage(bs: array<Bucket>, addr: array<Byte>)
    requires AllWritable(addr.Length, bs[..])
    modifies addr
    ensures addr[..] == Imaged(old(addr[..]), bs[..], bs.Length)
    ensures (forall s :: 0 <= s < bs.Length ==> Fits(bs[s])) ==> ImageOf(addr[..], bs[..])
  {
    hide Writable, Recorded, Fits;
    var off, i := 0, 0;
    ghost var mem, buckets := addr[..], bs[..];
    while i < bs.Length
      invariant 0 <= i <= bs.Length && off == RECORD * i && buckets == bs[..]
      invariant addr[..] == Imaged(mem, buckets, i)
    {
      assert Writable(addr.Length, RECORD * i, buckets[i]);
      WriteRecord(addr, off, bs[i]);
      off := off + RECORD;
      i := i + 1;
    }
    if forall s :: 0 <= s < bs.Length ==> Fits(bs[s]) {
      ImagedDescribes(mem, buckets, bs.Length);
    }
  }

  // ---------------------------------------------------------------- the client

  datatype Answer =
    | Unreadable            // the window does not fit the remote region
    | NotFound              // the home record is empty
    | Direct(key: Bytes)    // the home record's key, taken without a comparison
    | Scanned(hits: seq<nat>)  // the offsets whose key compared equal

  /** The 24 key bytes of the i-th record of a window. */
  function WindowKey(w: Bytes, i: nat): Bytes
    requires |w| == WINDOW && i < HOP_NUMBER
  {
    w[KEY_AT + RECORD * i..KEY_AT + RECORD * i + KEYLEN]
  }

  predicate Hit(w: Bytes, hop: nat, key: Bytes, i: nat)
    requires |w| == WINDOW && i < HOP_NUMBER && |key| >= COMPARED
  {
    Bit(hop, i) && WindowKey(w, i)[..COMPARED] == key[..COMPARED]
  }

  /** What the client's code answers for a key whose home bucket is `home`. */
  ghost predicate Answers(region: Bytes, home: nat, key: Bytes, a: Answer)
    requires |key| >= KEYLEN
  {
    if RECORD * home + WINDOW > |region| then a == Unreadable else
      var w := region[RECORD * home..RECORD * home + WINDOW];
      var hop := Atoi(w[HOP_AT..KEY_AT]);
      if w[0] != ONE then a == NotFound
      else if hop == 1 then a == Direct(WindowKey(w, 0))
      else a.Scanned? && forall i :: i in a.hits <==> 0 <= i < HOP_NUMBER && Hit(w, hop, key, i)
  }

  /** One query: read the window at the key's home, then take or scan. */
  method Query(region: Bytes, home: nat, key: Bytes) returns (a: Answer)
    requires |key| >= KEYLEN
    ensures Answers(region, home, key, a)
  {
    if RECORD * home + WINDOW > |region| {
      return Unreadable;
    }
    var w := region[RECORD * home..RECORD * home + WINDOW];
    if w[0] != ONE {
      return NotFound;
    }
    var hop := Atoi(w[HOP_AT..KEY_AT]);
    if hop == 1 {
      return Direct(WindowKey(w, 0));
    }
    var hits: seq<nat> := [];
    var i := 0;
    while i < HOP_NUMBER
      invariant 0 <= i <= HOP_NUMBER
      invariant forall j :: j in hits <==> 0 <= j < i && Hit(w, hop, key, j)
    {
      if Bit(hop, i) {
        if WindowKey(w, i)[..COMPARED] == key[..COMPARED] {
          hits := hits + [i];
        }
      }
      i := i + 1;
    }
    return Scanned(hits);
  }

  // ---------------------------------------------------------------- what a query is worth

  /** The answer leads to the key in slot s: its own bytes, or a hit at its offset. */
  ghost predicate Reaches(p: Params, a: Answer, key: Bytes, s: nat)
  {
    match a
    case Direct(k) => k == Ident(p, key)
    case Scanned(hits) => s >= Home(p, key) && s - Home(p, key) in hits
    case _ => false
  }

  /** A table, its image and a region that holds the image plus one window beyond. */
  ghost predicate Published(p: Params, bs: seq<Bucket>, region: Bytes)
  {
    && Inv(p, bs) && p.keylen == KEYLEN
    && (forall s :: 0 <= s < |bs| ==> Fits(bs[s]))
    && ImageOf(region, bs)
    && RECORD * |bs| + WINDOW <= |region|
  }

  /** Record i of the window at `home` carries the key of slot home + i. */
  lemma WindowShowsSlot(p: Params, bs: seq<Bucket>, region: Bytes, home: nat, i: nat)
    requires Published(p, bs, region) && home < |bs| && i < HOP_NUMBER && Full(bs, home + i)
    ensures WindowKey(region[RECORD * home..RECORD * home + WINDOW], i) == IdentAt(p, bs, home + i)
  {
    var s, key := home + i, bs[home + i].slot.key;
    assert Describes(region, RECORD * s, bs[s]);
    var off := RECORD * s + KEY_AT;
    assert forall k :: 0 <= k < KEYLEN ==> region[off + k] == key[k];
  }

  /** The window's first record shows whether the home bucket is full, and its bitmap. */
  lemma WindowShowsHome(p: Params, bs: seq<Bucket>, region: Bytes, home: nat)
    requires Published(p, bs, region) && home < |bs|
    ensures var w := region[RECORD * home..RECORD * home + WINDOW];
            && (w[0] == ONE <==> Full(bs, home))
            && (Full(bs, home) ==> Atoi(w[HOP_AT..KEY_AT]) == bs[home].hopinfo)
  {
    var w := region[RECORD * home..RECORD * home + WINDOW];
    var off := RECORD * home;
    assert Describes(region, off, bs[home]);
    assert w[0] == region[off + 0];
    if Full(bs, home) {
      assert At(region, off, [ONE]) && region[off + 0] == [ONE][0];
      var ds := Digits(bs[home].hopinfo);
      DigitsMeaning(bs[home].hopinfo);
      assert forall k :: 0 <= k < |ds| + 1 ==> w[HOP_AT..KEY_AT][k] == region[off + HOP_AT + k];
      assert w[HOP_AT..KEY_AT][..|ds| + 1] == ds + [0];
      AtoiOfDigits(bs[home].hopinfo, w[HOP_AT..KEY_AT]);
    } else {
      assert At(region, off, [ZERO]) && region[off + 0] == [ZERO][0];
    }
  }

  /** A bitmap of 1 means that the home bucket's only key is the one in the home slot itself. */
  lemma LoneKeyIsAtHome(p: Params, bs: seq<Bucket>, s: nat)
    requires Inv(p, bs) && Full(bs, s) && bs[HomeAt(p, bs, s)].hopinfo == 1
    ensures HomeAt(p, bs, s) == s
  {
    var b := HomeAt(p, bs, s);
    assert Belongs(p, bs, b, b + (s - b));
    assert HopBit(bs, b, s - b);
    if s > b {
      assert Bit(1 / 2, s - b - 1);
      ZeroHasNoBit(s - b - 1);
    }
  }

  /** The scan hits the slot of a stored key. */
  lemma ScanHits(p: Params, bs: seq<Bucket>, region: Bytes, key: Bytes, s: nat)
    requires Published(p, bs, region) && |key| >= KEYLEN && HeldAt(p, bs, s, Ident(p, key))
    ensures var home := Home(p, key);
            && home <= s < home + HOP_NUMBER && home < |bs| && HomeAt(p, bs, s) == home
            && Hit(region[RECORD * home..RECORD * home + WINDOW], bs[home].hopinfo, key, s - home)
            && WindowKey(region[RECORD * home..RECORD * home + WINDOW], s - home) == Ident(p, key)
  {
    hide Describes, ImageOf, Fits, WindowKey;
    var home := Home(p, key);
    SameIdentSameHome(p, bs[s].slot.key, key);
    assert home == HomeAt(p, bs, s) <= s;
    var w := region[RECORD * home..RECORD * home + WINDOW];
    WindowShowsSlot(p, bs, region, home, s - home);
    assert Belongs(p, bs, home, home + (s - home));
    assert HopBit(bs, home, s - home);
    assert WindowKey(w, s - home)[..COMPARED] == key[..COMPARED];
  }

  /** One window read answers the query for a stored key exactly when the key's home bucket is
      itself full; otherwise the client reports that the key is not there. */
  lemma QueryReachesIff(p: Params, bs: seq<Bucket>, region: Bytes, key: Bytes, s: nat, a: Answer)
    requires Published(p, bs, region) && |key| >= KEYLEN
    requires HeldAt(p, bs, s, Ident(p, key))
    requires Answers(region, Home(p, key), key, a)
    ensures Reaches(p, a, key, s) <==> Full(bs, Home(p, key))
    ensures !Full(bs, Home(p, key)) ==> a == NotFound
  {
    hide Describes, ImageOf, Fits, Inv, Hit, WindowKey, Atoi, Bit, Ident;
    var home := Home(p, key);
    ScanHits(p, bs, region, key, s);
    WindowShowsHome(p, bs, region, home);
    if Full(bs, home) && bs[home].hopinfo == 1 {
      LoneKeyIsAtHome(p, bs, s);
    }
  }

  /** The client says that a key, stored or not, is not there if and only if its home bucket is vacant. */
  lemma NotFoundIff(p: Params, bs: seq<Bucket>, region: Bytes, key: Bytes, a: Answer)
    requires Published(p, bs, region) && |key| >= KEYLEN && Home(p, key) < |bs|
    requires Answers(region, Home(p, key), key, a)
    ensures a == NotFound <==> !Full(bs, Home(p, key))
  {
    WindowShowsHome(p, bs, region, Home(p, key));
  }

  /** In a table without gaps every stored key is reached. */
  lemma QueryReachesAll(p: Params, bs: seq<Bucket>, region: Bytes, key: Bytes, s: nat, a: Answer)
    requires Published(p, bs, region) && NoGaps(p, bs) && |key| >= KEYLEN
    requires HeldAt(p, bs, s, Ident(p, key))
    requires Answers(region, Home(p, key), key, a)
    ensures Reaches(p, a, key, s)
  {
    SameIdentSameHome(p, bs[s].slot.key, key);
    QueryReachesIff(p, bs, region, key, s, a);
  }

  /** Removing the entry that sits in another key's home bucket hides that key from the client,
      although the table still holds it. */
  lemma RemovalHides(p: Params, bs: seq<Bucket>, cs: seq<Bucket>, region: Bytes, key: Bytes, s: nat, a: Answer)
    requires Inv(p, bs) && |key| >= KEYLEN
    requires HeldAt(p, bs, s, Ident(p, key)) && s != Home(p, key) && Full(bs, Home(p, key))
    requires var home := Home(p, key); HomeAt(p, bs, home) <= home && Erased(bs, cs, HomeAt(p, bs, home), home)
    requires Published(p, cs, region) && Answers(region, Home(p, key), key, a)
    ensures Ident(p, key) in Contents(p, cs)
    ensures a == NotFound
  {
    assert HeldAt(p, cs, s, Ident(p, key));
    ContentsKeys(p, cs, Ident(p, key));
    QueryReachesIff(p, cs, region, key, s, a);
  }

  /** A stored key of the same home agrees with this one in the bytes that are compared, but not in all. */
  ghost predicate Confused(p: Params, bs: seq<Bucket>, key: Bytes, s: nat)
  {
    && Belongs(p, bs, Home(p, key), s) && |key| >= COMPARED && |IdentAt(p, bs, s)| >= COMPARED
    && IdentAt(p, bs, s)[..COMPARED] == key[..COMPARED] && IdentAt(p, bs, s) != Ident(p, key)
  }

  /** A scan hits a slot exactly if it holds a stored key of the same home that agrees in the bytes
      compared. */
  lemma HitIff(p: Params, bs: seq<Bucket>, region: Bytes, key: Bytes, i: nat, a: Answer)
    requires Published(p, bs, region) && |key| >= KEYLEN && Home(p, key) < |bs|
    requires Answers(region, Home(p, key), key, a) && a.Scanned? && i < HOP_NUMBER
    ensures i in a.hits <==>
            && Belongs(p, bs, Home(p, key), Home(p, key) + i)
            && IdentAt(p, bs, Home(p, key) + i)[..COMPARED] == key[..COMPARED]
  {
    hide Describes, ImageOf, Fits;
    var home := Home(p, key);
    WindowShowsHome(p, bs, region, home);
    assert HopBit(bs, home, i) <==> Belongs(p, bs, home, home + i);
    if Belongs(p, bs, home, home + i) {
      WindowShowsSlot(p, bs, region, home, i);
    }
  }

  /** Every hit is the key that was asked for if and only if no stored key of the same home can be confused
      with it. */
  lemma HitsRightIff(p: Params, bs: seq<Bucket>, region: Bytes, key: Bytes, a: Answer)
    requires Published(p, bs, region) && |key| >= KEYLEN && Home(p, key) < |bs|
    requires Answers(region, Home(p, key), key, a) && a.Scanned?
    ensures (forall i :: i in a.hits ==> HeldAt(p, bs, Home(p, key) + i, Ident(p, key))) <==>
            (forall s :: !Confused(p, bs, key, s))
  {
    hide Published, Answers;
    var home := Home(p, key);
    forall i | i in a.hits && !HeldAt(p, bs, home + i, Ident(p, key))
      ensures Confused(p, bs, key, home + i)
    {
      HitsInRange(region, home, key, i, a);
      HitIff(p, bs, region, key, i, a);
      KeysAreWide(p, bs, region, home + i);
    }
    forall s | Confused(p, bs, key, s)
      ensures s >= home && s - home in a.hits && !HeldAt(p, bs, s, Ident(p, key))
    {
      KeysAreWide(p, bs, region, s);
      HitIff(p, bs, region, key, s - home, a);
    }
    if s :| Confused(p, bs, key, s) {
      assert s - home in a.hits && !HeldAt(p, bs, home + (s - home), Ident(p, key));
    }
  }

  lemma HitsInRange(region: Bytes, home: nat, key: Bytes, i: nat, a: Answer)
    requires |key| >= KEYLEN && Answers(region, home, key, a) && a.Scanned? && i in a.hits
    ensures i < HOP_NUMBER
  {
  }

  lemma KeysAreWide(p: Params, bs: seq<Bucket>, region: Bytes, s: nat)
    requires Published(p, bs, region) && Full(bs, s)
    ensures |IdentAt(p, bs, s)| == KEYLEN && HomeAt(p, bs, s) <= s < HomeAt(p, bs, s) + HOP_NUMBER
  {
  }

  /** The answer taken without a comparison is right exactly for the keys that are stored. */
  lemma DirectIsRightIff(p: Params, bs: seq<Bucket>, region: Bytes, key: Bytes, a: Answer)
    requires Published(p, bs, region) && |key| >= KEYLEN && Home(p, key) < |bs|
    requires Answers(region, Home(p, key), key, a) && a.Direct?
    ensures a.key == Ident(p, key) <==> Ident(p, key) in Contents(p, bs)
  {
    var home := Home(p, key);
    WindowShowsHome(p, bs, region, home);
    WindowShowsSlot(p, bs, region, home, 0);
    ContentsKeys(p, bs, Ident(p, key));
    if a.key == Ident(p, key) {
      assert HeldAt(p, bs, home, Ident(p, key));
    }
    if s :| HeldAt(p, bs, s, Ident(p, key)) {
      QueryReachesIff(p, bs, region, key, s, a);
    }
  }
}
