/** Byte strings, and unsigned integers stored in them least significant byte first. */
module ByteStrings {

  type Byte = b: int | 0 <= b < 256
  type Bytes = seq<Byte>

  const U64 := 0x1_0000_0000_0000_0000

  function Pow256(n: nat): (r: nat)
    ensures r > 0
  {
    if n == 0 then 1 else 256 * Pow256(n - 1)
  }

  /** The low n bytes of v. */
  function Encode(v: nat, n: nat): (bs: Bytes)
    ensures |bs| == n
    decreases n
  {
    if n == 0 then [] else [v % 256] + Encode(v / 256, n - 1)
  }

  function Decode(bs: Bytes): nat
  {
    if bs == [] then 0 else bs[0] + 256 * Decode(bs[1..])
  }

  lemma {:induction false} DecodeEncode(v: nat, n: nat)
    requires v < Pow256(n)
    ensures Decode(Encode(v, n)) == v
    decreases n
  {
    if n > 0 {
      DecodeEncode(v / 256, n - 1);
      assert Encode(v, n)[1..] == Encode(v / 256, n - 1);
    }
  }

  /** Byte i of a number carries its i-th digit to the base 256: the least significant comes first. */
  lemma {:induction false} EncodeDigit(v: nat, n: nat, i: nat)
    requires i < n
    ensures Encode(v, n)[i] == v / Pow256(i) % 256
    decreases n
  {
    if i > 0 {
      EncodeDigit(v / 256, n - 1, i - 1);
      DivideTwice(v, 256, Pow256(i - 1));
    }
  }

  lemma DivideTwice(v: nat, c: nat, p: nat)
    requires c > 0 && p > 0
    ensures c * p > 0 && v / c / p == v / (c * p)
  {
    var q, r := v / c, v % c;
    var a, b := q / p, q % p;
    assert v == c * q + r && q == p * a + b;
    assert c * (p * a + b) == (c * p) * a + c * b;
    assert c * b + r < c * p by {
      Steps(c, b, p);
    }
    QuotientIs(v, c * p, a, c * b + r);
  }

  lemma QuotientIs(v: nat, d: nat, a: nat, r: nat)
    requires d > 0 && v == d * a + r && r < d
    ensures v / d == a
  {
    assert v == d * (v / d) + v % d;
    SameQuotient(d, v / d, v % d, a, r);
  }

  lemma SameQuotient(d: nat, q: nat, s: nat, a: nat, r: nat)
    requires d * q + s == d * a + r && r < d && s < d
    ensures q == a
  {
    if q < a {
      Steps(d, q, a);
    } else if a < q {
      Steps(d, a, q);
    }
  }

  lemma {:induction false} Steps(d: nat, q: nat, a: nat)
    requires q < a
    ensures d * a >= d * q + d
  {
    if q + 1 < a {
      Steps(d, q, a - 1);
    }
    assert d * (q + 1) == d * q + d && d * a == d * (a - 1) + d;
  }

  lemma {:induction false} EncodeDecode(bs: Bytes)
    ensures Decode(bs) < Pow256(|bs|)
    ensures Encode(Decode(bs), |bs|) == bs
  {
    if bs != [] {
      EncodeDecode(bs[1..]);
      assert Decode(bs) / 256 == Decode(bs[1..]);
    }
  }

  lemma Widths()
    ensures Pow256(1) == 256 && Pow256(4) == 0x1_0000_0000 && Pow256(8) == U64
  {
    assert Pow256(2) == 256 * 256;
    assert Pow256(4) == 256 * 256 * Pow256(2);
    assert Pow256(6) == 256 * 256 * Pow256(4);
    assert Pow256(8) == 256 * 256 * Pow256(6);
  }

  /** mem with s written at offset off. */
  function Patch(mem: Bytes, off: nat, s: Bytes): (r: Bytes)
    requires off + |s| <= |mem|
    ensures |r| == |mem|
  {
    mem[..off] + s + mem[off + |s|..]
  }

  /** Writing s and then t right after it is writing s + t. */
  lemma PatchOn(mem: Bytes, off: nat, s: Bytes, t: Bytes)
    requires off + |s| + |t| <= |mem|
    ensures Patch(Patch(mem, off, s), off + |s|, t) == Patch(mem, off, s + t)
  {
  }

  /** mem holds s at offset off. */
  predicate At(mem: Bytes, off: nat, s: Bytes)
  {
    off + |s| <= |mem| && forall k :: 0 <= k < |s| ==> mem[off + k] == s[k]
  }
}
