/** The descriptors that two peers exchange: a memory region's and a peer configuration's, packed one
    after the other into the private data of a connection. */
module Descriptors {
  import opened Wrappers
  import opened Errors
  import opened ByteStrings

  const MR_DESC_SIZE := 21
  const PCFG_DESC_SIZE := 1
  const DESCRIPTORS_MAX_SIZE := 24

  /** A memory region as its remote side sees it. */
  datatype Region = Region(raddr: nat, size: nat, rkey: nat, usage: nat)

  /** The fields' widths, and a usage: a registered region has at least one. */
  predicate IsRegion(r: Region)
  {
    r.raddr < U64 && r.size < U64 && r.rkey < 0x1_0000_0000 && 0 < r.usage < 256
  }

  function MrDescriptor(r: Region): (d: Bytes)
    ensures |d| == MR_DESC_SIZE
  {
    Encode(r.raddr, 8) + Encode(r.size, 8) + Encode(r.rkey, 4) + Encode(r.usage, 1)
  }

  /** Write the descriptor through a moving offset. */
  method GetDescriptor(r: Region, desc: array<Byte>, at: nat)
    requires at + MR_DESC_SIZE <= desc.Length
    modifies desc
    ensures desc[..] == Patch(old(desc[..]), at, MrDescriptor(r))
  {
    ghost var was := desc[..];
    var off := at;
    var raddr, size, rkey, usage := Encode(r.raddr, 8), Encode(r.size, 8), Encode(r.rkey, 4), Encode(r.usage, 1);
    Store(desc, off, raddr);
    off := off + 8;
    Store(desc, off, size);
    PatchOn(was, at, raddr, size);
    off := off + 8;
    Store(desc, off, rkey);
    PatchOn(was, at, raddr + size, rkey);
    off := off + 4;
    Store(desc, off, usage);
    PatchOn(was, at, raddr + size + rkey, usage);
  }

  method Store(desc: array<Byte>, off: nat, s: Bytes)
    requires off + |s| <= desc.Length
    modifies desc
    ensures desc[..] == Patch(old(desc[..]), off, s)
  {
    forall i | 0 <= i < |s| {
      desc[off + i] := s[i];
    }
  }

  /** A region from the start of a descriptor; `granted` says whether memory for it was. */
  method RemoteFromDescriptor(desc: Bytes, granted: bool) returns (r: Result<Region>)
    ensures |desc| < MR_DESC_SIZE || desc[MR_DESC_SIZE - 1] == 0 ==> r == Err(E_INVAL)
    ensures |desc| >= MR_DESC_SIZE && desc[MR_DESC_SIZE - 1] != 0 && !granted ==> r == Err(E_NOMEM)
    ensures |desc| >= MR_DESC_SIZE && desc[MR_DESC_SIZE - 1] != 0 && granted ==>
              r.Ok? && IsRegion(r.value) && MrDescriptor(r.value) == desc[..MR_DESC_SIZE]
  {
    if |desc| < MR_DESC_SIZE {
      return Err(E_INVAL);
    }
    var raddr, size, rkey := Decode(desc[..8]), Decode(desc[8..16]), Decode(desc[16..20]);
    var usage := desc[20];
    if usage == 0 {
      return Err(E_INVAL);
    }
    if !granted {
      return Err(E_NOMEM);
    }
    r := Ok(Region(raddr, size, rkey, usage));
    Rebuilt(desc);
  }

  /** Every 21-byte string is the descriptor of the numbers read from it. */
  lemma Rebuilt(desc: Bytes)
    requires |desc| >= MR_DESC_SIZE
    ensures var r := Region(Decode(desc[..8]), Decode(desc[8..16]), Decode(desc[16..20]), desc[20]);
            && r.raddr < U64 && r.size < U64 && r.rkey < 0x1_0000_0000
            && MrDescriptor(r) == desc[..MR_DESC_SIZE]
  {
    hide Encode, Decode, Pow256;
    Widths();
    EncodeDecode(desc[..8]);
    EncodeDecode(desc[8..16]);
    EncodeDecode(desc[16..20]);
    OneByte(desc[20]);
    assert desc[..MR_DESC_SIZE] == desc[..8] + desc[8..16] + desc[16..20] + [desc[20]];
  }

  lemma OneByte(b: Byte)
    ensures Encode(b, 1) == [b]
  {
    assert Encode(b, 1) == [b % 256] + Encode(b / 256, 0);
  }

  /** A region is determined by its descriptor. */
  lemma DescriptorInjective(a: Region, b: Region)
    requires IsRegion(a) && IsRegion(b) && MrDescriptor(a) == MrDescriptor(b)
    ensures a == b
  {
    var d := MrDescriptor(a);
    Widths();
    DescriptorFields(a);
    DescriptorFields(b);
    DecodeEncode(a.raddr, 8);
    DecodeEncode(b.raddr, 8);
    DecodeEncode(a.size, 8);
    DecodeEncode(b.size, 8);
    DecodeEncode(a.rkey, 4);
    DecodeEncode(b.rkey, 4);
    DecodeEncode(a.usage, 1);
    DecodeEncode(b.usage, 1);
  }

  lemma DescriptorFields(r: Region)
    ensures var d := MrDescriptor(r);
            && d[..8] == Encode(r.raddr, 8) && d[8..16] == Encode(r.size, 8)
            && d[16..20] == Encode(r.rkey, 4) && d[20..] == Encode(r.usage, 1)
  {
    hide Encode;
    FieldsOf(Encode(r.raddr, 8), Encode(r.size, 8), Encode(r.rkey, 4), Encode(r.usage, 1));
  }

  lemma FieldsOf(a: Bytes, b: Bytes, c: Bytes, e: Bytes)
    requires |a| == |b| == 8 && |c| == 4 && |e| == 1
    ensures var d := a + b + c + e; d[..8] == a && d[8..16] == b && d[16..20] == c && d[20..] == e
  {
    assert a + b + c + e == a + (b + (c + e));
  }

  function CfgDescriptor(direct: bool): Bytes
  {
    [if direct then 1 else 0]
  }

  /** Any non-zero byte reads as true. */
  function CfgFromDescriptor(desc: Bytes): (r: Result<bool>)
  {
    if |desc| < PCFG_DESC_SIZE then Err(E_INVAL) else Ok(desc[0] != 0)
  }

  /** The 24-byte field with both descriptors in it. */
  method Pack(r: Region, direct: bool) returns (field: Bytes)
    ensures |field| == DESCRIPTORS_MAX_SIZE
    ensures field[..MR_DESC_SIZE] == MrDescriptor(r)
    ensures field[MR_DESC_SIZE..MR_DESC_SIZE + PCFG_DESC_SIZE] == CfgDescriptor(direct)
  {
    var descriptors := new Byte[DESCRIPTORS_MAX_SIZE](_ => 0);
    ghost var blank := descriptors[..];
    GetDescriptor(r, descriptors, 0);
    Store(descriptors, MR_DESC_SIZE, CfgDescriptor(direct));
    field := descriptors[..];
    PatchOn(blank, 0, MrDescriptor(r), CfgDescriptor(direct));
    assert field[..MR_DESC_SIZE] == MrDescriptor(r);
  }

  /** What the server packs into the field, the client unpacks intact. */
  method PackAndUnpack(r: Region, direct: bool) returns (region: Result<Region>, cfg: Result<bool>)
    requires IsRegion(r)
    ensures region == Ok(r) && cfg == Ok(direct)
  {
    var field := Pack(r, direct);
    var desc := field[..MR_DESC_SIZE];
    DescriptorFields(r);
    assert desc[20] == desc[20..][0] == r.usage % 256;
    region := RemoteFromDescriptor(desc, true);
    assert desc[..MR_DESC_SIZE] == desc;
    DescriptorInjective(region.value, r);
    cfg := CfgFromDescriptor(field[MR_DESC_SIZE..MR_DESC_SIZE + PCFG_DESC_SIZE]);
  }
}
