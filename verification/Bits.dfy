/** Bit operations on unsigned machine words, written arithmetically: bit i of h is
    the parity of h after i halvings.  The operations below are the word-level
    `h | 1 << i`, `h & ~(1 << i)`, `h & 1 << i` and count-trailing-zeros. */
module Bits {

  const WORD_BITS := 32

  type Word32 = h: nat | h < 0x1_0000_0000

  function Pow2(n: nat): (p: nat)
    ensures p > 0
  {
    if n == 0 then 1 else 2 * Pow2(n - 1)
  }

  predicate Bit(h: nat, i: nat)
  {
    if i == 0 then h % 2 == 1 else Bit(h / 2, i - 1)
  }

  function SetBit(h: nat, i: nat): nat
  {
    if i == 0 then h / 2 * 2 + 1 else SetBit(h / 2, i - 1) * 2 + h % 2
  }

  function ClearBit(h: nat, i: nat): nat
  {
    if i == 0 then h / 2 * 2 else ClearBit(h / 2, i - 1) * 2 + h % 2
  }

  /** The index of the lowest set bit. */
  function Ctz(h: nat): nat
    requires h > 0
  {
    if h % 2 == 1 then 0 else 1 + Ctz(h / 2)
  }

  /** Setting a bit adds its weight exactly when it was clear, and changes no other bit. */
  lemma {:induction false} SetBitMeaning(h: nat, i: nat, j: nat)
    ensures SetBit(h, i) == if Bit(h, i) then h else h + Pow2(i)
    ensures Bit(SetBit(h, i), j) <==> j == i || Bit(h, j)
    decreases i
  {
    if i > 0 {
      SetBitMeaning(h / 2, i - 1, if j == 0 then 0 else j - 1);
      assert SetBit(h, i) / 2 == SetBit(h / 2, i - 1);
    } else {
      assert SetBit(h, i) / 2 == h / 2;
    }
  }

  /** Clearing a bit removes its weight exactly when it was set, and changes no other bit. */
  lemma {:induction false} ClearBitMeaning(h: nat, i: nat, j: nat)
    ensures Bit(h, i) ==> h >= Pow2(i)
    ensures ClearBit(h, i) == if Bit(h, i) then h - Pow2(i) else h
    ensures Bit(ClearBit(h, i), j) <==> j != i && Bit(h, j)
    decreases i
  {
    if i > 0 {
      ClearBitMeaning(h / 2, i - 1, if j == 0 then 0 else j - 1);
      assert ClearBit(h, i) / 2 == ClearBit(h / 2, i - 1);
    } else {
      assert ClearBit(h, i) / 2 == h / 2;
    }
  }

  /** Count-trailing-zeros finds a set bit below which no bit is set. */
  lemma {:induction false} CtzMeaning(h: nat, j: nat)
    requires h > 0
    ensures Bit(h, Ctz(h))
    ensures Bit(h, j) ==> Ctz(h) <= j
    decreases h
  {
    if h % 2 == 0 {
      CtzMeaning(h / 2, if j == 0 then 0 else j - 1);
    }
  }

  /** A word below 2^w has no bit at w or above, and setting a bit below w stays in range. */
  lemma {:induction false} BitWidth(h: nat, i: nat, w: nat)
    requires h < Pow2(w)
    ensures Bit(h, i) ==> i < w
    ensures i < w ==> SetBit(h, i) < Pow2(w)
    decreases w
  {
    if w == 0 {
      ZeroHasNoBit(i);
    } else if i > 0 {
      BitWidth(h / 2, i - 1, w - 1);
    }
  }

  lemma {:induction false} ZeroHasNoBit(i: nat)
    ensures !Bit(0, i)
  {
    if i > 0 {
      ZeroHasNoBit(i - 1);
    }
  }

  lemma Pow32()
    ensures Pow2(WORD_BITS) == 0x1_0000_0000
  {
    assert Pow2(8) == 256;
    assert Pow2(16) == 256 * Pow2(8);
    assert Pow2(24) == 256 * Pow2(16);
    assert Pow2(32) == 256 * Pow2(24);
  }

  /** `h |= 1 << i` on a 32-bit word. */
  function WithBit(h: Word32, i: nat): (r: Word32)
    requires i < WORD_BITS
    ensures forall j: nat :: Bit(r, j) <==> j == i || Bit(h, j)
  {
    var r := SetBit(h, i);
    assert r < 0x1_0000_0000 by {
      Pow32();
      BitWidth(h, i, WORD_BITS);
    }
    assert forall j: nat :: Bit(r, j) <==> j == i || Bit(h, j) by {
      forall j: nat {
        SetBitMeaning(h, i, j);
      }
    }
    r
  }

  /** `h &= ~(1 << i)` on a 32-bit word. */
  function WithoutBit(h: Word32, i: nat): (r: Word32)
    ensures forall j: nat :: Bit(r, j) <==> j != i && Bit(h, j)
  {
    var r := ClearBit(h, i);
    assert r < 0x1_0000_0000 by {
      ClearBitMeaning(h, i, 0);
    }
    assert forall j: nat :: Bit(r, j) <==> j != i && Bit(h, j) by {
      forall j: nat {
        ClearBitMeaning(h, i, j);
      }
    }
    r
  }

  /** A 32-bit word is zero exactly when none of its 32 bits is set. */
  lemma ZeroMeansNoBit(h: Word32)
    ensures h == 0 ==> forall i: nat :: !Bit(h, i)
    ensures h != 0 ==> Ctz(h) < WORD_BITS && Bit(h, Ctz(h))
  {
    if h == 0 {
      forall i: nat {
        ZeroHasNoBit(i);
      }
    } else {
      Pow32();
      CtzMeaning(h, 0);
      BitWidth(h, Ctz(h), WORD_BITS);
    }
  }

  /** A value below 32 has no bit from 5 on, and 32 itself has only bit 5. */
  lemma SmallBitmap(h: nat)
    ensures h < 32 ==> forall i: nat :: Bit(h, i) ==> i < 5
    ensures h == 32 ==> forall i: nat :: Bit(h, i) ==> i == 5
  {
    assert Pow2(5) == 32 && Pow2(6) == 64;
    if h <= 32 {
      forall i: nat | Bit(h, i)
        ensures if h < 32 then i < 5 else i == 5
      {
        BitWidth(h, i, if h < 32 then 5 else 6);
        assert !Bit(32, 0) && !Bit(32, 1) && !Bit(32, 2) && !Bit(32, 3) && !Bit(32, 4);
      }
    }
  }
}
