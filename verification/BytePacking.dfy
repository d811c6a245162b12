/** Bits in bytes: the eleven-byte array that the encoder fills and the checksum test refills. */
module BytePacking {
  import opened Gf2
  import opened BinaryNumbers
  import opened Crc12

  type SixBit = w: nat | w < 64

  // The six bits of each of a row of words.
  function WordsToBits(ws: seq<SixBit>): (r: Vec)
    ensures |r| == 6 * |ws|
  {
    seq(6 * |ws|, i requires 0 <= i < 6 * |ws| => ToBits(ws[i / 6], 6)[i % 6])
  }

  // Bit k of a checksum, most significant first.
  predicate ChecksumBit(crc: bv12, k: nat)
    requires k < 12
  {
    match k
    case 0 => crc & 0x800 != 0 case 1 => crc & 0x400 != 0 case 2 => crc & 0x200 != 0 case 3 => crc & 0x100 != 0
    case 4 => crc & 0x080 != 0 case 5 => crc & 0x040 != 0 case 6 => crc & 0x020 != 0 case 7 => crc & 0x010 != 0
    case 8 => crc & 0x008 != 0 case 9 => crc & 0x004 != 0 case 10 => crc & 0x002 != 0 case _ => crc & 0x001 != 0
  }

  function ChecksumBits(crc: bv12): (r: Vec)
    ensures |r| == 12
  {
    seq(12, k requires 0 <= k < 12 => ChecksumBit(crc, k))
  }

  function ByteBits(b: bv8): (r: Vec)
    ensures |r| == 8
  {
    seq(8, k requires 0 <= k < 8 => BitSet(b, k))
  }

  lemma OneByte(b: bv8)
    ensures BytesToBits([b]) == ByteBits(b)
  {
    hide BitSet;
    var bits := BytesToBits([b]);
    assert forall k | 0 <= k < 8 :: bits[k] == BitSet([b][k / 8], k % 8) && k / 8 == 0 && k % 8 == k;
  }

  lemma BytesAppend(a: seq<bv8>, b: seq<bv8>)
    ensures BytesToBits(a + b) == BytesToBits(a) + BytesToBits(b)
  {
    hide BitSet;
  }

  lemma ThreeBytes(b0: bv8, b1: bv8, b2: bv8)
    ensures BytesToBits([b0, b1, b2]) == ByteBits(b0) + ByteBits(b1) + ByteBits(b2)
  {
    hide ByteBits, BytesToBits;
    BytesAppend([b0], [b1]);
    BytesAppend([b0, b1], [b2]);
    assert [b0, b1, b2] == [b0] + [b1] + [b2] && [b0, b1] == [b0] + [b1];
    OneByte(b0);
    OneByte(b1);
    OneByte(b2);
  }

  lemma WordsAppend(a: seq<SixBit>, b: seq<SixBit>)
    ensures WordsToBits(a + b) == WordsToBits(a) + WordsToBits(b)
  {
    hide ToBits;
  }

  lemma FourWords(w0: SixBit, w1: SixBit, w2: SixBit, w3: SixBit)
    ensures WordsToBits([w0, w1, w2, w3]) == ToBits(w0, 6) + ToBits(w1, 6) + ToBits(w2, 6) + ToBits(w3, 6)
  {
    hide ToBits, WordsToBits;
    WordsAppend([w0], [w1]);
    WordsAppend([w0, w1], [w2]);
    WordsAppend([w0, w1, w2], [w3]);
    assert [w0, w1, w2, w3] == [w0, w1, w2] + [w3] && [w0, w1, w2] == [w0, w1] + [w2] && [w0, w1] == [w0] + [w1];
    OneWord(w0);
    OneWord(w1);
    OneWord(w2);
    OneWord(w3);
  }

  lemma OneWord(w: SixBit)
    ensures WordsToBits([w]) == ToBits(w, 6)
  {
    hide ToBits;
  }

  // Bit q of a six-bit word, most significant first.
  predicate WordBit(w: bv32, q: nat)
    requires q < 6
  {
    match q
    case 0 => w & 32 != 0 case 1 => w & 16 != 0 case 2 => w & 8 != 0
    case 3 => w & 4 != 0 case 4 => w & 2 != 0 case _ => w & 1 != 0
  }

  function Packed(a: bv32, b: bv32, c: bv32, d: bv32): bv32
    requires a < 64 && b < 64 && c < 64 && d < 64
  {
    (a << 18) | (b << 12) | (c << 6) | d
  }

  function AsWord(w: SixBit): bv32 {
    w as bv32
  }

  function PackedByte(packed: bv32, i: nat): bv8
    requires i < 3
  {
    match i
    case 0 => ((packed >> 16) & 0xFF) as bv8
    case 1 => ((packed >> 8) & 0xFF) as bv8
    case _ => (packed & 0xFF) as bv8
  }

  // The bits of three bytes made of four words, a part of a word at a time.
  lemma FirstOfByte0(a: bv32, b: bv32, c: bv32, d: bv32)
    requires a < 64 && b < 64 && c < 64 && d < 64
    ensures BitSet(PackedByte(Packed(a, b, c, d), 0), 0) == WordBit(a, 0)
    ensures BitSet(PackedByte(Packed(a, b, c, d), 0), 1) == WordBit(a, 1)
    ensures BitSet(PackedByte(Packed(a, b, c, d), 0), 2) == WordBit(a, 2)
    ensures BitSet(PackedByte(Packed(a, b, c, d), 0), 3) == WordBit(a, 3)
    ensures BitSet(PackedByte(Packed(a, b, c, d), 0), 4) == WordBit(a, 4)
    ensures BitSet(PackedByte(Packed(a, b, c, d), 0), 5) == WordBit(a, 5)
  {
  }

  lemma LastOfByte0(a: bv32, b: bv32, c: bv32, d: bv32)
    requires a < 64 && b < 64 && c < 64 && d < 64
    ensures BitSet(PackedByte(Packed(a, b, c, d), 0), 6) == WordBit(b, 0)
    ensures BitSet(PackedByte(Packed(a, b, c, d), 0), 7) == WordBit(b, 1)
  {
  }

  lemma FirstOfByte1(a: bv32, b: bv32, c: bv32, d: bv32)
    requires a < 64 && b < 64 && c < 64 && d < 64
    ensures BitSet(PackedByte(Packed(a, b, c, d), 1), 0) == WordBit(b, 2)
    ensures BitSet(PackedByte(Packed(a, b, c, d), 1), 1) == WordBit(b, 3)
    ensures BitSet(PackedByte(Packed(a, b, c, d), 1), 2) == WordBit(b, 4)
    ensures BitSet(PackedByte(Packed(a, b, c, d), 1), 3) == WordBit(b, 5)
  {
  }

  lemma LastOfByte1(a: bv32, b: bv32, c: bv32, d: bv32)
    requires a < 64 && b < 64 && c < 64 && d < 64
    ensures BitSet(PackedByte(Packed(a, b, c, d), 1), 4) == WordBit(c, 0)
    ensures BitSet(PackedByte(Packed(a, b, c, d), 1), 5) == WordBit(c, 1)
    ensures BitSet(PackedByte(Packed(a, b, c, d), 1), 6) == WordBit(c, 2)
    ensures BitSet(PackedByte(Packed(a, b, c, d), 1), 7) == WordBit(c, 3)
  {
  }

  lemma FirstOfByte2(a: bv32, b: bv32, c: bv32, d: bv32)
    requires a < 64 && b < 64 && c < 64 && d < 64
    ensures BitSet(PackedByte(Packed(a, b, c, d), 2), 0) == WordBit(c, 4)
    ensures BitSet(PackedByte(Packed(a, b, c, d), 2), 1) == WordBit(c, 5)
  {
  }

  lemma LastOfByte2(a: bv32, b: bv32, c: bv32, d: bv32)
    requires a < 64 && b < 64 && c < 64 && d < 64
    ensures BitSet(PackedByte(Packed(a, b, c, d), 2), 2) == WordBit(d, 0)
    ensures BitSet(PackedByte(Packed(a, b, c, d), 2), 3) == WordBit(d, 1)
    ensures BitSet(PackedByte(Packed(a, b, c, d), 2), 4) == WordBit(d, 2)
    ensures BitSet(PackedByte(Packed(a, b, c, d), 2), 5) == WordBit(d, 3)
    ensures BitSet(PackedByte(Packed(a, b, c, d), 2), 6) == WordBit(d, 4)
    ensures BitSet(PackedByte(Packed(a, b, c, d), 2), 7) == WordBit(d, 5)
  {
  }

  lemma PackBits0(a: bv32, b: bv32, c: bv32, d: bv32, k: nat)
    requires a < 64 && b < 64 && c < 64 && d < 64 && k < 8
    ensures BitSet(PackedByte(Packed(a, b, c, d), 0), k)
            == if k < 6 then WordBit(a, k) else WordBit(b, k - 6)
  {
    hide BitSet, PackedByte, Packed, WordBit;
    FirstOfByte0(a, b, c, d);
    LastOfByte0(a, b, c, d);
  }

  lemma PackBits1(a: bv32, b: bv32, c: bv32, d: bv32, k: nat)
    requires a < 64 && b < 64 && c < 64 && d < 64 && k < 8
    ensures BitSet(PackedByte(Packed(a, b, c, d), 1), k)
            == if k < 4 then WordBit(b, k + 2) else WordBit(c, k - 4)
  {
    hide BitSet, PackedByte, Packed, WordBit;
    FirstOfByte1(a, b, c, d);
    LastOfByte1(a, b, c, d);
  }

  lemma PackBits2(a: bv32, b: bv32, c: bv32, d: bv32, k: nat)
    requires a < 64 && b < 64 && c < 64 && d < 64 && k < 8
    ensures BitSet(PackedByte(Packed(a, b, c, d), 2), k)
            == if k < 2 then WordBit(c, k + 4) else WordBit(d, k - 2)
  {
    hide BitSet, PackedByte, Packed, WordBit;
    FirstOfByte2(a, b, c, d);
    LastOfByte2(a, b, c, d);
  }

  lemma WordAsBits(w: SixBit)
    ensures AsWord(w) < 64
    ensures forall q | 0 <= q < 6 :: ToBits(w, 6)[q] == WordBit(AsWord(w), q)
  {
    hide ToBits;
    ToBits6(w);
    WordHigh(w);
    WordLow(w);
  }

  lemma PackByte0(w0: SixBit, w1: SixBit, w2: SixBit, w3: SixBit, packed: bv32)
    requires AsWord(w0) < 64 && AsWord(w1) < 64 && AsWord(w2) < 64 && AsWord(w3) < 64
    requires packed == Packed(AsWord(w0), AsWord(w1), AsWord(w2), AsWord(w3))
    ensures ByteBits(PackedByte(packed, 0)) == ToBits(w0, 6) + ToBits(w1, 6)[..2]
  {
    hide ToBits, BitSet, WordBit, Packed, PackedByte, AsWord;
    WordAsBits(w0);
    WordAsBits(w1);
    var bits := ToBits(w0, 6) + ToBits(w1, 6)[..2];
    forall k | 0 <= k < 8
      ensures BitSet(PackedByte(packed, 0), k) == bits[k]
    {
      PackBits0(AsWord(w0), AsWord(w1), AsWord(w2), AsWord(w3), k);
    }
  }

  lemma PackByte1(w0: SixBit, w1: SixBit, w2: SixBit, w3: SixBit, packed: bv32)
    requires AsWord(w0) < 64 && AsWord(w1) < 64 && AsWord(w2) < 64 && AsWord(w3) < 64
    requires packed == Packed(AsWord(w0), AsWord(w1), AsWord(w2), AsWord(w3))
    ensures ByteBits(PackedByte(packed, 1)) == ToBits(w1, 6)[2..] + ToBits(w2, 6)[..4]
  {
    hide ToBits, BitSet, WordBit, Packed, PackedByte, AsWord;
    WordAsBits(w1);
    WordAsBits(w2);
    var bits := ToBits(w1, 6)[2..] + ToBits(w2, 6)[..4];
    forall k | 0 <= k < 8
      ensures BitSet(PackedByte(packed, 1), k) == bits[k]
    {
      PackBits1(AsWord(w0), AsWord(w1), AsWord(w2), AsWord(w3), k);
    }
  }

  lemma PackByte2(w0: SixBit, w1: SixBit, w2: SixBit, w3: SixBit, packed: bv32)
    requires AsWord(w0) < 64 && AsWord(w1) < 64 && AsWord(w2) < 64 && AsWord(w3) < 64
    requires packed == Packed(AsWord(w0), AsWord(w1), AsWord(w2), AsWord(w3))
    ensures ByteBits(PackedByte(packed, 2)) == ToBits(w2, 6)[4..] + ToBits(w3, 6)
  {
    hide ToBits, BitSet, WordBit, Packed, PackedByte, AsWord;
    WordAsBits(w2);
    WordAsBits(w3);
    var bits := ToBits(w2, 6)[4..] + ToBits(w3, 6);
    forall k | 0 <= k < 8
      ensures BitSet(PackedByte(packed, 2), k) == bits[k]
    {
      PackBits2(AsWord(w0), AsWord(w1), AsWord(w2), AsWord(w3), k);
    }
  }

  // Four words make three bytes of the same bits.
  lemma PackGroup(w0: SixBit, w1: SixBit, w2: SixBit, w3: SixBit, packed: bv32)
    requires AsWord(w0) < 64 && AsWord(w1) < 64 && AsWord(w2) < 64 && AsWord(w3) < 64
    requires packed == Packed(AsWord(w0), AsWord(w1), AsWord(w2), AsWord(w3))
    ensures BytesToBits([PackedByte(packed, 0), PackedByte(packed, 1), PackedByte(packed, 2)])
            == WordsToBits([w0, w1, w2, w3])
  {
    hide ToBits, ByteBits, Packed, PackedByte, AsWord, BytesToBits, WordsToBits;
    PackByte0(w0, w1, w2, w3, packed);
    PackByte1(w0, w1, w2, w3, packed);
    PackByte2(w0, w1, w2, w3, packed);
    ThreeBytes(PackedByte(packed, 0), PackedByte(packed, 1), PackedByte(packed, 2));
    FourWords(w0, w1, w2, w3);
    var t1, t2 := ToBits(w1, 6), ToBits(w2, 6);
    assert t1 == t1[..2] + t1[2..] && t2 == t2[..4] + t2[4..];
  }

  lemma TypeBits(t: bv8, k: nat)
    requires t < 8 && k < 8
    ensures BitSet(t << 5, k) == if k < 3 then BitSet(t, k + 5) else false
  {
    match k
    case 0 => assert BitSet(t << 5, 0) == BitSet(t, 5);
    case 1 => assert BitSet(t << 5, 1) == BitSet(t, 6);
    case 2 => assert BitSet(t << 5, 2) == BitSet(t, 7);
    case 3 => assert !BitSet(t << 5, 3);
    case 4 => assert !BitSet(t << 5, 4);
    case 5 => assert !BitSet(t << 5, 5);
    case 6 => assert !BitSet(t << 5, 6);
    case _ => assert !BitSet(t << 5, 7);
  }

  lemma SmallNumberBits(t: nat)
    requires t < 8
    ensures (t as bv8) < 8
    ensures var h := t / 2;
            && BitSet(t as bv8, 5) == (h / 2 % 2 == 1)
            && BitSet(t as bv8, 6) == (h % 2 == 1)
            && BitSet(t as bv8, 7) == (t % 2 == 1)
  {
  }

  // The byte that starts with the frame type.
  lemma TypeByte(t: nat)
    requires t < 8
    ensures ByteBits((t as bv8) << 5) == ToBits(t, 3) + Zero(5)
  {
    hide BitSet;
    SmallNumberBits(t);
    var h, bits := t / 2, ToBits(t, 3) + Zero(5);
    assert ToBits(t, 3) == [h / 2 % 2 == 1, h % 2 == 1, t % 2 == 1];
    forall k | 0 <= k < 8
      ensures BitSet((t as bv8) << 5, k) == bits[k]
    {
      TypeBits(t as bv8, k);
    }
  }

  lemma TenthByteBits(b9: bv8, crc: bv12, k: nat)
    requires b9 & 0x1F == 0 && k < 8
    ensures BitSet(b9 | (((crc >> 7) & 0x1F) as bv8), k) == if k < 3 then BitSet(b9, k) else ChecksumBit(crc, k - 3)
  {
    match k
    case 0 => assert BitSet(b9 | (((crc >> 7) & 0x1F) as bv8), 0) == BitSet(b9, 0);
    case 1 => assert BitSet(b9 | (((crc >> 7) & 0x1F) as bv8), 1) == BitSet(b9, 1);
    case 2 => assert BitSet(b9 | (((crc >> 7) & 0x1F) as bv8), 2) == BitSet(b9, 2);
    case 3 => assert BitSet(b9 | (((crc >> 7) & 0x1F) as bv8), 3) == ChecksumBit(crc, 0);
    case 4 => assert BitSet(b9 | (((crc >> 7) & 0x1F) as bv8), 4) == ChecksumBit(crc, 1);
    case 5 => assert BitSet(b9 | (((crc >> 7) & 0x1F) as bv8), 5) == ChecksumBit(crc, 2);
    case 6 => assert BitSet(b9 | (((crc >> 7) & 0x1F) as bv8), 6) == ChecksumBit(crc, 3);
    case _ => assert BitSet(b9 | (((crc >> 7) & 0x1F) as bv8), 7) == ChecksumBit(crc, 4);
  }

  lemma EleventhByteBits(crc: bv12, k: nat)
    requires k < 8
    ensures BitSet(((crc & 0x7F) << 1) as bv8, k) == if k < 7 then ChecksumBit(crc, k + 5) else false
  {
    match k
    case 0 => assert BitSet(((crc & 0x7F) << 1) as bv8, 0) == ChecksumBit(crc, 5);
    case 1 => assert BitSet(((crc & 0x7F) << 1) as bv8, 1) == ChecksumBit(crc, 6);
    case 2 => assert BitSet(((crc & 0x7F) << 1) as bv8, 2) == ChecksumBit(crc, 7);
    case 3 => assert BitSet(((crc & 0x7F) << 1) as bv8, 3) == ChecksumBit(crc, 8);
    case 4 => assert BitSet(((crc & 0x7F) << 1) as bv8, 4) == ChecksumBit(crc, 9);
    case 5 => assert BitSet(((crc & 0x7F) << 1) as bv8, 5) == ChecksumBit(crc, 10);
    case 6 => assert BitSet(((crc & 0x7F) << 1) as bv8, 6) == ChecksumBit(crc, 11);
    case _ => assert !BitSet(((crc & 0x7F) << 1) as bv8, 7);
  }

  // The two bytes that take the checksum: five bits of it, then seven.
  lemma ChecksumBytes(b9: bv8, crc: bv12)
    requires b9 & 0x1F == 0
    ensures ByteBits(b9 | (((crc >> 7) & 0x1F) as bv8)) == ByteBits(b9)[..3] + ChecksumBits(crc)[..5]
    ensures ByteBits(((crc & 0x7F) << 1) as bv8) == ChecksumBits(crc)[5..] + [false]
  {
    hide BitSet, ChecksumBit;
    forall k | 0 <= k < 8
      ensures BitSet(b9 | (((crc >> 7) & 0x1F) as bv8), k) == (ByteBits(b9)[..3] + ChecksumBits(crc)[..5])[k]
      ensures BitSet(((crc & 0x7F) << 1) as bv8, k) == (ChecksumBits(crc)[5..] + [false])[k]
    {
      TenthByteBits(b9, crc, k);
      EleventhByteBits(crc, k);
    }
  }

  lemma ZeroByte()
    ensures BytesToBits([0]) == Zero(8)
  {
    OneByte(0);
  }

  // The masks select the bits of a byte in turn.
  lemma MaskSelects(b: bv8, k: nat)
    requires k < 8
    ensures b & Mask(k) != 0 <==> BitSet(b, k)
    ensures Mask(0) == 0x80 && (Mask(k) == 1 <==> k == 7)
    ensures k < 7 ==> Mask(k) >> 1 == Mask(k + 1)
  {
    match k
    case 0 => assert Mask(0) >> 1 == Mask(1);
    case 1 => assert Mask(1) >> 1 == Mask(2);
    case 2 => assert Mask(2) >> 1 == Mask(3);
    case 3 => assert Mask(3) >> 1 == Mask(4);
    case 4 => assert Mask(4) >> 1 == Mask(5);
    case 5 => assert Mask(5) >> 1 == Mask(6);
    case 6 => assert Mask(6) >> 1 == Mask(7);
    case _ =>
  }

  lemma EmptyBits()
    ensures BytesToBits([]) == WordsToBits([])
  {
  }

  lemma TypeByteLow(t: nat)
    requires t < 8
    ensures ((t as bv8) << 5) & 0x1F == 0
  {
  }
}
