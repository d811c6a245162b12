/** What the receiver does with 87 decoded bits: the checksum test and the extraction of the
    message, and that they undo and are undone by the encoder. */
module FrameContents {
  import opened Gf2
  import opened BinaryNumbers
  import opened Alphabet
  import opened BytePacking
  import opened Crc12
  import opened FrameCodec

  predicate ChecksumMatches(decoded: Vec)
    requires |decoded| == 87
  {
    decoded[75..] == ChecksumBits(PayloadChecksum(decoded[..75]))
  }

  // The twelve letters of a frame.
  function MessageOf(decoded: Vec): (r: string)
    requires |decoded| == 87
    ensures |r| == 12
  {
    seq(12, i requires 0 <= i < 12 => LetterOf(decoded[6 * i..6 * i + 6]))
  }

  function LetterOf(bits: Vec): char
    requires |bits| == 6
  {
    SixBitsFit(bits);
    ALPHABET[FromBits(bits)]
  }

  lemma SixBitsFit(bits: Vec)
    requires |bits| == 6
    ensures FromBits(bits) < 64 == |ALPHABET|
  {
    ToBitsOfFromBits(bits);
    assert Power2(2) == 4 && Power2(4) == 16 && Power2(6) == 64;
    LetterIs(0);
  }

  function FrameTypeOf(decoded: Vec): nat
    requires |decoded| == 87
  {
    FromBits(decoded[72..75])
  }

  /* Round trips */

  lemma LetterRoundTrip(c: char)
    requires AlphabetWord(c).Some?
    ensures LetterOf(ToBits(WordOf(c), 6)) == c
  {
    hide ALPHABET, AlphabetWord;
    AlphabetRoundTrip(c);
    assert Power2(2) == 4 && Power2(4) == 16 && Power2(6) == 64;
    FromBitsOfToBits(WordOf(c), 6);
  }

  lemma WordRoundTrip(bits: Vec)
    requires |bits| == 6
    ensures AlphabetWord(LetterOf(bits)).Some? && ToBits(WordOf(LetterOf(bits)), 6) == bits
  {
    hide ALPHABET, AlphabetWord;
    SixBitsFit(bits);
    AlphabetRoundTrip(LetterOf(bits));
    ToBitsOfFromBits(bits);
  }

  lemma TypeRoundTrip(bits: Vec)
    requires |bits| == 3
    ensures FromBits(bits) < 8 && ToBits(FromBits(bits) % 8, 3) == bits
  {
    hide ToBits, FromBits;
    ToBitsOfFromBits(bits);
    assert Power2(1) == 2 && Power2(3) == 8;
    assert FromBits(bits) % 8 == FromBits(bits);
  }

  // The receiver reads back the message and the low three bits of the type of a frame.
  lemma FrameIsReadBack(message: string, frameType: int)
    requires Encodable(message)
    ensures ChecksumMatches(Frame(message, frameType))
    ensures MessageOf(Frame(message, frameType)) == message
    ensures FrameTypeOf(Frame(message, frameType)) == frameType % 8
  {
    hide PayloadChecksum, ChecksumBits, ToBits, FromBits, LetterOf, AlphabetWord;
    var payload := Payload(Words(message), frameType);
    var f := Frame(message, frameType);
    assert f[..75] == payload && f[75..] == ChecksumBits(PayloadChecksum(payload));
    forall i | 0 <= i < 12
      ensures MessageOf(f)[i] == message[i]
    {
      var w := Words(message)[i];
      assert f[6 * i..6 * i + 6] == ToBits(w, 6) by {
        forall k | 0 <= k < 6
          ensures f[6 * i + k] == ToBits(w, 6)[k]
        {
          assert (6 * i + k) / 6 == i && (6 * i + k) % 6 == k;
        }
      }
      LetterRoundTrip(message[i]);
    }
    assert f[72..75] == ToBits(frameType % 8, 3);
    assert Power2(1) == 2 && Power2(3) == 8;
    FromBitsOfToBits(frameType % 8, 3);
  }

  // The places of a frame: the index of each letter in six bits, the type in three, and the checksum.
  lemma FrameBits(message: string, frameType: int)
    requires Encodable(message)
    ensures var f := Frame(message, frameType);
            && (forall i | 0 <= i < 12 ::
                  var w := 32 * One(f[6 * i]) + 16 * One(f[6 * i + 1]) + 8 * One(f[6 * i + 2]) + 4 * One(f[6 * i + 3])
                           + 2 * One(f[6 * i + 4]) + One(f[6 * i + 5]);
                  w < |ALPHABET| && ALPHABET[w] == message[i])
            && 4 * One(f[72]) + 2 * One(f[73]) + One(f[74]) == frameType % 8
            && f[75..] == ChecksumBits(PayloadChecksum(f[..75]))
  {
    hide Frame, LetterOf, FromBits, PayloadChecksum, ChecksumBits, AlphabetWord, ALPHABET;
    var f := Frame(message, frameType);
    FrameIsReadBack(message, frameType);
    forall i | 0 <= i < 12
      ensures var w := 32 * One(f[6 * i]) + 16 * One(f[6 * i + 1]) + 8 * One(f[6 * i + 2]) + 4 * One(f[6 * i + 3])
                       + 2 * One(f[6 * i + 4]) + One(f[6 * i + 5]);
              w < |ALPHABET| && ALPHABET[w] == message[i]
    {
      assert MessageOf(f)[i] == LetterOf(f[6 * i..6 * i + 6]);
      LetterOfSix(f[6 * i..6 * i + 6]);
    }
    var b := f[72..75];
    assert b == [b[0], b[1], b[2]];
    FromBits3(b[0], b[1], b[2]);
  }

  lemma LetterOfSix(b: Vec)
    requires |b| == 6
    ensures var w := 32 * One(b[0]) + 16 * One(b[1]) + 8 * One(b[2]) + 4 * One(b[3]) + 2 * One(b[4]) + One(b[5]);
            w < |ALPHABET| && ALPHABET[w] == LetterOf(b)
  {
    hide FromBits, ALPHABET;
    SixBitsFit(b);
    FromBits6(b);
    assert b[..3] == [b[0], b[1], b[2]];
    FromBits3(b[0], b[1], b[2]);
  }

  // Every frame that passes the checksum test is the frame of what the receiver reads from it.
  lemma FrameIsReencoded(decoded: Vec)
    requires |decoded| == 87 && ChecksumMatches(decoded)
    ensures Encodable(MessageOf(decoded)) && FrameTypeOf(decoded) < 8
    ensures Frame(MessageOf(decoded), FrameTypeOf(decoded)) == decoded
  {
    hide PayloadChecksum, ChecksumBits, ToBits, FromBits, LetterOf, AlphabetWord;
    var message := MessageOf(decoded);
    forall i | 0 <= i < 12
      ensures AlphabetWord(message[i]).Some? && ToBits(WordOf(message[i]), 6) == decoded[6 * i..6 * i + 6]
    {
      WordRoundTrip(decoded[6 * i..6 * i + 6]);
    }
    var ws := Words(message);
    forall k | 0 <= k < 72
      ensures WordsToBits(ws)[k] == decoded[k]
    {
      var i := k / 6;
      assert k == 6 * i + k % 6;
      assert ToBits(ws[i], 6)[k % 6] == decoded[6 * i..6 * i + 6][k % 6];
    }
    TypeRoundTrip(decoded[72..75]);
    assert Payload(ws, FrameTypeOf(decoded)) == decoded[..75];
    assert decoded == decoded[..75] + decoded[75..];
  }

  // The frames that pass the test are exactly the frames that can be sent, and the message and
  // type of a frame are unique.
  lemma ValidFramesAreFrames(decoded: Vec)
    requires |decoded| == 87
    ensures ChecksumMatches(decoded)
            <==> exists message, t: nat :: Encodable(message) && t < 8 && Frame(message, t) == decoded
  {
    hide ChecksumMatches, Frame, Encodable;
    if ChecksumMatches(decoded) {
      FrameIsReencoded(decoded);
      var message, t := MessageOf(decoded), FrameTypeOf(decoded);
      assert Encodable(message) && t < 8 && Frame(message, t) == decoded;
    }
    if message, t: nat :| Encodable(message) && t < 8 && Frame(message, t) == decoded {
      FrameIsReadBack(message, t);
    }
  }

  // The checksum mask keeps the all-zero word from being a frame.
  lemma ZeroIsNoFrame()
    ensures !ChecksumMatches(Zero(87))
  {
    var z := Zero(87);
    assert z[..75] + Zero(13) == Zero(88);
    hide Feed;
    FeedZeros(88);
    assert z[..75] == Zero(75);
    assert PayloadChecksum(z[..75]) == 42;
    assert ChecksumBits(42)[6];
    assert !z[75..][6];
  }

  /* The receiver's code */

  // Sets bit i of the array, in the order in which the encoder reads it.
  method SetBit(bits: array<bv8>, i: nat)
    requires bits.Length == 11 && i < 87
    modifies bits
    ensures BytesToBits(bits[..]) == old(BytesToBits(bits[..]))[i := true]
  {
    hide BitSet, Mask;
    ghost var before := bits[..];
    ShiftedOne(i % 8);
    bits[i / 8] := bits[i / 8] | ((1 as bv8) << (7 - i % 8));
    forall k | 0 <= k < 88
      ensures BytesToBits(bits[..])[k] == BytesToBits(before)[i := true][k]
    {
      assert k == 8 * (k / 8) + k % 8 && i == 8 * (i / 8) + i % 8;
      BitSetOr(before[i / 8], Mask(i % 8), k % 8);
      MasksDistinct(i % 8, k % 8);
    }
  }

  lemma ShiftedOne(k: nat)
    requires k < 8
    ensures (1 as bv8) << (7 - k) == Mask(k)
  {
    match k
    case 0 => assert (1 as bv8) << 7 == Mask(0);
    case 1 => assert (1 as bv8) << 6 == Mask(1);
    case 2 => assert (1 as bv8) << 5 == Mask(2);
    case 3 => assert (1 as bv8) << 4 == Mask(3);
    case 4 => assert (1 as bv8) << 3 == Mask(4);
    case 5 => assert (1 as bv8) << 2 == Mask(5);
    case 6 => assert (1 as bv8) << 1 == Mask(6);
    case _ => assert (1 as bv8) << 0 == Mask(7);
  }

  lemma BitSetOr(x: bv8, y: bv8, k: nat)
    requires k < 8
    ensures BitSet(x | y, k) == (BitSet(x, k) || BitSet(y, k))
  {
    match k
    case 0 => assert BitSet(x | y, 0) == (BitSet(x, 0) || BitSet(y, 0));
    case 1 => assert BitSet(x | y, 1) == (BitSet(x, 1) || BitSet(y, 1));
    case 2 => assert BitSet(x | y, 2) == (BitSet(x, 2) || BitSet(y, 2));
    case 3 => assert BitSet(x | y, 3) == (BitSet(x, 3) || BitSet(y, 3));
    case 4 => assert BitSet(x | y, 4) == (BitSet(x, 4) || BitSet(y, 4));
    case 5 => assert BitSet(x | y, 5) == (BitSet(x, 5) || BitSet(y, 5));
    case 6 => assert BitSet(x | y, 6) == (BitSet(x, 6) || BitSet(y, 6));
    case _ => assert BitSet(x | y, 7) == (BitSet(x, 7) || BitSet(y, 7));
  }

  // Packs the decoded bits into the byte array; the last bit of the array stays clear.
  method PackDecoded(decoded: array<bool>, bits: array<bv8>)
    requires decoded.Length == 87
    requires bits.Length == 11 && forall k | 0 <= k < 11 :: bits[k] == 0
    modifies bits
    ensures BytesToBits(bits[..]) == decoded[..] + [false]
  {
    hide BitSet;
    ClearBytes(bits[..]);
    for i := 0 to 87
      invariant BytesToBits(bits[..]) == decoded[..i] + Zero(88 - i)
    {
      hide BytesToBits;
      if decoded[i] {
        SetBit(bits, i);
      }
      assert decoded[..i + 1] == decoded[..i] + [decoded[i]];
    }
    assert decoded[..87] == decoded[..] && Zero(1) == [false];
  }

  lemma ClearBytes(bytes: seq<bv8>)
    requires |bytes| == 11 && forall k | 0 <= k < 11 :: bytes[k] == 0
    ensures BytesToBits(bytes) == Zero(88)
  {
    forall k | 0 <= k < 88
      ensures !BitSet(bytes[k / 8], k % 8)
    {
      assert bytes[k / 8] == 0;
    }
  }

  lemma ReceivedBit(b9: bv8, b10: bv8, k: nat)
    requires k < 12
    ensures ChecksumBit(ReceivedChecksum(b9, b10), k) == if k < 5 then BitSet(b9, k + 3) else BitSet(b10, k - 5)
  {
    match k
    case 0 => assert ChecksumBit(ReceivedChecksum(b9, b10), 0) == BitSet(b9, 3);
    case 1 => assert ChecksumBit(ReceivedChecksum(b9, b10), 1) == BitSet(b9, 4);
    case 2 => assert ChecksumBit(ReceivedChecksum(b9, b10), 2) == BitSet(b9, 5);
    case 3 => assert ChecksumBit(ReceivedChecksum(b9, b10), 3) == BitSet(b9, 6);
    case 4 => assert ChecksumBit(ReceivedChecksum(b9, b10), 4) == BitSet(b9, 7);
    case 5 => assert ChecksumBit(ReceivedChecksum(b9, b10), 5) == BitSet(b10, 0);
    case 6 => assert ChecksumBit(ReceivedChecksum(b9, b10), 6) == BitSet(b10, 1);
    case 7 => assert ChecksumBit(ReceivedChecksum(b9, b10), 7) == BitSet(b10, 2);
    case 8 => assert ChecksumBit(ReceivedChecksum(b9, b10), 8) == BitSet(b10, 3);
    case 9 => assert ChecksumBit(ReceivedChecksum(b9, b10), 9) == BitSet(b10, 4);
    case 10 => assert ChecksumBit(ReceivedChecksum(b9, b10), 10) == BitSet(b10, 5);
    case _ => assert ChecksumBit(ReceivedChecksum(b9, b10), 11) == BitSet(b10, 6);
  }

  // The received checksum is the end of the tenth byte and the start of the eleventh.
  lemma SplitChecksum(b9: bv8, b10: bv8)
    ensures ChecksumBits(ReceivedChecksum(b9, b10)) == ByteBits(b9)[3..] + ByteBits(b10)[..7]
  {
    hide BitSet, ChecksumBit, ReceivedChecksum;
    forall k | 0 <= k < 12
      ensures ChecksumBit(ReceivedChecksum(b9, b10), k) == (ByteBits(b9)[3..] + ByteBits(b10)[..7])[k]
    {
      ReceivedBit(b9, b10, k);
    }
  }

  lemma ClearedBit(b9: bv8, k: nat)
    requires k < 8
    ensures BitSet(b9 & 0xE0, k) == if k < 3 then BitSet(b9, k) else false
  {
    match k
    case 0 => assert BitSet(b9 & 0xE0, 0) == BitSet(b9, 0);
    case 1 => assert BitSet(b9 & 0xE0, 1) == BitSet(b9, 1);
    case 2 => assert BitSet(b9 & 0xE0, 2) == BitSet(b9, 2);
    case 3 => assert !BitSet(b9 & 0xE0, 3);
    case 4 => assert !BitSet(b9 & 0xE0, 4);
    case 5 => assert !BitSet(b9 & 0xE0, 5);
    case 6 => assert !BitSet(b9 & 0xE0, 6);
    case _ => assert !BitSet(b9 & 0xE0, 7);
  }

  lemma ClearedChecksum(b9: bv8)
    ensures ByteBits(b9 & 0xE0) == ByteBits(b9)[..3] + Zero(5)
  {
    hide BitSet;
    forall k | 0 <= k < 8
      ensures BitSet(b9 & 0xE0, k) == (ByteBits(b9)[..3] + Zero(5))[k]
    {
      ClearedBit(b9, k);
    }
  }

  function ReceivedChecksum(b9: bv8, b10: bv8): bv12 {
    (((b9 & 0x1F) as bv12) << 7) | ((b10 as bv12) >> 1)
  }

  lemma SameChecksum(c: bv12, d: bv12)
    requires ChecksumBit(c, 0) == ChecksumBit(d, 0) && ChecksumBit(c, 1) == ChecksumBit(d, 1)
    requires ChecksumBit(c, 2) == ChecksumBit(d, 2) && ChecksumBit(c, 3) == ChecksumBit(d, 3)
    requires ChecksumBit(c, 4) == ChecksumBit(d, 4) && ChecksumBit(c, 5) == ChecksumBit(d, 5)
    requires ChecksumBit(c, 6) == ChecksumBit(d, 6) && ChecksumBit(c, 7) == ChecksumBit(d, 7)
    requires ChecksumBit(c, 8) == ChecksumBit(d, 8) && ChecksumBit(c, 9) == ChecksumBit(d, 9)
    requires ChecksumBit(c, 10) == ChecksumBit(d, 10) && ChecksumBit(c, 11) == ChecksumBit(d, 11)
    ensures c == d
  {
  }

  lemma ChecksumBitsInjective(c: bv12, d: bv12)
    ensures ChecksumBits(c) == ChecksumBits(d) <==> c == d
  {
    hide ChecksumBit;
    if ChecksumBits(c) == ChecksumBits(d) {
      assert forall k | 0 <= k < 12 ::
          ChecksumBits(c)[k] == ChecksumBit(c, k) && ChecksumBits(d)[k] == ChecksumBit(d, k);
      SameChecksum(c, d);
    }
  }

  // Where the bytes divide the payload from the checksum.
  lemma SplitFrame(d: Vec, head: Vec, b9: Vec, b10: Vec)
    requires |d| == 87 && |head| == 72 && |b9| == |b10| == 8 && d + [false] == head + b9 + b10
    ensures d[75..] == b9[3..] + b10[..7] && d[..75] == head + b9[..3]
  {
    assert d == (d + [false])[..87] == (head + b9 + b10)[..87];
    assert (head + b9 + b10)[..87][75..] == b9[3..] + b10[..7];
    assert (head + b9 + b10)[..87][..75] == head + b9[..3];
  }

  // The test of the received checksum.
  method CheckCRC12(decoded: array<bool>) returns (ok: bool)
    requires decoded.Length == 87
    ensures ok <==> ChecksumMatches(decoded[..])
  {
    hide BytesToBits, ByteBits, ChecksumBits, ReceivedChecksum, Remainder;
    var bits := new bv8[11](_ => 0);
    PackDecoded(decoded, bits);
    ghost var head, b9, b10 := bits[..9], bits[9], bits[10];
    assert bits[..] == head + [b9] + [b10];
    BytesAppend(head + [b9], [b10]);
    BytesAppend(head, [b9]);
    OneByte(b9);
    OneByte(b10);
    SplitChecksum(b9, b10);
    ClearedChecksum(b9);
    ghost var d := decoded[..];
    SplitFrame(d, BytesToBits(head), ByteBits(b9), ByteBits(b10));
    var crc := ReceivedChecksum(bits[9], bits[10]);
    bits[9] := bits[9] & 0xE0;
    bits[10] := 0;
    assert bits[..] == head + [b9 & 0xE0] + [0];
    BytesAppend(head + [b9 & 0xE0], [0]);
    BytesAppend(head, [b9 & 0xE0]);
    OneByte(b9 & 0xE0);
    ZeroByte();
    assert BytesToBits(bits[..]) == d[..75] + Zero(13) by {
      assert Zero(5) + Zero(8) == Zero(13);
    }
    ok := crc == Checksum(bits[..]);
    ChecksumBitsInjective(crc, PayloadChecksum(d[..75]));
  }

  // The twelve 6-bit words of the first 72 bits.
  method ReadWords(decoded: array<bool>, words: array<nat>)
    requires decoded.Length == 87 && words.Length == 12
    modifies words
    ensures forall k | 0 <= k < 12 :: words[k] == FromBits(decoded[6 * k..6 * k + 6])
  {
    hide FromBits;
    for i := 0 to 12
      invariant forall k | 0 <= k < i :: words[k] == FromBits(decoded[6 * k..6 * k + 6])
    {
      var bits := decoded[6 * i..6 * i + 6];
      SixBitsValue(bits);
      words[i] := 32 * Flag(bits[0]) + 16 * Flag(bits[1]) + 8 * Flag(bits[2])
                  + 4 * Flag(bits[3]) + 2 * Flag(bits[4]) + Flag(bits[5]);
    }
  }

  // The message of a frame that passes the test, and no message otherwise.
  method ExtractMessage174(decoded: array<bool>) returns (message: string)
    requires decoded.Length == 87
    ensures message == if ChecksumMatches(decoded[..]) then MessageOf(decoded[..]) else ""
  {
    hide ChecksumMatches, FromBits, ALPHABET;
    message := "";
    var ok := CheckCRC12(decoded);
    if ok {
      var words := new nat[12];
      ReadWords(decoded, words);
      ghost var d := decoded[..];
      assert forall k | 0 <= k < 12 :: d[6 * k..6 * k + 6] == decoded[6 * k..6 * k + 6];
      for i := 0 to 12
        invariant forall k | 0 <= k < 12 :: words[k] == FromBits(d[6 * k..6 * k + 6])
        invariant message == MessageOf(d)[..i]
      {
        SixBitsFit(d[6 * i..6 * i + 6]);
        message := message + [ALPHABET[words[i]]];
      }
    }
  }

  function Flag(bit: bool): nat {
    if bit then 1 else 0
  }

  lemma SixBitsValue(bits: Vec)
    requires |bits| == 6
    ensures FromBits(bits) == 32 * Flag(bits[0]) + 16 * Flag(bits[1]) + 8 * Flag(bits[2])
                              + 4 * Flag(bits[3]) + 2 * Flag(bits[4]) + Flag(bits[5])
  {
    FromBits6(bits);
    assert bits[..3] == [bits[0], bits[1], bits[2]];
    FromBits3(bits[0], bits[1], bits[2]);
  }
}
