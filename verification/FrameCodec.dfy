/** JS8 frames: the 87 bits of a message, their checksum, and the 79 tones that carry them. */
module FrameCodec {
  import opened Wrappers
  import opened Gf2
  import opened BinaryNumbers
  import opened Alphabet
  import opened BytePacking
  import opened Crc12
  import opened LdpcCode

  /* The contents of a frame */

  predicate Encodable(message: string) {
    |message| == 12 && forall c <- message :: AlphabetWord(c).Some?
  }

  function WordOf(c: char): SixBit
    requires AlphabetWord(c).Some?
  {
    AlphabetRoundTrip(c);
    AlphabetWord(c).value
  }

  function Words(message: string): (ws: seq<SixBit>)
    requires Encodable(message)
    ensures |ws| == 12
  {
    seq(12, i requires 0 <= i < 12 => WordOf(message[i]))
  }

  // Twelve words and the low three bits of the frame type.
  function Payload(ws: seq<SixBit>, frameType: int): (r: Vec)
    requires |ws| == 12
    ensures |r| == 75
  {
    WordsToBits(ws) + ToBits(frameType % 8, 3)
  }

  function Checked(payload: Vec): (r: Vec)
    requires |payload| == 75
    ensures |r| == 87
  {
    payload + ChecksumBits(PayloadChecksum(payload))
  }

  // The 87 bits of a frame.
  function Frame(message: string, frameType: int): (r: Vec)
    requires Encodable(message)
    ensures |r| == 87
  {
    Checked(Payload(Words(message), frameType))
  }

  /* Tones */

  function Tones(bits: Vec): (r: seq<int>)
    ensures |r| == |bits| / 3
  {
    seq(|bits| / 3, i requires 0 <= i < |bits| / 3 => FromBits(bits[3 * i..3 * i + 3]))
  }

  predicate CostasArrays(costas: seq<seq<int>>) {
    |costas| == 3 && forall a <- costas :: |a| == 7
  }

  // The transmission of a codeword: parity and message between three Costas arrays.
  function ToneFrame(costas: seq<seq<int>>, cw: Vec): (r: seq<int>)
    requires CostasArrays(costas) && |cw| == 174
    ensures |r| == 79
  {
    costas[0] + Tones(cw[..87]) + costas[1] + Tones(cw[87..]) + costas[2]
  }

  function One(bit: bool): nat {
    if bit then 1 else 0
  }

  // The places of a transmission: the Costas arrays at the start, in the middle and at the end, and a tone for any
  // three bits of the codeword, the first of them weighing most.
  lemma FrameLayout(costas: seq<seq<int>>, cw: Vec)
    requires CostasArrays(costas) && |cw| == 174
    ensures var tones := ToneFrame(costas, cw);
            && tones[0..7] == costas[0] && tones[36..43] == costas[1] && tones[72..79] == costas[2]
            && (forall k | 0 <= k < 29 ::
                  tones[7 + k] == 4 * One(cw[3 * k]) + 2 * One(cw[3 * k + 1]) + One(cw[3 * k + 2]))
            && (forall k | 0 <= k < 29 ::
                  tones[43 + k] == 4 * One(cw[87 + 3 * k]) + 2 * One(cw[88 + 3 * k]) + One(cw[89 + 3 * k]))
  {
    hide FromBits, Tones;
    var tones, parity, message := ToneFrame(costas, cw), cw[..87], cw[87..];
    assert tones[7..36] == Tones(parity) && tones[43..72] == Tones(message);
    forall k | 0 <= k < 29
      ensures tones[7 + k] == 4 * One(cw[3 * k]) + 2 * One(cw[3 * k + 1]) + One(cw[3 * k + 2])
      ensures tones[43 + k] == 4 * One(cw[87 + 3 * k]) + 2 * One(cw[88 + 3 * k]) + One(cw[89 + 3 * k])
    {
      ToneOfThree(parity, k);
      ToneOfThree(message, k);
      assert tones[7 + k] == tones[7..36][k] && tones[43 + k] == tones[43..72][k];
    }
  }

  lemma ToneOfThree(bits: Vec, k: nat)
    requires 3 * k + 3 <= |bits|
    ensures Tones(bits)[k] == 4 * One(bits[3 * k]) + 2 * One(bits[3 * k + 1]) + One(bits[3 * k + 2])
  {
    hide FromBits;
    var b := bits[3 * k..3 * k + 3];
    assert b == [b[0], b[1], b[2]];
    FromBits3(b[0], b[1], b[2]);
  }

  /* The encoder */

  // One step of a walk through the bits of the array: reads bit i and moves the mask along.
  method ReadBit(bytes: array<bv8>, byte: nat, mask: bv8, ghost i: nat) returns (bit: bool, byte': nat, mask': bv8)
    requires bytes.Length == 11 && i < 87 && byte == i / 8 && mask == Mask(i % 8)
    ensures bit == BytesToBits(bytes[..])[i]
    ensures byte' == (i + 1) / 8 && mask' == Mask((i + 1) % 8)
  {
    hide Mask, BitSet;
    MaskSelects(bytes[byte], i % 8);
    bit := bytes[byte] & mask != 0;
    if mask == 1 {
      byte', mask' := byte + 1, 0x80;
    } else {
      byte', mask' := byte, mask >> 1;
    }
  }

  // A row of the parity matrix times the message in `bytes`: counts the selected bits that are
  // set.
  method CountParity(row: Vec, bytes: array<bv8>) returns (parityBits: nat)
    requires |row| == 87 && bytes.Length == 11
    ensures parityBits % 2 == 1 <==> Dot(row, BytesToBits(bytes[..])[..87])
  {
    hide BitSet;
    ghost var bits := BytesToBits(bytes[..])[..87];
    parityBits := 0;
    var parityByte, parityMask, bit := 0, 0x80, false;
    for j := 0 to 87
      invariant parityByte == j / 8 && parityMask == Mask(j % 8)
      invariant parityBits % 2 == 1 <==> Dot(row[..j], bits[..j])
    {
      hide Mask;
      bit, parityByte, parityMask := ReadBit(bytes, parityByte, parityMask, j);
      if row[j] && bit {
        parityBits := parityBits + 1;
      }
      assert row[..j + 1][..j] == row[..j] && bits[..j + 1][..j] == bits[..j];
    }
    assert row[..87] == row && bits[..87] == bits;
  }

  lemma FromBitsPush(bits: Vec, lo: nat, i: nat)
    requires lo <= i < |bits|
    ensures FromBits(bits[lo..i + 1]) == 2 * FromBits(bits[lo..i]) + (if bits[i] then 1 else 0)
  {
    assert bits[lo..i + 1][..i - lo] == bits[lo..i];
  }

  lemma WordsAreSmall(w0: SixBit, w1: SixBit, w2: SixBit, w3: SixBit)
    ensures AsWord(w0) < 64 && AsWord(w1) < 64 && AsWord(w2) < 64 && AsWord(w3) < 64
  {
    hide AsWord;
    WordAsBits(w0);
    WordAsBits(w1);
    WordAsBits(w2);
    WordAsBits(w3);
  }

  lemma FourMore(words: seq<SixBit>, bytes: seq<bv8>, w0: SixBit, w1: SixBit, w2: SixBit, w3: SixBit, packed: bv32)
    requires AsWord(w0) < 64 && AsWord(w1) < 64 && AsWord(w2) < 64 && AsWord(w3) < 64
    requires packed == Packed(AsWord(w0), AsWord(w1), AsWord(w2), AsWord(w3))
    requires BytesToBits(bytes) == WordsToBits(words)
    ensures BytesToBits(bytes + [PackedByte(packed, 0), PackedByte(packed, 1), PackedByte(packed, 2)])
            == WordsToBits(words + [w0, w1, w2, w3])
  {
    hide BytesToBits, WordsToBits, Packed, PackedByte, AsWord;
    PackGroup(w0, w1, w2, w3, packed);
    BytesAppend(bytes, [PackedByte(packed, 0), PackedByte(packed, 1), PackedByte(packed, 2)]);
    WordsAppend(words, [w0, w1, w2, w3]);
  }

  // Packs twelve characters into nine bytes, four characters at a time. Stops at a character
  // outside of the alphabet, where the program throws.
  method PackMessage(message: string, bytes: array<bv8>) returns (ok: bool)
    requires |message| >= 12
    requires bytes.Length == 11 && forall k | 0 <= k < 11 :: bytes[k] == 0
    modifies bytes
    ensures ok <==> Encodable(message[..12])
    ensures ok ==> BytesToBits(bytes[..9]) == WordsToBits(Words(message[..12])) && bytes[9] == bytes[10] == 0
  {
    hide AlphabetWord, ToBits, BytesToBits, WordsToBits, Packed, PackedByte, AsWord;
    ghost var words: seq<SixBit> := [];
    var i, j := 0, 0;
    assert BytesToBits(bytes[..0]) == WordsToBits(words) by {
      assert bytes[..0] == [];
      EmptyBits();
    }
    while i < 12
      invariant i <= 12 && 4 * j == 3 * i && i % 4 == 0 && |words| == i
      invariant forall k | 0 <= k < i :: AlphabetWord(message[k]) == Some(words[k])
      invariant BytesToBits(bytes[..j]) == WordsToBits(words)
      invariant forall k | j <= k < 11 :: bytes[k] == 0
    {
      var a, b := AlphabetWord(message[i]), AlphabetWord(message[i + 1]);
      var c, d := AlphabetWord(message[i + 2]), AlphabetWord(message[i + 3]);
      if a.None? || b.None? || c.None? || d.None? {
        assert message[..12][i] == message[i] && message[..12][i + 1] == message[i + 1];
        assert message[..12][i + 2] == message[i + 2] && message[..12][i + 3] == message[i + 3];
        return false;
      }
      var w0, w1, w2, w3 := WordOf(message[i]), WordOf(message[i + 1]), WordOf(message[i + 2]), WordOf(message[i + 3]);
      WordsAreSmall(w0, w1, w2, w3);
      var packed := Packed(AsWord(w0), AsWord(w1), AsWord(w2), AsWord(w3));
      ghost var before := bytes[..j];
      bytes[j], bytes[j + 1], bytes[j + 2] := PackedByte(packed, 0), PackedByte(packed, 1), PackedByte(packed, 2);
      assert bytes[..j + 3] == before + [PackedByte(packed, 0), PackedByte(packed, 1), PackedByte(packed, 2)];
      FourMore(words, before, w0, w1, w2, w3, packed);
      words := words + [w0, w1, w2, w3];
      i, j := i + 4, j + 3;
    }
    ok := true;
    assert words == Words(message[..12]);
  }

  // Adds the frame type and the checksum to the packed message.
  method AddTypeAndChecksum(ghost payload: Vec, frameType: int, bytes: array<bv8>)
    requires |payload| == 75 && payload[72..] == ToBits(frameType % 8, 3)
    requires bytes.Length == 11 && BytesToBits(bytes[..9]) == payload[..72] && bytes[9] == bytes[10] == 0
    modifies bytes
    ensures BytesToBits(bytes[..])[..87] == Checked(payload)
  {
    hide ToBits, BytesToBits, ChecksumBits, ByteBits, Remainder;
    ghost var packed := bytes[..9];
    var t := frameType % 8;
    bytes[9] := (t as bv8) << 5;
    TypeByte(t);
    ghost var typed := bytes[9];
    assert bytes[..] == packed + [typed] + [0];
    TypedBytes(packed, typed, payload, t);
    var crc := Checksum(bytes[..]);
    assert crc == PayloadChecksum(payload);
    TypeByteLow(t);
    ChecksumBytes(typed, crc);
    bytes[9] := bytes[9] | (((crc >> 7) & 0x1F) as bv8);
    bytes[10] := ((crc & 0x7F) << 1) as bv8;
    ghost var b9, b10 := bytes[9], bytes[10];
    assert bytes[..] == packed + [b9] + [b10];
    CheckedBytes(packed, b9, b10, payload, t, ChecksumBits(crc));
  }

  // Nine bytes of text, the type, and nothing yet in the place of the checksum.
  lemma TypedBytes(packed: seq<bv8>, typed: bv8, payload: Vec, t: nat)
    requires |payload| == 75 && t < 8 && payload[72..] == ToBits(t, 3)
    requires BytesToBits(packed) == payload[..72] && ByteBits(typed) == ToBits(t, 3) + Zero(5)
    ensures BytesToBits(packed + [typed] + [0]) == payload + Zero(13)
  {
    hide ToBits, BytesToBits, ByteBits;
    BytesAppend(packed + [typed], [0]);
    BytesAppend(packed, [typed]);
    OneByte(typed);
    ZeroByte();
    assert payload[..72] + ToBits(t, 3) == payload;
    assert Zero(5) + Zero(8) == Zero(13);
  }

  // The same with a checksum.
  lemma CheckedBytes(packed: seq<bv8>, b9: bv8, b10: bv8, payload: Vec, t: nat, check: Vec)
    requires |payload| == 75 && t < 8 && payload[72..] == ToBits(t, 3) && |check| == 12
    requires BytesToBits(packed) == payload[..72]
    requires ByteBits(b9) == (ToBits(t, 3) + Zero(5))[..3] + check[..5] && ByteBits(b10) == check[5..] + [false]
    ensures BytesToBits(packed + [b9] + [b10])[..87] == payload + check
  {
    hide ToBits, BytesToBits, ByteBits;
    BytesAppend(packed + [b9], [b10]);
    BytesAppend(packed, [b9]);
    OneByte(b9);
    OneByte(b10);
    assert (ToBits(t, 3) + Zero(5))[..3] == ToBits(t, 3);
    var bits := payload[..72] + (ToBits(t, 3) + check[..5]) + (check[5..] + [false]);
    assert bits[..87] == payload + check;
  }

  // Copies the three Costas arrays to offsets 0, 36 and 72.
  method WriteCostas(costas: seq<seq<int>>, tones: array<int>)
    requires CostasArrays(costas) && tones.Length >= 79
    modifies tones
    ensures tones[..7] == costas[0] && tones[36..43] == costas[1] && tones[72..79] == costas[2]
    ensures tones[79..] == old(tones[79..])
  {
    var costasData := 0;
    for a := 0 to 3
      invariant costasData == 36 * a
      invariant a > 0 ==> tones[..7] == costas[0]
      invariant a > 1 ==> tones[36..43] == costas[1]
      invariant a > 2 ==> tones[72..79] == costas[2]
      invariant tones[79..] == old(tones[79..])
    {
      var block := costas[a];
      ghost var before := tones[..];
      forall k | 0 <= k < 7 {
        tones[costasData + k] := block[k];
      }
      assert tones[costasData..costasData + 7] == block;
      assert forall k | 0 <= k < tones.Length && !(costasData <= k < costasData + 7) :: tones[k] == before[k];
      costasData := costasData + 36;
    }
  }

  // The first n tones of parity and message are in their places, and nothing else has changed.
  ghost predicate TonesWritten(tones: seq<int>, before: seq<int>, parity: Vec, message: Vec, n: nat)
    requires |tones| == |before| >= 79 && |parity| == |message| == 87 && n <= 29
  {
    && (forall k | 0 <= k < n :: tones[7 + k] == Tones(parity)[k] && tones[43 + k] == Tones(message)[k])
    && forall k | 0 <= k < |tones| && !(7 <= k < 36 || 43 <= k < 72) :: tones[k] == before[k]
  }

  lemma OneMoreTone(tones: seq<int>, before: seq<int>, parity: Vec, message: Vec, n: nat)
    requires |tones| == |before| >= 79 && |parity| == |message| == 87 && n < 29
    requires TonesWritten(tones, before, parity, message, n)
    ensures TonesWritten(tones[7 + n := Tones(parity)[n]][43 + n := Tones(message)[n]], before, parity, message, n + 1)
  {
    hide Tones;
  }

  lemma AllTonesWritten(tones: seq<int>, before: seq<int>, parity: Vec, message: Vec)
    requires |tones| == |before| >= 79 && |parity| == |message| == 87
    requires TonesWritten(tones, before, parity, message, 29)
    ensures tones[7..36] == Tones(parity) && tones[43..72] == Tones(message)
    ensures tones[..7] == before[..7] && tones[36..43] == before[36..43] && tones[72..] == before[72..]
  {
    hide FromBits;
  }

  lemma NextThird(i: nat)
    ensures i % 3 < 2 ==> (i + 1) / 3 == i / 3 && (i + 1) % 3 == i % 3 + 1
    ensures i % 3 == 2 ==> (i + 1) / 3 == i / 3 + 1 && (i + 1) % 3 == 0 && i - 2 == 3 * (i / 3)
  {
  }

  // Turns parity and message into tones, three bits at a time, in one pass.
  method WriteTones(code: Code, bytes: array<bv8>, tones: array<int>)
    requires Systematic(code) && bytes.Length == 11 && tones.Length >= 79
    modifies tones
    ensures var cw := Codeword(code, BytesToBits(bytes[..])[..87]);
            tones[7..36] == Tones(cw[..87]) && tones[43..72] == Tones(cw[87..])
    ensures tones[..7] == old(tones[..7]) && tones[36..43] == old(tones[36..43]) && tones[72..] == old(tones[72..])
  {
    hide Dot, Row, BitSet, Mask, FromBits, Systematic, Codeword, Tones, TonesWritten;
    ghost var message := BytesToBits(bytes[..])[..87];
    ghost var cw := Codeword(code, message);
    CodewordCarriesMessage(code, message);
    assert cw[87..] == message;
    ghost var parity := cw[..87];
    FromBitsEmpty();
    MaskSelects(0, 0);
    NoTones(tones[..], parity, message);
    var outputBits, outputByte, outputMask, bit := 0, 0, 0x80, false;
    var outputWord, parityWord := 0, 0;
    var parityData, outputData := 7, 43;
    for i := 0 to 87
      invariant outputByte == i / 8 && outputMask == Mask(i % 8) && outputBits == i % 3
      invariant parityData == 7 + i / 3 && outputData == 43 + i / 3
      invariant parityWord == FromBits(parity[i - outputBits..i])
      invariant outputWord == FromBits(message[i - outputBits..i])
      invariant TonesWritten(tones[..], old(tones[..]), parity, message, i / 3)
    {
      var parityBits := CountParity(Row(code.generator(i)), bytes);
      bit, outputByte, outputMask := ReadBit(bytes, outputByte, outputMask, i);
      CodewordBit(code, message, i);
      FromBitsPush(parity, i - outputBits, i);
      FromBitsPush(message, i - outputBits, i);
      parityWord := 2 * parityWord + parityBits % 2;
      outputWord := 2 * outputWord + (if bit then 1 else 0);
      outputBits := outputBits + 1;
      NextThird(i);
      if outputBits == 3 {
        ToneAt(parity, i / 3);
        ToneAt(message, i / 3);
        OneMoreTone(tones[..], old(tones[..]), parity, message, i / 3);
        ghost var before := tones[..];
        tones[parityData], tones[outputData] := parityWord, outputWord;
        assert tones[..] == before[parityData := parityWord][outputData := outputWord];
        assert parity[i + 1..i + 1] == [] && message[i + 1..i + 1] == [];
        parityData, outputData := parityData + 1, outputData + 1;
        outputBits, parityWord, outputWord := 0, 0, 0;
      }
    }
    AllTonesWritten(tones[..], old(tones[..]), parity, message);
    assert tones[..][7..36] == tones[7..36] && tones[..][43..72] == tones[43..72];
    assert tones[..][36..43] == tones[36..43] && tones[..][72..] == tones[72..] && tones[..][..7] == tones[..7];
  }

  lemma NoTones(tones: seq<int>, parity: Vec, message: Vec)
    requires |tones| >= 79 && |parity| == |message| == 87
    ensures TonesWritten(tones, tones, parity, message, 0)
  {
  }

  lemma CodewordBit(code: Code, m: Vec, n: nat)
    requires |m| == 87 && n < 174
    ensures Codeword(code, m)[n] == Dot(Row(code.generator(n)), m)
  {
  }

  lemma ToneAt(bits: Vec, k: nat)
    requires 3 * k + 3 <= |bits|
    ensures Tones(bits)[k] == FromBits(bits[3 * k..3 * k + 3])
  {
  }

  lemma FromBitsEmpty()
    ensures FromBits([]) == 0
  {
  }

  // Twelve characters and a frame type become the 79 tones of their codeword.
  method Encode(code: Code, frameType: int, costas: seq<seq<int>>, message: string, tones: array<int>)
    returns (ok: bool)
    requires Systematic(code) && CostasArrays(costas)
    requires |message| >= 12 && tones.Length >= 79
    modifies tones
    ensures ok <==> Encodable(message[..12])
    ensures ok ==> tones[..79] == ToneFrame(costas, Codeword(code, Frame(message[..12], frameType)))
    ensures ok ==> tones[..7] == costas[0] && tones[36..43] == costas[1] && tones[72..79] == costas[2]
    ensures ok ==> tones[79..] == old(tones[79..])
    ensures !ok ==> tones[..] == old(tones[..])
  {
    hide Systematic, Codeword, Tones, BytesToBits, ToBits, WordsToBits, AlphabetWord, ChecksumBits, PayloadChecksum;
    var bytes := new bv8[11](_ => 0);
    ok := PackMessage(message, bytes);
    if ok {
      ghost var payload := Payload(Words(message[..12]), frameType);
      AddTypeAndChecksum(payload, frameType, bytes);
      WriteCostas(costas, tones);
      WriteTones(code, bytes, tones);
      assert tones[..79] == tones[..7] + tones[7..36] + tones[36..43] + tones[43..72] + tones[72..79];
    }
  }
}
