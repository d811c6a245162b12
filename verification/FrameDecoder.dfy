/** The last stage of the receiver: up to four decoding passes over the log likelihood ratios,
    the tests a word must pass, and the encoding of what was decoded, which gives the signal
    that is subtracted from the recording. */
module FrameDecoder {
  import opened Wrappers
  import opened Gf2
  import opened BinaryNumbers
  import opened LdpcCode
  import opened LdpcKernel
  import opened FrameCodec
  import opened FrameContents
  import opened BeliefPropagation

  datatype Decode = Decode(frameType: nat, message: string)

  // The limits on corrected signs: 60, or 35 when the synchronisation is weak, 39 in the third
  // pass and 30 in the fourth.
  predicate FewEnough(nerr: int, sync: real, ipass: int) {
    && 0 <= nerr < 60
    && !(sync < 2.0 && nerr > 35)
    && !(ipass > 2 && nerr > 39)
    && !(ipass == 4 && nerr > 30)
  }

  // What makes a word a decode: it is the codeword of a frame that passes the checksum test.
  ghost predicate Delivers(code: Code, cw: Word174, decode: Decode) {
    && cw == Codeword(code, cw[87..])
    && ChecksumMatches(cw[87..])
    && decode == Decode(FrameTypeOf(cw[87..]), MessageOf(cw[87..]))
  }

  // The checks leave no freedom: an accepted word is the codeword of its message bits, and what
  // is read from it, encoded again, gives its tones.
  lemma AcceptedWordIsReencoded(code: Code, cw: Word174)
    requires Sound(code)
    requires ChecksHold(code, cw) && ChecksumMatches(cw[87..])
    ensures Encodable(MessageOf(cw[87..]))
    ensures Codeword(code, Frame(MessageOf(cw[87..]), FrameTypeOf(cw[87..]))) == cw
  {
    hide Sound;
    ChecksHoldExactlyOnCodewords(code, cw);
    FrameIsReencoded(cw[87..]);
  }

  // A transmitted frame is never the all-zero word, which the receiver takes for silence.
  lemma FrameIsNotSilence(code: Code, cw: Word174)
    requires ChecksumMatches(cw[87..])
    ensures exists i | 0 <= i < 174 :: cw[i]
  {
    if forall i | 0 <= i < 174 :: !cw[i] {
      assert cw[87..] == Zero(87);
      ZeroIsNoFrame();
    }
  }

  method AllZero(cw: array<bool>) returns (zero: bool)
    requires cw.Length == 174
    ensures zero <==> forall i | 0 <= i < 174 :: !cw[i]
  {
    for i := 0 to 174
      invariant forall k | 0 <= k < i :: !cw[k]
    {
      if cw[i] {
        return false;
      }
    }
    return true;
  }

  // The checksum test, the extraction and the encoding of an accepted word.
  method Deliver(code: Code, costas: seq<seq<int>>, decoded: array<bool>, ghost cw: Word174, itone: array<int>)
    returns (r: Option<Decode>)
    requires Sound(code) && CostasArrays(costas) && decoded.Length == 87 && itone.Length >= 79
    requires ChecksHold(code, cw) && decoded[..] == cw[87..]
    modifies itone
    ensures r.Some? <==> ChecksumMatches(cw[87..])
    ensures r.Some? ==> Delivers(code, cw, r.value) && itone[..79] == ToneFrame(costas, cw)
    ensures r.None? ==> itone[..] == old(itone[..])
    ensures itone[79..] == old(itone[79..])
  {
    hide ChecksHold, ChecksumMatches, Codeword, Frame, FromBits, MessageOf, Sound, Systematic, ToneFrame, Encodable;
    var ok := CheckCRC12(decoded);
    if !ok {
      return None;
    }
    ghost var d := decoded[..];
    var message := ExtractMessage174(decoded);
    var i3bit := 4 * Flag(decoded[72]) + 2 * Flag(decoded[73]) + Flag(decoded[74]);
    assert d[72..75] == [d[72], d[73], d[74]];
    FromBits3(d[72], d[73], d[74]);
    AcceptedWordIsReencoded(code, cw);
    ChecksHoldExactlyOnCodewords(code, cw);
    assert message[..12] == message;
    SoundIsSystematic(code);
    var encoded := Encode(code, i3bit, costas, message, itone);
    r := Some(Decode(i3bit, message));
  }

  lemma SoundIsSystematic(code: Code)
    requires Sound(code)
    ensures Systematic(code)
  {
  }

  // Takes the weight from 24 ratios.
  method Clear<F>(ops: Arithmetic<F>, llr: array<F>, from: nat)
    requires from + 24 <= llr.Length
    modifies llr
    ensures forall i | 0 <= i < llr.Length :: llr[i] == if from <= i < from + 24 then ops.zero else old(llr[i])
  {
    forall i | from <= i < from + 24 {
      llr[i] := ops.zero;
    }
  }

  // Ratios whose signs are those of a codeword with a valid checksum.
  ghost predicate Clean<F(!new)>(ops: Arithmetic<F>, code: Code, llr: seq<F>)
    requires |llr| == 174
  {
    && KeepsSigns(ops) && ChecksHold(code, HardDecision(ops, llr))
    && ChecksumMatches(HardDecision(ops, llr)[87..])
  }

  // Decoding clean ratios finds their signs to be the word, with no error.
  lemma CleanIsDecoded<F(!new)>(ops: Arithmetic<F>, code: Code, llr: seq<F>, trace: seq<Word174>)
    requires |llr| == 174 && Clean(ops, code, llr)
    requires IsRun(code, trace) && FollowsMessages(ops, code, llr, trace)
    ensures |trace| == 1 && trace[0] == HardDecision(ops, llr) && Disagreements(ops, llr, trace[0], 174) == 0
    ensures ChecksHold(code, trace[0]) && ChecksumMatches(trace[0][87..])
    ensures exists i | 0 <= i < 174 :: trace[0][i]
  {
    hide KeepsSigns, ChecksHold, HardDecision, ChecksumMatches, IsRun, FollowsMessages, Disagreements;
    FirstWordHolds(ops, code, llr, trace);
    FrameIsNotSilence(code, trace[0]);
  }

  // What the decoder makes of some ratios: the last word it decides on, and the number of signs that this corrects,
  // or a negative number if it fails a check.
  ghost predicate Decodes<F>(ops: Arithmetic<F>, code: Code, llr: seq<F>, cw: Word174, nerr: int)
    requires |llr| == 174
  {
    exists trace: seq<Word174> :: EndsIn(ops, code, llr, trace, cw)
      && nerr == if ChecksHold(code, cw) then Disagreements(ops, llr, cw, 174) else -1
  }

  ghost predicate EndsIn<F>(ops: Arithmetic<F>, code: Code, llr: seq<F>, trace: seq<Word174>, cw: Word174)
    requires |llr| == 174
  {
    IsRun(code, trace) && FollowsMessages(ops, code, llr, trace) && cw == trace[|trace| - 1]
  }

  // That is one word and one number.
  lemma DecodesIsUnique<F>(ops: Arithmetic<F>, code: Code, llr: seq<F>, v: Word174, m: int, w: Word174, n: int)
    requires |llr| == 174 && Decodes(ops, code, llr, v, m) && Decodes(ops, code, llr, w, n)
    ensures v == w && m == n
  {
    hide IsRun, FollowsMessages, ChecksHold, Disagreements;
    var s :| EndsIn(ops, code, llr, s, v);
    var t :| EndsIn(ops, code, llr, t, w);
    RunIsUnique(ops, code, llr, s, t);
  }

  // A word is delivered if it is not silence, corrects few enough signs, and passes the checksum test.
  ghost predicate Acceptable(cw: Word174, nerr: int, sync: real, ipass: int) {
    && (exists i | 0 <= i < 174 :: cw[i])
    && FewEnough(nerr, sync, ipass)
    && ChecksumMatches(cw[87..])
  }

  // A pass over some ratios delivers something.
  ghost predicate PassDelivers<F>(ops: Arithmetic<F>, code: Code, llr: seq<F>, sync: real, ipass: int)
    requires |llr| == 174
  {
    exists cw, nerr :: Decodes(ops, code, llr, cw, nerr) && Acceptable(cw, nerr, sync, ipass)
  }

  // One pass over some ratios. Clean ratios are decoded with no error.
  method DecodePass<F(!new)>(ops: Arithmetic<F>, code: Code, costas: seq<seq<int>>, llr: array<F>, sync: real,
                             ipass: nat, decoded: array<bool>, word: array<bool>, itone: array<int>)
    returns (r: Option<Decode>, ghost cw: Word174, nerr: int)
    requires Sound(code) && CostasArrays(costas) && Transposed(code)
    requires llr.Length == word.Length == 174 && decoded.Length == 87 && itone.Length >= 79
    requires decoded != word && llr as object != word && llr as object != decoded && itone as object != llr
    requires itone as object != word && itone as object != decoded
    modifies decoded, word, itone
    ensures Decodes(ops, code, llr[..], cw, nerr)
    ensures r.Some? <==>
              && (exists i | 0 <= i < 174 :: cw[i])
              && 0 <= nerr < 60 && (sync < 2.0 ==> nerr <= 35)
              && (ipass > 2 ==> nerr <= 39) && (ipass == 4 ==> nerr <= 30)
              && ChecksumMatches(cw[87..])
    ensures r.Some? ==> Delivers(code, cw, r.value) && itone[..79] == ToneFrame(costas, cw)
    ensures r.None? ==> itone[..] == old(itone[..])
    ensures itone[79..] == old(itone[79..])
    ensures Clean(ops, code, llr[..]) ==> r.Some? && cw == HardDecision(ops, llr[..]) && nerr == 0
  {
    hide ChecksHold, ChecksumMatches, HardDecision, Clean, Disagreements, Delivers, ToneFrame, IsRun, Sound, Transposed,
      FollowsMessages;
    ghost var ratios := llr[..];
    ghost var trace;
    nerr, trace := BpDecode174(ops, code, llr, decoded, word);
    cw := word[..];
    assert EndsIn(ops, code, ratios, trace, cw);
    if Clean(ops, code, ratios) {
      CleanIsDecoded(ops, code, ratios, trace);
    }
    var silent := AllZero(word);
    r := None;
    if !silent && FewEnough(nerr, sync, ipass) {
      r := Deliver(code, costas, decoded, cw, itone);
    }
  }

  // The ratios of the four passes.
  function PassRatios<F>(ops: Arithmetic<F>, llr0: seq<F>, llr1: seq<F>): (r: seq<seq<F>>)
    requires |llr0| == |llr1| == 174
    ensures |r| == 4 && (forall v <- r :: |v| == 174) && r[0] == llr0 && r[1] == llr1
    ensures forall i | 0 <= i < 174 :: r[2][i] == if i < 24 then ops.zero else llr0[i]
    ensures forall i | 0 <= i < 174 :: r[3][i] == if i < 48 then ops.zero else llr0[i]
  {
    [llr0, llr1, seq(24, _ => ops.zero) + llr0[24..], seq(48, _ => ops.zero) + llr0[48..]]
  }

  // Up to four passes: the first, third and fourth over llr0, of which the third clears the
  // first 24 ratios and the fourth the next 24; the second over llr1. The first that delivers
  // something ends them.
  method DecodePasses<F(!new)>(ops: Arithmetic<F>, code: Code, costas: seq<seq<int>>, llr0: array<F>, llr1: array<F>,
                               sync: real, itone: array<int>)
    returns (r: Option<Decode>, ghost cw: Word174, ghost nerr: int, ghost pass: nat)
    requires Sound(code) && CostasArrays(costas) && Transposed(code)
    requires llr0.Length == llr1.Length == 174 && llr0 != llr1 && itone.Length >= 79
    requires itone as object != llr0 && itone as object != llr1
    modifies llr0, itone
    ensures FirstDelivery(ops, code, PassRatios(ops, old(llr0[..]), old(llr1[..])), sync, if r.Some? then pass else 5)
    ensures r.Some? ==>
              && 1 <= pass <= 4 && Delivers(code, cw, r.value)
              && Decodes(ops, code, PassRatios(ops, old(llr0[..]), old(llr1[..]))[pass - 1], cw, nerr)
    ensures r.Some? ==> itone[..79] == ToneFrame(costas, cw)
    ensures r.None? ==> itone[..] == old(itone[..])
    ensures itone[79..] == old(itone[79..])
    ensures Clean(ops, code, old(llr0[..])) ==>
              r.Some? && cw == HardDecision(ops, old(llr0[..])) && nerr == 0 && pass == 1
  {
    hide HardDecision, Clean, Delivers, ToneFrame, Sound, Transposed, FewEnough, Decodes, ChecksumMatches, PassDelivers,
      PassRatios, NoneDelivers;
    var decoded := new bool[87](_ => false);
    var word := new bool[174](_ => false);
    ghost var ratios := PassRatios(ops, llr0[..], llr1[..]);
    cw, nerr, pass := seq(174, _ => false), 0, 0;
    NoneAtFirst(ops, code, ratios, sync);
    for ipass := 1 to 5
      invariant itone[..] == old(itone[..]) && llr1[..] == ratios[1]
      invariant llr0[..] == ratios[if ipass <= 3 then 0 else ipass - 2]
      invariant NoneDelivers(ops, code, ratios, sync, ipass - 1)
      invariant ipass > 1 ==> !Clean(ops, code, ratios[0])
    {
      var llr := if ipass == 2 then llr1 else llr0;
      if ipass == 3 {
        Clear(ops, llr0, 0);
        assert llr0[..] == ratios[2];
      } else if ipass == 4 {
        Clear(ops, llr0, 24);
        assert llr0[..] == ratios[3];
      }
      var nharderrors;
      r, cw, nharderrors := DecodePass(ops, code, costas, llr, sync, ipass, decoded, word, itone);
      nerr, pass := nharderrors, ipass;
      LimitsAre(nerr, sync, ipass);
      PassIs(ops, code, ratios[ipass - 1], sync, ipass, cw, nerr);
      if r.Some? {
        return;
      }
      NoneSoFar(ops, code, ratios, sync, ipass);
    }
    r := None;
  }

  // None of the first n vectors of ratios delivers anything.
  ghost predicate NoneDelivers<F>(ops: Arithmetic<F>, code: Code, ratios: seq<seq<F>>, sync: real, n: nat)
    requires n <= |ratios| && forall v <- ratios :: |v| == 174
  {
    forall q | 0 <= q < n :: !PassDelivers(ops, code, ratios[q], sync, q + 1)
  }

  lemma NoneAtFirst<F>(ops: Arithmetic<F>, code: Code, ratios: seq<seq<F>>, sync: real)
    requires forall v <- ratios :: |v| == 174
    ensures NoneDelivers(ops, code, ratios, sync, 0)
  {
  }

  lemma NoneSoFar<F>(ops: Arithmetic<F>, code: Code, ratios: seq<seq<F>>, sync: real, n: nat)
    requires 0 < n <= |ratios| && forall v <- ratios :: |v| == 174
    requires NoneDelivers(ops, code, ratios, sync, n - 1) && !PassDelivers(ops, code, ratios[n - 1], sync, n)
    ensures NoneDelivers(ops, code, ratios, sync, n)
  {
    hide PassDelivers;
  }

  // Of four vectors of ratios the one of this pass, counted from one, is the first that delivers something.
  ghost predicate FirstDelivery<F>(ops: Arithmetic<F>, code: Code, ratios: seq<seq<F>>, sync: real, pass: nat)
    requires |ratios| == 4 && forall v <- ratios :: |v| == 174
  {
    && 1 <= pass <= 5 && NoneDelivers(ops, code, ratios, sync, pass - 1)
    && (pass <= 4 ==> PassDelivers(ops, code, ratios[pass - 1], sync, pass))
  }

  lemma PassIs<F>(ops: Arithmetic<F>, code: Code, llr: seq<F>, sync: real, ipass: int, cw: Word174, nerr: int)
    requires |llr| == 174 && Decodes(ops, code, llr, cw, nerr)
    ensures PassDelivers(ops, code, llr, sync, ipass) <==> Acceptable(cw, nerr, sync, ipass)
  {
    hide Decodes, Acceptable;
    if v, m :| Decodes(ops, code, llr, v, m) && Acceptable(v, m, sync, ipass) {
      DecodesIsUnique(ops, code, llr, v, m, cw, nerr);
    }
  }

  lemma LimitsAre(nerr: int, sync: real, ipass: int)
    ensures FewEnough(nerr, sync, ipass)
            <==> && 0 <= nerr < 60 && (sync < 2.0 ==> nerr <= 35)
                 && (ipass > 2 ==> nerr <= 39) && (ipass == 4 ==> nerr <= 30)
  {
  }

  // When the signs are those of a codeword, the first decision is that codeword, it ends the
  // run, and it corrects nothing.
  lemma FirstWordHolds<F(!new)>(ops: Arithmetic<F>, code: Code, llr: seq<F>, trace: seq<Word174>)
    requires KeepsSigns(ops) && |llr| == 174 && IsRun(code, trace) && FollowsMessages(ops, code, llr, trace)
    requires ChecksHold(code, HardDecision(ops, llr))
    ensures |trace| == 1 && trace[0] == HardDecision(ops, llr) && Disagreements(ops, llr, trace[0], 174) == 0
  {
    hide Decision;
    FirstDecision(ops, code, llr);
    HardDecisionAgrees(ops, llr, 174);
    if |trace| > 1 {
      FirstFails(code, trace[..|trace| - 1]);
    }
  }

  lemma {:induction false} FirstFails(code: Code, trace: seq<Word174>)
    requires Running(code, trace) && trace != []
    ensures !ChecksHold(code, trace[0])
  {
    hide ChecksHold, GivesUp;
    if |trace| > 1 {
      FirstFails(code, trace[..|trace| - 1]);
    }
  }

  /* From end to end */

  // The 174 bits that the 58 data tones of a transmission stand for, in the order in which the
  // receiver forms its ratios: symbols 7 to 35, then 43 to 71, three bits each.
  function ToneBits(tones: seq<int>): (r: Vec)
    requires |tones| >= 79 && forall k | 0 <= k < 79 :: tones[k] >= 0
    ensures |r| == 174
  {
    seq(174, n requires 0 <= n < 174 => ToBits(tones[if n < 87 then 7 + n / 3 else 43 + (n - 87) / 3], 3)[n % 3])
  }

  lemma ToneBitsOfTones(bits: Vec, n: nat)
    requires n < |bits| && |bits| % 3 == 0
    ensures Tones(bits)[n / 3] >= 0 && ToBits(Tones(bits)[n / 3], 3)[n % 3] == bits[n]
  {
    hide ToBits, FromBits;
    var k := n / 3;
    assert n == 3 * k + n % 3 && 3 * k + 3 <= |bits|;
    ToBitsOfFromBits(bits[3 * k..3 * k + 3]);
  }

  ghost predicate CostasTones(costas: seq<seq<int>>) {
    CostasArrays(costas) && forall a <- costas :: forall t <- a :: t >= 0
  }

  // The receiver's order of bits is the transmitter's.
  lemma ToneBitsOfFrame(costas: seq<seq<int>>, cw: Vec)
    requires CostasTones(costas) && |cw| == 174
    ensures var tones := ToneFrame(costas, cw);
            (forall k | 0 <= k < 79 :: tones[k] >= 0) && ToneBits(tones) == cw
  {
    hide ToBits, FromBits, Tones;
    var tones := ToneFrame(costas, cw);
    var parity, message := cw[..87], cw[87..];
    assert tones[..7] == costas[0] && tones[36..43] == costas[1] && tones[72..] == costas[2];
    assert tones[7..36] == Tones(parity) && tones[43..72] == Tones(message);
    forall k | 0 <= k < 79
      ensures tones[k] >= 0
    {
      if k < 7 {
        assert costas[0] in costas && costas[0][k] in costas[0];
        assert tones[k] == costas[0][k];
      } else if k < 36 {
        ToneBitsOfTones(parity, 3 * (k - 7));
        assert 3 * (k - 7) / 3 == k - 7;
        assert tones[k] == Tones(parity)[k - 7];
      } else if k < 43 {
        assert costas[1] in costas && costas[1][k - 36] in costas[1];
        assert tones[k] == tones[36..43][k - 36];
      } else if k < 72 {
        ToneBitsOfTones(message, 3 * (k - 43));
        assert 3 * (k - 43) / 3 == k - 43;
        assert tones[k] == Tones(message)[k - 43];
      } else {
        assert costas[2] in costas && costas[2][k - 72] in costas[2];
        assert tones[k] == tones[72..][k - 72];
      }
    }
    forall n | 0 <= n < 174
      ensures ToneBits(tones)[n] == cw[n]
    {
      if n < 87 {
        ToneBitsOfTones(parity, n);
        assert tones[7 + n / 3] == Tones(parity)[n / 3];
      } else {
        ToneBitsOfTones(message, n - 87);
        assert tones[43 + (n - 87) / 3] == Tones(message)[(n - 87) / 3];
        assert n % 3 == (n - 87) % 3;
      }
    }
  }

  // Sends a message over a channel that gets every sign right, however weak the signal, and
  // receives it: the message and the low bits of its type come back from the first pass, and
  // the receiver reconstructs the transmitted tones.
  method SendAndReceive<F(!new)>(ops: Arithmetic<F>, code: Code, costas: seq<seq<int>>, frameType: int, message: string,
                                 channel: seq<int> -> seq<F>, other: array<F>, sync: real)
    returns (r: Option<Decode>)
    requires Sound(code) && CostasTones(costas) && Transposed(code)
    requires KeepsSigns(ops) && other.Length == 174
    requires forall tones: seq<int> | |tones| == 79 && (forall k | 0 <= k < 79 :: tones[k] >= 0) ::
               |channel(tones)| == 174 && HardDecision(ops, channel(tones)) == ToneBits(tones)
    requires |message| == 12
    ensures r == if Encodable(message) then Some(Decode(frameType % 8, message)) else None
  {
    hide Sound, Transposed, Codeword, Frame, Encodable, ToneFrame, ToneBits, HardDecision, KeepsSigns, ChecksHold,
         ChecksumMatches,
         MessageOf, FrameTypeOf;
    var tones := new int[79](_ => 0);
    SoundIsSystematic(code);
    assert message[..12] == message;
    var ok := Encode(code, frameType, costas, message, tones);
    if !ok {
      return None;
    }
    ghost var frame := Frame(message, frameType);
    ghost var sent := Codeword(code, frame);
    assert tones[..] == tones[..79];
    ToneBitsOfFrame(costas, sent);
    CodewordCarriesMessage(code, frame);
    SoundGenerates(code, frame);
    FrameIsReadBack(message, frameType);
    var heard := channel(tones[..]);
    var llr0 := new F[174](i requires 0 <= i < 174 => heard[i]);
    assert llr0[..] == heard;
    var llr1 := new F[174](i requires 0 <= i < 174 reads other => other[i]);
    var itone := new int[79](_ => 0);
    ghost var cw, nerr, pass;
    r, cw, nerr, pass := DecodePasses(ops, code, costas, llr0, llr1, sync, itone);
  }

  lemma SoundGenerates(code: Code, m: Vec)
    requires Sound(code) && |m| == 87
    ensures ChecksHold(code, Codeword(code, m))
  {
    GeneratedSatisfies(code, m);
  }
}
