/** JS8 itself: its tables, its Costas arrays, and what follows for the frames on the air. */
module Js8Frames {
  import opened Wrappers
  import opened Gf2
  import opened BeliefPropagation
  import opened FrameCodec
  import opened FrameDecoder
  import opened LdpcCode
  import opened LdpcKernel

  // The arrays of FT8, and those of the later submodes.
  datatype CostasType = Original | Modified

  const ORIGINAL: seq<seq<int>> := [[4, 2, 5, 6, 1, 3, 0], [4, 2, 5, 6, 1, 3, 0], [4, 2, 5, 6, 1, 3, 0]]
  const MODIFIED: seq<seq<int>> := [[0, 6, 2, 3, 5, 4, 1], [1, 5, 0, 2, 3, 6, 4], [2, 5, 0, 6, 4, 1, 3]]

  function Costas(t: CostasType): seq<seq<int>> {
    match t
    case Original => ORIGINAL
    case Modified => MODIFIED
  }

  lemma CostasAreTones(t: CostasType)
    ensures CostasTones(Costas(t))
  {
  }

  predicate AllDiffer(s: seq<int>) {
    forall i, j | 0 <= i < j < |s| :: s[i] != s[j]
  }

  // The rises in pitch over a number of tones.
  function Rises(a: seq<int>, d: nat): seq<int>
    requires d <= |a|
  {
    seq(|a| - d, i requires 0 <= i < |a| - d => a[i + d] - a[i])
  }

  // An array is a permutation of the seven tones in which no two pairs of tones at one distance in time rise alike,
  // so that it agrees with a shift of itself in at most one tone.
  ghost predicate IsCostas(a: seq<int>) {
    |a| == 7 && AllDiffer(a) && (forall x <- a :: 0 <= x < 7) && forall d | 1 <= d < 7 :: AllDiffer(Rises(a, d))
  }

  lemma CostasAreCostas(t: CostasType)
    ensures |Costas(t)| == 3 && forall a <- Costas(t) :: IsCostas(a)
    ensures Costas(t)[0][..3] == if t.Original? then [4, 2, 5] else [0, 6, 2]
    ensures Costas(t)[1][..3] == if t.Original? then [4, 2, 5] else [1, 5, 0]
    ensures Costas(t)[2][..3] == if t.Original? then [4, 2, 5] else [2, 5, 0]
  {
    hide IsCostas;
    OriginalIsCostas();
    FirstIsCostas();
    SecondIsCostas();
    ThirdIsCostas();
  }

  lemma OriginalIsCostas()
    ensures IsCostas([4, 2, 5, 6, 1, 3, 0])
  {
    hide IsCostas;
    SevenTones(4, 2, 5, 6, 1, 3, 0);
  }

  lemma FirstIsCostas()
    ensures IsCostas([0, 6, 2, 3, 5, 4, 1])
  {
    hide IsCostas;
    SevenTones(0, 6, 2, 3, 5, 4, 1);
  }

  lemma SecondIsCostas()
    ensures IsCostas([1, 5, 0, 2, 3, 6, 4])
  {
    hide IsCostas;
    SevenTones(1, 5, 0, 2, 3, 6, 4);
  }

  lemma ThirdIsCostas()
    ensures IsCostas([2, 5, 0, 6, 4, 1, 3])
  {
    hide IsCostas;
    SevenTones(2, 5, 0, 6, 4, 1, 3);
  }

  lemma SevenTones(a: int, b: int, c: int, d: int, e: int, f: int, g: int)
    requires forall x <- [a, b, c, d, e, f, g] :: 0 <= x < 7
    requires AllDiffer([a, b, c, d, e, f, g]) && AllDiffer([b - a, c - b, d - c, e - d, f - e, g - f])
    requires AllDiffer([c - a, d - b, e - c, f - d, g - e]) && AllDiffer([d - a, e - b, f - c, g - d])
    requires AllDiffer([e - a, f - b, g - c]) && AllDiffer([f - a, g - b])
    ensures IsCostas([a, b, c, d, e, f, g])
  {
    hide AllDiffer;
    var s := [a, b, c, d, e, f, g];
    assert Rises(s, 1) == [b - a, c - b, d - c, e - d, f - e, g - f];
    assert Rises(s, 2) == [c - a, d - b, e - c, f - d, g - e];
    assert Rises(s, 3) == [d - a, e - b, f - c, g - d];
    assert Rises(s, 4) == [e - a, f - b, g - c];
    assert Rises(s, 5) == [f - a, g - b];
    assert AllDiffer(Rises(s, 6)) by {
      OneDiffers(Rises(s, 6));
    }
  }

  lemma OneDiffers(s: seq<int>)
    requires |s| == 1
    ensures AllDiffer(s)
  {
  }

  // Any message bits at all, encoded, satisfy all the checks of the decoder when they are read
  // back from the tones; and no other word does.
  lemma TonesSatisfyChecks(t: CostasType, bits: Vec)
    requires |bits| == 87
    ensures var tones := ToneFrame(Costas(t), Codeword(JS8, bits));
            && (forall k | 0 <= k < 79 :: tones[k] >= 0)
            && ChecksHold(JS8, ToneBits(tones)) && ToneBits(tones)[87..] == bits
            && forall cw: Vec | |cw| == 174 && cw[87..] == bits :: ChecksHold(JS8, cw) <==> cw == ToneBits(tones)
  {
    hide Sound, Codeword, ToneFrame, ToneBits, ChecksHold, Costas, CostasTones;
    Js8Sound();
    SoundIsSystematic(JS8);
    CostasAreTones(t);
    ToneBitsOfFrame(Costas(t), Codeword(JS8, bits));
    CodewordCarriesMessage(JS8, bits);
    SoundGenerates(JS8, bits);
    forall cw: Vec | |cw| == 174 && cw[87..] == bits
      ensures ChecksHold(JS8, cw) <==> cw == Codeword(JS8, bits)
    {
      ChecksHoldExactlyOnCodewords(JS8, cw);
    }
  }

  // A JS8 message over a channel that gets every sign right.
  method SendAndReceiveJs8<F(!new)>(ops: Arithmetic<F>, t: CostasType, frameType: int, message: string,
                                    channel: seq<int> -> seq<F>, other: array<F>, sync: real)
    returns (r: Option<Decode>)
    requires KeepsSigns(ops) && other.Length == 174
    requires forall tones: seq<int> | |tones| == 79 && (forall k | 0 <= k < 79 :: tones[k] >= 0) ::
               |channel(tones)| == 174 && HardDecision(ops, channel(tones)) == ToneBits(tones)
    requires |message| == 12
    ensures r == if Encodable(message) then Some(Decode(frameType % 8, message)) else None
  {
    hide Sound, Transposed, Encodable, ToneBits, HardDecision, KeepsSigns, Costas, CostasTones;
    Js8Sound();
    Js8Transposed();
    CostasAreTones(t);
    r := SendAndReceive(ops, JS8, Costas(t), frameType, message, channel, other, sync);
  }
}
