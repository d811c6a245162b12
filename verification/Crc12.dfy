/** The 12-bit checksum of a JS8 frame: the remainder of the frame, as a polynomial over the
    field of two elements, modulo x^12 + x^11 + x^10 + x^2 + x, masked with 42. */
module Crc12 {
  import opened Gf2

  const POLYNOMIAL: bv12 := 0xC06
  const MASK: bv12 := 42

  // The remainder after one more bit of the dividend, most significant bit first.
  function Step(r: bv12, bit: bool): bv12 {
    if Top(r) then Plus(ShiftIn(r, bit), POLYNOMIAL) else ShiftIn(r, bit)
  }

  predicate Top(r: bv12) {
    r & 0x800 != 0
  }

  function ShiftIn(r: bv12, bit: bool): bv12 {
    if bit then (r << 1) | 1 else r << 1
  }

  function Feed(r: bv12, bits: Vec): bv12 {
    if bits == [] then r else Step(Feed(r, bits[..|bits| - 1]), bits[|bits| - 1])
  }

  function Remainder(bits: Vec): bv12 {
    Feed(0, bits)
  }

  // The bits of a byte array, most significant first.
  function BytesToBits(bytes: seq<bv8>): (r: Vec)
    ensures |r| == 8 * |bytes|
  {
    seq(8 * |bytes|, i requires 0 <= i < 8 * |bytes| => BitSet(bytes[i / 8], i % 8))
  }

  function Masked(r: bv12): bv12 {
    r ^ MASK
  }

  function Checksum(bytes: seq<bv8>): bv12 {
    Masked(Remainder(BytesToBits(bytes)))
  }

  // The checksum of a 75-bit payload: 13 zero bits fill up the eleven bytes.
  function PayloadChecksum(payload: Vec): bv12 {
    Masked(Remainder(payload + Zero(13)))
  }

  lemma {:induction false} FeedAppend(r: bv12, a: Vec, b: Vec)
    ensures Feed(r, a + b) == Feed(Feed(r, a), b)
  {
    if b == [] {
      assert a + b == a;
    } else {
      var n := |b| - 1;
      assert (a + b)[..|a + b| - 1] == a + b[..n];
      FeedAppend(r, a, b[..n]);
    }
  }

  // Addition of remainders.
  function Plus(r: bv12, s: bv12): bv12 {
    r ^ s
  }

  lemma ShiftInXor(r: bv12, s: bv12, x: bool, y: bool)
    ensures ShiftIn(Plus(r, s), x != y) == Plus(ShiftIn(r, x), ShiftIn(s, y))
  {
    if x {
      if y {
        assert ShiftIn(Plus(r, s), false) == Plus(ShiftIn(r, true), ShiftIn(s, true));
      } else {
        assert ShiftIn(Plus(r, s), true) == Plus(ShiftIn(r, true), ShiftIn(s, false));
      }
    } else if y {
      assert ShiftIn(Plus(r, s), true) == Plus(ShiftIn(r, false), ShiftIn(s, true));
    } else {
      assert ShiftIn(Plus(r, s), false) == Plus(ShiftIn(r, false), ShiftIn(s, false));
    }
  }

  lemma TopXor(r: bv12, s: bv12)
    ensures Top(Plus(r, s)) == (Top(r) != Top(s))
  {
  }

  lemma PlusAssociates(r: bv12, s: bv12, t: bv12)
    ensures Plus(Plus(r, s), t) == Plus(r, Plus(s, t))
  {
  }

  lemma PlusCommutes(r: bv12, s: bv12)
    ensures Plus(r, s) == Plus(s, r)
  {
  }

  lemma PlusCancels(r: bv12, s: bv12)
    ensures Plus(Plus(r, s), s) == r
  {
  }

  // Reducing two remainders reduces their sum, twice over being not at all.
  lemma ReduceXor(r: bv12, s: bv12, p: bv12)
    ensures Plus(r, Plus(s, p)) == Plus(Plus(r, s), p)
    ensures Plus(Plus(r, p), s) == Plus(Plus(r, s), p)
    ensures Plus(Plus(r, p), Plus(s, p)) == Plus(r, s)
  {
    hide Plus;
    PlusAssociates(r, s, p);
    PlusAssociates(r, p, s);
    PlusCommutes(p, s);
    PlusAssociates(Plus(r, p), s, p);
    PlusCancels(Plus(r, s), p);
  }

  // One step is linear in the remainder and the bit together.
  lemma StepXor(r: bv12, s: bv12, x: bool, y: bool)
    ensures Step(Plus(r, s), x != y) == Plus(Step(r, x), Step(s, y))
  {
    hide Plus, Top, ShiftIn;
    ShiftInXor(r, s, x, y);
    TopXor(r, s);
    ReduceXor(ShiftIn(r, x), ShiftIn(s, y), POLYNOMIAL);
  }

  lemma {:induction false} FeedXor(r: bv12, s: bv12, a: Vec, b: Vec)
    requires |a| == |b|
    ensures Feed(Plus(r, s), Xor(a, b)) == Plus(Feed(r, a), Feed(s, b))
  {
    if a != [] {
      hide Step, Plus;
      var n := |a| - 1;
      assert Xor(a, b)[..n] == Xor(a[..n], b[..n]);
      FeedXor(r, s, a[..n], b[..n]);
      StepXor(Feed(r, a[..n]), Feed(s, b[..n]), a[n], b[n]);
    }
  }

  lemma {:induction false} FeedZeros(n: nat)
    ensures Feed(0, Zero(n)) == 0
  {
    if n > 0 {
      assert Zero(n)[..n - 1] == Zero(n - 1);
      FeedZeros(n - 1);
    }
  }

  // Zero bits keep a nonzero remainder nonzero once it is even, because x divides the
  // polynomial and nothing else of degree below eleven does.
  lemma EvenStep(r: bv12)
    requires r & 1 == 0
    ensures Step(r, false) & 1 == 0
    ensures r != 0 ==> Step(r, false) != 0
  {
  }

  lemma {:induction false} EvenFeed(r: bv12, n: nat)
    requires r & 1 == 0
    ensures Feed(r, Zero(n)) & 1 == 0
    ensures r != 0 ==> Feed(r, Zero(n)) != 0
  {
    if n > 0 {
      hide Step;
      assert Zero(n)[..n - 1] == Zero(n - 1);
      EvenFeed(r, n - 1);
      EvenStep(Feed(r, Zero(n - 1)));
    }
  }

  // The first zero bit makes every remainder even.
  lemma FirstZero(r: bv12)
    ensures Step(r, false) & 1 == 0
    ensures r != 0 && !Top(r) ==> Step(r, false) != 0
  {
  }

  lemma FeedSomeZeros(r: bv12, n: nat)
    requires n > 0
    ensures Feed(r, Zero(n)) & 1 == 0
    ensures r != 0 && !Top(r) ==> Feed(r, Zero(n)) != 0
  {
    hide Step;
    FirstZero(r);
    assert Zero(n) == [false] + Zero(n - 1);
    FeedAppend(r, [false], Zero(n - 1));
    assert Feed(r, [false]) == Step(Feed(r, []), false);
    EvenFeed(Step(r, false), n - 1);
  }

  // The first k bits below the top of a remainder.
  predicate Below(r: bv12, k: nat)
    requires k <= 12
  {
    match k
    case 0 => r == 0 case 1 => r & 0xFFE == 0 case 2 => r & 0xFFC == 0 case 3 => r & 0xFF8 == 0
    case 4 => r & 0xFF0 == 0 case 5 => r & 0xFE0 == 0 case 6 => r & 0xFC0 == 0 case 7 => r & 0xF80 == 0
    case 8 => r & 0xF00 == 0 case 9 => r & 0xE00 == 0 case 10 => r & 0xC00 == 0 case 11 => r & 0x800 == 0
    case _ => true
  }

  lemma ShiftBelowLow(r: bv12, bit: bool, k: nat)
    requires k < 6 && Below(r, k)
    ensures Below(ShiftIn(r, bit), k + 1)
  {
    match k
    case 0 => assert Below(ShiftIn(r, bit), 1);
    case 1 => assert Below(ShiftIn(r, bit), 2);
    case 2 => assert Below(ShiftIn(r, bit), 3);
    case 3 => assert Below(ShiftIn(r, bit), 4);
    case 4 => assert Below(ShiftIn(r, bit), 5);
    case _ => assert Below(ShiftIn(r, bit), 6);
  }

  lemma ShiftBelowHigh(r: bv12, bit: bool, k: nat)
    requires 6 <= k < 12 && Below(r, k)
    ensures Below(ShiftIn(r, bit), k + 1)
  {
    match k
    case 6 => assert Below(ShiftIn(r, bit), 7);
    case 7 => assert Below(ShiftIn(r, bit), 8);
    case 8 => assert Below(ShiftIn(r, bit), 9);
    case 9 => assert Below(ShiftIn(r, bit), 10);
    case 10 => assert Below(ShiftIn(r, bit), 11);
    case _ => assert Below(ShiftIn(r, bit), 12);
  }

  lemma ShiftZero(r: bv12, bit: bool)
    requires !Top(r)
    ensures ShiftIn(r, bit) == 0 <==> r == 0 && !bit
  {
  }

  lemma PlainStep(r: bv12, bit: bool)
    requires !Top(r)
    ensures Step(r, bit) == ShiftIn(r, bit)
  {
  }

  lemma {:induction false} ShortBelow(bits: Vec)
    requires |bits| <= 12
    ensures Below(Remainder(bits), |bits|)
  {
    if bits != [] {
      hide Below, Top, ShiftIn, Step;
      var n := |bits| - 1;
      ShortBelow(bits[..n]);
      BelowEleven(Remainder(bits[..n]), n);
      PlainStep(Remainder(bits[..n]), bits[n]);
      if n < 6 {
        ShiftBelowLow(Remainder(bits[..n]), bits[n], n);
      } else {
        ShiftBelowHigh(Remainder(bits[..n]), bits[n], n);
      }
    }
  }

  // Up to twelve bits are their own remainder: nothing is reduced, so only zeros leave zero.
  lemma {:induction false} ShortRemainder(bits: Vec)
    requires |bits| <= 12
    ensures Remainder(bits) == 0 <==> bits == Zero(|bits|)
  {
    if bits != [] {
      hide Below, Top, ShiftIn, Step;
      var n := |bits| - 1;
      var r := Remainder(bits[..n]);
      ShortRemainder(bits[..n]);
      ShortBelow(bits[..n]);
      BelowEleven(r, n);
      PlainStep(r, bits[n]);
      ShiftZero(r, bits[n]);
      assert bits == Zero(n + 1) <==> bits[..n] == Zero(n) && !bits[n] by {
        assert bits == bits[..n] + [bits[n]];
        assert Zero(n + 1) == Zero(n) + [false];
      }
      assert Remainder(bits) == ShiftIn(r, bits[n]);
    }
  }

  // The remainder of a payload that is zero outside of a window of eleven bits.
  lemma WindowRemainder(s: nat, w: Vec, n: nat)
    requires |w| <= 11 && n > 0
    ensures Remainder(Zero(s) + w + Zero(n)) == 0 <==> w == Zero(|w|)
  {
    hide Step, Below;
    FeedZeros(s);
    FeedAppend(0, Zero(s), w);
    FeedAppend(0, Zero(s) + w, Zero(n));
    ShortRemainder(w);
    ShortBelow(w);
    FeedZeros(n);
    BelowEleven(Remainder(w), |w|);
    FeedSomeZeros(Remainder(w), n);
  }

  lemma BelowEleven(r: bv12, k: nat)
    requires k <= 11 && Below(r, k)
    ensures !Top(r)
  {
  }

  // The bit below the mask is always even, so the last checksum bit is always zero.
  lemma ChecksumIsEven(payload: Vec)
    ensures PayloadChecksum(payload) & 1 == 0
  {
    FeedAppend(0, payload, Zero(13));
    FeedSomeZeros(Remainder(payload), 13);
    var r := Remainder(payload + Zero(13));
    assert r & 1 == 0 ==> Masked(r) & 1 == 0;
  }

  // The change of a payload inside a window, bit by bit.
  lemma BurstIs(a: Vec, b: Vec, s: nat, len: nat)
    requires |a| == |b| && s + len <= |a|
    requires a[..s] == b[..s] && a[s + len..] == b[s + len..]
    ensures Xor(a + Zero(13), b + Zero(13)) == Zero(s) + Xor(a, b)[s..s + len] + Zero(|a| - s - len + 13)
  {
    var change := Zero(s) + Xor(a, b)[s..s + len] + Zero(|a| - s - len + 13);
    forall i | 0 <= i < |a| + 13
      ensures Xor(a + Zero(13), b + Zero(13))[i] == change[i]
    {
      if i < s {
        assert a[i] == a[..s][i] && b[i] == b[..s][i];
      } else if s + len <= i < |a| {
        assert a[i] == a[s + len..][i - s - len] && b[i] == b[s + len..][i - s - len];
      }
    }
  }

  lemma BurstIsNothing(a: Vec, b: Vec, s: nat, len: nat)
    requires |a| == |b| && s + len <= |a|
    requires a[..s] == b[..s] && a[s + len..] == b[s + len..]
    ensures Xor(a, b)[s..s + len] == Zero(len) <==> a == b
  {
    assert a == a[..s] + a[s..s + len] + a[s + len..];
    assert b == b[..s] + b[s..s + len] + b[s + len..];
    assert Xor(a, b)[s..s + len] == Xor(a[s..s + len], b[s..s + len]);
    XorZero(a[s..s + len], b[s..s + len]);
  }

  // Changing a payload inside a window of eleven bits, and only there, changes its checksum.
  lemma BurstDetected(a: Vec, b: Vec, s: nat, len: nat)
    requires |a| == |b| && s + len <= |a| && len <= 11
    requires a[..s] == b[..s] && a[s + len..] == b[s + len..]
    ensures PayloadChecksum(a) == PayloadChecksum(b) <==> a == b
  {
    var n := |a| - s - len + 13;
    var w := Xor(a, b)[s..s + len];
    hide PayloadChecksum, Remainder;
    BurstIs(a, b, s, len);
    BurstIsNothing(a, b, s, len);
    WindowRemainder(s, w, n);
    ChecksumsDiffer(a, b);
  }

  lemma XorZero(a: Vec, b: Vec)
    requires |a| == |b|
    ensures Xor(a, b) == Zero(|a|) <==> a == b
  {
    if Xor(a, b) == Zero(|a|) {
      assert forall i | 0 <= i < |a| :: Xor(a, b)[i] == (a[i] != b[i]) && !Zero(|a|)[i];
    }
  }

  lemma MaskCancels(r: bv12, s: bv12)
    ensures Masked(r) == Masked(s) <==> Plus(r, s) == 0
  {
  }

  lemma RemainderXor(a: Vec, b: Vec)
    requires |a| == |b|
    ensures Remainder(Xor(a, b)) == Plus(Remainder(a), Remainder(b))
  {
    hide Feed;
    FeedXor(0, 0, a, b);
    assert Plus(0, 0) == 0;
  }

  lemma ChecksumsDiffer(a: Vec, b: Vec)
    requires |a| == |b|
    ensures PayloadChecksum(a) == PayloadChecksum(b) <==> Remainder(Xor(a + Zero(13), b + Zero(13))) == 0
  {
    hide Remainder, Plus, Masked;
    RemainderXor(a + Zero(13), b + Zero(13));
    MaskCancels(Remainder(a + Zero(13)), Remainder(b + Zero(13)));
  }

  // The twelve consecutive bits of the one burst of that length that leaves no remainder.
  const ESCAPE: Vec := [true, true, true] + Zero(7) + [true, true]

  lemma EscapeVanishes()
    ensures Feed(Remainder(ESCAPE), [false]) == 0
  {
    var ones := [true, true, true];
    assert Feed(0, [true]) == 1;
    assert ones[..2] == [true, true] && ones[..2][..1] == [true];
    assert Remainder(ones) == 7;
    FeedAppend(0, ones, Zero(7));
    assert Zero(7) == [false, false, false] + [false, false, false] + [false];
    var three := [false, false, false];
    assert three[..2] == [false, false] && three[..2][..1] == [false];
    assert Feed(7, [false]) == 0xE;
    assert Feed(7, [false, false]) == 0x1C;
    assert Feed(7, three) == 0x38;
    FeedAppend(7, three, three);
    assert Feed(0x38, [false]) == 0x70;
    assert Feed(0x38, [false, false]) == 0xE0;
    assert Feed(0x38, three) == 0x1C0;
    FeedAppend(7, three + three, [false]);
    assert Feed(0x1C0, [false]) == 0x380;
    FeedAppend(0, ones + Zero(7), [true, true]);
    var two := [true, true];
    assert two[..1] == [true];
    assert Feed(0x380, two) == 0xE03;
  }

  // The bound is sharp: this change of twelve consecutive bits escapes, wherever it falls.
  lemma LongerBurstEscapes(s: nat, n: nat)
    ensures PayloadChecksum(Zero(s) + ESCAPE + Zero(n)) == PayloadChecksum(Zero(s + 12 + n))
  {
    var changed := Zero(s) + ESCAPE + Zero(n) + Zero(13);
    assert Zero(s + 12 + n) + Zero(13) == Zero(s + 25 + n);
    FeedZeros(s + 25 + n);
    assert changed == Zero(s) + ESCAPE + [false] + Zero(n + 12);
    FeedZeros(s);
    FeedAppend(0, Zero(s), ESCAPE);
    FeedAppend(0, Zero(s) + ESCAPE, [false]);
    FeedAppend(0, Zero(s) + ESCAPE + [false], Zero(n + 12));
    EscapeVanishes();
    FeedZeros(n + 12);
  }
}
