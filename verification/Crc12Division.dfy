/** The checksum loop is polynomial division: its result is the one word of twelve bits that differs
    from the dividend by a multiple of the polynomial. */
module Crc12Division {
  import opened Gf2
  import opened BytePacking
  import opened Crc12

  // The polynomial x^12 + x^11 + x^10 + x^2 + x, highest power first. As its lowest power is x, it
  // is the burst that escapes the checksum, and a zero.
  const DIVISOR: Vec := ESCAPE + [false]

  // The coefficients from x^12 down, and the checksum of nothing.
  lemma DivisorIs()
    ensures DIVISOR == [true, true, true, false, false, false, false, false, false, false, true, true, false]
    ensures PayloadChecksum(Zero(75)) == 42
  {
    hide Feed;
    FeedZeros(88);
    assert Zero(75) + Zero(13) == Zero(88);
  }

  function Multiple(q: Vec): (r: Vec)
    ensures |r| == |q| + 12
  {
    if q == [] then Zero(12)
    else
      var n := |q| - 1;
      Xor(Multiple(q[..n]) + [false], if q[n] then Zero(n) + DIVISOR else Zero(n + 13))
  }

  // A dividend made of quotient and remainder.
  ghost predicate Divides(bits: Vec, q: Vec, remainder: Vec)
    requires |remainder| == 12
  {
    |bits| == |q| + 12 && Xor(Multiple(q), Zero(|q|) + remainder) == bits
  }

  lemma DivisorVanishes()
    ensures |DIVISOR| == 13 && Remainder(DIVISOR) == 0
  {
    EscapeVanishes();
    FeedAppend(0, ESCAPE, [false]);
  }

  lemma {:induction false} MultiplesVanish(q: Vec)
    ensures Remainder(Multiple(q)) == 0
  {
    if q == [] {
      FeedZeros(12);
    } else {
      hide Feed, Remainder;
      var n := |q| - 1;
      MultiplesVanish(q[..n]);
      var addend := if q[n] then Zero(n) + DIVISOR else Zero(n + 13);
      RemainderXor(Multiple(q[..n]) + [false], addend);
      OneMoreZero(Multiple(q[..n]));
      ShiftedDivisor(n);
      ZerosVanish(n + 13);
      assert Plus(0, 0) == 0;
    }
  }

  lemma OneMoreZero(bits: Vec)
    requires Remainder(bits) == 0
    ensures Remainder(bits + [false]) == 0
  {
    FeedAppend(0, bits, [false]);
    assert Step(0, false) == 0;
  }

  lemma ShiftedDivisor(n: nat)
    ensures Remainder(Zero(n) + DIVISOR) == 0
  {
    hide Feed;
    FeedZeros(n);
    FeedAppend(0, Zero(n), DIVISOR);
    DivisorVanishes();
  }

  lemma ZerosVanish(n: nat)
    ensures Remainder(Zero(n)) == 0
  {
    FeedZeros(n);
  }

  // The bits of a remainder move up by one in a step, and lose the polynomial when the highest falls
  // out.
  lemma StepBits(r: bv12, x: bool, k: nat)
    requires k < 12
    ensures ChecksumBit(Step(r, x), k)
            == ((if k == 11 then x else ChecksumBit(r, k + 1)) != (Top(r) && DividesAt(k)))
    ensures Top(r) == ChecksumBit(r, 0)
  {
    match k
    case 0 => assert ChecksumBit(Step(r, x), 0) == (ChecksumBit(r, 1) != Top(r));
    case 1 => assert ChecksumBit(Step(r, x), 1) == (ChecksumBit(r, 2) != Top(r));
    case 2 => assert ChecksumBit(Step(r, x), 2) == ChecksumBit(r, 3);
    case 3 => assert ChecksumBit(Step(r, x), 3) == ChecksumBit(r, 4);
    case 4 => assert ChecksumBit(Step(r, x), 4) == ChecksumBit(r, 5);
    case 5 => assert ChecksumBit(Step(r, x), 5) == ChecksumBit(r, 6);
    case 6 => assert ChecksumBit(Step(r, x), 6) == ChecksumBit(r, 7);
    case 7 => assert ChecksumBit(Step(r, x), 7) == ChecksumBit(r, 8);
    case 8 => assert ChecksumBit(Step(r, x), 8) == ChecksumBit(r, 9);
    case 9 => assert ChecksumBit(Step(r, x), 9) == (ChecksumBit(r, 10) != Top(r));
    case 10 => assert ChecksumBit(Step(r, x), 10) == (ChecksumBit(r, 11) != Top(r));
    case _ => assert ChecksumBit(Step(r, x), 11) == x;
  }

  // The powers below the highest.
  predicate DividesAt(k: nat) {
    k == 0 || k == 1 || k == 9 || k == 10
  }

  lemma DivisorBits(k: nat)
    requires k < 13
    ensures |DIVISOR| == 13 && (DIVISOR[k] <==> k == 0 || DividesAt(k - 1))
  {
    assert ESCAPE == [true, true, true] + Zero(7) + [true, true];
  }

  // One step is one line of a long division.
  lemma StepDivides(r: bv12, x: bool)
    ensures |DIVISOR| == 13
    ensures Xor(if Top(r) then DIVISOR else Zero(13), [false] + ChecksumBits(Step(r, x))) == ChecksumBits(r) + [x]
  {
    hide Step, Top, ChecksumBit, DIVISOR;
    DivisorBits(0);
    var line := if Top(r) then DIVISOR else Zero(13);
    forall k | 0 <= k < 13
      ensures (line[k] != ([false] + ChecksumBits(Step(r, x)))[k]) == (ChecksumBits(r) + [x])[k]
    {
      DivisorBits(k);
      StepBits(r, x, if k == 0 then 0 else k - 1);
    }
  }

  // Dividing leaves the remainder.
  lemma {:induction false} DivisionLeaves(bits: Vec) returns (q: Vec)
    requires |bits| >= 12
    ensures Divides(bits, q, ChecksumBits(Remainder(bits)))
  {
    if |bits| == 12 {
      q := [];
      WordIsItsRemainder(bits);
      assert Zero(0) + bits == bits;
    } else {
      hide Step, Top, ChecksumBits, Feed, DIVISOR;
      var n := |bits| - 13;
      var b, x := bits[..|bits| - 1], bits[|bits| - 1];
      var p := DivisionLeaves(b);
      var r := Remainder(b);
      q := p + [Top(r)];
      assert q[..n] == p;
      RemainderOfOneMore(b, x);
      assert bits == b + [x];
      StepDivides(r, x);
      DivideOneMore(b, x, p, Top(r), ChecksumBits(r), ChecksumBits(Step(r, x)));
    }
  }

  lemma RemainderOfOneMore(b: Vec, x: bool)
    ensures Remainder(b + [x]) == Step(Remainder(b), x)
  {
    hide Step;
  }

  lemma DivideOneMore(b: Vec, x: bool, p: Vec, top: bool, before: Vec, after: Vec)
    requires |before| == |after| == 12 && |DIVISOR| == 13 && Divides(b, p, before)
    requires Xor(if top then DIVISOR else Zero(13), [false] + after) == before + [x]
    ensures Divides(b + [x], p + [top], after)
  {
    hide DIVISOR;
    var n := |p|;
    var q, line := p + [top], if top then DIVISOR else Zero(13);
    assert q[..n] == p;
    assert Zero(n + 13) == Zero(n) + Zero(13);
    var m := Multiple(p);
    assert Multiple(q) == Xor(m + [false], Zero(n) + line);
    var left, right := Xor(Multiple(q), Zero(n + 1) + after), b + [x];
    forall i | 0 <= i < n + 13
      ensures left[i] == right[i]
    {
      if i < n {
        assert right[i] == (m[i] != (Zero(n) + before)[i]);
      } else {
        var k := i - n;
        assert (line[k] != ([false] + after)[k]) == (before + [x])[k];
        assert (Zero(n) + line)[i] == line[k] && (Zero(n + 1) + after)[i] == ([false] + after)[k];
        assert i < n + 12 ==> b[i] == (m[i] != (Zero(n) + before)[i]);
      }
    }
  }

  // Twelve bits are their own remainder.
  lemma WordIsItsRemainder(bits: Vec)
    requires |bits| == 12
    ensures ChecksumBits(Remainder(bits)) == bits
  {
    ShortWord(bits, 12);
    assert bits[..12] == bits;
  }

  lemma {:induction false} ShortWord(bits: Vec, n: nat)
    requires |bits| == 12 && n <= 12
    ensures ChecksumBits(Remainder(bits[..n])) == Zero(12 - n) + bits[..n]
  {
    hide Step, Top, ChecksumBit, Feed;
    if n == 0 {
      NoBits();
      assert bits[..0] == [];
      assert Zero(12) + [] == Zero(12);
    } else {
      ShortWord(bits, n - 1);
      var r := Remainder(bits[..n - 1]);
      assert bits[..n] == bits[..n - 1] + [bits[n - 1]];
      RemainderOfOneMore(bits[..n - 1], bits[n - 1]);
      assert ChecksumBits(r)[0] == ChecksumBit(r, 0) == false;
      var left, right := ChecksumBits(Step(r, bits[n - 1])), Zero(12 - n) + bits[..n];
      forall k | 0 <= k < 12
        ensures left[k] == right[k]
      {
        StepBits(r, bits[n - 1], k);
        assert k < 11 ==> ChecksumBits(r)[k + 1] == ChecksumBit(r, k + 1);
      }
    }
  }

  lemma NoBits()
    ensures ChecksumBits(Remainder([])) == Zero(12)
  {
    assert Remainder([]) == 0;
    forall k | 0 <= k < 12
      ensures !ChecksumBit(0, k)
    {
    }
  }

  // Nothing but the remainder is left by any quotient.
  lemma RemainderIsUnique(bits: Vec, q: Vec, remainder: Vec)
    requires |bits| >= 12 && |remainder| == 12 && Divides(bits, q, remainder)
    ensures remainder == ChecksumBits(Remainder(bits))
  {
    hide Feed, ChecksumBits, Plus;
    RemainderXor(Multiple(q), Zero(|q|) + remainder);
    MultiplesVanish(q);
    FeedZeros(|q|);
    FeedAppend(0, Zero(|q|), remainder);
    PlusNothing(Remainder(remainder));
    WordIsItsRemainder(remainder);
  }

  lemma PlusNothing(r: bv12)
    ensures Plus(0, r) == r
  {
  }

  // Twelve bits are left by some quotient exactly if they are what the loop computes.
  lemma ChecksumIsRemainder(bits: Vec, remainder: Vec)
    requires |bits| >= 12 && |remainder| == 12
    ensures (exists q: Vec :: Divides(bits, q, remainder)) <==> remainder == ChecksumBits(Remainder(bits))
  {
    hide Divides, ChecksumBits, Remainder;
    if q: Vec :| Divides(bits, q, remainder) {
      RemainderIsUnique(bits, q, remainder);
    }
    var q := DivisionLeaves(bits);
  }
}
