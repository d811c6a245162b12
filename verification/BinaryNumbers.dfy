/** Numbers written in binary, most significant bit first. */
module BinaryNumbers {
  import opened Gf2

  // The n low bits of a number.
  function ToBits(w: nat, n: nat): (r: Vec)
    ensures |r| == n
  {
    if n == 0 then [] else ToBits(w / 2, n - 1) + [w % 2 == 1]
  }

  function FromBits(bits: Vec): nat {
    if bits == [] then 0 else 2 * FromBits(bits[..|bits| - 1]) + (if bits[|bits| - 1] then 1 else 0)
  }

  function Power2(n: nat): nat {
    if n == 0 then 1 else 2 * Power2(n - 1)
  }

  lemma {:induction false} ToBitsOfFromBits(bits: Vec)
    ensures ToBits(FromBits(bits), |bits|) == bits
    ensures FromBits(bits) < Power2(|bits|)
  {
    if bits != [] {
      ToBitsOfFromBits(bits[..|bits| - 1]);
    }
  }

  lemma {:induction false} FromBitsOfToBits(w: nat, n: nat)
    requires w < Power2(n)
    ensures FromBits(ToBits(w, n)) == w
  {
    if n > 0 {
      FromBitsOfToBits(w / 2, n - 1);
    }
  }

  lemma ToBits6(w: nat)
    ensures var h1 := w / 2; var h2 := h1 / 2; var h3 := h2 / 2; var h4 := h3 / 2; var h5 := h4 / 2;
            ToBits(w, 6) == [h5 % 2 == 1, h4 % 2 == 1, h3 % 2 == 1, h2 % 2 == 1, h1 % 2 == 1, w % 2 == 1]
  {
    var h1 := w / 2;
    var h2 := h1 / 2;
    var h3 := h2 / 2;
    var h4 := h3 / 2;
    var h5 := h4 / 2;
    assert ToBits(h4, 2) == [h5 % 2 == 1, h4 % 2 == 1];
    assert ToBits(h2, 4) == [h5 % 2 == 1, h4 % 2 == 1, h3 % 2 == 1, h2 % 2 == 1];
  }

  // The bits of a number below 64, as a machine word.
  lemma WordHigh(w: nat)
    requires w < 64
    ensures var h1 := w / 2; var h2 := h1 / 2; var h3 := h2 / 2; var h4 := h3 / 2; var h5 := h4 / 2;
            && ((w as bv32) & 32 != 0 <==> h5 % 2 == 1)
            && ((w as bv32) & 16 != 0 <==> h4 % 2 == 1)
            && ((w as bv32) & 8 != 0 <==> h3 % 2 == 1)
  {
    WordBit5(w);
    WordBit4(w);
    WordBit3(w);
  }

  lemma WordBit5(w: nat)
    requires w < 64
    ensures var h1 := w / 2; var h2 := h1 / 2; var h3 := h2 / 2; var h4 := h3 / 2; var h5 := h4 / 2;
            (w as bv32) & 32 != 0 <==> h5 % 2 == 1
  {
  }

  lemma WordBit4(w: nat)
    requires w < 64
    ensures var h1 := w / 2; var h2 := h1 / 2; var h3 := h2 / 2; var h4 := h3 / 2;
            (w as bv32) & 16 != 0 <==> h4 % 2 == 1
  {
  }

  lemma WordBit3(w: nat)
    requires w < 64
    ensures var h1 := w / 2; var h2 := h1 / 2; var h3 := h2 / 2;
            (w as bv32) & 8 != 0 <==> h3 % 2 == 1
  {
  }

  lemma WordLow(w: nat)
    requires w < 64
    ensures var h1 := w / 2; var h2 := h1 / 2;
            && ((w as bv32) & 4 != 0 <==> h2 % 2 == 1)
            && ((w as bv32) & 2 != 0 <==> h1 % 2 == 1)
            && ((w as bv32) & 1 != 0 <==> w % 2 == 1)
    ensures (w as bv32) < 64
  {
  }

  lemma FromBits3(a: bool, b: bool, c: bool)
    ensures FromBits([a, b, c]) == (if a then 4 else 0) + (if b then 2 else 0) + (if c then 1 else 0)
  {
    assert [a, b, c][..2] == [a, b] && [a, b][..1] == [a];
    assert FromBits([a]) == if a then 1 else 0;
  }

  lemma FromBits6(bits: Vec)
    requires |bits| == 6
    ensures FromBits(bits)
            == 8 * FromBits(bits[..3])
               + (if bits[3] then 4 else 0) + (if bits[4] then 2 else 0) + (if bits[5] then 1 else 0)
  {
    assert bits[..5][..4] == bits[..4] && bits[..4][..3] == bits[..3];
    assert FromBits(bits[..4]) == 2 * FromBits(bits[..3]) + (if bits[3] then 1 else 0);
    assert FromBits(bits[..5]) == 2 * FromBits(bits[..4]) + (if bits[4] then 1 else 0);
  }
}
