/** Vectors over the field of two elements, as sequences of booleans. */
module Gf2 {

  type Vec = seq<bool>

  datatype Word = Word(bits: bv88) {
    function Xor(other: Word): Word {
      Word(bits ^ other.bits)
    }
  }

  function Zero(n: nat): (r: Vec)
    ensures |r| == n
  {
    seq(n, _ => false)
  }

  function Unit(n: nat, k: nat): (r: Vec)
    ensures |r| == n
  {
    seq(n, i => i == k)
  }

  function Xor(a: Vec, b: Vec): (r: Vec)
    requires |a| == |b|
    ensures |r| == |a|
  {
    seq(|a|, i requires 0 <= i < |a| => a[i] != b[i])
  }

  // The sum, modulo two, of the bits of `b` that `a` selects.
  function Dot(a: Vec, b: Vec): bool
    requires |a| == |b|
  {
    if a == [] then false
    else (a[|a| - 1] && b[|b| - 1]) != Dot(a[..|a| - 1], b[..|b| - 1])
  }

  lemma {:induction false} DotZero(n: nat, m: Vec)
    requires |m| == n
    ensures !Dot(Zero(n), m)
  {
    if n > 0 {
      assert Zero(n)[..n - 1] == Zero(n - 1);
      DotZero(n - 1, m[..n - 1]);
    }
  }

  lemma {:induction false} DotUnit(n: nat, k: nat, m: Vec)
    requires k < n == |m|
    ensures Dot(Unit(n, k), m) == m[k]
  {
    if k == n - 1 {
      assert Unit(n, k)[..n - 1] == Zero(n - 1);
      DotZero(n - 1, m[..n - 1]);
    } else {
      assert Unit(n, k)[..n - 1] == Unit(n - 1, k);
      DotUnit(n - 1, k, m[..n - 1]);
    }
  }

  lemma {:induction false} DotXor(a: Vec, b: Vec, m: Vec)
    requires |a| == |b| == |m|
    ensures Dot(Xor(a, b), m) == (Dot(a, m) != Dot(b, m))
  {
    var n := |m|;
    if n > 0 {
      assert Xor(a, b)[..n - 1] == Xor(a[..n - 1], b[..n - 1]);
      DotXor(a[..n - 1], b[..n - 1], m[..n - 1]);
    }
  }

  // The masks that walk a byte from its most significant bit down.
  function Mask(b: nat): bv8
    requires b < 8
  {
    match b
    case 0 => 0x80 case 1 => 0x40 case 2 => 0x20 case 3 => 0x10
    case 4 => 0x08 case 5 => 0x04 case 6 => 0x02 case _ => 0x01
  }

  // Bit k of a byte, most significant first.
  predicate BitSet(b: bv8, k: nat)
    requires k < 8
  {
    match k
    case 0 => b & 0x80 != 0 case 1 => b & 0x40 != 0 case 2 => b & 0x20 != 0 case 3 => b & 0x10 != 0
    case 4 => b & 0x08 != 0 case 5 => b & 0x04 != 0 case 6 => b & 0x02 != 0 case _ => b & 0x01 != 0
  }

  function Byte(w: bv88, i: nat): bv8
    requires i < 11
  {
    match i
    case 0 => ((w >> 80) & 0xff) as bv8
    case 1 => ((w >> 72) & 0xff) as bv8
    case 2 => ((w >> 64) & 0xff) as bv8
    case 3 => ((w >> 56) & 0xff) as bv8
    case 4 => ((w >> 48) & 0xff) as bv8
    case 5 => ((w >> 40) & 0xff) as bv8
    case 6 => ((w >> 32) & 0xff) as bv8
    case 7 => ((w >> 24) & 0xff) as bv8
    case 8 => ((w >> 16) & 0xff) as bv8
    case 9 => ((w >> 8) & 0xff) as bv8
    case _ => (w & 0xff) as bv8
  }

  // The word that holds byte b at position i and is zero elsewhere.
  function ByteWord(b: bv8, i: nat): bv88
    requires i < 11
  {
    var w := b as bv88;
    match i
    case 0 => w << 80
    case 1 => w << 72
    case 2 => w << 64
    case 3 => w << 56
    case 4 => w << 48
    case 5 => w << 40
    case 6 => w << 32
    case 7 => w << 24
    case 8 => w << 16
    case 9 => w << 8
    case _ => w
  }

  // Column j of a matrix row held in a word.
  predicate Column(w: bv88, j: nat)
    requires j < 88
  {
    BitSet(Byte(w, j / 8), j % 8)
  }

  // A matrix row as a vector: its 87 columns, the unused last bit of the word dropped.
  function Row(w: Word): (r: Vec)
    ensures |r| == 87
  {
    seq(87, j requires 0 <= j < 87 => Column(w.bits, j))
  }

  // Row k of the identity half of the generator.
  function UnitWord(k: nat): bv88
    requires k < 88
  {
    ByteWord(Mask(k % 8), k / 8)
  }

  lemma ByteXor(v: bv88, w: bv88, i: nat)
    requires i < 11
    ensures Byte(v ^ w, i) == Byte(v, i) ^ Byte(w, i)
  {
    match i
    case 0 => case 1 => case 2 => case 3 => case 4 => case 5 =>
    case 6 => case 7 => case 8 => case 9 => case _ =>
  }

  lemma BitSetXor(x: bv8, y: bv8, k: nat)
    requires k < 8
    ensures BitSet(x ^ y, k) == (BitSet(x, k) != BitSet(y, k))
  {
    match k
    case 0 => assert BitSet(x ^ y, 0) == (BitSet(x, 0) != BitSet(y, 0));
    case 1 => assert BitSet(x ^ y, 1) == (BitSet(x, 1) != BitSet(y, 1));
    case 2 => assert BitSet(x ^ y, 2) == (BitSet(x, 2) != BitSet(y, 2));
    case 3 => assert BitSet(x ^ y, 3) == (BitSet(x, 3) != BitSet(y, 3));
    case 4 => assert BitSet(x ^ y, 4) == (BitSet(x, 4) != BitSet(y, 4));
    case 5 => assert BitSet(x ^ y, 5) == (BitSet(x, 5) != BitSet(y, 5));
    case 6 => assert BitSet(x ^ y, 6) == (BitSet(x, 6) != BitSet(y, 6));
    case _ => assert BitSet(x ^ y, 7) == (BitSet(x, 7) != BitSet(y, 7));
  }

  lemma ByteWordXor(v: Word, w: Word, i: nat)
    requires i < 11
    ensures Byte(v.Xor(w).bits, i) == Byte(v.bits, i) ^ Byte(w.bits, i)
  {
    hide Byte;
    ByteXor(v.bits, w.bits, i);
  }

  lemma ColumnXor(v: Word, w: Word, j: nat)
    requires j < 88
    ensures Column(v.Xor(w).bits, j) == (Column(v.bits, j) != Column(w.bits, j))
  {
    hide Byte, BitSet, Word.Xor;
    ByteWordXor(v, w, j / 8);
    BitSetXor(Byte(v.bits, j / 8), Byte(w.bits, j / 8), j % 8);
  }

  // Adding words adds the rows they hold.
  lemma RowXor(v: Word, w: Word)
    ensures Row(v.Xor(w)) == Xor(Row(v), Row(w))
  {
    hide Column, Word.Xor;
    forall j | 0 <= j < 87
      ensures Row(v.Xor(w))[j] == Xor(Row(v), Row(w))[j]
    {
      ColumnXor(v, w, j);
    }
  }

  lemma RowZero()
    ensures Row(Word(0)) == Zero(87)
  {
    forall j | 0 <= j < 87
      ensures !Column(0, j)
    {
    }
  }

  lemma MasksDistinct(a: nat, b: nat)
    requires a < 8 && b < 8
    ensures BitSet(Mask(a), b) <==> a == b
  {
  }

  lemma BytePlaced(b: bv8, i: nat, k: nat)
    requires i < 11 && k < 11
    ensures Byte(ByteWord(b, i), k) == if i == k then b else 0
  {
    match i
    case 0 => case 1 => case 2 => case 3 => case 4 => case 5 =>
    case 6 => case 7 => case 8 => case 9 => case _ =>
  }

  lemma RowUnit(k: nat)
    requires k < 87
    ensures Row(Word(UnitWord(k))) == Unit(87, k)
  {
    forall j | 0 <= j < 87
      ensures Column(UnitWord(k), j) == (j == k)
    {
      BytePlaced(Mask(k % 8), k / 8, j / 8);
      MasksDistinct(k % 8, j % 8);
    }
  }
}
