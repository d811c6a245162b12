/** Bytes and big-endian numbers. */
module Bytes {
  import opened Division

  type Byte = b: int | 0 <= b < 0x100

  // The low bytes of a number, most significant first, as a chain of casts and shifts leaves them.
  function BigEndian(n: int, width: nat): (r: seq<Byte>)
    ensures |r| == width
    decreases width
  {
    if width == 0 then [] else BigEndian(n / 0x100, width - 1) + [n % 0x100]
  }

  function Value(bytes: seq<Byte>): (r: nat) {
    if bytes == [] then 0 else Value(bytes[..|bytes| - 1]) * 0x100 + bytes[|bytes| - 1]
  }

  function Power256(width: nat): (r: nat)
    ensures r > 0
  {
    if width == 0 then 1 else 0x100 * Power256(width - 1)
  }

  lemma DivideTwice(n: int, d: int)
    requires d > 0
    ensures n % (0x100 * d) == n / 0x100 % d * 0x100 + n % 0x100
  {
    var q, r := n / 0x100, n % 0x100;
    var t, s := q / d, q % d;
    assert q == t * d + s;
    assert n == (0x100 * d) * t + (s * 0x100 + r);
    RemainderIs(n, 0x100 * d, t, s * 0x100 + r);
  }

  // What a reader gets back: the number, reduced to the width.
  lemma {:induction false} ValueOfBigEndian(n: int, width: nat)
    ensures Value(BigEndian(n, width)) == n % Power256(width)
    decreases width
  {
    if width > 0 {
      ValueOfBigEndian(n / 0x100, width - 1);
      DivideTwice(n, Power256(width - 1));
      assert BigEndian(n, width)[..width - 1] == BigEndian(n / 0x100, width - 1);
    }
  }

  function U16(n: int): (r: seq<Byte>)
    ensures |r| == 2
  {
    BigEndian(n, 2)
  }

  function U32(n: int): (r: seq<Byte>)
    ensures |r| == 4
  {
    BigEndian(n, 4)
  }

  lemma U16Is(n: int)
    ensures U16(n) == [n / 0x100 % 0x100, n % 0x100]
  {
    assert BigEndian(n / 0x100, 1) == BigEndian(n / 0x100 / 0x100, 0) + [n / 0x100 % 0x100];
  }

  lemma U32Is(n: int)
    ensures U32(n) == U16(n / 0x1_0000) + U16(n)
  {
    var q := n / 0x100;
    assert n / 0x1_0000 == q / 0x100 by {
      assert n == 0x1_0000 * (q / 0x100) + (q % 0x100 * 0x100 + n % 0x100);
      QuotientIs(n, 0x1_0000, q / 0x100, q % 0x100 * 0x100 + n % 0x100);
    }
    assert BigEndian(n, 4) == BigEndian(q, 3) + [n % 0x100];
    assert BigEndian(q, 3) == BigEndian(q / 0x100, 2) + [q % 0x100];
    U16Is(n);
  }

  lemma ValueOfU16(n: int)
    ensures Value(U16(n)) == n % 0x1_0000
  {
    ValueOfBigEndian(n, 2);
    assert Power256(2) == 0x1_0000 by {
      assert Power256(1) == 0x100;
    }
  }

  lemma ValueOfU32(n: int)
    ensures Value(U32(n)) == n % 0x1_0000_0000
  {
    ValueOfBigEndian(n, 4);
    assert Power256(4) == 0x1_0000_0000 by {
      assert Power256(1) == 0x100;
      assert Power256(2) == 0x1_0000;
      assert Power256(3) == 0x100_0000;
    }
  }
}
