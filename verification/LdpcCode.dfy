/** A systematic (174, 87) code given twice, as JS8 gives it: by the rows of a generator, which
    the encoder multiplies with the message, and by a table of checks, which the decoder tests.

    The tables are a parameter here. Two facts about them, `Cancelling` and `Invertible`, make
    the two descriptions one code; Js8Sound proves both for the tables of JS8. */
module LdpcCode {
  import opened Gf2
  import opened Js8Tables
  import opened Js8Certificate
  import opened Js8Graph

  // The generator, the checks, the checks that each codeword bit takes part in, and an inverse
  // that the program has no use for: it witnesses that the checks determine the parity.
  datatype Code = Code(generator: BitIndex -> Word, node: nat -> CheckNode,
                       checksOf: nat -> (CheckIndex, CheckIndex, CheckIndex), inverse: BitIndex -> Word)

  ghost predicate Systematic(code: Code) {
    && (forall k | 0 <= k < 87 :: code.generator(87 + k) == UnitRow(k))
    && (forall n: BitIndex | 87 <= n :: code.inverse(n) == ZERO)
  }

  ghost predicate Cancelling(code: Code) {
    forall c | 0 <= c < 87 :: NodeAdds(ZERO, code.generator, code.node(c))
  }

  ghost predicate Invertible(code: Code) {
    forall c | 0 <= c < 87 :: NodeAdds(UnitRow(c), code.inverse, code.node(c))
  }

  ghost predicate Sound(code: Code) {
    Systematic(code) && Cancelling(code) && Invertible(code)
  }

  // The two tables of edges agree: a bit that a check lists is listed with that check, once, and is
  // listed with no other.
  ghost predicate Transposed(code: Code) {
    && (forall c: nat, j: nat | c < 87 && j < code.node(c).valid ::
          ListedOnce(code.checksOf(code.node(c).Neighbor(j)), c))
    && (forall n: BitIndex, c: CheckIndex | InTriple(code.checksOf(n), c) :: HasNeighbor(code.node(c), n))
  }

  predicate InTriple(checks: (CheckIndex, CheckIndex, CheckIndex), c: CheckIndex) {
    c == checks.0 || c == checks.1 || c == checks.2
  }

  const JS8 := Code(GeneratorRow, Nm, Mn, CertificateRow)

  lemma Js8Sound()
    ensures Sound(JS8)
  {
    forall c | 0 <= c < 87
      ensures NodeAdds(ZERO, JS8.generator, JS8.node(c)) && NodeAdds(UnitRow(c), JS8.inverse, JS8.node(c))
    {
      hide NodeAdds, UnitRow, Nm;
      GeneratorCancels(c);
      CertificateLeaves(c);
    }
    forall k | 0 <= k < 87
      ensures JS8.generator(87 + k) == UnitRow(k)
    {
      hide UnitRow, ParityRow, InverseRow;
    }
    hide NodeAdds, UnitRow, GeneratorRow, Nm;
  }

  lemma Js8Transposed()
    ensures Transposed(JS8)
  {
    hide Nm, Mn, ListedOnce;
    forall c: nat, j: nat | c < 87 && j < JS8.node(c).valid
      ensures ListedOnce(JS8.checksOf(JS8.node(c).Neighbor(j)), c)
    {
      NmIsTransposeOfMn(c, j);
    }
    forall n: BitIndex, c: CheckIndex | InTriple(JS8.checksOf(n), c)
      ensures HasNeighbor(JS8.node(c), n)
    {
      SameEdges(n, c);
    }
  }

  // The 174 products of a family of rows with a message.
  function Span(rows: BitIndex -> Word, m: Vec): (r: Vec)
    requires |m| == 87
    ensures |r| == 174
  {
    seq(174, n requires 0 <= n < 174 => Dot(Row(rows(n)), m))
  }

  // The codeword of a message: 87 parity bits, then the message.
  function Codeword(code: Code, m: Vec): (r: Vec)
    requires |m| == 87
    ensures |r| == 174
  {
    Span(code.generator, m)
  }

  // The sum of the first k codeword bits that a check lists.
  function NodeSum(node: CheckNode, cw: Vec, k: nat): bool
    requires |cw| == 174
  {
    if k == 0 then false else NodeSum(node, cw, k - 1) != cw[node.Neighbor(k - 1)]
  }

  predicate CheckHolds(code: Code, c: nat, cw: Vec)
    requires |cw| == 174
  {
    !NodeSum(code.node(c), cw, code.node(c).valid)
  }

  ghost predicate ChecksHold(code: Code, cw: Vec)
    requires |cw| == 174
  {
    forall c | 0 <= c < 87 :: CheckHolds(code, c, cw)
  }

  lemma RowDotXor(v: Word, w: Word, m: Vec)
    requires |m| == 87
    ensures Dot(Row(v.Xor(w)), m) == (Dot(Row(v), m) != Dot(Row(w), m))
  {
    RowXor(v, w);
    DotXor(Row(v), Row(w), m);
  }

  lemma XorIsDot(total: Word, w0: Word, w1: Word, w2: Word, w3: Word, w4: Word, w5: Word, w6: Word, m: Vec)
    requires |m| == 87
    requires XorIs(total, w0, w1, w2, w3, w4, w5, w6)
    ensures Dot(Row(total), m)
            == ((((((Dot(Row(w0), m) != Dot(Row(w1), m)) != Dot(Row(w2), m)) != Dot(Row(w3), m))
                  != Dot(Row(w4), m)) != Dot(Row(w5), m)) != Dot(Row(w6), m))
  {
    hide Row, Dot, Word.Xor;
    var t1 := w0.Xor(w1);
    var t2 := t1.Xor(w2);
    var t3 := t2.Xor(w3);
    var t4 := t3.Xor(w4);
    RowDotXor(w0, w1, m);
    RowDotXor(t1, w2, m);
    RowDotXor(t2, w3, m);
    RowDotXor(t3, w4, m);
    RowDotXor(t4, w5, m);
    RowDotXor(t4.Xor(w5), w6, m);
  }

  lemma RowDotZero(m: Vec)
    requires |m| == 87
    ensures !Dot(Row(ZERO), m)
  {
    RowZero();
    DotZero(87, m);
  }

  lemma NodeSumUnrolled(node: CheckNode, v: Vec)
    requires |v| == 174
    ensures NodeSum(node, v, 5) == ((((v[node.n0] != v[node.n1]) != v[node.n2]) != v[node.n3]) != v[node.n4])
    ensures NodeSum(node, v, 6) == (NodeSum(node, v, 5) != v[node.n5])
    ensures NodeSum(node, v, 7) == (NodeSum(node, v, 6) != v[node.n6])
  {
    assert NodeSum(node, v, 1) == v[node.n0];
    assert NodeSum(node, v, 2) == (v[node.n0] != v[node.n1]);
    assert NodeSum(node, v, 4) == ((NodeSum(node, v, 2) != v[node.n2]) != v[node.n3]);
  }

  // The sum that a check forms, over the products of a family of rows, is the product of the
  // sum of the rows.
  lemma NodeSumSpan(total: Word, rows: BitIndex -> Word, node: CheckNode, m: Vec)
    requires |m| == 87
    requires NodeAdds(total, rows, node)
    ensures NodeSum(node, Span(rows, m), node.valid) == Dot(Row(total), m)
  {
    hide Row, Dot, XorIs;
    var v := Span(rows, m);
    var w5 := if node.valid > 5 then rows(node.n5) else ZERO;
    var w6 := if node.valid > 6 then rows(node.n6) else ZERO;
    RowDotZero(m);
    XorIsDot(total, rows(node.n0), rows(node.n1), rows(node.n2), rows(node.n3), rows(node.n4), w5, w6, m);
    NodeSumUnrolled(node, v);
  }

  // Every codeword of the generator satisfies every check.
  lemma GeneratedSatisfies(code: Code, m: Vec)
    requires Cancelling(code) && |m| == 87
    ensures ChecksHold(code, Codeword(code, m))
  {
    hide Row, Dot, NodeSum, NodeAdds;
    RowDotZero(m);
    forall c | 0 <= c < 87
      ensures CheckHolds(code, c, Codeword(code, m))
    {
      NodeSumSpan(ZERO, code.generator, code.node(c), m);
    }
  }

  // The message half of a codeword is the message.
  lemma CodewordCarriesMessage(code: Code, m: Vec)
    requires Systematic(code) && |m| == 87
    ensures Codeword(code, m)[87..] == m
  {
    forall k | 0 <= k < 87
      ensures Codeword(code, m)[87 + k] == m[k]
    {
      hide Row, Dot, UnitWord;
      assert code.generator(87 + k) == UnitRow(k);
      RowUnit(k);
      DotUnit(87, k, m);
    }
  }
}
