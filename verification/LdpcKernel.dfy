/** The checks of a sound code are satisfied by the codewords of the generator and by nothing
    else. The inverse table makes every wanted pattern of check values reachable by a choice of
    parity bits; there are as many patterns as choices, so no two choices give one pattern. */
module LdpcKernel {
  import opened Gf2
  import opened Js8Tables
  import opened Js8Certificate
  import opened LdpcCode

  ghost function Vectors(n: nat): set<Vec> {
    if n == 0 then {[]} else Extended(Vectors(n - 1), false) + Extended(Vectors(n - 1), true)
  }

  ghost function Extended(vs: set<Vec>, bit: bool): set<Vec> {
    set v | v in vs :: v + [bit]
  }

  lemma {:induction false} VectorsComplete(n: nat, v: Vec)
    ensures v in Vectors(n) <==> |v| == n
  {
    if n > 0 {
      if |v| > 0 {
        VectorsComplete(n - 1, v[..|v| - 1]);
        assert v == v[..|v| - 1] + [v[|v| - 1]];
        assert |v| == n ==> v in Extended(Vectors(n - 1), v[|v| - 1]);
      }
      if v in Vectors(n) {
        var u, bit :| u in Vectors(n - 1) && v == u + [bit];
        VectorsComplete(n - 1, u);
      }
    }
  }

  ghost predicate Reached(s: set<Vec>, f: Vec -> Vec, y: Vec) {
    exists x <- s :: f(x) == y
  }

  ghost predicate Onto(domain: set<Vec>, f: Vec -> Vec, image: set<Vec>) {
    forall y {:trigger Reached(domain, f, y)} :: y in image ==> Reached(domain, f, y)
  }

  // A set has no more elements than a set that a function maps onto it.
  lemma {:induction false} ImageNotLarger(domain: set<Vec>, image: set<Vec>, f: Vec -> Vec)
    requires Onto(domain, f, image)
    ensures |image| <= |domain|
    decreases domain
  {
    if domain != {} {
      var x :| x in domain;
      forall y <- image - {f(x)}
        ensures Reached(domain - {x}, f, y)
      {
        assert Reached(domain, f, y);
        var u :| u in domain && f(u) == y;
      }
      ImageNotLarger(domain - {x}, image - {f(x)}, f);
    } else {
      assert forall y <- image :: Reached(domain, f, y);
      assert image == {};
    }
  }

  // A function from a finite set onto itself takes no value twice.
  lemma OntoIsInjective(s: set<Vec>, f: Vec -> Vec, a: Vec, b: Vec)
    requires Onto(s, f, s)
    requires a in s && b in s && f(a) == f(b)
    ensures a == b
  {
    if a != b {
      forall y <- s
        ensures Reached(s - {a}, f, y)
      {
        assert Reached(s, f, y);
        var x :| x in s && f(x) == y;
        var u := if x == a then b else x;
        assert u in s - {a} && f(u) == y;
      }
      ImageNotLarger(s - {a}, s, f);
    }
  }

  lemma {:induction false} NodeSumXor(node: CheckNode, a: Vec, b: Vec, k: nat)
    requires |a| == |b| == 174
    ensures NodeSum(node, Xor(a, b), k) == (NodeSum(node, a, k) != NodeSum(node, b, k))
  {
    if k > 0 {
      NodeSumXor(node, a, b, k - 1);
    }
  }

  // What every check yields when the parity half is p and the message half is zero.
  ghost function Syndrome(code: Code, p: Vec): (r: Vec) {
    if |p| == 87 then
      seq(87, c requires 0 <= c < 87 => NodeSum(code.node(c), p + Zero(87), code.node(c).valid))
    else
      []
  }

  lemma SyndromeOnto(code: Code, s: Vec) returns (p: Vec)
    requires Sound(code) && |s| == 87
    ensures |p| == 87 && Syndrome(code, p) == s
  {
    hide Row, Dot, NodeSum, NodeAdds, UnitWord;
    var v := Span(code.inverse, s);
    p := v[..87];
    RowDotZero(s);
    assert v == p + Zero(87);
    forall c | 0 <= c < 87
      ensures NodeSum(code.node(c), v, code.node(c).valid) == s[c]
    {
      NodeSumSpan(UnitRow(c), code.inverse, code.node(c), s);
      RowUnit(c);
      DotUnit(87, c, s);
    }
  }

  lemma SyndromeInjective(code: Code, p: Vec, q: Vec)
    requires Sound(code) && |p| == |q| == 87
    requires Syndrome(code, p) == Syndrome(code, q)
    ensures p == q
  {
    hide Sound, Syndrome, Vectors;
    var f := (v: Vec) => Syndrome(code, v);
    forall s <- Vectors(87)
      ensures Reached(Vectors(87), f, s)
    {
      VectorsComplete(87, s);
      var v := SyndromeOnto(code, s);
      VectorsComplete(87, v);
      assert f(v) == s;
    }
    VectorsComplete(87, p);
    VectorsComplete(87, q);
    OntoIsInjective(Vectors(87), f, p, q);
  }

  // Two words that satisfy every check and carry the same message are the same word.
  lemma ChecksDetermineParity(code: Code, a: Vec, b: Vec)
    requires Sound(code) && |a| == |b| == 174
    requires ChecksHold(code, a) && ChecksHold(code, b) && a[87..] == b[87..]
    ensures a == b
  {
    hide Sound, NodeSum;
    var z := Zero(87) + a[87..];
    assert a == Xor(a[..87] + Zero(87), z);
    assert b == Xor(b[..87] + Zero(87), z);
    forall c | 0 <= c < 87
      ensures Syndrome(code, a[..87])[c] == Syndrome(code, b[..87])[c]
    {
      var node := code.node(c);
      assert CheckHolds(code, c, a) && CheckHolds(code, c, b);
      NodeSumXor(node, a[..87] + Zero(87), z, node.valid);
      NodeSumXor(node, b[..87] + Zero(87), z, node.valid);
    }
    SyndromeInjective(code, a[..87], b[..87]);
  }

  // The generator and the check table describe the same code.
  lemma ChecksHoldExactlyOnCodewords(code: Code, cw: Vec)
    requires Sound(code) && |cw| == 174
    ensures ChecksHold(code, cw) <==> cw == Codeword(code, cw[87..])
  {
    var m := cw[87..];
    GeneratedSatisfies(code, m);
    CodewordCarriesMessage(code, m);
    if ChecksHold(code, cw) {
      ChecksDetermineParity(code, cw, Codeword(code, m));
    }
  }
}
