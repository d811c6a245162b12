/** What the messages of the decoder mean. Each leaves out what its addressee has said; and in exact arithmetic
    they are the sum-product messages: odds multiply, and a check tells a bit the chance that the other bits it
    adds up have an odd sum. */
module SumProduct {
  import opened BeliefPropagation
  import opened Js8Graph
  import opened Js8Tables
  import opened LdpcCode
  import opened RealProducts

  /* A check does not tell a bit what the bit has told it */

  // The product of messages, in order.
  function Product<F>(ops: Arithmetic<F>, messages: seq<F>): F {
    if messages == [] then ops.one else ops.multiply(Product(ops, messages[..|messages| - 1]), messages[|messages| - 1])
  }

  // The messages but for one.
  function Without<T>(s: seq<T>, j: nat): (r: seq<T>)
    requires j < |s|
    ensures |r| == |s| - 1
    ensures forall k | 0 <= k < |r| :: r[k] == if k < j then s[k] else s[k + 1]
  {
    s[..j] + s[j + 1..]
  }

  // Bit i is in place j of the check, and in no other.
  ghost predicate OnlyPlace(node: CheckNode, i: nat, j: nat) {
    j < node.valid && forall k: nat | k < node.valid :: node.Neighbor(k) == i <==> k == j
  }

  // Before the place of the bit the product is that of all messages, behind it that of the others.
  lemma {:induction false} OthersSoFar<F>(ops: Arithmetic<F>, node: CheckNode, messages: seq<F>, i: nat, j: nat, k: nat)
    requires OnlyPlace(node, i, j) && k <= node.valid == |messages|
    ensures OthersProduct(ops, node, messages, i, k)
            == if k <= j then Product(ops, messages[..k]) else Product(ops, Without(messages[..k], j))
  {
    hide Product, Without;
    if k == 0 {
      assert messages[..0] == [];
      NoProduct(ops);
    } else {
      OthersSoFar(ops, node, messages, i, j, k - 1);
      assert messages[..k] == messages[..k - 1] + [messages[k - 1]];
      if k - 1 < j {
        ProductOfOneMore(ops, messages[..k - 1], messages[k - 1]);
      } else if k - 1 == j {
        WithoutLast(messages[..j], messages[j]);
      } else {
        WithoutOfOneMore(messages[..k - 1], messages[k - 1], j);
        ProductOfOneMore(ops, Without(messages[..k - 1], j), messages[k - 1]);
      }
    }
  }

  lemma NoProduct<F>(ops: Arithmetic<F>)
    ensures Product(ops, []) == ops.one
  {
  }

  lemma WithoutLast<T>(s: seq<T>, x: T)
    ensures Without(s + [x], |s|) == s
  {
  }

  lemma WithoutOfOneMore<T>(s: seq<T>, x: T, j: nat)
    requires j < |s|
    ensures Without(s + [x], j) == Without(s, j) + [x]
  {
  }

  // The product told to a bit is that of all other messages, in whatever arithmetic.
  lemma OthersAreMultiplied<F>(ops: Arithmetic<F>, node: CheckNode, messages: seq<F>, i: nat, j: nat)
    requires OnlyPlace(node, i, j) && node.valid == |messages|
    ensures OthersProduct(ops, node, messages, i, node.valid) == Product(ops, Without(messages, j))
  {
    OthersSoFar(ops, node, messages, i, j, node.valid);
    assert messages[..node.valid] == messages;
  }

  // So the bit's own message has no part in it,
  lemma OwnMessageIsLeftOut<F>(ops: Arithmetic<F>, node: CheckNode, messages: seq<F>, i: nat, j: nat, x: F)
    requires OnlyPlace(node, i, j) && node.valid == |messages|
    ensures OthersProduct(ops, node, messages[j := x], i, node.valid)
            == OthersProduct(ops, node, messages, i, node.valid)
  {
    OthersAreMultiplied(ops, node, messages, i, j);
    OthersAreMultiplied(ops, node, messages[j := x], i, j);
    assert Without(messages[j := x], j) == Without(messages, j);
  }

  ghost predicate Commutative<F(!new)>(ops: Arithmetic<F>) {
    && (forall x, y :: ops.multiply(x, y) == ops.multiply(y, x))
    && (forall x, y, z :: ops.multiply(ops.multiply(x, y), z) == ops.multiply(x, ops.multiply(y, z)))
  }

  // and where the order of factors does not matter, it is all that is left out.
  lemma {:induction false} OwnMessageCompletes<F(!new)>(ops: Arithmetic<F>, messages: seq<F>, j: nat)
    requires Commutative(ops) && j < |messages|
    ensures ops.multiply(Product(ops, Without(messages, j)), messages[j]) == Product(ops, messages)
  {
    hide Commutative, Product;
    var n := |messages| - 1;
    var rest, last := messages[..n], messages[n];
    assert messages == rest + [last];
    ProductOfOneMore(ops, rest, last);
    if j == n {
      assert Without(messages, j) == rest;
    } else {
      OwnMessageCompletes(ops, rest, j);
      assert Without(messages, j) == Without(rest, j) + [last];
      ProductOfOneMore(ops, Without(rest, j), last);
      Swap(ops, Product(ops, Without(rest, j)), last, messages[j]);
    }
  }

  lemma ProductOfOneMore<F>(ops: Arithmetic<F>, messages: seq<F>, x: F)
    ensures Product(ops, messages + [x]) == ops.multiply(Product(ops, messages), x)
  {
  }

  lemma Swap<F(!new)>(ops: Arithmetic<F>, p: F, x: F, y: F)
    requires Commutative(ops)
    ensures ops.multiply(ops.multiply(p, x), y) == ops.multiply(ops.multiply(p, y), x)
  {
    assert ops.multiply(ops.multiply(p, x), y) == ops.multiply(p, ops.multiply(x, y));
    assert ops.multiply(ops.multiply(p, y), x) == ops.multiply(p, ops.multiply(y, x));
    assert ops.multiply(x, y) == ops.multiply(y, x);
  }

  /* In exact arithmetic */

  // From odds to the tangent, and back.
  function Balance(x: real): real
    requires x > -1.0
  {
    (1.0 - x) / (1.0 + x)
  }

  // A message stands for odds that a bit is one, and its hyperbolic tangent for a number between -1 and 1. The
  // operations are those of real numbers, without rounding.
  ghost predicate Exact<F(!new)>(ops: Arithmetic<F>, odds: F -> real, value: F -> real) {
    && Positive(odds) && odds(ops.zero) == 1.0 && value(ops.one) == 1.0
    && (forall x, y :: odds(ops.add(x, y)) == Times(odds(x), odds(y)))
    && (forall x, y :: Times(odds(ops.subtract(x, y)), odds(y)) == odds(x))
    && (forall x, y :: value(ops.multiply(x, y)) == Times(value(x), value(y)))
    && (forall x :: value(ops.tanhOfMinusHalf(x)) == Balance(odds(x)))
    && (forall x | -1.0 < value(x) < 1.0 :: odds(ops.twiceAtanhOfMinus(x)) == Balance(value(x)))
    && (forall x :: (ops.positive(x) <==> odds(x) > 1.0) && (ops.negative(x) <==> odds(x) < 1.0))
  }

  ghost predicate Positive<F(!new)>(odds: F -> real) {
    forall x :: odds(x) > 0.0
  }

  lemma ExactIsPositive<F(!new)>(ops: Arithmetic<F>, odds: F -> real, value: F -> real)
    requires Exact(ops, odds, value)
    ensures Positive(odds)
  {
  }

  // There is such arithmetic: here the odds themselves are the messages.
  function OddsOf(x: real): real {
    if x > 0.0 then x else 1.0
  }

  function Quotient(a: real, b: real): real {
    if b == 0.0 then 1.0 else a / b
  }

  function Sum(x: real, y: real): real {
    Times(OddsOf(x), OddsOf(y))
  }

  function Difference(x: real, y: real): real {
    Quotient(OddsOf(x), OddsOf(y))
  }

  function Tangent(x: real): real {
    Quotient(1.0 - OddsOf(x), 1.0 + OddsOf(x))
  }

  function InverseTangent(x: real): real {
    Quotient(1.0 - x, 1.0 + x)
  }

  const REALS := Arithmetic(1.0, 1.0, Sum, Difference, Times, Tangent, InverseTangent, x => OddsOf(x) > 1.0,
                            x => OddsOf(x) < 1.0)

  lemma ExactIsPossible()
    ensures Exact(REALS, OddsOf, (x: real) => x)
  {
    hide Times, Quotient, OddsOf, Balance;
    forall x: real
      ensures OddsOf(x) > 0.0 && Tangent(x) == Balance(OddsOf(x))
      ensures -1.0 < x < 1.0 ==> OddsOf(InverseTangent(x)) == Balance(x)
    {
      TangentsAre(x);
    }
    forall x: real, y: real
      ensures OddsOf(Sum(x, y)) == Times(OddsOf(x), OddsOf(y))
      ensures Times(OddsOf(Difference(x, y)), OddsOf(y)) == OddsOf(x)
    {
      SumsAre(x, y);
    }
    TangentsAre(1.0);
  }

  lemma TangentsAre(x: real)
    ensures OddsOf(x) > 0.0 && Tangent(x) == Balance(OddsOf(x))
    ensures -1.0 < x < 1.0 ==> OddsOf(InverseTangent(x)) == Balance(x)
    ensures OddsOf(1.0) == 1.0
  {
    if -1.0 < x < 1.0 {
      QuotientIsPositive(1.0 - x, 1.0 + x);
    }
  }

  lemma SumsAre(x: real, y: real)
    ensures OddsOf(Sum(x, y)) == Times(OddsOf(x), OddsOf(y))
    ensures Times(OddsOf(Difference(x, y)), OddsOf(y)) == OddsOf(x)
  {
    TimesIsPositive(OddsOf(x), OddsOf(y));
    QuotientIsPositive(OddsOf(x), OddsOf(y));
  }

  lemma QuotientIsPositive(a: real, b: real)
    requires a > 0.0 && b > 0.0
    ensures Quotient(a, b) > 0.0 && Times(Quotient(a, b), b) == a
  {
    var q := a / b;
    assert q * b == a;
    if q <= 0.0 {
      ProductAtLeastZero(-q, b);
    }
  }

  lemma ExactUnits<F(!new)>(ops: Arithmetic<F>, odds: F -> real, value: F -> real, x: F)
    requires Exact(ops, odds, value)
    ensures odds(x) > 0.0 && odds(ops.zero) == 1.0 && value(ops.one) == 1.0
    ensures (ops.positive(x) <==> odds(x) > 1.0) && (ops.negative(x) <==> odds(x) < 1.0)
  {
  }

  lemma ExactSums<F(!new)>(ops: Arithmetic<F>, odds: F -> real, value: F -> real, x: F, y: F)
    requires Exact(ops, odds, value)
    ensures odds(ops.add(x, y)) == Times(odds(x), odds(y)) && Times(odds(ops.subtract(x, y)), odds(y)) == odds(x)
  {
    hide Times;
  }

  lemma ExactProduct<F(!new)>(ops: Arithmetic<F>, odds: F -> real, value: F -> real, x: F, y: F)
    requires Exact(ops, odds, value)
    ensures value(ops.multiply(x, y)) == Times(value(x), value(y))
  {
    hide Times;
  }

  lemma ExactTangents<F(!new)>(ops: Arithmetic<F>, odds: F -> real, value: F -> real, x: F)
    requires Exact(ops, odds, value)
    ensures odds(x) > 0.0 && value(ops.tanhOfMinusHalf(x)) == Balance(odds(x))
    ensures -1.0 < value(x) < 1.0 ==> odds(ops.twiceAtanhOfMinus(x)) == Balance(value(x))
  {
    hide Times;
  }

  // The chance of one, from the odds.
  function Chance(odds: real): real
    requires odds > 0.0
  {
    odds / (1.0 + odds)
  }

  // The chance that of independent bits an odd number is one.
  function OddChance(chances: seq<real>): real {
    if chances == [] then 0.0
    else
      var n := |chances| - 1;
      OneOfTwo(OddChance(chances[..n]), chances[n])
  }

  // The chance that of two independent bits exactly one is one.
  function OneOfTwo(q: real, p: real): real {
    q * (1.0 - p) + (1.0 - q) * p
  }

  ghost predicate Uncertain(chance: real) {
    0.0 < chance < 1.0
  }

  lemma ChanceIsUncertain(odds: real)
    requires odds > 0.0
    ensures Uncertain(Chance(odds)) && Balance(odds) == 1.0 - 2.0 * Chance(odds)
  {
    var p := Chance(odds);
    assert p * (1.0 + odds) == odds;
    QuotientInside(odds, 1.0 + odds, p);
    assert (1.0 - 2.0 * p) * (1.0 + odds) == 1.0 - odds;
    QuotientOf(1.0 - odds, 1.0 + odds, 1.0 - 2.0 * p);
  }

  lemma QuotientInside(a: real, b: real, q: real)
    requires 0.0 < a < b && q * b == a
    ensures 0.0 < q < 1.0
  {
    if q <= 0.0 {
      ProductAtLeastZero(-q, b);
    }
    if q >= 1.0 {
      ProductAtLeastZero(q - 1.0, b);
    }
  }

  lemma QuotientOf(a: real, b: real, q: real)
    requires b > 0.0 && q * b == a
    ensures a / b == q
  {
  }

  // Neither is it certain whether their sum is odd.
  lemma {:induction false} OddChanceIsUncertain(chances: seq<real>)
    requires chances != [] && forall p <- chances :: Uncertain(p)
    ensures Uncertain(OddChance(chances))
  {
    hide OneOfTwo;
    var n := |chances| - 1;
    var p := chances[n];
    if n == 0 {
      NothingAndOne(p);
    } else {
      OddChanceIsUncertain(chances[..n]);
      Mixed(OddChance(chances[..n]), p);
    }
  }

  lemma NothingAndOne(p: real)
    ensures OneOfTwo(0.0, p) == p
  {
  }

  lemma Mixed(q: real, p: real)
    requires Uncertain(q) && Uncertain(p)
    ensures Uncertain(OneOfTwo(q, p))
  {
    hide Times, OneOfTwo;
    TimesIsPositive(q, 1.0 - p);
    TimesIsPositive(1.0 - q, p);
    TimesIsPositive(q, p);
    TimesIsPositive(1.0 - q, 1.0 - p);
    FourCases(q, p);
  }

  // Of two bits both, one of them, or none are one.
  lemma FourCases(q: real, p: real)
    ensures Times(q, 1.0 - p) + Times(1.0 - q, p) + Times(q, p) + Times(1.0 - q, 1.0 - p) == 1.0
    ensures Times(q, 1.0 - p) + Times(1.0 - q, p) == OneOfTwo(q, p)
  {
  }

  function Chances<F(!new)>(odds: F -> real, messages: seq<F>): (r: seq<real>)
    requires Positive(odds)
    ensures |r| == |messages|
  {
    seq(|messages|, j requires 0 <= j < |messages| => Chance(odds(messages[j])))
  }

  function Tanhs<F>(ops: Arithmetic<F>, messages: seq<F>): (r: seq<F>)
    ensures |r| == |messages|
  {
    seq(|messages|, j requires 0 <= j < |messages| => ops.tanhOfMinusHalf(messages[j]))
  }

  // The product of tangents is twice the chance of an even sum, less one.
  lemma {:induction false} ProductIsOddChance<F(!new)>(ops: Arithmetic<F>, odds: F -> real, value: F -> real,
                                                        messages: seq<F>)
    requires Exact(ops, odds, value) && Positive(odds)
    ensures value(Product(ops, Tanhs(ops, messages))) == 1.0 - 2.0 * OddChance(Chances(odds, messages))
  {
    hide Exact, Times, Chance, Balance, OneOfTwo, Positive, Product, OddChance, Tanhs, Chances;
    if messages == [] {
      NoFactors(ops, odds);
      ExactUnits(ops, odds, value, ops.one);
    } else {
      var n := |messages| - 1;
      var rest, x := messages[..n], messages[n];
      assert messages == rest + [x];
      ProductIsOddChance(ops, odds, value, rest);
      OneMoreFactor(ops, odds, rest, x);
      ExactTangents(ops, odds, value, x);
      ExactProduct(ops, odds, value, Product(ops, Tanhs(ops, rest)), ops.tanhOfMinusHalf(x));
      ChanceIsUncertain(odds(x));
      OddOfOneMore(OddChance(Chances(odds, rest)), Chance(odds(x)));
    }
  }

  lemma NoFactors<F(!new)>(ops: Arithmetic<F>, odds: F -> real)
    requires Positive(odds)
    ensures Product(ops, Tanhs(ops, [])) == ops.one && OddChance(Chances(odds, [])) == 0.0
  {
  }

  lemma OneMoreFactor<F(!new)>(ops: Arithmetic<F>, odds: F -> real, messages: seq<F>, x: F)
    requires Positive(odds)
    ensures Product(ops, Tanhs(ops, messages + [x]))
            == ops.multiply(Product(ops, Tanhs(ops, messages)), ops.tanhOfMinusHalf(x))
    ensures OddChance(Chances(odds, messages + [x]))
            == OneOfTwo(OddChance(Chances(odds, messages)), Chance(odds(x)))
  {
    hide Chance, OneOfTwo;
    assert Tanhs(ops, messages + [x])[..|messages|] == Tanhs(ops, messages);
    assert Chances(odds, messages + [x])[..|messages|] == Chances(odds, messages);
  }

  lemma OddOfOneMore(q: real, p: real)
    ensures Times(1.0 - 2.0 * q, 1.0 - 2.0 * p) == 1.0 - 2.0 * OneOfTwo(q, p)
  {
  }

  lemma ChanceOfOdds(odds: real, q: real)
    requires Uncertain(q) && odds == Balance(1.0 - 2.0 * q)
    ensures odds > 0.0 && Chance(odds) == q
  {
    assert odds * (2.0 - 2.0 * q) == 2.0 * q;
    assert odds * (1.0 - q) == q;
    if odds <= 0.0 {
      ProductAtLeastZero(-odds, 1.0 - q);
    }
    assert q * (1.0 + odds) == odds;
    QuotientOf(odds, 1.0 + odds, q);
  }

  // What a check has been asked by its bits.
  ghost function AskedBy<F>(ops: Arithmetic<F>, code: Code, llr: seq<F>, round: nat, c: CheckIndex): (r: seq<F>)
    requires |llr| == 174
    ensures |r| == code.node(c).valid
  {
    seq(code.node(c).valid, j requires 0 <= j < code.node(c).valid => Asked(ops, code, llr, round, c, j))
  }

  // A check tells a bit the chance that the other bits that it adds up have an odd sum.
  lemma ToldIsOddChance<F(!new)>(ops: Arithmetic<F>, odds: F -> real, value: F -> real, code: Code, llr: seq<F>,
                                 round: nat, n: BitIndex, s: nat, j: nat)
    requires Exact(ops, odds, value) && Positive(odds) && |llr| == 174
    requires OnlyPlace(code.node(CheckAt(code.checksOf(n), s)), n, j)
    ensures var others := Without(AskedBy(ops, code, llr, round, CheckAt(code.checksOf(n), s)), j);
            Chance(odds(Told(ops, code, llr, round + 1, n, s))) == OddChance(Chances(odds, others))
  {
    hide Product, Asked, OddChance, OnlyPlace, Exact, Times, Chance, Without, OthersProduct, Positive;
    var c := CheckAt(code.checksOf(n), s);
    var node := code.node(c);
    HasPlace(node, n, j);
    var asked := AskedBy(ops, code, llr, round, c);
    var others := Without(asked, j);
    var heard := Heard(ops, code, llr, round, c);
    assert heard == Tanhs(ops, asked);
    WithoutTanh(ops, asked, j);
    OthersAreMultiplied(ops, node, heard, n, j);
    ProductIsOddChance(ops, odds, value, others);
    ChancesAreUncertain(odds, others);
    var q := OddChance(Chances(odds, others));
    OddChanceIsUncertain(Chances(odds, others));
    ToldIsChance(ops, odds, value, Product(ops, Without(heard, j)), q);
  }

  lemma WithoutTanh<F>(ops: Arithmetic<F>, messages: seq<F>, j: nat)
    requires j < |messages|
    ensures Without(Tanhs(ops, messages), j) == Tanhs(ops, Without(messages, j))
  {
  }

  lemma HasPlace(node: CheckNode, n: nat, j: nat)
    requires OnlyPlace(node, n, j)
    ensures j < node.valid
  {
  }

  lemma ChancesAreUncertain<F(!new)>(odds: F -> real, messages: seq<F>)
    requires Positive(odds)
    ensures forall p <- Chances(odds, messages) :: Uncertain(p)
  {
    forall j | 0 <= j < |messages|
      ensures Uncertain(Chances(odds, messages)[j])
    {
      ChanceIsUncertain(odds(messages[j]));
    }
  }

  lemma ToldIsChance<F(!new)>(ops: Arithmetic<F>, odds: F -> real, value: F -> real, tmn: F, q: real)
    requires Exact(ops, odds, value) && Uncertain(q) && value(tmn) == 1.0 - 2.0 * q
    ensures Chance(odds(ops.twiceAtanhOfMinus(tmn))) == q
  {
    hide Exact, Chance, Balance;
    ExactTangents(ops, odds, value, tmn);
    ChanceOfOdds(odds(ops.twiceAtanhOfMinus(tmn)), q);
  }

  // The odds of a bit are those of its ratio times those that its three checks tell it.
  lemma BeliefMultiplies<F(!new)>(ops: Arithmetic<F>, odds: F -> real, value: F -> real, code: Code, llr: seq<F>,
                                  round: nat, n: BitIndex)
    requires Exact(ops, odds, value) && |llr| == 174
    ensures odds(Belief(ops, code, llr, round, n))
            == Times(odds(llr[n]), Times(Times(odds(Told(ops, code, llr, round, n, 0)),
                                               odds(Told(ops, code, llr, round, n, 1))),
                                         odds(Told(ops, code, llr, round, n, 2))))
  {
    hide Told, Times, Exact;
    var t0, t1 := Told(ops, code, llr, round, n, 0), Told(ops, code, llr, round, n, 1);
    var t2 := Told(ops, code, llr, round, n, 2);
    var s1 := ops.add(ops.zero, t0);
    var s2 := ops.add(s1, t1);
    ExactUnits(ops, odds, value, t0);
    ExactSums(ops, odds, value, ops.zero, t0);
    ExactSums(ops, odds, value, s1, t1);
    ExactSums(ops, odds, value, s2, t2);
    ExactSums(ops, odds, value, llr[n], ops.add(s2, t2));
    OneTimes(odds(t0));
  }

  lemma OneTimes(a: real)
    ensures Times(1.0, a) == a
  {
  }

  // A bit tells a check its odds without what it has from that check.
  lemma AskedLeavesOut<F(!new)>(ops: Arithmetic<F>, odds: F -> real, value: F -> real, code: Code, llr: seq<F>,
                                round: nat, c: CheckIndex, j: nat, n: BitIndex, s: nat)
    requires Exact(ops, odds, value) && |llr| == 174 && n == code.node(c).Neighbor(j)
    requires s < 3 && CheckAt(code.checksOf(n), s) == c && ListedOnce(code.checksOf(n), c)
    ensures var o0, o1 := odds(Told(ops, code, llr, round, n, 0)), odds(Told(ops, code, llr, round, n, 1));
            var o2 := odds(Told(ops, code, llr, round, n, 2));
            odds(Asked(ops, code, llr, round, c, j))
            == Times(odds(llr[n]), if s == 0 then Times(o1, o2) else if s == 1 then Times(o0, o2) else Times(o0, o1))
  {
    hide Told, Belief, Times, Exact;
    BeliefMultiplies(ops, odds, value, code, llr, round, n);
    assert Slot(code.checksOf(n), c) == s;
    var o0, o1 := odds(Told(ops, code, llr, round, n, 0)), odds(Told(ops, code, llr, round, n, 1));
    var o2, l := odds(Told(ops, code, llr, round, n, 2)), odds(llr[n]);
    ExactUnits(ops, odds, value, Told(ops, code, llr, round, n, 0));
    ExactUnits(ops, odds, value, Told(ops, code, llr, round, n, 1));
    ExactUnits(ops, odds, value, Told(ops, code, llr, round, n, 2));
    ExactSums(ops, odds, value, Belief(ops, code, llr, round, n), Told(ops, code, llr, round, n, s));
    var a := odds(Asked(ops, code, llr, round, c, j));
    LeftOut(a, l, o0, o1, o2, s);
  }

  lemma LeftOut(a: real, l: real, o0: real, o1: real, o2: real, s: nat)
    requires o0 > 0.0 && o1 > 0.0 && o2 > 0.0 && s < 3
    requires Times(a, if s == 0 then o0 else if s == 1 then o1 else o2) == Times(l, Times(Times(o0, o1), o2))
    ensures a == Times(l, if s == 0 then Times(o1, o2) else if s == 1 then Times(o0, o2) else Times(o0, o1))
  {
    if s == 0 {
      SameFactor(a, l * (o1 * o2), o0);
    } else if s == 1 {
      SameFactor(a, l * (o0 * o2), o1);
    } else {
      SameFactor(a, l * (o0 * o1), o2);
    }
  }

  lemma SameFactor(a: real, b: real, o: real)
    requires o > 0.0 && a * o == b * o
    ensures a == b
  {
    if a > b {
      ProductIsPositive(a - b, o);
    } else if a < b {
      ProductIsPositive(b - a, o);
    }
  }

  // The decision is for the likelier value.
  lemma DecisionIsLikelier<F(!new)>(ops: Arithmetic<F>, odds: F -> real, value: F -> real, code: Code, llr: seq<F>,
                                    round: nat, n: BitIndex)
    requires Exact(ops, odds, value) && |llr| == 174
    ensures Decision(ops, code, llr, round)[n] <==> odds(Belief(ops, code, llr, round, n)) > 1.0
  {
    hide Belief, Times, Exact;
    ExactUnits(ops, odds, value, Belief(ops, code, llr, round, n));
  }

  // The tables of JS8 give a bit one place in each of its checks.
  lemma Js8Places(n: BitIndex, s: nat) returns (j: nat)
    ensures OnlyPlace(JS8.node(CheckAt(JS8.checksOf(n), s)), n, j)
  {
    hide Nm, Mn;
    var c := CheckAt(Mn(n), s);
    SameEdges(n, c);
    j :| j < Nm(c).valid && Nm(c).Neighbor(j) == n;
    forall k: nat | k < Nm(c).valid && k != j
      ensures Nm(c).Neighbor(k) != n
    {
      BitsDiffer(c, if j < k then j else k, if j < k then k else j);
    }
  }
}
