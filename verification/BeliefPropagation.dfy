/** The belief propagation decoder.

    Its arithmetic is a parameter, so that what is proved here holds for single precision with
    all its roundings, infinities and NaNs as it does for exact numbers: the decoder accepts a
    word because the checks hold on it, whatever the messages were. */
module BeliefPropagation {
  import opened Gf2
  import opened Js8Tables
  import opened LdpcCode

  const MAX_ITERATIONS := 30

  // The operations on floating-point values that the decoder uses.
  datatype Arithmetic<!F> = Arithmetic(
    zero: F,
    one: F,
    add: (F, F) -> F,
    subtract: (F, F) -> F,
    multiply: (F, F) -> F,
    tanhOfMinusHalf: F -> F,
    twiceAtanhOfMinus: F -> F,
    positive: F -> bool,
    negative: F -> bool)

  // What single precision shares with the reals: adding zero does not change a sign, and no
  // value has both signs.
  ghost predicate KeepsSigns<F(!new)>(ops: Arithmetic<F>) {
    && ops.add(ops.zero, ops.zero) == ops.zero
    && (forall x :: ops.positive(ops.add(x, ops.zero)) == ops.positive(x))
    && (forall x :: !(ops.positive(x) && ops.negative(x)))
  }

  /* What a run of the decoder is measured by */

  function HardDecision<F>(ops: Arithmetic<F>, llr: seq<F>): (r: Vec)
    ensures |r| == |llr|
  {
    seq(|llr|, i requires 0 <= i < |llr| => ops.positive(llr[i]))
  }

  // How many of the first n checks fail.
  function Failing(code: Code, cw: Vec, n: nat): nat
    requires |cw| == 174
  {
    if n == 0 then 0 else Failing(code, cw, n - 1) + (if CheckHolds(code, n - 1, cw) then 0 else 1)
  }

  // At how many of the first n positions a word contradicts the sign of its ratio.
  function Disagreements<F>(ops: Arithmetic<F>, llr: seq<F>, cw: Vec, n: nat): nat
    requires n <= |llr| && n <= |cw|
  {
    if n == 0 then 0
    else Disagreements(ops, llr, cw, n - 1) + (if Disagrees(ops, llr[n - 1], cw[n - 1]) then 1 else 0)
  }

  predicate Disagrees<F>(ops: Arithmetic<F>, x: F, bit: bool) {
    if bit then ops.negative(x) else ops.positive(x)
  }

  // That is their number.
  lemma {:induction false} DisagreementsAre<F>(ops: Arithmetic<F>, llr: seq<F>, cw: Vec, n: nat)
    requires n <= |llr| && n <= |cw|
    ensures Disagreements(ops, llr, cw, n)
            == |set i | 0 <= i < n && if cw[i] then ops.negative(llr[i]) else ops.positive(llr[i])|
  {
    if n > 0 {
      DisagreementsAre(ops, llr, cw, n - 1);
      var before := set i | 0 <= i < n - 1 && if cw[i] then ops.negative(llr[i]) else ops.positive(llr[i]);
      var after := set i | 0 <= i < n && if cw[i] then ops.negative(llr[i]) else ops.positive(llr[i]);
      OneMoreOf(before, after, n - 1);
    }
  }

  lemma OneMoreOf(before: set<int>, after: set<int>, i: int)
    requires i !in before && after - {i} == before
    ensures |after| == |before| + if i in after then 1 else 0
  {
    if i in after {
      assert after == before + {i};
    } else {
      assert after == before;
    }
  }

  lemma {:induction false} FailingAre(code: Code, cw: Vec, n: nat)
    requires |cw| == 174
    ensures Failing(code, cw, n) == |set c | 0 <= c < n && !CheckHolds(code, c, cw)|
  {
    hide CheckHolds;
    if n > 0 {
      FailingAre(code, cw, n - 1);
      var before := set c | 0 <= c < n - 1 && !CheckHolds(code, c, cw);
      var after := set c | 0 <= c < n && !CheckHolds(code, c, cw);
      OneMoreOf(before, after, n - 1);
    }
  }

  // The number of latest iterations, the first one excepted, without improvement.
  function Stalled(counts: seq<nat>): nat {
    var n := |counts|;
    if n <= 1 || counts[n - 1] < counts[n - 2] then 0 else Stalled(counts[..n - 1]) + 1
  }

  predicate GivesUp(counts: seq<nat>) {
    |counts| > 10 && Stalled(counts) >= 5 && counts[|counts| - 1] > 15
  }

  // The decoder gives up after ten iterations at least, when more than fifteen checks fail and the last five
  // iterations were no better than the ones before them.
  lemma GivesUpIs(counts: seq<nat>)
    ensures GivesUp(counts)
            <==> && |counts| > 10 && counts[|counts| - 1] > 15
                 && forall k | |counts| - 5 <= k < |counts| :: counts[k] >= counts[k - 1]
  {
    if |counts| > 10 {
      StalledIs(counts, 5);
    }
  }

  lemma {:induction false} StalledIs(counts: seq<nat>, m: nat)
    requires |counts| > m
    ensures Stalled(counts) >= m <==> forall k | |counts| - m <= k < |counts| :: counts[k] >= counts[k - 1]
  {
    if m > 0 {
      var n := |counts| - 1;
      StalledIs(counts[..n], m - 1);
      assert counts[n] >= counts[n - 1] ==> Stalled(counts) == Stalled(counts[..n]) + 1;
    }
  }

  type Word174 = v: Vec | |v| == 174 witness Zero(174)

  // How many checks fail in each iteration.
  function Counts(code: Code, trace: seq<Word174>): (r: seq<nat>)
    ensures |r| == |trace|
  {
    if trace == [] then []
    else Counts(code, trace[..|trace| - 1]) + [Failing(code, trace[|trace| - 1], 87)]
  }

  // Every word so far fails a check, and nowhere was there a reason to give up.
  ghost predicate Running(code: Code, trace: seq<Word174>) {
    trace == [] || (
      && Running(code, trace[..|trace| - 1])
      && !ChecksHold(code, trace[|trace| - 1])
      && !GivesUp(Counts(code, trace)))
  }

  // A finished run: the last word satisfies the checks, or is where the decoder gives up or
  // runs out of iterations.
  ghost predicate IsRun(code: Code, trace: seq<Word174>) {
    && 1 <= |trace| <= MAX_ITERATIONS + 1
    && Running(code, trace[..|trace| - 1])
    && (ChecksHold(code, trace[|trace| - 1]) || GivesUp(Counts(code, trace)) || |trace| == MAX_ITERATIONS + 1)
  }

  // One more iteration, in terms of the three variables that the decoder keeps.
  lemma Iterate(code: Code, trace: seq<Word174>, w: Word174)
    ensures var counts, counts' := Counts(code, trace), Counts(code, trace + [w]);
            var n := Failing(code, w, 87);
            && counts' == counts + [n]
            && Stalled(counts') == (if trace == [] || n < counts[|trace| - 1] then 0 else Stalled(counts) + 1)
            && (GivesUp(counts') <==> |trace| >= 10 && Stalled(counts') >= 5 && n > 15)
            && (n == 0 <==> ChecksHold(code, w))
            && (Running(code, trace + [w]) <==> Running(code, trace) && n != 0 && !GivesUp(counts'))
  {
    hide Failing, CheckHolds;
    assert (trace + [w])[..|trace|] == trace;
    var counts := Counts(code, trace);
    assert (counts + [Failing(code, w, 87)])[..|trace|] == counts;
    FailingZero(code, w, 87);
  }

  // The decoder goes on: its variables hold the last count and how long there was no improvement.
  ghost predicate GoesOn(code: Code, trace: seq<Word174>, nclast: int, ncnt: int) {
    && Running(code, trace) && ncnt == Stalled(Counts(code, trace))
    && (trace != [] ==> nclast == Counts(code, trace)[|trace| - 1])
  }

  lemma NextIteration(code: Code, trace: seq<Word174>, w: Word174, nclast: int, ncnt: int, ncheck: nat)
    requires GoesOn(code, trace, nclast, ncnt) && ncheck == Failing(code, w, 87) && |trace| <= MAX_ITERATIONS
    ensures var stalled := if trace == [] then ncnt else if ncheck - nclast < 0 then 0 else ncnt + 1;
            && (ncheck == 0 <==> ChecksHold(code, w))
            && if ncheck == 0 || (trace != [] && stalled >= 5 && |trace| >= 10 && ncheck > 15)
               then IsRun(code, trace + [w]) && (ncheck != 0 ==> GivesUp(Counts(code, trace + [w])))
               else GoesOn(code, trace + [w], ncheck, stalled)
  {
    hide Failing, Running, Stalled, GivesUp, ChecksHold, Counts;
    Iterate(code, trace, w);
    assert (trace + [w])[..|trace|] == trace && (trace + [w])[|trace|] == w;
    NothingRun(code);
  }

  lemma LastIteration(code: Code, trace: seq<Word174>, nclast: int, ncnt: int)
    requires GoesOn(code, trace, nclast, ncnt) && |trace| == MAX_ITERATIONS + 1
    ensures IsRun(code, trace) && !ChecksHold(code, trace[|trace| - 1])
  {
    hide Stalled, GivesUp, ChecksHold, Counts;
  }

  lemma {:induction false} FailingZero(code: Code, cw: Vec, n: nat)
    requires |cw| == 174
    ensures Failing(code, cw, n) == 0 <==> forall c | 0 <= c < n :: CheckHolds(code, c, cw)
  {
    if n > 0 {
      FailingZero(code, cw, n - 1);
    }
  }

  // The decoder goes on after exactly the words that fail a check where there is no reason to give up.
  lemma {:induction false} RunningIs(code: Code, trace: seq<Word174>)
    ensures Running(code, trace)
            <==> forall k | 0 <= k < |trace| :: GoesOnAt(code, trace, k)
  {
    hide ChecksHold, GivesUp, Counts;
    if trace != [] {
      var n := |trace| - 1;
      RunningIs(code, trace[..n]);
      assert trace[..n + 1] == trace;
      forall k | 0 <= k < n
        ensures GoesOnAt(code, trace[..n], k) <==> GoesOnAt(code, trace, k)
      {
        assert trace[..n][..k + 1] == trace[..k + 1];
      }
      assert Running(code, trace) <==> Running(code, trace[..n]) && GoesOnAt(code, trace, n);
    }
  }

  ghost predicate GoesOnAt(code: Code, trace: seq<Word174>, k: nat)
    requires k < |trace|
  {
    !ChecksHold(code, trace[k]) && !GivesUp(Counts(code, trace[..k + 1]))
  }

  // What is decided, and where it ends, follows from the ratios.
  lemma RunIsUnique<F>(ops: Arithmetic<F>, code: Code, llr: seq<F>, s: seq<Word174>, t: seq<Word174>)
    requires |llr| == 174 && IsRun(code, s) && FollowsMessages(ops, code, llr, s)
    requires IsRun(code, t) && FollowsMessages(ops, code, llr, t)
    ensures s == t
  {
    hide Decision, Running, ChecksHold, GivesUp, Counts;
    if |s| < |t| {
      RunEndsFirst(ops, code, llr, s, t);
    } else if |t| < |s| {
      RunEndsFirst(ops, code, llr, t, s);
    }
  }

  lemma RunEndsFirst<F>(ops: Arithmetic<F>, code: Code, llr: seq<F>, s: seq<Word174>, t: seq<Word174>)
    requires |llr| == 174 && FollowsMessages(ops, code, llr, s) && FollowsMessages(ops, code, llr, t)
    requires IsRun(code, s) && |s| < |t|
    ensures !IsRun(code, t)
  {
    hide Decision, Running, ChecksHold, GivesUp, Counts;
    var n := |s| - 1;
    RunningIs(code, t[..|t| - 1]);
    assert t[..|t| - 1][..n + 1] == s && t[..|t| - 1][n] == s[n];
    assert |s| <= MAX_ITERATIONS ==> !GoesOnAt(code, t[..|t| - 1], n);
  }

  // The hard decision never contradicts the ratios it is taken from.
  lemma {:induction false} HardDecisionAgrees<F(!new)>(ops: Arithmetic<F>, llr: seq<F>, n: nat)
    requires KeepsSigns(ops) && n <= |llr|
    ensures Disagreements(ops, llr, HardDecision(ops, llr), n) == 0
  {
    if n > 0 {
      HardDecisionAgrees(ops, llr, n - 1);
    }
  }

  /* The messages, round by round */

  // The place of a check in the list of a bit, and the check in a place.
  function Slot(checks: (CheckIndex, CheckIndex, CheckIndex), c: nat): nat {
    if checks.0 == c then 0 else if checks.1 == c then 1 else 2
  }

  function CheckAt(checks: (CheckIndex, CheckIndex, CheckIndex), s: nat): CheckIndex {
    if s == 0 then checks.0 else if s == 1 then checks.1 else checks.2
  }

  // The product of the first k messages to a check, other than that of bit i.
  function OthersProduct<F>(ops: Arithmetic<F>, node: CheckNode, messages: seq<F>, i: nat, k: nat): F
    requires k <= |messages|
  {
    if k == 0 then ops.one
    else if node.Neighbor(k - 1) == i then OthersProduct(ops, node, messages, i, k - 1)
    else ops.multiply(OthersProduct(ops, node, messages, i, k - 1), messages[k - 1])
  }

  lemma {:induction false} SameProduct<F>(ops: Arithmetic<F>, node: CheckNode, a: seq<F>, b: seq<F>, i: nat, k: nat)
    requires k <= |a| && k <= |b| && forall j | 0 <= j < k :: a[j] == b[j]
    ensures OthersProduct(ops, node, a, i, k) == OthersProduct(ops, node, b, i, k)
  {
    if k > 0 {
      SameProduct(ops, node, a, b, i, k - 1);
    }
  }

  // What the check in a place of a bit's list tells the bit after a number of rounds: nothing at
  // first, and then the product of what the other bits of the check told it in the round before.
  ghost function Told<F>(ops: Arithmetic<F>, code: Code, llr: seq<F>, round: nat, n: BitIndex, s: nat): F
    requires |llr| == 174
    decreases round, 0
  {
    if round == 0 then ops.zero
    else
      var c := CheckAt(code.checksOf(n), s);
      var node := code.node(c);
      ops.twiceAtanhOfMinus(OthersProduct(ops, node, Heard(ops, code, llr, round - 1, c), n, node.valid))
  }

  // What a bit is believed to be.
  ghost function Belief<F>(ops: Arithmetic<F>, code: Code, llr: seq<F>, round: nat, n: BitIndex): F
    requires |llr| == 174
    decreases round, 1
  {
    ops.add(llr[n],
            ops.add(ops.add(ops.add(ops.zero, Told(ops, code, llr, round, n, 0)),
                            Told(ops, code, llr, round, n, 1)),
                    Told(ops, code, llr, round, n, 2)))
  }

  // What a bit tells a check that lists it: its belief, less what it has from that check.
  ghost function Asked<F>(ops: Arithmetic<F>, code: Code, llr: seq<F>, round: nat, c: CheckIndex, j: nat): F
    requires |llr| == 174
    decreases round, 2
  {
    var n := code.node(c).Neighbor(j);
    ops.subtract(Belief(ops, code, llr, round, n), Told(ops, code, llr, round, n, Slot(code.checksOf(n), c)))
  }

  ghost function Heard<F>(ops: Arithmetic<F>, code: Code, llr: seq<F>, round: nat, c: CheckIndex): (r: seq<F>)
    requires |llr| == 174
    ensures |r| == code.node(c).valid
    decreases round, 3
  {
    seq(code.node(c).valid,
        j requires 0 <= j < code.node(c).valid => ops.tanhOfMinusHalf(Asked(ops, code, llr, round, c, j)))
  }

  // The word decided on after a number of rounds.
  ghost function Decision<F>(ops: Arithmetic<F>, code: Code, llr: seq<F>, round: nat): (r: Word174)
    requires |llr| == 174
  {
    seq(174, n requires 0 <= n < 174 => ops.positive(Belief(ops, code, llr, round, n)))
  }

  // The words decided on, one after each round.
  ghost predicate FollowsMessages<F>(ops: Arithmetic<F>, code: Code, llr: seq<F>, trace: seq<Word174>)
    requires |llr| == 174
  {
    forall k | 0 <= k < |trace| :: trace[k] == Decision(ops, code, llr, k)
  }

  // With no messages yet, the decision is that of the ratios themselves.
  lemma FirstDecision<F(!new)>(ops: Arithmetic<F>, code: Code, llr: seq<F>)
    requires |llr| == 174 && KeepsSigns(ops)
    ensures Decision(ops, code, llr, 0) == HardDecision(ops, llr)
  {
    forall n | 0 <= n < 174
      ensures ops.positive(Belief(ops, code, llr, 0, n)) == ops.positive(llr[n])
    {
      assert Belief(ops, code, llr, 0, n) == ops.add(llr[n], ops.zero);
    }
  }

  // The messages to the bits, as the decoder keeps them.
  ghost predicate Tells<F>(ops: Arithmetic<F>, code: Code, llr: seq<F>, round: nat, tov: array2<F>)
    requires |llr| == 174 && tov.Length0 == 174 && tov.Length1 == 3
    reads tov
  {
    forall n, s | 0 <= n < 174 && 0 <= s < 3 :: tov[n, s] == Told(ops, code, llr, round, n, s)
  }

  /* The decoder */

  // The ratios with the messages added, and their signs.
  method Decide<F>(ops: Arithmetic<F>, code: Code, llr: array<F>, tov: array2<F>, zn: array<F>, cw: array<bool>,
                   ghost round: nat)
    requires llr.Length == zn.Length == cw.Length == 174 && tov.Length0 == 174 && tov.Length1 == 3
    requires zn != llr && zn as object != cw && llr as object != cw
    requires Tells(ops, code, llr[..], round, tov)
    modifies zn, cw
    ensures forall n | 0 <= n < 174 :: zn[n] == Belief(ops, code, llr[..], round, n)
    ensures cw[..] == Decision(ops, code, llr[..], round)
  {
    hide Told;
    for i := 0 to 174
      invariant forall n | 0 <= n < i :: zn[n] == Belief(ops, code, llr[..], round, n)
    {
      var sum := ops.zero;
      sum := ops.add(sum, tov[i, 0]);
      sum := ops.add(sum, tov[i, 1]);
      sum := ops.add(sum, tov[i, 2]);
      zn[i] := ops.add(llr[i], sum);
    }
    for i := 0 to 174
      invariant forall n | 0 <= n < 174 :: zn[n] == Belief(ops, code, llr[..], round, n)
      invariant forall n | 0 <= n < i :: cw[n] == ops.positive(zn[n])
    {
      cw[i] := ops.positive(zn[i]);
    }
  }

  // Adds up the bits of every check and counts the odd sums.
  method CountFailing(code: Code, cw: array<bool>, synd: array<int>) returns (ncheck: nat)
    requires cw.Length == 174 && synd.Length == 87
    modifies synd
    ensures ncheck == Failing(code, cw[..], 87)
  {
    ncheck := 0;
    for i := 0 to 87
      invariant ncheck == Failing(code, cw[..], i)
    {
      var node := code.node(i);
      synd[i] := 0;
      for j := 0 to node.valid
        invariant synd[i] % 2 == 1 <==> NodeSum(node, cw[..], j)
      {
        if cw[node.Neighbor(j)] {
          synd[i] := synd[i] + 1;
        }
      }
      if synd[i] % 2 != 0 {
        ncheck := ncheck + 1;
      }
    }
  }

  method CountErrors<F>(ops: Arithmetic<F>, llr: array<F>, cw: array<bool>) returns (nerr: nat)
    requires llr.Length == cw.Length == 174
    ensures nerr == Disagreements(ops, llr[..], cw[..], 174)
  {
    nerr := 0;
    for i := 0 to 174
      invariant nerr == Disagreements(ops, llr[..], cw[..], i)
    {
      if Disagrees(ops, llr[i], cw[i]) {
        nerr := nerr + 1;
      }
    }
  }

  // Fills the messages to the checks, which the first round overwrites before they are read.
  method FillToChecks<F>(code: Code, llr: array<F>, toc: array2<F>)
    requires llr.Length == 174 && toc.Length0 == 87 && toc.Length1 == 7
    modifies toc
    ensures forall i, j | 0 <= i < 87 && 0 <= j < code.node(i).valid :: toc[i, j] == llr[code.node(i).Neighbor(j)]
  {
    for i := 0 to 87
      invariant forall c, j | 0 <= c < i && 0 <= j < code.node(c).valid :: toc[c, j] == llr[code.node(c).Neighbor(j)]
    {
      var node := code.node(i);
      for j := 0 to node.valid
        invariant forall c, k | 0 <= c < i && 0 <= k < code.node(c).valid :: toc[c, k] == llr[code.node(c).Neighbor(k)]
        invariant forall k | 0 <= k < j :: toc[i, k] == llr[node.Neighbor(k)]
      {
        toc[i, j] := llr[node.Neighbor(j)];
      }
    }
  }

  // Messages from bits to checks: what a bit is believed to be, less the check's own message,
  // which the tables of edges find exactly once.
  method SendToChecks<F>(ops: Arithmetic<F>, code: Code, ghost llr: seq<F>, zn: array<F>, tov: array2<F>,
                         toc: array2<F>, ghost round: nat)
    requires zn.Length == 174 && tov.Length0 == 174 && tov.Length1 == 3 && toc.Length0 == 87 && toc.Length1 == 7
    requires tov != toc && Transposed(code) && |llr| == 174
    requires forall n | 0 <= n < 174 :: zn[n] == Belief(ops, code, llr, round, n)
    requires Tells(ops, code, llr, round, tov)
    modifies toc
    ensures forall i, j | 0 <= i < 87 && 0 <= j < code.node(i).valid :: toc[i, j] == Asked(ops, code, llr, round, i, j)
  {
    hide Told, Belief;
    for i := 0 to 87
      invariant forall c, j | 0 <= c < i && 0 <= j < code.node(c).valid ::
                  toc[c, j] == Asked(ops, code, llr, round, c, j)
    {
      var node := code.node(i);
      for j := 0 to node.valid
        invariant forall c, k | 0 <= c < i && 0 <= k < code.node(c).valid ::
                    toc[c, k] == Asked(ops, code, llr, round, c, k)
        invariant forall k | 0 <= k < j :: toc[i, k] == Asked(ops, code, llr, round, i, k)
      {
        var ibj := node.Neighbor(j);
        var checks := code.checksOf(ibj);
        assert ListedOnce(checks, i);
        var message := zn[ibj];
        if checks.0 == i {
          message := ops.subtract(message, tov[ibj, 0]);
        }
        if checks.1 == i {
          message := ops.subtract(message, tov[ibj, 1]);
        }
        if checks.2 == i {
          message := ops.subtract(message, tov[ibj, 2]);
        }
        toc[i, j] := message;
      }
    }
  }

  function RowOf<F>(m: array2<F>, i: nat): (r: seq<F>)
    requires i < m.Length0
    reads m
    ensures |r| == m.Length1
  {
    seq(m.Length1, j requires 0 <= j < m.Length1 reads m => m[i, j])
  }

  method ProductOfOthers<F>(ops: Arithmetic<F>, node: CheckNode, tanhtoc: array2<F>, ichk: nat, i: nat)
    returns (tmn: F)
    requires tanhtoc.Length0 == 87 && tanhtoc.Length1 == 7 && ichk < 87
    ensures tmn == OthersProduct(ops, node, RowOf(tanhtoc, ichk), i, node.valid)
  {
    tmn := ops.one;
    for k := 0 to node.valid
      invariant tmn == OthersProduct(ops, node, RowOf(tanhtoc, ichk), i, k)
    {
      if node.Neighbor(k) != i {
        tmn := ops.multiply(tmn, tanhtoc[ichk, k]);
      }
    }
  }

  // The products of what the checks were told.
  method SendToBits<F>(ops: Arithmetic<F>, code: Code, ghost llr: seq<F>, toc: array2<F>, tanhtoc: array2<F>,
                       tov: array2<F>, ghost round: nat)
    requires toc.Length0 == tanhtoc.Length0 == 87 && toc.Length1 == tanhtoc.Length1 == 7
    requires tov.Length0 == 174 && tov.Length1 == 3 && |llr| == 174
    requires toc != tanhtoc && toc != tov && tanhtoc != tov
    requires forall i, j | 0 <= i < 87 && 0 <= j < code.node(i).valid :: toc[i, j] == Asked(ops, code, llr, round, i, j)
    modifies tanhtoc, tov
    ensures Tells(ops, code, llr, round + 1, tov)
  {
    hide OthersProduct, RowOf, Told, Asked, Heard;
    Hear(ops, toc, tanhtoc);
    forall c | 0 <= c < 87
      ensures HearsAs(ops, code, llr, round, tanhtoc, c)
    {
      HeardIs(ops, code, llr, round, toc, tanhtoc, c);
    }
    for i := 0 to 174
      invariant forall c | 0 <= c < 87 :: HearsAs(ops, code, llr, round, tanhtoc, c)
      invariant forall n, s | 0 <= n < i && 0 <= s < 3 :: tov[n, s] == Told(ops, code, llr, round + 1, n, s)
    {
      hide HearsAs;
      var checks := code.checksOf(i);
      var tmn := ProductOfOthers(ops, code.node(checks.0), tanhtoc, checks.0, i);
      ToldIs(ops, code, llr, round, tanhtoc, i, 0);
      tov[i, 0] := ops.twiceAtanhOfMinus(tmn);
      tmn := ProductOfOthers(ops, code.node(checks.1), tanhtoc, checks.1, i);
      ToldIs(ops, code, llr, round, tanhtoc, i, 1);
      tov[i, 1] := ops.twiceAtanhOfMinus(tmn);
      tmn := ProductOfOthers(ops, code.node(checks.2), tanhtoc, checks.2, i);
      ToldIs(ops, code, llr, round, tanhtoc, i, 2);
      tov[i, 2] := ops.twiceAtanhOfMinus(tmn);
    }
  }

  method Hear<F>(ops: Arithmetic<F>, toc: array2<F>, tanhtoc: array2<F>)
    requires toc.Length0 == tanhtoc.Length0 == 87 && toc.Length1 == tanhtoc.Length1 == 7 && toc != tanhtoc
    modifies tanhtoc
    ensures forall i, j | 0 <= i < 87 && 0 <= j < 7 :: tanhtoc[i, j] == ops.tanhOfMinusHalf(toc[i, j])
  {
    for i := 0 to 87
      invariant forall c, j | 0 <= c < i && 0 <= j < 7 :: tanhtoc[c, j] == ops.tanhOfMinusHalf(toc[c, j])
    {
      for j := 0 to 7
        invariant forall c, k | 0 <= c < i && 0 <= k < 7 :: tanhtoc[c, k] == ops.tanhOfMinusHalf(toc[c, k])
        invariant forall k | 0 <= k < j :: tanhtoc[i, k] == ops.tanhOfMinusHalf(toc[i, k])
      {
        tanhtoc[i, j] := ops.tanhOfMinusHalf(toc[i, j]);
      }
    }
  }

  // A row holds what a check has heard, in the places it uses.
  ghost predicate HearsAs<F>(ops: Arithmetic<F>, code: Code, llr: seq<F>, round: nat, tanhtoc: array2<F>, c: CheckIndex)
    requires |llr| == 174 && tanhtoc.Length0 == 87 && tanhtoc.Length1 == 7
    reads tanhtoc
  {
    forall j | 0 <= j < code.node(c).valid :: RowOf(tanhtoc, c)[j] == Heard(ops, code, llr, round, c)[j]
  }

  lemma HeardIs<F>(ops: Arithmetic<F>, code: Code, llr: seq<F>, round: nat, toc: array2<F>, tanhtoc: array2<F>,
                   c: CheckIndex)
    requires toc.Length0 == tanhtoc.Length0 == 87 && toc.Length1 == tanhtoc.Length1 == 7 && |llr| == 174
    requires forall i, j | 0 <= i < 87 && 0 <= j < code.node(i).valid :: toc[i, j] == Asked(ops, code, llr, round, i, j)
    requires forall i, j | 0 <= i < 87 && 0 <= j < 7 :: tanhtoc[i, j] == ops.tanhOfMinusHalf(toc[i, j])
    ensures HearsAs(ops, code, llr, round, tanhtoc, c)
  {
    hide Asked;
  }

  lemma ToldIs<F>(ops: Arithmetic<F>, code: Code, llr: seq<F>, round: nat, tanhtoc: array2<F>, n: BitIndex, s: nat)
    requires tanhtoc.Length0 == 87 && tanhtoc.Length1 == 7 && |llr| == 174
    requires HearsAs(ops, code, llr, round, tanhtoc, CheckAt(code.checksOf(n), s))
    ensures var c := CheckAt(code.checksOf(n), s);
            Told(ops, code, llr, round + 1, n, s)
            == ops.twiceAtanhOfMinus(OthersProduct(ops, code.node(c), RowOf(tanhtoc, c), n, code.node(c).valid))
  {
    hide RowOf, Heard;
    var c := CheckAt(code.checksOf(n), s);
    SameProduct(ops, code.node(c), Heard(ops, code, llr, round, c), RowOf(tanhtoc, c), n, code.node(c).valid);
  }

  // The last bits of the word, and the number of signs it corrects.
  method Accept<F>(ops: Arithmetic<F>, llr: array<F>, decoded: array<bool>, cw: array<bool>) returns (nerr: nat)
    requires llr.Length == cw.Length == 174 && decoded.Length == 87
    requires decoded != cw && llr as object != decoded
    modifies decoded
    ensures decoded[..] == cw[87..] && nerr == Disagreements(ops, llr[..], cw[..], 174)
  {
    forall i | 0 <= i < 87 {
      decoded[i] := cw[87 + i];
    }
    nerr := CountErrors(ops, llr, cw);
  }

  // One round of messages, to the checks and back.
  method SendMessages<F>(ops: Arithmetic<F>, code: Code, ghost llr: seq<F>, zn: array<F>, tov: array2<F>,
                         toc: array2<F>, tanhtoc: array2<F>, ghost round: nat)
    requires zn.Length == 174 && tov.Length0 == 174 && tov.Length1 == 3 && |llr| == 174
    requires toc.Length0 == tanhtoc.Length0 == 87 && toc.Length1 == tanhtoc.Length1 == 7
    requires tov != toc && toc != tanhtoc && tov != tanhtoc && Transposed(code)
    requires forall n | 0 <= n < 174 :: zn[n] == Belief(ops, code, llr, round, n)
    requires Tells(ops, code, llr, round, tov)
    modifies toc, tanhtoc, tov
    ensures Tells(ops, code, llr, round + 1, tov)
  {
    SendToChecks(ops, code, llr, zn, tov, toc, round);
    SendToBits(ops, code, llr, toc, tanhtoc, tov, round);
  }

  // Decodes 174 log likelihood ratios. The result is negative if no word was found, and the
  // number of corrected signs otherwise. `trace` lists the hard decisions of the iterations.
  method BpDecode174<F(!new)>(ops: Arithmetic<F>, code: Code, llr: array<F>, decoded: array<bool>, cw: array<bool>)
    returns (nerr: int, ghost trace: seq<Word174>)
    requires llr.Length == cw.Length == 174 && decoded.Length == 87
    requires decoded != cw && llr as object != cw && llr as object != decoded
    requires Transposed(code)
    modifies decoded, cw
    ensures IsRun(code, trace) && cw[..] == trace[|trace| - 1]
    ensures FollowsMessages(ops, code, llr[..], trace)
    ensures nerr >= 0 <==> ChecksHold(code, cw[..])
    ensures nerr >= 0 ==> nerr == Disagreements(ops, llr[..], cw[..], 174) && decoded[..] == cw[87..]
    ensures nerr < 0 ==> nerr == -1 && decoded[..] == old(decoded[..])
    ensures 1 <= |trace| <= 31 && (nerr < 0 ==> |trace| == 31 || GivesUp(Counts(code, trace)))
  {
    hide Failing, HardDecision, Counts, Running, Stalled, GivesUp, ChecksHold, Disagreements, KeepsSigns, Transposed,
      Belief, Told, Decision, Tells, FollowsMessages, GoesOn, IsRun;
    var tov := new F[174, 3]((_, _) => ops.zero);
    var toc := new F[87, 7]((_, _) => ops.zero);
    var tanhtoc := new F[87, 7]((_, _) => ops.zero);
    var zn := new F[174](_ => ops.zero);
    var synd := new int[87](_ => 0);
    var ncnt: int, nclast: int := 0, 0;
    ghost var ratios := llr[..];
    FillToChecks(code, llr, toc);
    trace := [];
    NothingGone(code);
    NothingTold(ops, code, ratios, tov);
    for iter := 0 to MAX_ITERATIONS + 1
      invariant |trace| == iter && GoesOn(code, trace, nclast, ncnt)
      invariant Tells(ops, code, ratios, iter, tov)
      invariant FollowsMessages(ops, code, ratios, trace)
      invariant iter > 0 ==> cw[..] == trace[iter - 1]
      invariant decoded[..] == old(decoded[..]) && llr[..] == ratios
    {
      Decide(ops, code, llr, tov, zn, cw, iter);
      var ncheck := CountFailing(code, cw, synd);
      ghost var w: Word174 := cw[..];
      NextIteration(code, trace, w, nclast, ncnt, ncheck);
      FollowsOneMore(ops, code, ratios, trace, w);
      trace := trace + [w];
      assert trace[iter] == w;
      if ncheck == 0 {
        nerr := Accept(ops, llr, decoded, cw);
        return;
      }
      if iter > 0 {
        var nd := ncheck - nclast;
        ncnt := if nd < 0 then 0 else ncnt + 1;
        if ncnt >= 5 && iter >= 10 && ncheck > 15 {
          return -1, trace;
        }
      }
      nclast := ncheck;
      SendMessages(ops, code, ratios, zn, tov, toc, tanhtoc, iter);
    }
    nerr := -1;
    LastIteration(code, trace, nclast, ncnt);
  }

  lemma NothingGone(code: Code)
    ensures GoesOn(code, [], 0, 0)
  {
  }

  lemma FollowsOneMore<F>(ops: Arithmetic<F>, code: Code, llr: seq<F>, trace: seq<Word174>, w: Word174)
    requires |llr| == 174 && FollowsMessages(ops, code, llr, trace) && w == Decision(ops, code, llr, |trace|)
    ensures FollowsMessages(ops, code, llr, trace + [w])
  {
    hide Decision;
  }

  lemma NothingRun(code: Code)
    ensures Running(code, []) && Counts(code, []) == [] && Stalled([]) == 0
  {
  }

  lemma NothingTold<F>(ops: Arithmetic<F>, code: Code, llr: seq<F>, tov: array2<F>)
    requires |llr| == 174 && tov.Length0 == 174 && tov.Length1 == 3
    requires forall n, s | 0 <= n < 174 && 0 <= s < 3 :: tov[n, s] == ops.zero
    ensures Tells(ops, code, llr, 0, tov) && FollowsMessages(ops, code, llr, [])
  {
  }
}
