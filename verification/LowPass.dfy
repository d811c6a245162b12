/** How loud the input may be for the 16 bits of the receiver's buffer. */
module LowPass {
  import opened AudioDevice
  import opened Decimation
  import opened RealProducts
  import opened Rounding

  // The taps of the receiver's filter, seven at a time.
  const TAPS_0 := [
    0.000861074040, 0.010051920210, 0.010161983649, 0.011363155076,
    0.008706594219, 0.002613872664, -0.005202883094
  ]
  const TAPS_1 := [
    -0.011720748164, -0.013752163325, -0.009431602741, 0.000539063909,
    0.012636767098, 0.021494659597, 0.021951235065
  ]
  const TAPS_2 := [
    0.011564169382, -0.007656470131, -0.028965787341, -0.042637874109,
    -0.039203309748, -0.013153301537, 0.034320769178
  ]
  const TAPS_3 := [
    0.094717832646, 0.154224604789, 0.197758325022, 0.213715139513,
    0.197758325022, 0.154224604789, 0.094717832646
  ]
  const TAPS_4 := [
    0.034320769178, -0.013153301537, -0.039203309748, -0.042637874109,
    -0.028965787341, -0.007656470131, 0.011564169382
  ]
  const TAPS_5 := [
    0.021951235065, 0.021494659597, 0.012636767098, 0.000539063909,
    -0.009431602741, -0.013752163325, -0.011720748164
  ]
  const TAPS_6 := [
    -0.005202883094, 0.002613872664, 0.008706594219, 0.011363155076,
    0.010161983649, 0.010051920210, 0.000861074040
  ]

  const LOWPASS: Taps := TAPS_0 + TAPS_1 + TAPS_2 + TAPS_3 + TAPS_4 + TAPS_5 + TAPS_6

  /* The exact product */

  // The sum of the first j products, for the window that ends before an index of the input.
  function Weighted(w: Taps, x: seq<Sample>, end: int, j: nat): real
    requires j <= NTAPS
  {
    if j == 0 then 0.0 else Weighted(w, x, end, j - 1) + Times(w[j - 1], At(x, end - NTAPS + (j - 1)))
  }

  // The input convolved with the filter, at an index.
  function Convolution(w: Taps, x: seq<Sample>, end: int): real {
    Weighted(w, x, end, NTAPS)
  }

  function Magnitude(a: real): real {
    if a >= 0.0 then a else -a
  }

  // The sum of the first j taps, and of their magnitudes.
  function Sum(w: Taps, j: nat): real
    requires j <= NTAPS
  {
    if j == 0 then 0.0 else Sum(w, j - 1) + w[j - 1]
  }

  function Norm(w: Taps, j: nat): real
    requires j <= NTAPS
  {
    if j == 0 then 0.0 else Norm(w, j - 1) + Magnitude(w[j - 1])
  }

  lemma SumOfRow(w: Taps, j: nat, r: seq<real>)
    requires j + 7 <= NTAPS && w[j..j + 7] == r
    ensures Sum(w, j + 7) == Sum(w, j) + r[0] + r[1] + r[2] + r[3] + r[4] + r[5] + r[6]
    ensures Norm(w, j + 7) == Norm(w, j) + Magnitude(r[0]) + Magnitude(r[1]) + Magnitude(r[2]) + Magnitude(r[3])
                              + Magnitude(r[4]) + Magnitude(r[5]) + Magnitude(r[6])
  {
    hide Magnitude, Sum, Norm;
    forall i | 0 <= i < 7
      ensures r[i] == w[j..j + 7][i] == w[j + i]
    {
    }
    OneMoreTap(w, j);
    OneMoreTap(w, j + 1);
    OneMoreTap(w, j + 2);
    OneMoreTap(w, j + 3);
    OneMoreTap(w, j + 4);
    OneMoreTap(w, j + 5);
    OneMoreTap(w, j + 6);
  }

  lemma OneMoreTap(w: Taps, j: nat)
    requires j < NTAPS
    ensures Sum(w, j + 1) == Sum(w, j) + w[j] && Norm(w, j + 1) == Norm(w, j) + Magnitude(w[j])
  {
  }

  lemma NormOfLowPass()
    ensures Norm(LOWPASS, NTAPS) == 1.743095472981
    ensures Sum(LOWPASS, NTAPS) == 1.056198912221
  {
    hide Sum, Norm;
    NoSum(LOWPASS);
    Rows(TAPS_0, TAPS_1, TAPS_2, TAPS_3, TAPS_4, TAPS_5, TAPS_6);
    SumOfRow(LOWPASS, 0, TAPS_0);
    SumOfRow(LOWPASS, 7, TAPS_1);
    SumOfRow(LOWPASS, 14, TAPS_2);
    SumOfRow(LOWPASS, 21, TAPS_3);
    SumOfRow(LOWPASS, 28, TAPS_4);
    SumOfRow(LOWPASS, 35, TAPS_5);
    SumOfRow(LOWPASS, 42, TAPS_6);
  }

  lemma Rows(a: seq<real>, b: seq<real>, c: seq<real>, d: seq<real>, e: seq<real>, f: seq<real>, g: seq<real>)
    requires |a| == |b| == |c| == |d| == |e| == |f| == |g| == 7
    ensures var w := a + b + c + d + e + f + g;
            && |w| == 49 && w[0..7] == a && w[7..14] == b && w[14..21] == c && w[21..28] == d
            && w[28..35] == e && w[35..42] == f && w[42..49] == g
  {
  }

  // The filter is symmetric, and strongest in the middle.
  lemma LowPassIsSymmetric(j: nat)
    requires j < NTAPS
    ensures LOWPASS[j] == LOWPASS[48 - j]
    ensures LOWPASS[j] <= LOWPASS[24] == 0.213715139513
  {
    hide RowAt;
    var r, k := j / 7, j % 7;
    assert 48 - j == 7 * (6 - r) + (6 - k);
    TapIs(r, k);
    TapIs(6 - r, 6 - k);
    TapIs(3, 3);
    MirroredRows(r, k);
  }

  // Seven taps at a time.
  function RowAt(r: nat): (row: seq<real>)
    requires r < 7
    ensures |row| == 7
  {
    match r
    case 0 => TAPS_0 case 1 => TAPS_1 case 2 => TAPS_2 case 3 => TAPS_3
    case 4 => TAPS_4 case 5 => TAPS_5 case _ => TAPS_6
  }

  lemma MirroredRows(r: nat, k: nat)
    requires r < 7 && k < 7
    ensures RowAt(r)[k] == RowAt(6 - r)[6 - k] && RowAt(r)[k] <= RowAt(3)[3] == 0.213715139513
  {
  }

  lemma TapIs(r: nat, k: nat)
    requires r < 7 && k < 7
    ensures LOWPASS[7 * r + k] == RowAt(r)[k]
  {
    Rows(TAPS_0, TAPS_1, TAPS_2, TAPS_3, TAPS_4, TAPS_5, TAPS_6);
    var row := LOWPASS[7 * r..7 * r + 7];
    assert row == RowAt(r) && row[k] == LOWPASS[7 * r + k];
  }

  // The order of the taps on one side.
  lemma FirstTaps()
    ensures LOWPASS[0] < LOWPASS[1] < LOWPASS[2] < LOWPASS[3] && LOWPASS[3] > LOWPASS[4] > LOWPASS[5] > 0.0
    ensures 0.0 > LOWPASS[6] > LOWPASS[7] > LOWPASS[8] && LOWPASS[8] < LOWPASS[9] < 0.0 < LOWPASS[10] < LOWPASS[11]
    ensures LOWPASS[11] < LOWPASS[12] < LOWPASS[13] && LOWPASS[13] > LOWPASS[14] > 0.0 > LOWPASS[15] > LOWPASS[16]
    ensures LOWPASS[16] > LOWPASS[17] && LOWPASS[17] < LOWPASS[18] < LOWPASS[19] < 0.0
    ensures 0.0 < LOWPASS[20] < LOWPASS[21] < LOWPASS[22] < LOWPASS[23] < LOWPASS[24]
  {
    Rows(TAPS_0, TAPS_1, TAPS_2, TAPS_3, TAPS_4, TAPS_5, TAPS_6);
    RowOf(0, TAPS_0);
    RowOf(7, TAPS_1);
    RowOf(14, TAPS_2);
    RowOf(21, TAPS_3);
  }

  lemma RowOf(j: nat, r: seq<real>)
    requires j + 7 <= NTAPS && LOWPASS[j..j + 7] == r
    ensures LOWPASS[j] == r[0] && LOWPASS[j + 1] == r[1] && LOWPASS[j + 2] == r[2] && LOWPASS[j + 3] == r[3]
    ensures LOWPASS[j + 4] == r[4] && LOWPASS[j + 5] == r[5] && LOWPASS[j + 6] == r[6]
  {
    var row := LOWPASS[j..j + 7];
    assert row[0] == LOWPASS[j] && row[1] == LOWPASS[j + 1] && row[2] == LOWPASS[j + 2] && row[3] == LOWPASS[j + 3];
    assert row[4] == LOWPASS[j + 4] && row[5] == LOWPASS[j + 5] && row[6] == LOWPASS[j + 6];
  }

  lemma NoSum(w: Taps)
    ensures Sum(w, 0) == 0.0 && Norm(w, 0) == 0.0
  {
  }

  /* What fits 16 bits */

  predicate Representable(n: int) {
    -0x8000 <= n < 0x8000
  }

  // No sample is louder than b.
  ghost predicate Within(x: seq<Sample>, b: int) {
    forall i | 0 <= i < |x| :: -b <= x[i] <= b
  }

  lemma RoundFits(a: real)
    ensures Representable(Round(a)) <==> -32768.5 < a < 32767.5
  {
  }

  // A product is the extreme one where the signs agree.
  lemma TermBound(w: real, a: real, b: real)
    requires -b <= a <= b
    ensures -Times(b, Magnitude(w)) <= Times(w, a) <= Times(b, Magnitude(w))
  {
    if w >= 0.0 {
      ProductAtLeastZero(w, b - a);
      ProductAtLeastZero(w, b + a);
      assert w * (b - a) == w * b - w * a && w * (b + a) == w * b + w * a;
    } else {
      ProductAtLeastZero(-w, b - a);
      ProductAtLeastZero(-w, b + a);
      assert -w * (b - a) == -w * b + w * a && -w * (b + a) == -w * b - w * a;
    }
  }

  lemma {:induction false} WeightedBound(w: Taps, x: seq<Sample>, end: int, b: int, j: nat)
    requires j <= NTAPS && 0 <= b && Within(x, b)
    ensures -Times(b as real, Norm(w, j)) <= Weighted(w, x, end, j) <= Times(b as real, Norm(w, j))
  {
    hide Magnitude, Times, At;
    if j == 0 {
      TimesZero(b as real);
    } else {
      WeightedBound(w, x, end, b, j - 1);
      var a := At(x, end - NTAPS + (j - 1));
      AtWithin(x, b, end - NTAPS + (j - 1));
      TermBound(w[j - 1], a, b as real);
      SumBound(Weighted(w, x, end, j - 1), Times(w[j - 1], a), b as real, Norm(w, j - 1), Magnitude(w[j - 1]));
    }
  }

  lemma AtWithin(x: seq<Sample>, b: int, i: int)
    requires 0 <= b && Within(x, b)
    ensures -b as real <= At(x, i) <= b as real
  {
  }

  lemma TimesZero(b: real)
    ensures Times(b, 0.0) == 0.0
  {
  }

  lemma SumBound(sum: real, term: real, b: real, m: real, n: real)
    requires -Times(b, m) <= sum <= Times(b, m) && -Times(b, n) <= term <= Times(b, n)
    ensures -Times(b, m + n) <= sum + term <= Times(b, m + n)
  {
    Distribute(b, m, n);
  }

  lemma Distribute(b: real, m: real, n: real)
    ensures Times(b, m + n) == Times(b, m) + Times(b, n)
  {
  }

  // The loudest input for a filter: the signs of its taps.
  function Loudest(w: Taps, b: int): (x: seq<Sample>)
    requires 0 <= b < 0x8000
    ensures |x| == NTAPS && Within(x, b)
  {
    seq(NTAPS, j requires 0 <= j < NTAPS => if w[j] >= 0.0 then b else -b)
  }

  lemma {:induction false} WeightedOfLoudest(w: Taps, b: int, j: nat)
    requires 0 <= b < 0x8000 && j <= NTAPS
    ensures Weighted(w, Loudest(w, b), NTAPS, j) == Times(b as real, Norm(w, j))
  {
    hide Times;
    if j == 0 {
      TimesZero(b as real);
    } else {
      WeightedOfLoudest(w, b, j - 1);
      LoudestTerm(w[j - 1], b);
      Distribute(b as real, Norm(w, j - 1), Magnitude(w[j - 1]));
    }
  }

  lemma LoudestTerm(w: real, b: int)
    ensures Times(w, if w >= 0.0 then b as real else (-b) as real) == Times(b as real, Magnitude(w))
  {
  }

  // The rounded convolution fits at an index.
  predicate FitsAt(w: Taps, x: seq<Sample>, end: int) {
    Representable(Round(Convolution(w, x, end)))
  }

  // Of all inputs up to a loudness the rounded convolution fits 16 bits if and only if it does in the worst case.
  lemma FitsExactly(w: Taps, b: int)
    requires 0 <= b < 0x8000
    ensures (forall x: seq<Sample>, end: int | Within(x, b) :: FitsAt(w, x, end))
            <==> Times(b as real, Norm(w, NTAPS)) < 32767.5
  {
    hide Round, Representable, Weighted, Norm, Loudest, Within, Times;
    if Times(b as real, Norm(w, NTAPS)) < 32767.5 {
      forall x: seq<Sample>, end: int | Within(x, b)
        ensures FitsAt(w, x, end)
      {
        WeightedBound(w, x, end, b, NTAPS);
        RoundFits(Convolution(w, x, end));
      }
    } else {
      WeightedOfLoudest(w, b, NTAPS);
      RoundFits(Convolution(w, Loudest(w, b), NTAPS));
      assert Within(Loudest(w, b), b) && !FitsAt(w, Loudest(w, b), NTAPS);
    }
  }

  // The loudest input that the receiver's buffer can be sure to hold.
  const QUIET := 18798

  lemma QuietExactly(b: int)
    requires 0 <= b < 0x8000
    ensures (forall x: seq<Sample>, end: int | Within(x, b) :: FitsAt(LOWPASS, x, end)) <==> b <= QUIET
  {
    hide FitsAt, Within, Norm;
    NormOfLowPass();
    FitsExactly(LOWPASS, b);
  }

  lemma {:induction false} WeightedOfConstant(w: Taps, x: seq<Sample>, c: Sample, end: nat, j: nat)
    requires j <= NTAPS <= end <= |x| && forall i | 0 <= i < |x| :: x[i] == c
    ensures Weighted(w, x, end, j) == Times(c as real, Sum(w, j))
  {
    if j == 0 {
      TimesZero(c as real);
    } else {
      WeightedOfConstant(w, x, c, end, j - 1);
      Distribute(c as real, Sum(w, j - 1), w[j - 1]);
    }
  }

  // An input that stays at the highest level does not fit.
  lemma ClippedDoesNotFit()
    ensures Round(Convolution(LOWPASS, seq(52, i => 0x7FFF), 52)) == 34608
    ensures !FitsAt(LOWPASS, seq(52, i => 0x7FFF), 52)
  {
    hide Sum, Weighted;
    var x: seq<Sample> := seq(52, i => 0x7FFF);
    NormOfLowPass();
    WeightedOfConstant(LOWPASS, x, 0x7FFF, 52, NTAPS);
  }

  /* What is stored */

  // The product as the platform computes it, in single precision, is within an error of the exact one.
  ghost predicate Accurate(fir: Fir, error: real) {
    forall x: seq<Sample>, end: int :: Magnitude(fir.Product(x, end) - Convolution(fir.w, x, end)) <= error
  }

  // Input that is quiet enough is stored as its rounded convolution, up to that error.
  lemma QuietIsConvolved(fir: Fir, error: real, x: seq<Sample>, b: int, end: int)
    requires fir.Valid() && Accurate(fir, error)
    requires 0 <= b && Within(x, b) && Times(b as real, Norm(fir.w, NTAPS)) + error < 32767.5
    ensures Magnitude(Output(fir, x, end) as real - Convolution(fir.w, x, end)) <= 0.5 + error
    ensures error == 0.0 ==> Output(fir, x, end) == Round(Convolution(fir.w, x, end))
  {
    hide Weighted, Norm, Window, Within, Times, Round;
    var a := fir.Product(x, end);
    assert Magnitude(a - Convolution(fir.w, x, end)) <= error;
    WeightedBound(fir.w, x, end, b, NTAPS);
    RoundFits(a);
    RoundIsNearest(a);
    assert fir.convert(Round(a)) == Round(a);
  }

  // With an exact product that is so for all input up to a loudness if and only if the worst case fits.
  lemma StoredExactly(fir: Fir, b: int)
    requires fir.Valid() && Accurate(fir, 0.0) && 0 <= b < 0x8000
    ensures (forall x: seq<Sample>, end: int | Within(x, b) :: Output(fir, x, end) == Round(Convolution(fir.w, x, end)))
            <==> Times(b as real, Norm(fir.w, NTAPS)) < 32767.5
  {
    hide Weighted, Norm, Window, Within, Times, Round;
    FitsExactly(fir.w, b);
    if Times(b as real, Norm(fir.w, NTAPS)) < 32767.5 {
      forall x: seq<Sample>, end: int | Within(x, b)
        ensures Output(fir, x, end) == Round(Convolution(fir.w, x, end))
      {
        QuietIsConvolved(fir, 0.0, x, b, end);
      }
    } else {
      var x: seq<Sample>, end: int :| Within(x, b) && !FitsAt(fir.w, x, end);
      assert Output(fir, x, end) != Round(Convolution(fir.w, x, end));
    }
  }

  // A whole period of quiet input, whatever the writes: the buffer holds the rounded convolution.
  lemma QuietPeriodIsConvolved(shape: Shape, error: real, b: int, f: seq<Sample>, k0: nat, before: seq<Sample>,
                               writes: seq<seq<Sample>>)
    requires shape.Valid() && shape.fir.Valid() && k0 <= shape.size == |before| && Accurate(shape.fir, error)
    requires 0 <= b && Within(f, b) && Within(Joined(writes), b)
    requires Times(b as real, Norm(shape.fir.w, NTAPS)) + error < 32767.5
    ensures var (s, x) := (WriteAll(shape, Sink(f, [], k0, before), writes), f + Joined(writes));
            forall k | k0 <= k < s.kin ::
              var c := Convolution(shape.fir.w, x, |f| + NDOWN * (k - k0 + 1));
              Magnitude(s.d2[k] as real - c) <= 0.5 + error && (error == 0.0 ==> s.d2[k] == Round(c))
  {
    hide Accurate, Times, Norm, Weighted, WriteAll, Joined, Output, Round, Magnitude;
    PeriodIsConvolved(shape, f, k0, before, writes);
    var s, x := WriteAll(shape, Sink(f, [], k0, before), writes), f + Joined(writes);
    forall k | k0 <= k < s.kin
      ensures var c := Convolution(shape.fir.w, x, |f| + NDOWN * (k - k0 + 1));
              Magnitude(s.d2[k] as real - c) <= 0.5 + error && (error == 0.0 ==> s.d2[k] == Round(c))
    {
      QuietIsConvolved(shape.fir, error, x, b, |f| + NDOWN * (k - k0 + 1));
    }
  }
}
