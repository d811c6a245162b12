/** What the receiver's buffer should hold: every fourth value of the input through the filter, rounded, in 16
    bits. The state of the sink is followed one input sample at a time, whatever the writes. */
module Decimation {
  import opened AudioDevice
  import opened Rounding

  const NDOWN := 4
  const NTAPS := 49

  type Taps = w: seq<real> | |w| == NTAPS witness seq(NTAPS, i => 0.0)

  // The input at an index, silence before and after.
  function At(x: seq<Sample>, i: int): real {
    if 0 <= i < |x| then x[i] as real else 0.0
  }

  // The samples that the filter sees at an index of the input: those before it.
  function Window(x: seq<Sample>, end: int): (r: seq<real>)
    ensures |r| == NTAPS
  {
    seq(NTAPS, j requires 0 <= j < NTAPS => At(x, end - NTAPS + j))
  }

  // The filter: its taps, and the product with a window and the conversion to 16 bits as the platform computes them.
  datatype Fir = Fir(w: Taps, dot: (Taps, seq<real>) -> real, convert: int -> Sample) {
    // The conversion keeps what fits. What it makes of the rest is not defined.
    ghost predicate Valid() {
      forall n: Sample :: convert(n) == n
    }

    function Product(x: seq<Sample>, end: int): real {
      dot(w, Window(x, end))
    }
  }

  function Output(fir: Fir, x: seq<Sample>, end: int): Sample {
    fir.convert(Round(fir.Product(x, end)))
  }

  lemma WindowIs(x: seq<Sample>, end: int, j: nat)
    requires j < NTAPS
    ensures Window(x, end)[j] == At(x, end - NTAPS + j)
  {
  }

  lemma WindowOfPrefix(x: seq<Sample>, y: seq<Sample>, end: int)
    requires end <= |x| <= |y| && y[..|x|] == x
    ensures Window(x, end) == Window(y, end)
  {
    forall j | 0 <= j < NTAPS
      ensures Window(x, end)[j] == Window(y, end)[j]
    {
      WindowIs(x, end, j);
      WindowIs(y, end, j);
      var i := end - NTAPS + j;
      assert 0 <= i ==> x[i] == y[..|x|][i];
    }
  }

  // A window that begins behind an earlier part of the input does not see it.
  lemma WindowOfRest(f: seq<Sample>, x: seq<Sample>, end: int)
    requires end >= NTAPS
    ensures Window(f + x, |f| + end) == Window(x, end)
  {
    forall j | 0 <= j < NTAPS
      ensures Window(f + x, |f| + end)[j] == Window(x, end)[j]
    {
      WindowIs(f + x, |f| + end, j);
      WindowIs(x, end, j);
      var i := end - NTAPS + j;
      assert i < |x| ==> (f + x)[|f| + i] == x[i];
    }
  }

  /* The sink */

  // What the sink is built for: the filter, the input frames of a block over four, and the size of
  // the buffer.
  datatype Shape = Shape(fir: Fir, samplesPerFFT: nat, size: nat) {
    predicate Valid() {
      0 < samplesPerFFT
    }

    function Block(): nat {
      samplesPerFFT * NDOWN
    }
  }

  // The samples the filter has been fed, those waiting for their block to fill, and the buffer with
  // the place where the next output goes.
  datatype Sink = Sink(fed: seq<Sample>, pending: seq<Sample>, kin: nat, d2: seq<Sample>)

  ghost predicate Fits(shape: Shape, s: Sink) {
    shape.Valid() && |s.pending| < shape.Block() && s.kin <= shape.size == |s.d2|
  }

  function Outputs(shape: Shape, x: seq<Sample>, from: nat): (r: seq<Sample>)
    ensures |r| == shape.samplesPerFFT
  {
    seq(shape.samplesPerFFT, i requires 0 <= i < shape.samplesPerFFT => Output(shape.fir, x, from + NDOWN * (i + 1)))
  }

  // There is no more room than for a block. None is filtered then, not even one that would just fit.
  predicate Full(shape: Shape, s: Sink) {
    s.kin >= shape.size - shape.samplesPerFFT
  }

  // A full block goes through the filter, if there is room for it and one more sample.
  function Flush(shape: Shape, s: Sink): (r: Sink)
    requires s.kin <= shape.size == |s.d2|
    ensures r.pending == [] && r.kin <= shape.size == |r.d2|
  {
    if !Full(shape, s) then
      var x := s.fed + s.pending;
      var n := shape.samplesPerFFT;
      Sink(x, [], s.kin + n, s.d2[..s.kin] + Outputs(shape, x, |s.fed|) + s.d2[s.kin + n..])
    else s.(pending := [])
  }

  // A full block gives an output for any four samples if there is more room than for these, and else none.
  lemma RoomIsUsed(shape: Shape, s: Sink)
    requires Fits(shape, s.(pending := [])) && |s.pending| == 4 * shape.samplesPerFFT
    ensures var (r, n) := (Flush(shape, s), shape.samplesPerFFT);
            && r.pending == []
            && if s.kin + n < shape.size
               then r.kin == s.kin + n && r.fed == s.fed + s.pending
               else r.kin == s.kin && r.d2 == s.d2 && r.fed == s.fed
  {
    hide Outputs;
  }

  // From 48000 samples a second to 12000.
  lemma RatesAre()
    ensures NDOWN * 12000 == 48000 && NTAPS == 49
  {
  }

  function Absorb(shape: Shape, s: Sink, x: Sample): (r: Sink)
    requires Fits(shape, s)
    ensures Fits(shape, r)
  {
    var t := s.(pending := s.pending + [x]);
    if |t.pending| == shape.Block() then Flush(shape, t) else t
  }

  function AbsorbAll(shape: Shape, s: Sink, xs: seq<Sample>): (r: Sink)
    requires Fits(shape, s)
    ensures Fits(shape, r)
  {
    if xs == [] then s else Absorb(shape, AbsorbAll(shape, s, xs[..|xs| - 1]), xs[|xs| - 1])
  }

  lemma {:induction false} AbsorbTwo(shape: Shape, s: Sink, xs: seq<Sample>, ys: seq<Sample>)
    requires Fits(shape, s)
    ensures AbsorbAll(shape, s, xs + ys) == AbsorbAll(shape, AbsorbAll(shape, s, xs), ys)
  {
    if ys == [] {
      assert xs + ys == xs;
    } else {
      var n := |ys| - 1;
      AbsorbTwo(shape, s, xs, ys[..n]);
      assert (xs + ys)[..|xs| + n] == xs + ys[..n];
    }
  }

  // Up to the end of a block, samples are only gathered.
  lemma {:induction false} AbsorbPart(shape: Shape, s: Sink, xs: seq<Sample>)
    requires Fits(shape, s) && |s.pending| + |xs| <= shape.Block()
    ensures AbsorbAll(shape, s, xs)
            == var t := s.(pending := s.pending + xs);
               if xs != [] && |t.pending| == shape.Block() then Flush(shape, t) else t
  {
    hide Flush;
    if xs == [] {
      assert s.pending + xs == s.pending;
    } else {
      var n := |xs| - 1;
      AbsorbPart(shape, s, xs[..n]);
      assert s.pending + xs[..n] + [xs[n]] == s.pending + xs;
    }
  }

  /* The closed form */

  // From output k0 on, the buffer holds the filtered input, which follows what the filter was fed before; all else
  // is untouched.
  ghost predicate Filtered(shape: Shape, f: seq<Sample>, x: seq<Sample>, k0: nat, before: seq<Sample>, kin: nat,
                           d2: seq<Sample>)
  {
    && k0 <= kin <= shape.size == |d2| == |before|
    && (forall k | k0 <= k < kin :: d2[k] == Output(shape.fir, f + x, |f| + 4 * (k - k0 + 1)))
    && (forall k | 0 <= k < shape.size && !(k0 <= k < kin) :: d2[k] == before[k])
  }

  // So far the filter has been fed as much of the input as these outputs take.
  ghost predicate Convolved(shape: Shape, f: seq<Sample>, x: seq<Sample>, k0: nat, before: seq<Sample>, s: Sink) {
    && Filtered(shape, f, x, k0, before, s.kin, s.d2)
    && |f| + NDOWN * (s.kin - k0) == |s.fed| <= |f + x| && s.fed == (f + x)[..|s.fed|]
  }

  lemma ConvolvedLonger(shape: Shape, f: seq<Sample>, x: seq<Sample>, y: seq<Sample>, k0: nat, before: seq<Sample>,
                        s: Sink)
    requires Convolved(shape, f, x, k0, before, s)
    ensures Convolved(shape, f, x + y, k0, before, s)
  {
    hide Window, Round;
    assert f + (x + y) == f + x + y && (f + x + y)[..|f + x|] == f + x;
    forall k | k0 <= k < s.kin
      ensures s.d2[k] == Output(shape.fir, f + (x + y), |f| + NDOWN * (k - k0 + 1))
    {
      WindowOfPrefix(f + x, f + x + y, |f| + NDOWN * (k - k0 + 1));
    }
    assert (f + x + y)[..|s.fed|] == (f + x)[..|s.fed|];
  }

  // Flushing a block whose samples follow those fed.
  lemma ConvolvedFlush(shape: Shape, f: seq<Sample>, x: seq<Sample>, k0: nat, before: seq<Sample>, s: Sink)
    requires shape.Valid() && Convolved(shape, f, x, k0, before, s) && |s.pending| == shape.Block()
    requires !Full(shape, s) ==> s.fed + s.pending == f + x
    ensures Convolved(shape, f, x, k0, before, Flush(shape, s))
  {
    hide Output;
    var r := Flush(shape, s);
    if !Full(shape, s) {
      forall k | k0 <= k < r.kin
        ensures r.d2[k] == Output(shape.fir, f + x, |f| + NDOWN * (k - k0 + 1))
      {
        if k >= s.kin {
          assert r.d2[k] == Outputs(shape, f + x, |s.fed|)[k - s.kin];
          assert |s.fed| + NDOWN * (k - s.kin + 1) == |f| + NDOWN * (k - k0 + 1);
        }
      }
    }
  }

  // After any input, whatever the filter was fed before: the outputs so far, and the rest of it waiting, unless
  // there is no more room than for a block.
  lemma {:induction false} AbsorbConvolves(shape: Shape, f: seq<Sample>, x: seq<Sample>, k0: nat, before: seq<Sample>)
    requires shape.Valid() && k0 <= shape.size == |before|
    ensures var s := AbsorbAll(shape, Sink(f, [], k0, before), x);
            && Convolved(shape, f, x, k0, before, s)
            && (s.fed + s.pending == f + x || Full(shape, s))
  {
    hide Convolved, Flush, Output;
    if x == [] {
      EmptyConvolved(shape, f, k0, before);
    } else {
      var n := |x| - 1;
      AbsorbConvolves(shape, f, x[..n], k0, before);
      var s := AbsorbAll(shape, Sink(f, [], k0, before), x[..n]);
      ConvolvedLonger(shape, f, x[..n], [x[n]], k0, before, s);
      assert x[..n] + [x[n]] == x;
      var t := s.(pending := s.pending + [x[n]]);
      SamePending(shape, f, x, k0, before, s, t);
      if s.fed + s.pending == f + x[..n] {
        assert t.fed + t.pending == s.fed + s.pending + [x[n]] == f + x;
      }
      if |t.pending| == shape.Block() {
        ConvolvedFlush(shape, f, x, k0, before, t);
        FlushFeeds(shape, t);
      }
    }
  }

  lemma EmptyConvolved(shape: Shape, f: seq<Sample>, k0: nat, before: seq<Sample>)
    requires k0 <= shape.size == |before|
    ensures Convolved(shape, f, [], k0, before, Sink(f, [], k0, before))
  {
    assert f + [] == f;
  }

  lemma SamePending(shape: Shape, f: seq<Sample>, x: seq<Sample>, k0: nat, before: seq<Sample>, s: Sink, t: Sink)
    requires Convolved(shape, f, x, k0, before, s) && t == s.(pending := t.pending)
    ensures Convolved(shape, f, x, k0, before, t)
  {
  }

  lemma FlushFeeds(shape: Shape, t: Sink)
    requires t.kin <= shape.size == |t.d2|
    ensures var r := Flush(shape, t);
            if !Full(shape, t) then r.fed + r.pending == t.fed + t.pending
            else r.kin == t.kin
  {
  }

  /* Writes */

  // The frames of a write there is room for; the others are dropped.
  function Acceptable(shape: Shape, s: Sink): nat
    requires Fits(shape, s)
  {
    (shape.size - s.kin) * NDOWN
  }

  function Write(shape: Shape, s: Sink, xs: seq<Sample>): (r: Sink)
    requires Fits(shape, s)
    ensures Fits(shape, r)
  {
    AbsorbAll(shape, s, if |xs| <= Acceptable(shape, s) then xs else xs[..Acceptable(shape, s)])
  }

  function WriteAll(shape: Shape, s: Sink, writes: seq<seq<Sample>>): (r: Sink)
    requires Fits(shape, s)
    ensures Fits(shape, r)
  {
    if writes == [] then s
    else Write(shape, WriteAll(shape, s, writes[..|writes| - 1]), writes[|writes| - 1])
  }

  function Joined(writes: seq<seq<Sample>>): seq<Sample> {
    if writes == [] then [] else Joined(writes[..|writes| - 1]) + writes[|writes| - 1]
  }

  /* A full sink */

  lemma {:induction false} FullStays(shape: Shape, s: Sink, xs: seq<Sample>)
    requires Fits(shape, s) && Full(shape, s)
    ensures var r := AbsorbAll(shape, s, xs); r.kin == s.kin && r.d2 == s.d2
  {
    if xs != [] {
      FullStays(shape, s, xs[..|xs| - 1]);
    }
  }

  // Until then each output takes four frames, and none is lost.
  lemma {:induction false} NotFullTakesAll(shape: Shape, s: Sink, xs: seq<Sample>)
    requires Fits(shape, s) && !Full(shape, AbsorbAll(shape, s, xs))
    ensures var r := AbsorbAll(shape, s, xs); NDOWN * r.kin + |r.pending| == NDOWN * s.kin + |s.pending| + |xs|
  {
    if xs != [] {
      hide Outputs;
      NotFullTakesAll(shape, s, xs[..|xs| - 1]);
    }
  }

  // The last place of the buffer is never reached, though blocks may add up to its size.
  lemma {:induction false} LastStaysEmpty(shape: Shape, s: Sink, xs: seq<Sample>)
    requires Fits(shape, s) && s.kin < shape.size
    ensures var r := AbsorbAll(shape, s, xs); r.kin < shape.size && r.d2[shape.size - 1] == s.d2[shape.size - 1]
  {
    if xs != [] {
      hide Outputs;
      LastStaysEmpty(shape, s, xs[..|xs| - 1]);
    }
  }

  // Sinks of which the outputs agree, and the rest as long as it can make a difference.
  ghost predicate Agree(shape: Shape, a: Sink, b: Sink) {
    a.kin == b.kin && a.d2 == b.d2 && (!Full(shape, a) ==> a == b)
  }

  lemma AbsorbAgrees(shape: Shape, a: Sink, b: Sink, xs: seq<Sample>)
    requires Fits(shape, a) && Fits(shape, b) && Agree(shape, a, b)
    ensures Agree(shape, AbsorbAll(shape, a, xs), AbsorbAll(shape, b, xs))
  {
    if Full(shape, a) {
      FullStays(shape, a, xs);
      FullStays(shape, b, xs);
    }
  }

  // What a write drops would not have been heard.
  lemma WriteAgrees(shape: Shape, s: Sink, xs: seq<Sample>)
    requires Fits(shape, s)
    ensures Agree(shape, Write(shape, s, xs), AbsorbAll(shape, s, xs))
  {
    hide AbsorbAll;
    var n := Acceptable(shape, s);
    if |xs| > n {
      var r := AbsorbAll(shape, s, xs[..n]);
      if !Full(shape, r) {
        NotFullTakesAll(shape, s, xs[..n]);
      }
      FullStays(shape, r, xs[n..]);
      AbsorbTwo(shape, s, xs[..n], xs[n..]);
      assert xs == xs[..n] + xs[n..];
    }
  }

  // However input of any length is split into writes, the outputs are those of a single write, and of the
  // whole input.
  lemma {:induction false} SplitDoesNotMatter(shape: Shape, s: Sink, writes: seq<seq<Sample>>)
    requires Fits(shape, s)
    ensures Agree(shape, WriteAll(shape, s, writes), AbsorbAll(shape, s, Joined(writes)))
    ensures Agree(shape, WriteAll(shape, s, writes), Write(shape, s, Joined(writes)))
  {
    hide Absorb;
    WriteAgrees(shape, s, Joined(writes));
    if writes != [] {
      hide AbsorbAll, Write;
      var n := |writes| - 1;
      var a, b := WriteAll(shape, s, writes[..n]), AbsorbAll(shape, s, Joined(writes[..n]));
      SplitDoesNotMatter(shape, s, writes[..n]);
      AbsorbAgrees(shape, a, b, writes[n]);
      WriteAgrees(shape, a, writes[n]);
      AbsorbTwo(shape, s, Joined(writes[..n]), writes[n]);
    }
  }

  // The whole period, whatever the writes and whatever the filter was fed before: output k is the filtered input,
  // and whatever has not come out waits, unless there is no more room than for a block.
  lemma PeriodIsConvolved(shape: Shape, f: seq<Sample>, k0: nat, before: seq<Sample>, writes: seq<seq<Sample>>)
    requires shape.Valid() && k0 <= shape.size == |before|
    ensures var s := WriteAll(shape, Sink(f, [], k0, before), writes);
            && Filtered(shape, f, Joined(writes), k0, before, s.kin, s.d2)
            && (s.fed + s.pending == f + Joined(writes) || Full(shape, s))
  {
    hide Filtered, AbsorbAll, WriteAll, Joined;
    SplitDoesNotMatter(shape, Sink(f, [], k0, before), writes);
    AbsorbConvolves(shape, f, Joined(writes), k0, before);
  }

  // The first outputs of a period that still see the end of the one before.
  const MIXED := 12

  // From the thirteenth output on the period's own input alone decides.
  lemma OwnInputDecides(fir: Fir, f: seq<Sample>, x: seq<Sample>, i: nat)
    requires i > MIXED
    ensures Output(fir, f + x, |f| + NDOWN * i) == Output(fir, x, NDOWN * i)
  {
    WindowOfRest(f, x, NDOWN * i);
  }

  // What the filter sees is the same whatever it was fed before if and only if it is not one of the first twelve.
  lemma MixedExactly(x: seq<Sample>, i: nat)
    ensures (forall f: seq<Sample> :: Window(f + x, |f| + NDOWN * i) == Window(x, NDOWN * i)) <==> i > MIXED
  {
    if i > MIXED {
      forall f: seq<Sample>
        ensures Window(f + x, |f| + NDOWN * i) == Window(x, NDOWN * i)
      {
        WindowOfRest(f, x, NDOWN * i);
      }
    } else {
      var f: seq<Sample> := [1];
      var j := NTAPS - 1 - NDOWN * i;
      WindowIs(f + x, |f| + NDOWN * i, j);
      WindowIs(x, NDOWN * i, j);
      assert At(f + x, 0) == 1.0 && At(x, -1) == 0.0;
    }
  }
}
