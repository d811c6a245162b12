/** The audio sink: blocks of input are gathered, filtered to a quarter of their rate, and kept for
    the period. */
module Detector {
  import opened AudioDevice
  import opened Decimation
  import opened Division
  import opened LowPass
  import opened Rounding

  const MAX_BUFFER_SIZE := 7 * 512
  const SHIFT := NTAPS - NDOWN

  // A register holds the end of what was fed, behind silence at first.
  ghost predicate Holds(t: seq<real>, fed: seq<Sample>) {
    t == Window(fed, |fed|)
  }

  // One that moves up and takes in the next samples goes on holding the end.
  lemma RegisterShifts(fed: seq<Sample>, more: seq<Sample>, before: seq<real>, after: seq<real>)
    requires |before| == |after| == NTAPS && |more| == NDOWN && Holds(before, fed)
    requires forall k | 0 <= k < SHIFT :: after[k] == before[k + NDOWN]
    requires forall k | SHIFT <= k < NTAPS :: after[k] == more[k - SHIFT] as real
    ensures Holds(after, fed + more)
  {
    forall j | 0 <= j < NTAPS
      ensures after[j] == Window(fed + more, |fed + more|)[j]
    {
      WindowIs(fed + more, |fed + more|, j);
      if j < SHIFT {
        WindowIs(fed, |fed|, j + NDOWN);
      }
    }
  }

  lemma SilentAtFirst(t: seq<real>)
    requires |t| == NTAPS && forall j | 0 <= j < NTAPS :: t[j] == 0.0
    ensures Holds(t, [])
  {
    forall j | 0 <= j < NTAPS
      ensures t[j] == Window([], 0)[j]
    {
      WindowIs([], 0, j);
    }
  }

  class Filter {
    const fir: Fir
    const t: array<real>
    ghost var fed: seq<Sample>

    ghost predicate Valid()
      reads this, t
    {
      t.Length == NTAPS && Holds(t[..], fed)
    }

    constructor (fir: Fir)
      ensures Valid() && fresh(t) && fed == [] && this.fir == fir
    {
      this.fir := fir;
      t := new real[NTAPS](i => 0.0);
      fed := [];
      new;
      SilentAtFirst(t[..]);
    }

    method Shift(data: array<Sample>, from: nat)
      requires Valid() && from + NDOWN <= data.Length && (data as object) != (t as object)
      modifies t, `fed
      ensures Valid() && fed == old(fed) + data[from..from + NDOWN]
    {
      hide Holds;
      for j := 0 to SHIFT
        invariant fed == old(fed) && forall k | 0 <= k < j :: t[k] == old(t[k + NDOWN])
        invariant forall k | j <= k < NTAPS :: t[k] == old(t[k])
      {
        t[j] := t[j + NDOWN];
      }
      ghost var more, before := data[from..from + NDOWN], old(t[..]);
      for j := 0 to NDOWN
        invariant forall k | 0 <= k < SHIFT :: t[k] == before[k + NDOWN]
        invariant forall k | SHIFT <= k < SHIFT + j :: t[k] == more[k - SHIFT] as real
        invariant data[from..from + NDOWN] == more && fed == old(fed)
      {
        t[SHIFT + j] := data[from + j] as real;
      }
      RegisterShifts(fed, more, before, t[..]);
      fed := fed + more;
    }

    // Takes in four samples and gives out one.
    method DownSample(data: array<Sample>, from: nat) returns (r: Sample)
      requires Valid() && from + NDOWN <= data.Length && (data as object) != (t as object)
      modifies t, `fed
      ensures Valid() && fed == old(fed) + data[from..from + NDOWN]
      ensures r == Output(fir, fed, |fed|)
    {
      hide Round;
      Shift(data, from);
      r := fir.convert(Round(fir.dot(fir.w, t[..])));
    }
  }

  // The contents moved along by a distance, round the end.
  function Rotated(s: seq<Sample>, distance: int): (r: seq<Sample>)
    ensures |r| == |s|
  {
    seq(|s|, i requires 0 <= i < |s| => s[(i - distance) % |s|])
  }

  // The place of a time in the period.
  function PlaceAt(ms: nat, frameRate: nat): nat {
    ms * frameRate / 1000
  }

  // It is the last frame that begins by then.
  lemma PlaceIs(ms: nat, frameRate: nat)
    ensures 1000 * PlaceAt(ms, frameRate) <= ms * frameRate < 1000 * (PlaceAt(ms, frameRate) + 1)
  {
  }

  method Rotate(a: array<Sample>, distance: int)
    modifies a
    ensures a[..] == Rotated(old(a[..]), distance)
  {
    var was := a[..];
    for i := 0 to a.Length
      invariant forall k | 0 <= k < i :: a[k] == Rotated(was, distance)[k]
    {
      a[i] := was[(i - distance) % a.Length];
    }
  }

  // What was a way before one position is as far before another when moved by their difference.
  lemma RotatedKeepsDistance(s: seq<Sample>, from: nat, to: nat, back: nat)
    requires back < |s| && from <= |s| && to <= |s|
    ensures Rotated(s, to - from)[(to - 1 - back) % |s|] == s[(from - 1 - back) % |s|]
  {
    var n := |s|;
    var i := (to - 1 - back) % n;
    assert i == to - 1 - back || i == to - 1 - back + n;
    var j := i - (to - from);
    assert j == from - 1 - back || j == from - 1 - back + n;
    if j == from - 1 - back + n {
      WrapOnce(from - 1 - back, n);
    }
  }

  class Detector {
    const channel: Channel
    const frameRate: nat
    const filter: Filter
    const buffer: array<Sample>
    const d2: array<Sample>
    var samplesPerFFT: nat
    var bufferPos: nat
    var kin: nat
    var ns: int

    ghost predicate Valid()
      reads this, filter, filter.t, buffer, d2
    {
      && filter.Valid() && (d2 as object) != (buffer as object)
      && (filter.t as object) != (buffer as object) && (filter.t as object) != (d2 as object)
      && buffer.Length == MAX_BUFFER_SIZE * NDOWN && 0 < samplesPerFFT <= MAX_BUFFER_SIZE
      && bufferPos < samplesPerFFT * NDOWN && kin <= d2.Length
    }

    ghost function Form(): Shape
      reads this
    {
      Shape(filter.fir, samplesPerFFT, d2.Length)
    }

    ghost function State(): Sink
      reads this, filter, buffer, d2
      requires bufferPos <= buffer.Length
    {
      Sink(filter.fed, buffer[..bufferPos], kin, d2[..])
    }

    // The receiver's own taps, with the product and the conversion of the platform.
    constructor (channel: Channel, frameRate: nat, size: nat, dot: (Taps, seq<real>) -> real, convert: int -> Sample)
      ensures Valid() && fresh(filter) && fresh(filter.t) && fresh(buffer) && fresh(d2)
      ensures State() == Sink([], [], 0, d2[..]) && Form() == Shape(Fir(LOWPASS, dot, convert), MAX_BUFFER_SIZE, size)
      ensures this.channel == channel && this.frameRate == frameRate && ns == 999
    {
      this.channel, this.frameRate := channel, frameRate;
      filter := new Filter(Fir(LOWPASS, dot, convert));
      buffer := new Sample[MAX_BUFFER_SIZE * NDOWN](i => 0);
      d2 := new Sample[size](i => 0);
      samplesPerFFT, bufferPos, kin, ns := MAX_BUFFER_SIZE, 0, 0, 999;
    }

    // Any size is taken, but writes rely on a block that fits the buffer and is longer than what is waiting.
    method SetBlockSize(n: nat)
      requires Valid()
      modifies `samplesPerFFT
      ensures samplesPerFFT == n && (Valid() <==> n <= 3584 && bufferPos < n * 4)
    {
      samplesPerFFT := n;
    }

    // Puts the next output where the time in the period says, and moves the buffer along.
    method ResetBufferPosition(msInPeriod: nat, second: int)
      requires Valid()
      modifies this, d2
      ensures Valid() && bufferPos == 0 && ns == second && samplesPerFFT == old(samplesPerFFT)
      ensures var place := PlaceAt(msInPeriod, frameRate); kin == if place < d2.Length then place else d2.Length
      ensures d2[..] == Rotated(old(d2[..]), kin - old(kin))
    {
      hide Rotated, PlaceAt;
      var prevKin := kin;
      var place := PlaceAt(msInPeriod, frameRate);
      kin := if place < d2.Length then place else d2.Length;
      bufferPos := 0;
      ns := second;
      Rotate(d2, kin - prevKin);
    }

    // Filters the gathered block into the buffer, if there is room.
    method Decimate()
      requires filter.Valid() && (d2 as object) != (buffer as object)
      requires (filter.t as object) != (buffer as object) && (filter.t as object) != (d2 as object)
      requires buffer.Length == MAX_BUFFER_SIZE * NDOWN && 0 < samplesPerFFT <= MAX_BUFFER_SIZE
      requires bufferPos == samplesPerFFT * NDOWN && kin <= d2.Length
      modifies `kin, `bufferPos, filter, filter.t, d2
      ensures Valid() && bufferPos == 0 && State() == Flush(Form(), old(State()))
    {
      hide Output, Outputs;
      ghost var fed, k0, block := filter.fed, kin, buffer[..bufferPos];
      ghost var x := fed + block;
      if kin < d2.Length - samplesPerFFT {
        for i := 0 to samplesPerFFT
          invariant filter.Valid() && kin == k0 + i && filter.fed == fed + block[..NDOWN * i]
          invariant forall k | 0 <= k < d2.Length && !(k0 <= k < kin) :: d2[k] == old(d2[k])
          invariant forall k | k0 <= k < kin :: d2[k] == Output(filter.fir, x, |fed| + NDOWN * (k - k0 + 1))
          invariant bufferPos == old(bufferPos) && forall k | 0 <= k < bufferPos :: buffer[k] == block[k]
        {
          var r := filter.DownSample(buffer, i * NDOWN);
          assert buffer[i * NDOWN..i * NDOWN + NDOWN] == block[i * NDOWN..NDOWN * (i + 1)];
          assert block[..NDOWN * i] + block[i * NDOWN..NDOWN * (i + 1)] == block[..NDOWN * (i + 1)];
          OutputOfPrefix(filter.fir, filter.fed, x, block, fed, NDOWN * (i + 1));
          d2[kin] := r;
          kin := kin + 1;
        }
        OutputsWritten(Form(), x, |fed|, k0, old(d2[..]), d2[..]);
      }
      bufferPos := 0;
    }

    // Adds frames to the block that is being gathered, and filters it when it is full.
    method Gather(data: seq<Sample>, frames: nat, done: nat, n: nat, ghost start: Sink)
      requires Valid() && frames * Width(channel) <= |data| && 0 < n && done + n <= frames
      requires bufferPos + n <= samplesPerFFT * NDOWN
      requires Fits(Form(), start)
      requires State() == AbsorbAll(Form(), start, Selected(channel, data, frames)[..done])
      modifies `bufferPos, `kin, filter, filter.t, buffer, d2
      ensures Valid()
      ensures State() == AbsorbAll(Form(), start, Selected(channel, data, frames)[..done + n])
    {
      hide AbsorbAll, Flush, Selected;
      ghost var xs := Selected(channel, data, frames);
      ghost var part := xs[done..done + n];
      ghost var s := State();
      WidthFits(channel, done + n, frames, |data|);
      Store(channel, data, done, n, buffer, bufferPos);
      SelectedPart(channel, data, done, n, frames);
      bufferPos := bufferPos + n;
      assert State() == s.(pending := s.pending + part);
      AbsorbTwo(Form(), start, xs[..done], part);
      assert xs[..done] + part == xs[..done + n];
      AbsorbPart(Form(), s, part);
      if bufferPos == samplesPerFFT * NDOWN {
        Decimate();
      }
    }

    // Takes a write, at a second of the period. When the second has gone back, a period has begun.
    method WriteData(data: seq<Sample>, second: int) returns (maxSize: nat)
      requires Valid() && |data| % Width(channel) == 0
      modifies this, filter, filter.t, buffer, d2
      ensures Valid() && Form() == old(Form()) && ns == second && maxSize == 2 * |data|
      ensures var s := old(State());
              State() == Write(Form(), if second < old(ns) then s.(kin := 0, pending := []) else s,
                               Selected(channel, data, |data| / Width(channel)))
    {
      hide AbsorbAll, Selected, Chunk;
      maxSize := 2 * |data|;
      if second < ns {
        kin := 0;
        bufferPos := 0;
      }
      ns := second;
      ghost var start := State();
      var frames := |data| / Width(channel);
      ghost var xs := Selected(channel, data, frames);
      var framesAcceptable := (d2.Length - kin) * NDOWN;
      var framesAccepted := if frames < framesAcceptable then frames else framesAcceptable;
      AbsorbNothing(Form(), start);
      var done := 0;
      while done < framesAccepted
        invariant done <= framesAccepted && Valid() && Form() == old(Form()) && ns == second
        invariant State() == AbsorbAll(Form(), start, xs[..done])
      {
        var numFramesProcessed := Chunk(samplesPerFFT * NDOWN, bufferPos, framesAccepted - done);
        ChunkIsPart(samplesPerFFT * NDOWN, bufferPos, framesAccepted - done);
        Gather(data, frames, done, numFramesProcessed, start);
        done := done + numFramesProcessed;
      }
      assert xs[..frames] == xs;
    }
  }

  // The frames taken in one step of a write. The difference is of 64 bits and unsigned.
  function Chunk(block: nat, pos: nat, remaining: nat): nat {
    var room := (block - pos) % 0x1_0000_0000_0000_0000;
    if room < remaining then room else remaining
  }

  lemma ChunkIsPart(block: nat, pos: nat, remaining: nat)
    requires pos < block < 0x4_0000_0000 && 0 < remaining
    ensures 0 < Chunk(block, pos, remaining) <= remaining && pos + Chunk(block, pos, remaining) <= block
  {
  }

  // They stay in the buffer exactly if the block does and has not been overtaken, or all that remains fits. There
  // are none, and the write does not end, exactly if the block is full before; and once overtaken it is never
  // filled.
  lemma ChunkStaysInBuffer(block: nat, pos: nat, remaining: nat)
    requires block < 0x4_0000_0000 && pos <= MAX_BUFFER_SIZE * NDOWN && 0 < remaining < 0x8000_0000_0000_0000
    ensures var (size, next) := (MAX_BUFFER_SIZE * NDOWN, pos + Chunk(block, pos, remaining));
            && (next <= size <==> pos <= block <= size || pos + remaining <= size)
            && (next == pos <==> pos == block)
            && (pos > block ==> next > block)
  {
    assert pos > block ==> (block - pos) % 0x1_0000_0000_0000_0000 == block - pos + 0x1_0000_0000_0000_0000;
  }

  lemma WidthFits(channel: Channel, n: nat, frames: nat, size: nat)
    requires n <= frames && frames * Width(channel) <= size
    ensures n * Width(channel) <= size
  {
  }

  lemma SelectedPart(channel: Channel, data: seq<Sample>, done: nat, n: nat, frames: nat)
    requires done + n <= frames && frames * Width(channel) <= |data| && (done + n) * Width(channel) <= |data|
    ensures Selected(channel, data, done + n)[done..] == Selected(channel, data, frames)[done..done + n]
  {
  }

  lemma AbsorbNothing(shape: Shape, s: Sink)
    requires Fits(shape, s)
    ensures AbsorbAll(shape, s, []) == s
  {
  }

  lemma OutputsWritten(shape: Shape, x: seq<Sample>, fed: nat, k0: nat, before: seq<Sample>, after: seq<Sample>)
    requires k0 + shape.samplesPerFFT <= |before| == |after|
    requires var kin := k0 + shape.samplesPerFFT;
             && (forall k | 0 <= k < |after| && !(k0 <= k < kin) :: after[k] == before[k])
             && (forall k | k0 <= k < kin :: after[k] == Output(shape.fir, x, fed + NDOWN * (k - k0 + 1)))
    ensures after == before[..k0] + Outputs(shape, x, fed) + before[k0 + shape.samplesPerFFT..]
  {
    hide Output;
  }

  lemma OutputOfPrefix(fir: Fir, y: seq<Sample>, x: seq<Sample>, block: seq<Sample>, fed: seq<Sample>, n: nat)
    requires n <= |block| && y == fed + block[..n] && x == fed + block
    ensures Output(fir, y, |y|) == Output(fir, x, |fed| + n)
  {
    hide Round;
    assert x[..|y|] == y;
    WindowOfPrefix(y, x, |y|);
  }
}
