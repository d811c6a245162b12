/** Frames of 16-bit samples on one channel or two. */
module AudioDevice {

  type Sample = x: int | -0x8000 <= x < 0x8000

  datatype Channel = Mono | Left | Right | Both

  // Samples in a frame.
  function Width(channel: Channel): (n: nat)
    ensures n == 1 || n == 2
  {
    if channel.Mono? then 1 else 2
  }

  // The sample of a frame that is kept.
  function Kept(channel: Channel): (n: nat)
    ensures n < Width(channel)
  {
    if channel.Right? then 1 else 0
  }

  lemma FrameInside(channel: Channel, frames: nat, i: nat, size: nat)
    requires i < frames && frames * Width(channel) <= size
    ensures i * Width(channel) + Kept(channel) < size
  {
    if channel.Mono? {
      assert frames * Width(channel) == frames;
    } else {
      assert frames * Width(channel) == 2 * frames;
    }
  }

  // What is stored of a run of frames.
  function Selected(channel: Channel, data: seq<Sample>, frames: nat): (r: seq<Sample>)
    requires frames * Width(channel) <= |data|
    ensures |r| == frames
  {
    seq(frames, i requires 0 <= i < frames =>
      FrameInside(channel, frames, i, |data|); data[i * Width(channel) + Kept(channel)])
  }

  // Stores frames of a source from one on into a buffer.
  method Store(channel: Channel, source: seq<Sample>, from: nat, numFrames: nat, dest: array<Sample>, pos: nat)
    requires (from + numFrames) * Width(channel) <= |source| && pos + numFrames <= dest.Length
    modifies dest
    ensures dest[..pos] == old(dest[..pos]) && dest[pos + numFrames..] == old(dest[pos + numFrames..])
    ensures dest[pos..pos + numFrames] == Selected(channel, source, from + numFrames)[from..]
  {
    ghost var kept := Selected(channel, source, from + numFrames);
    for k := 0 to numFrames
      invariant forall j | 0 <= j < dest.Length && !(pos <= j < pos + k) :: dest[j] == old(dest[j])
      invariant forall j | pos <= j < pos + k :: dest[j] == kept[from + (j - pos)]
    {
      var i := (from + k) * Width(channel);
      FrameInside(channel, from + numFrames, from + k, |source|);
      match channel {
        case Mono => dest[pos + k] := source[i];
        case Right => dest[pos + k] := source[i + 1];
        case Both => dest[pos + k] := source[i];
        case Left => dest[pos + k] := source[i];
      }
    }
  }

  // The frame that carries a sample.
  function Frame(channel: Channel, sample: Sample): (r: seq<Sample>)
    ensures |r| == Width(channel)
  {
    match channel
    case Mono => [sample]
    case Left => [sample, 0]
    case Right => [0, sample]
    case Both => [sample, sample]
  }

  function Frames(channel: Channel, samples: seq<Sample>): (r: seq<Sample>)
    ensures |r| == |samples| * Width(channel)
  {
    if samples == [] then []
    else
      var n := |samples| - 1;
      assert |samples| * Width(channel) == n * Width(channel) + Width(channel);
      Frames(channel, samples[..n]) + Frame(channel, samples[n])
  }

  // The left channel is the first sample of a frame, the right one the second.
  lemma ChannelsAre(channel: Channel, data: seq<Sample>, frames: nat, i: nat, sample: Sample)
    requires frames * Width(channel) <= |data| && i < frames
    ensures match channel
            case Mono => Selected(channel, data, frames)[i] == data[i] && Frame(channel, sample) == [sample]
            case Left =>
              && 2 * i < |data| && Selected(channel, data, frames)[i] == data[2 * i]
              && Frame(channel, sample) == [sample, 0]
            case Right =>
              && 2 * i + 1 < |data| && Selected(channel, data, frames)[i] == data[2 * i + 1]
              && Frame(channel, sample) == [0, sample]
            case Both =>
              && 2 * i < |data| && Selected(channel, data, frames)[i] == data[2 * i]
              && Frame(channel, sample) == [sample, sample]
  {
    FrameInside(channel, frames, i, |data|);
  }

  // Storing undoes loading, on every channel.
  lemma {:induction false} StoreUndoesLoad(channel: Channel, samples: seq<Sample>)
    ensures Selected(channel, Frames(channel, samples), |samples|) == samples
  {
    if samples != [] {
      var n := |samples| - 1;
      StoreUndoesLoad(channel, samples[..n]);
      var data, before := Frames(channel, samples), Frames(channel, samples[..n]);
      forall i | 0 <= i <= n
        ensures Selected(channel, data, n + 1)[i] == samples[i]
      {
        FrameInside(channel, n + 1, i, |data|);
        if i < n {
          FrameInside(channel, n, i, |before|);
          assert Selected(channel, before, n)[i] == samples[i];
        }
      }
    }
  }
}
