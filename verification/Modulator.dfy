/** The transmitter's sample source: started some time into a period, then pulled for samples in
    reads of any size. */
module Modulator {
  import opened AudioDevice
  import opened Rounding
  import opened ToneGenerator

  const MS_PER_SEC := 1000
  const WORD := 0x1_0000_0000

  datatype Submode = Normal | Fast | Turbo | Slow | Ultra {
    function SamplesForOneSymbol(): (n: nat)
      ensures n > 0
    {
      match this
      case Normal => 1920
      case Fast => 1200
      case Turbo => 600
      case Slow => 3840
      case Ultra => 384
    }

    function StartDelayMS(): nat {
      match this
      case Normal => 500
      case Fast => 200
      case Turbo => 100
      case Slow => 500
      case Ultra => 100
    }

    // In seconds.
    function Period(): nat {
      match this
      case Normal => 15
      case Fast => 10
      case Turbo => 6
      case Slow => 30
      case Ultra => 4
    }

    function ToneSpacing(): real {
      12000.0 / SamplesForOneSymbol() as real
    }
  }

  // Tones are as far apart as symbols are short, and a whole transmission fits a period.
  lemma SubmodesAre(s: Submode)
    ensures s.ToneSpacing() * s.SamplesForOneSymbol() as real == 12000.0
    ensures s.ToneSpacing() == match s case Normal => 6.25 case Fast => 10.0 case Turbo => 20.0 case Slow => 3.125
                                       case Ultra => 31.25
    ensures s.StartDelayMS() == match s case Normal => 500 case Fast => 200 case Turbo => 100 case Slow => 500
                                        case Ultra => 100
    ensures s.Period() == match s case Normal => 15 case Fast => 10 case Turbo => 6 case Slow => 30 case Ultra => 4
    ensures 48 * s.StartDelayMS() + 79 * (4 * s.SamplesForOneSymbol()) <= 48000 * s.Period()
  {
  }

  datatype Stage = Synchronizing | Active | Idle

  // Frames in a number of milliseconds, in 32-bit arithmetic without sign.
  function FramesIn(ms: nat): nat {
    ms * FRAME_RATE % WORD / MS_PER_SEC
  }

  // Within 30 seconds and a start delay nothing overflows.
  lemma FramesInIsExact(ms: nat)
    requires ms <= 30500
    ensures FramesIn(ms) == 48 * ms
  {
  }

  // When a frame of the tones is played, in 48ths of a millisecond from the start of the period
  // in which the transmitter was started, if silence and skipped frames are as given.
  function PlayedAt(offsetMS: nat, silent: nat, skipped: nat, i: nat): int {
    48 * offsetMS + silent + (i - skipped)
  }

  // The submode, how far into its period the clock is, and the lead time before the next.
  function StartsEarly(submode: Submode, offsetMS: nat, txDelay: real): bool {
    (submode.Period() * MS_PER_SEC) as real <= offsetMS as real + txDelay * MS_PER_SEC as real
  }

  // The silence to play first, and the frames of the tones to skip, for the tones to fall in place.
  method Timing(submode: Submode, periodOffsetMS: nat, txDelay: real) returns (silentFrames: nat, skipped: nat)
    requires periodOffsetMS < submode.Period() * MS_PER_SEC
    ensures InPlace(submode, periodOffsetMS, txDelay, silentFrames, skipped)
    ensures silentFrames == 0 || skipped == 0
    ensures var next := (submode.Period() * 1000) as real <= periodOffsetMS as real + txDelay * 1000.0;
            silentFrames - skipped
            == 48 * ((if next then submode.Period() * 1000 else 0) + submode.StartDelayMS() - periodOffsetMS)
  {
    silentFrames, skipped := 0, 0;
    var periodMS := submode.Period() * MS_PER_SEC;
    var startDelayMS := submode.StartDelayMS();
    if StartsEarly(submode, periodOffsetMS, txDelay) {
      var additionalMS := periodMS - periodOffsetMS;
      FramesInIsExact(startDelayMS + additionalMS);
      silentFrames := FramesIn(startDelayMS + additionalMS);
    } else if startDelayMS > periodOffsetMS {
      FramesInIsExact(startDelayMS - periodOffsetMS);
      silentFrames := FramesIn(startDelayMS - periodOffsetMS);
    } else {
      FramesInIsExact(periodOffsetMS - startDelayMS);
      skipped := FramesIn(periodOffsetMS - startDelayMS);
    }
  }

  // Every frame of the tones is played in its place after the start delay of this period, or of
  // the next.
  ghost predicate InPlace(submode: Submode, offsetMS: nat, txDelay: real, silent: nat, skipped: nat) {
    var start := if StartsEarly(submode, offsetMS, txDelay) then submode.Period() * MS_PER_SEC else 0;
    forall i: nat :: PlayedAt(offsetMS, silent, skipped, i) == 48 * (start + submode.StartDelayMS()) + i
  }

  function PeriodOffset(submode: Submode, nowMS: nat): (r: nat)
    ensures r < submode.Period() * MS_PER_SEC
  {
    nowMS % (submode.Period() * MS_PER_SEC)
  }

  // n frames have been played since a generator was in its first state, and h is its state now.
  ghost predicate Plays(form: Form, frequency: real, channel: Channel, g: Generator, n: nat, out: seq<Sample>,
                        h: Generator)
    requires Sounds(form, g)
  {
    out == Frames(channel, Output(form, frequency, g, n)) && h == After(form, frequency, g, n)
  }

  lemma PlaysNothing(form: Form, frequency: real, channel: Channel, g: Generator)
    requires Sounds(form, g)
    ensures Plays(form, frequency, channel, g, 0, [], g)
  {
  }

  lemma PlaysSound(form: Form, frequency: real, channel: Channel, g: Generator, n: nat, out: seq<Sample>, h: Generator)
    requires Sounds(form, g) && Plays(form, frequency, channel, g, n, out, h)
    ensures Sounds(form, h)
  {
  }

  lemma PlaysOneMore(form: Form, frequency: real, channel: Channel, g: Generator, n: nat, out: seq<Sample>,
                     h: Generator)
    requires Sounds(form, g) && Plays(form, frequency, channel, g, n, out, h) && Sounds(form, h)
    ensures var (sample, next) := Step(form, frequency, h);
            Plays(form, frequency, channel, g, n + 1, out + Frame(channel, sample), next)
  {
    hide Step;
    var more := Output(form, frequency, g, n + 1);
    assert more[..n] == Output(form, frequency, g, n);
  }

  lemma PlaysWhole(form: Form, frequency: real, channel: Channel, g: Generator, n: nat, out: seq<Sample>, h: Generator)
    requires Sounds(form, g) && Plays(form, frequency, channel, g, n, out, h)
    ensures |out| == n * Width(channel)
  {
  }

  class Modulator {
    const sin: real -> Unit
    const tau: real
    // The tones to send, one for each symbol.
    var tones: seq<int>
    var channel: Channel
    var state: Stage
    var tuning: bool
    var audioFrequency: real
    var audioFrequency0: real
    var toneSpacing: real
    var phi: real
    var dphi: real
    var amp: real
    var nsps: nat
    var silentFrames: nat
    var ic: nat
    var isym0: nat

    function Form(): Form
      reads this
    {
      ToneGenerator.Form(sin, tau, tones, nsps, toneSpacing, tuning)
    }

    ghost function State(): Generator
      reads this
    {
      Generator(silentFrames, ic, phi, amp)
    }

    // The advance kept from the last frame is that of its symbol and frequency, wherever it may
    // still be used. Tuning, which plays the first symbol alone, may begin at any time.
    ghost predicate Cached()
      reads this
    {
      && Form().Valid()
      && (isym0 == WORD - 1 || ic >= Form().End() || (tuning && isym0 != 0)
          || (isym0 < SYMBOLS && dphi == Form().Advance(audioFrequency0, isym0)))
      && (isym0 == 0 && !tuning ==> ic <= 4 * nsps)
    }

    ghost predicate Valid()
      reads this
    {
      && |tones| == SYMBOLS
      && (state != Idle ==>
            Sounds(Form(), State()) && Cached() && (silentFrames > 0 ==> isym0 == WORD - 1))
      && (state == Synchronizing ==> silentFrames > 0)
      && (state == Active ==> silentFrames == 0)
    }

    constructor (sin: real -> Unit, tau: real, tones: seq<int>)
      requires |tones| == SYMBOLS
      ensures Valid() && state == Idle && !tuning
      ensures this.sin == sin && this.tau == tau && this.tones == tones
    {
      this.sin, this.tau, this.tones := sin, tau, tones;
      channel, state, tuning := Mono, Idle, false;
      audioFrequency, audioFrequency0, toneSpacing, phi, dphi, amp := 0.0, 0.0, 0.0, 0.0, 0.0, 0.0;
      nsps, silentFrames, ic, isym0 := 0, 0, 0, 0;
    }

    // Starts a transmission at a time of the day.
    method Start(frequency: real, submode: Submode, txDelay: real, channel: Channel, nowMS: nat)
      requires Valid()
      modifies this
      ensures Valid() && state == (if silentFrames > 0 then Synchronizing else Active)
      ensures tuning == old(tuning) && tones == old(tones) && this.channel == channel
      ensures audioFrequency == frequency
      ensures nsps == submode.SamplesForOneSymbol() && toneSpacing == submode.ToneSpacing()
      ensures State() == Generator(silentFrames, ic, 0.0, 32767.0)
      ensures tuning ==> silentFrames == 0 && ic == 0
      ensures silentFrames == 0 || ic == 0
      ensures !tuning ==> InPlace(submode, nowMS % (1000 * submode.Period()), txDelay, silentFrames, ic)
      ensures !tuning ==>
                var (period, offset) := (1000 * submode.Period(), nowMS % (1000 * submode.Period()));
                var next := period as real <= offset as real + txDelay * 1000.0;
                silentFrames - ic == 48 * ((if next then period else 0) + submode.StartDelayMS() - offset)
    {
      hide InPlace, submode.ToneSpacing, submode.SamplesForOneSymbol, Form().End, Form().LastFull;
      if state != Idle {
        Stop();
      }
      Clear(frequency, submode, channel);
      if !tuning {
        silentFrames, ic := Timing(submode, PeriodOffset(submode, nowMS), txDelay);
      }
      state := if silentFrames > 0 then Synchronizing else Active;
    }

    // Forgets the last transmission.
    method Clear(frequency: real, submode: Submode, channel: Channel)
      modifies this
      ensures tuning == old(tuning) && tones == old(tones) && state == old(state) && this.channel == channel
      ensures audioFrequency == frequency
      ensures nsps == submode.SamplesForOneSymbol() && toneSpacing == submode.ToneSpacing()
      ensures isym0 == WORD - 1 && State() == Generator(0, 0, 0.0, FULL as real)
    {
      this.channel := channel;
      audioFrequency := frequency;
      nsps := submode.SamplesForOneSymbol();
      toneSpacing := submode.ToneSpacing();
      isym0 := WORD - 1;
      amp := FULL as real;
      audioFrequency0 := 0.0;
      phi := 0.0;
      silentFrames := 0;
      ic := 0;
    }

    // Takes effect with the next frame.
    method SetAudioFrequency(frequency: real)
      requires Valid()
      modifies `audioFrequency
      ensures Valid() && audioFrequency == frequency && State() == old(State())
    {
      audioFrequency := frequency;
    }

    method Stop()
      requires |tones| == SYMBOLS
      modifies `state
      ensures Valid() && state == Idle
    {
      state := Idle;
    }

    method Tune(tuning: bool)
      requires Valid()
      modifies `tuning, `state
      ensures Valid() && this.tuning == tuning && state == if tuning then old(state) else Idle
    {
      if state != Idle && !this.tuning {
        EndIsLate(Form());
      }
      this.tuning := tuning;
      if !tuning {
        Stop();
      }
    }

    // The advance in phase of the present symbol, computed again if symbol or frequency have changed.
    method TakeAdvance()
      requires Cached() && ic < Form().End() && Form().Symbol(ic) < SYMBOLS
      modifies `dphi, `isym0, `audioFrequency0
      ensures isym0 == Form().Symbol(ic) && audioFrequency0 == audioFrequency
      ensures dphi == Form().Advance(audioFrequency, isym0)
    {
      hide Form().LastFull, Form().Advance, Form().End;
      var isym := Form().Symbol(ic);
      if isym != isym0 || audioFrequency != audioFrequency0 {
        dphi := Form().Advance(audioFrequency, isym);
        isym0 := isym;
        audioFrequency0 := audioFrequency;
      }
    }

    // One frame of the tones.
    method Sound() returns (sample: Sample)
      requires Sounds(Form(), State()) && Cached() && silentFrames == 0 && ic < Form().End()
      modifies `dphi, `isym0, `audioFrequency0, `phi, `amp, `ic
      ensures (sample, State()) == Step(Form(), audioFrequency, old(State()))
      ensures Cached() && audioFrequency0 == audioFrequency && isym0 < SYMBOLS
    {
      hide Round, Form().LastFull, Form().Symbol, Form().Advance, Form().End, Level;
      SymbolInRange(Form(), ic);
      FirstSymbol(Form(), ic);
      TakeAdvance();
      phi := phi + dphi;
      if phi > tau {
        phi := phi - tau;
      }
      if ic > Form().LastFull() {
        amp := 0.98 * amp;
      }
      if ic > Form().End() {
        assert false; // the tones are never muted
      }
      sample := Level(Form(), phi, amp);
      ic := ic + 1;
    }

    // What has been played of a read.
    ghost predicate Played(out: seq<Sample>, g: Generator, n: nat)
      requires Sounds(Form(), g)
      reads this
    {
      Plays(Form(), audioFrequency, channel, g, n, out, State())
    }

    // The silence at the start, or the part of it that fits.
    method ReadSilence(maxFrames: nat) returns (out: seq<Sample>, count: nat)
      requires Valid() && state == Synchronizing && maxFrames > 0
      modifies `silentFrames, `state
      ensures Played(out, old(State()), count) && Sounds(Form(), State()) && 0 < count <= maxFrames
      ensures silentFrames > 0 ==> count == maxFrames
      ensures state == if silentFrames > 0 then Synchronizing else Active
    {
      hide Plays, Sounds;
      ghost var g := State();
      out, count := [], 0;
      PlaysNothing(Form(), audioFrequency, channel, g);
      while silentFrames > 0 && count < maxFrames
        invariant count <= maxFrames && state == Synchronizing
        invariant Sounds(Form(), State()) && Played(out, g, count)
        invariant count == 0 ==> silentFrames > 0
      {
        PlaysOneMore(Form(), audioFrequency, channel, g, count, out, State());
        out := out + Frame(channel, 0);
        silentFrames := silentFrames - 1;
        count := count + 1;
        PlaysSound(Form(), audioFrequency, channel, g, count, out, State());
      }
      if silentFrames == 0 {
        state := Active;
      }
    }

    // Fills a buffer of frames, unless there is no transmission.
    method ReadData(maxFrames: nat) returns (out: seq<Sample>)
      requires Valid()
      modifies this
      ensures Valid() && Form() == old(Form()) && audioFrequency == old(audioFrequency) && channel == old(channel)
      ensures old(state) == Idle || maxFrames == 0 ==> out == [] && State() == old(State()) && state == old(state)
      ensures old(state) != Idle && maxFrames > 0 ==>
                Sounds(Form(), old(State())) && Played(out, old(State()), maxFrames)
                && |out| == maxFrames * Width(channel) && state != Idle
    {
      out := [];
      if maxFrames == 0 || state == Idle {
        return;
      }
      out := Play(maxFrames);
      PlaysWhole(Form(), audioFrequency, channel, old(State()), maxFrames, out, State());
    }

    method Play(maxFrames: nat) returns (out: seq<Sample>)
      requires Valid() && state != Idle && maxFrames > 0
      modifies `silentFrames, `state, `dphi, `isym0, `audioFrequency0, `phi, `amp, `ic
      ensures Valid() && state != Idle
      ensures Sounds(Form(), old(State())) && Played(out, old(State()), maxFrames)
    {
      hide Plays, Form().Advance, Form().End, Form().LastFull;
      ghost var g := State();
      var count := 0;
      out := [];
      PlaysNothing(Form(), audioFrequency, channel, g);
      if state == Synchronizing {
        out, count := ReadSilence(maxFrames);
      }
      while count < maxFrames && ic < Form().End()
        invariant count <= maxFrames && Sounds(Form(), State()) && Cached() && Played(out, g, count)
        invariant count < maxFrames ==> silentFrames == 0
        invariant silentFrames > 0 ==> isym0 == WORD - 1
        invariant count == 0 || isym0 == WORD - 1 || audioFrequency0 == audioFrequency
        invariant state == if silentFrames > 0 then Synchronizing else Active
      {
        PlaysOneMore(Form(), audioFrequency, channel, g, count, out, State());
        var sample := Sound();
        out := out + Frame(channel, sample);
        count := count + 1;
      }
      if amp == 0.0 {
        assert false; // so a transmission never ends by itself
      }
      audioFrequency0 := audioFrequency;
      while count < maxFrames
        invariant count <= maxFrames && Played(out, g, count)
        invariant count < maxFrames ==> silentFrames == 0 && ic >= Form().End()
        modifies {}
      {
        PlaysOneMore(Form(), audioFrequency, channel, g, count, out, State());
        out := out + Frame(channel, 0);
        count := count + 1;
      }
    }
  }
}
