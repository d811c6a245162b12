/** What the transmitter plays, frame by frame: silence, then a tone for each symbol with a fade at
    the end, then silence again. */
module ToneGenerator {
  import opened AudioDevice
  import opened RealProducts
  import opened Rounding

  const SYMBOLS := 79
  const FRAME_RATE := 48000
  const FULL := 32767
  const TUNING_SYMBOLS := 9999

  type Unit = r: real | -1.0 <= r <= 1.0

  // What does not change during a transmission. A symbol takes four times nsps frames.
  datatype Form = Form(sin: real -> Unit, tau: real, tones: seq<int>, nsps: nat, spacing: real, tuning: bool) {
    predicate Valid() {
      nsps > 0 && |tones| == SYMBOLS
    }

    // The frame the tones end at, and the last before they fade.
    function End(): nat {
      if tuning then TUNING_SYMBOLS * nsps else SYMBOLS * 4 * nsps
    }

    function LastFull(): nat
      ensures LastFull() <= End()
    {
      if tuning then TUNING_SYMBOLS * nsps
      else
        assert (SYMBOLS as real - 0.017) * 4.0 * nsps as real <= End() as real by {
          assert (SYMBOLS as real - 0.017) * 4.0 == 315.932;
        }
        assert (SYMBOLS as real - 0.017) * 4.0 * nsps as real >= 0.0;
        ((SYMBOLS as real - 0.017) * 4.0 * nsps as real).Floor
    }

    function Symbol(ic: nat): nat
      requires Valid()
    {
      if tuning then 0 else Quotient(ic, 4 * nsps)
    }

    // The advance in phase from one frame to the next.
    function Advance(frequency: real, symbol: nat): real
      requires Valid() && symbol < SYMBOLS
    {
      tau * (frequency + tones[symbol] as real * spacing) / FRAME_RATE as real
    }
  }

  function Quotient(n: nat, d: nat): nat
    requires d > 0
  {
    n / d
  }

  // No frame before the end has a symbol out of range.
  lemma SymbolInRange(form: Form, ic: nat)
    requires form.Valid() && ic < form.End()
    ensures form.Symbol(ic) < SYMBOLS
  {
    if !form.tuning {
      var d := 4 * form.nsps;
      assert form.End() == SYMBOLS * d;
      QuotientBelow(ic, d, SYMBOLS);
    }
  }

  lemma FirstSymbol(form: Form, ic: nat)
    requires form.Valid()
    ensures !form.tuning && form.Symbol(ic) == 0 ==> ic < 4 * form.nsps
  {
  }

  lemma EndIsLate(form: Form)
    requires form.Valid() && !form.tuning
    ensures 4 * form.nsps < form.End()
  {
  }

  lemma QuotientBelow(n: nat, d: nat, q: nat)
    requires d > 0 && n < q * d
    ensures n / d < q
  {
    assert n == n / d * d + n % d;
    if n / d >= q {
      ProductGrows(n / d, q, d);
    }
  }

  lemma ProductGrows(a: nat, b: nat, d: nat)
    requires a >= b
    ensures a * d >= b * d
  {
  }

  // Frames of silence to come, the number of the next frame of the tones, and the phase and the
  // amplitude the last one had.
  datatype Generator = Generator(silent: nat, ic: nat, phi: real, amp: real)

  function Wrapped(form: Form, phi: real): real {
    if phi > form.tau then phi - form.tau else phi
  }

  function Faded(form: Form, ic: nat, amp: real): real {
    if ic > form.LastFull() then 0.98 * amp else amp
  }

  // The sample is a nearest integer to the product of amplitude and sine.
  function Level(form: Form, phi: real, amp: real): (r: Sample)
    requires 0.0 <= amp <= FULL as real
    ensures -0.5 <= r as real - amp * form.sin(phi) <= 0.5
  {
    LevelInRange(form.sin(phi), amp);
    RoundIsNearest(amp * form.sin(phi));
    Round(amp * form.sin(phi))
  }

  lemma LevelInRange(a: Unit, amp: real)
    requires 0.0 <= amp <= FULL as real
    ensures -FULL <= Round(amp * a) <= FULL
  {
    hide Round;
    ProductAtMost(amp, a);
    RoundWithin(amp * a, amp);
  }

  lemma RoundWithin(x: real, amp: real)
    requires -amp <= x <= amp <= FULL as real
    ensures -FULL <= Round(x) <= FULL
  {
    RoundStaysWithin(x, FULL);
  }

  lemma ProductAtMost(amp: real, a: Unit)
    requires amp >= 0.0
    ensures -amp <= amp * a <= amp
  {
    ProductAtLeastZero(amp, 1.0 - a);
    ProductAtLeastZero(amp, 1.0 + a);
    assert amp * (1.0 - a) == amp - amp * a && amp * (1.0 + a) == amp + amp * a;
  }

  ghost predicate Sounds(form: Form, g: Generator) {
    form.Valid() && 0.0 < g.amp <= FULL as real
  }

  // One frame of the tones.
  function Next(form: Form, frequency: real, g: Generator): (r: Generator)
    requires Sounds(form, g) && g.ic < form.End()
    ensures Sounds(form, r)
  {
    SymbolInRange(form, g.ic);
    var phi := Wrapped(form, g.phi + form.Advance(frequency, form.Symbol(g.ic)));
    Generator(0, g.ic + 1, phi, Faded(form, g.ic, g.amp))
  }

  // One frame of what is played.
  function Step(form: Form, frequency: real, g: Generator): (r: (Sample, Generator))
    requires Sounds(form, g)
    ensures Sounds(form, r.1)
  {
    if g.silent > 0 then (0, g.(silent := g.silent - 1))
    else if g.ic < form.End() then
      var next := Next(form, frequency, g);
      (Level(form, next.phi, next.amp), next)
    else (0, g)
  }

  function After(form: Form, frequency: real, g: Generator, n: nat): (r: Generator)
    requires Sounds(form, g)
    ensures Sounds(form, r)
  {
    if n == 0 then g else Step(form, frequency, After(form, frequency, g, n - 1)).1
  }

  function Output(form: Form, frequency: real, g: Generator, n: nat): (r: seq<Sample>)
    requires Sounds(form, g)
    ensures |r| == n
  {
    if n == 0 then []
    else Output(form, frequency, g, n - 1) + [Step(form, frequency, After(form, frequency, g, n - 1)).0]
  }

  // Reads in two parts play what one read plays.
  lemma {:induction false} ChunksDoNotMatter(form: Form, frequency: real, g: Generator, m: nat, n: nat)
    requires Sounds(form, g)
    ensures After(form, frequency, g, m + n) == After(form, frequency, After(form, frequency, g, m), n)
    ensures Output(form, frequency, g, m + n)
            == Output(form, frequency, g, m) + Output(form, frequency, After(form, frequency, g, m), n)
  {
    if n > 0 {
      hide Step;
      ChunksDoNotMatter(form, frequency, g, m, n - 1);
    }
  }

  /* Times and tones */

  // A symbol takes four times nsps frames, tuning the first symbol as long as it goes on.
  lemma SymbolIs(form: Form, ic: nat)
    requires form.Valid()
    ensures if form.tuning then form.Symbol(ic) == 0
            else form.Symbol(ic) * (4 * form.nsps) <= ic < (form.Symbol(ic) + 1) * (4 * form.nsps)
  {
    if !form.tuning {
      QuotientIs(ic, 4 * form.nsps);
    }
  }

  lemma QuotientIs(n: nat, d: nat)
    requires d > 0
    ensures Quotient(n, d) * d <= n < (Quotient(n, d) + 1) * d
  {
    assert n == n / d * d + n % d;
  }

  // The tones end after 79 symbols, and fade in the last of them, by two hundredths a frame.
  lemma EndIs(form: Form)
    ensures form.End() == if form.tuning then 9999 * form.nsps else 79 * (4 * form.nsps)
    ensures form.tuning ==> form.LastFull() == form.End()
    ensures !form.tuning ==> form.LastFull() as real <= 315.932 * form.nsps as real < form.LastFull() as real + 1.0
  {
    assert (SYMBOLS as real - 0.017) * 4.0 == 315.932;
  }

  lemma FadesByHundredths(form: Form, ic: nat, amp: real)
    ensures 100.0 * Faded(form, ic, amp) == if ic > form.LastFull() then 98.0 * amp else 100.0 * amp
  {
  }

  // With the spacing of a submode the phase advances over a symbol as the frequency does in that time, and by one
  // turn more for each tone.
  lemma TurnsOfSymbol(form: Form, frequency: real, symbol: nat)
    requires form.Valid() && symbol < SYMBOLS && form.spacing == 12000.0 / form.nsps as real
    ensures (4 * form.nsps) as real * form.Advance(frequency, symbol)
            == form.tau * (frequency * ((4 * form.nsps) as real / 48000.0) + form.tones[symbol] as real)
  {
    var n, tone := form.nsps as real, form.tones[symbol] as real;
    SpacingIs(n, form.spacing);
    FrameTurns(form.tau, frequency, tone, n, form.spacing);
  }

  // So neighbouring tones differ by exactly one turn.
  lemma NextToneIsOneTurn(form: Form, frequency: real, symbol: nat, next: nat)
    requires form.Valid() && symbol < SYMBOLS && next < SYMBOLS && form.tones[next] == form.tones[symbol] + 1
    requires form.spacing == 12000.0 / form.nsps as real
    ensures (4 * form.nsps) as real * form.Advance(frequency, next)
            == (4 * form.nsps) as real * form.Advance(frequency, symbol) + form.tau
  {
    hide form.Advance;
    TurnsOfSymbol(form, frequency, symbol);
    TurnsOfSymbol(form, frequency, next);
    var f := frequency * ((4 * form.nsps) as real / 48000.0);
    OneMore(form.tau, f, form.tones[symbol] as real);
  }

  lemma OneMore(tau: real, f: real, tone: real)
    ensures tau * (f + (tone + 1.0)) == tau * (f + tone) + tau
  {
  }

  lemma SpacingIs(n: real, spacing: real)
    requires n > 0.0 && spacing == 12000.0 / n
    ensures spacing * n == 12000.0
  {
  }

  lemma FrameTurns(tau: real, f: real, tone: real, n: real, spacing: real)
    requires spacing * n == 12000.0
    ensures 4.0 * n * (tau * (f + tone * spacing) / 48000.0) == tau * (f * (4.0 * n / 48000.0) + tone)
  {
    var turns := f + tone * spacing;
    assert turns * n == f * n + tone * 12000.0;
    assert 4.0 * n * (tau * turns / 48000.0) == tau * (turns * n) / 12000.0;
    assert tau * (f * n + tone * 12000.0) / 12000.0 == tau * (f * n / 12000.0 + tone);
  }

  // The advances of the frames from one on.
  function Advances(form: Form, frequency: real, first: nat, i: nat): real
    requires form.Valid() && i <= form.End()
  {
    if i <= first then 0.0
    else
      SymbolInRange(form, i - 1);
      Advances(form, frequency, first, i - 1) + form.Advance(frequency, form.Symbol(i - 1))
  }

  // The phase is the sum of the advances, but for whole turns.
  lemma {:induction false} PhaseIsTotal(form: Form, frequency: real, g: Generator, i: nat) returns (turns: nat)
    requires form.Valid() && i <= form.End()
    ensures Phase(form, frequency, g, i) == g.phi + Advances(form, frequency, g.ic, i) - turns as real * form.tau
  {
    hide form.Advance, form.Symbol, Phase;
    turns := 0;
    if i > g.ic {
      SymbolInRange(form, i - 1);
      turns := PhaseIsTotal(form, frequency, g, i - 1);
      PhaseUnfolds(form, frequency, g, i);
      OneMoreTurn(turns, form.tau);
      if Phase(form, frequency, g, i - 1) + form.Advance(frequency, form.Symbol(i - 1)) > form.tau {
        turns := turns + 1;
      }
    } else {
      PhaseAtFirst(form, frequency, g, i);
    }
  }

  lemma OneMoreTurn(turns: nat, tau: real)
    ensures (turns + 1) as real * tau == turns as real * tau + tau
  {
  }

  lemma PhaseAtFirst(form: Form, frequency: real, g: Generator, i: nat)
    requires form.Valid() && i <= form.End() && i <= g.ic
    ensures Phase(form, frequency, g, i) == g.phi
  {
  }

  // It stays within one turn, if no advance is more.
  lemma {:induction false} PhaseStaysInTurn(form: Form, frequency: real, g: Generator, i: nat)
    requires form.Valid() && i <= form.End() && 0.0 <= g.phi <= form.tau
    requires forall s: nat | s < SYMBOLS :: 0.0 <= form.Advance(frequency, s) <= form.tau
    ensures 0.0 <= Phase(form, frequency, g, i) <= form.tau
  {
    hide form.Advance, form.Symbol;
    if i > g.ic {
      SymbolInRange(form, i - 1);
      PhaseStaysInTurn(form, frequency, g, i - 1);
      PhaseUnfolds(form, frequency, g, i);
    }
  }

  /* The closed form */

  // Phase and amplitude of a frame of the tones, counted from the one the generator starts with.
  function Phase(form: Form, frequency: real, g: Generator, i: nat): real
    requires form.Valid() && i <= form.End()
    decreases i
  {
    if i <= g.ic then g.phi
    else
      SymbolInRange(form, i - 1);
      Wrapped(form, Phase(form, frequency, g, i - 1) + form.Advance(frequency, form.Symbol(i - 1)))
  }

  function Power(a: real, n: nat): real {
    if n == 0 then 1.0 else a * Power(a, n - 1)
  }

  // Full until the fade, and a geometric decay in it.
  function Amplitude(form: Form, g: Generator, i: nat): real {
    g.amp * Power(0.98, FadedFrames(form, g, i))
  }

  // The frames that fade among those from the first to before one.
  function FadedFrames(form: Form, g: Generator, i: nat): nat {
    var first := if g.ic > form.LastFull() then g.ic else form.LastFull() + 1;
    if i > first then i - first else 0
  }

  // The place reached after n frames.
  function Place(form: Form, g: Generator, n: nat): nat {
    if n <= g.silent || g.ic >= form.End() then g.ic
    else if g.ic + (n - g.silent) < form.End() then g.ic + (n - g.silent)
    else form.End()
  }

  // A frame of the tones moves phase and amplitude on.
  lemma NextIs(form: Form, frequency: real, g: Generator, r: Generator)
    requires Sounds(form, g) && Sounds(form, r) && g.ic <= r.ic < form.End()
    requires r.phi == Phase(form, frequency, g, r.ic) && r.amp == Amplitude(form, g, r.ic)
    ensures var s := Next(form, frequency, r);
            s.phi == Phase(form, frequency, g, r.ic + 1) && s.amp == Amplitude(form, g, r.ic + 1)
  {
    SymbolInRange(form, r.ic);
    PhaseUnfolds(form, frequency, g, r.ic + 1);
    if r.ic > form.LastFull() {
      var n := FadedFrames(form, g, r.ic);
      assert FadedFrames(form, g, r.ic + 1) == n + 1;
      Reorder(g.amp, Power(0.98, n));
    }
  }

  lemma PhaseUnfolds(form: Form, frequency: real, g: Generator, i: nat)
    requires form.Valid() && g.ic < i <= form.End() && form.Symbol(i - 1) < SYMBOLS
    ensures Phase(form, frequency, g, i)
            == Wrapped(form, Phase(form, frequency, g, i - 1) + form.Advance(frequency, form.Symbol(i - 1)))
  {
  }

  lemma Reorder(amp: real, power: real)
    ensures 0.98 * (amp * power) == amp * (0.98 * power)
  {
  }

  ghost predicate Reached(form: Form, frequency: real, g: Generator, n: nat, r: Generator)
    requires form.Valid()
  {
    var i := Place(form, g, n);
    && r.silent == (if n < g.silent then g.silent - n else 0) && r.ic == i
    && r.phi == (if i <= form.End() then Phase(form, frequency, g, i) else g.phi)
    && r.amp == Amplitude(form, g, i)
  }

  // Where the generator is after any number of frames.
  lemma {:induction false} AfterIs(form: Form, frequency: real, g: Generator, n: nat)
    requires Sounds(form, g)
    ensures Reached(form, frequency, g, n, After(form, frequency, g, n))
  {
    hide Amplitude, form.LastFull, form.Symbol, form.Advance;
    if n == 0 {
      FullAtFirst(form, g);
    } else {
      AfterIs(form, frequency, g, n - 1);
      var r := After(form, frequency, g, n - 1);
      if r.silent == 0 && r.ic < form.End() {
        NextIs(form, frequency, g, r);
      }
    }
  }

  lemma FullAtFirst(form: Form, g: Generator)
    ensures Amplitude(form, g, g.ic) == g.amp
  {
    assert FadedFrames(form, g, g.ic) == 0;
  }

  // The k-th frame played: silence, a sample of the tones, or silence for good.
  function Played(form: Form, frequency: real, g: Generator, k: nat): Sample
    requires Sounds(form, g)
  {
    if k < g.silent || g.ic + (k - g.silent) >= form.End() then 0
    else
      var i := g.ic + (k - g.silent);
      AfterIs(form, frequency, g, k + 1);
      Level(form, Phase(form, frequency, g, i + 1), Amplitude(form, g, i + 1))
  }

  lemma {:induction false} OutputIs(form: Form, frequency: real, g: Generator, n: nat, k: nat)
    requires Sounds(form, g) && k < n
    ensures Output(form, frequency, g, n)[k] == Played(form, frequency, g, k)
  {
    if k < n - 1 {
      OutputIs(form, frequency, g, n - 1, k);
    } else {
      AfterIs(form, frequency, g, k);
      AfterIs(form, frequency, g, k + 1);
    }
  }
}
