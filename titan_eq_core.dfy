/**
 * The biquad filter cell and the multi-band parametric equaliser engine
 * (`BiquadFilter`, `TitanEqBand` and `TitanEqCore` in TitanEqCore.kt).
 *
 * Kotlin `Float` is modelled by `real`. The filter design calls `pow`, `sin`,
 * `cos` and `PI` from kotlin.math; they are left uninterpreted as the fields
 * of a `FloatMath` value that every designing operation takes as a parameter.
 *
 * Each filter object is specified by a value, `FilterState`, and every
 * method is proved against a pure function on those values (`Step`,
 * `PeakingEq`, `CascadeUpTo`, `Configure`, `ResetAll`).
 */
module TitanEq {

  /** The kotlin.math functions the peaking-EQ design uses, uninterpreted,
      and the value a Float division by zero gives (an infinity or NaN in
      Kotlin, an unspecified real here). */
  datatype FloatMath = FloatMath(pow: (real, real) -> real, sin: real -> real, cos: real -> real, pi: real,
                                 divByZero: real -> real) {
    function Pow(x: real, y: real): real { pow(x, y) }
    function Sin(x: real): real { sin(x) }
    function Cos(x: real): real { cos(x) }

    /** Float division, total like Kotlin's. */
    function Div(x: real, y: real): real {
      if y == 0.0 then divByZero(x) else x / y
    }
  }

  /** The five normalised coefficients of a biquad (a0 is divided out). */
  datatype Coefficients = Coefficients(b0: real, b1: real, b2: real, a1: real, a2: real)

  /** The two previous inputs (x1, x2) and the two previous outputs (y1, y2). */
  datatype History = History(x1: real, x2: real, y1: real, y2: real)

  /** Everything a `BiquadFilter` object holds. */
  datatype FilterState = FilterState(coeffs: Coefficients, history: History)

  const ZeroCoefficients := Coefficients(0.0, 0.0, 0.0, 0.0, 0.0)
  const Silence := History(0.0, 0.0, 0.0, 0.0)

  /** The state of a newly constructed filter: every field is 0. */
  const Unconfigured := FilterState(ZeroCoefficients, Silence)

  function Min(a: nat, b: nat): nat { if a <= b then a else b }

  // ---------------------------------------------------------------------------
  // One filter cell
  // ---------------------------------------------------------------------------

  datatype Stepped = Stepped(out: real, state: FilterState)

  /** The direct-form-I recurrence for one sample, followed by the history shift. */
  function Step(f: FilterState, x: real): (r: Stepped)
    ensures r.state.coeffs == f.coeffs
  {
    var c, h := f.coeffs, f.history;
    var y := c.b0 * x + c.b1 * h.x1 + c.b2 * h.x2 - c.a1 * h.y1 - c.a2 * h.y2;
    Stepped(y, FilterState(c, History(x, h.x1, y, h.y1)))
  }

  datatype Filtered = Filtered(outs: seq<real>, state: FilterState)

  /** A whole signal fed through one filter, sample by sample. */
  function Run(f: FilterState, xs: seq<real>): (r: Filtered)
    ensures |r.outs| == |xs|
    ensures r.state.coeffs == f.coeffs
    decreases |xs|
  {
    if xs == [] then Filtered([], f)
    else
      var p := Run(f, xs[..|xs| - 1]);
      var s := Step(p.state, xs[|xs| - 1]);
      Filtered(p.outs + [s.out], s.state)
  }

  /** After a step, the history holds the newest input and output, and the
      previous ones moved one place down; the coefficients are kept. */
  lemma StepShiftsHistory(f: FilterState, x: real)
    ensures Step(f, x).state.coeffs == f.coeffs
    ensures Step(f, x).state.history ==
            History(x, f.history.x1, Step(f, x).out, f.history.y1)
  {
  }

  /** A filter whose coefficients were never configured outputs silence,
      whatever its history and whatever the input. */
  lemma {:induction false} UnconfiguredFilterIsSilent(h: History, xs: seq<real>)
    ensures Run(FilterState(ZeroCoefficients, h), xs).outs == seq(|xs|, _ => 0.0)
    decreases |xs|
  {
    if xs != [] {
      UnconfiguredFilterIsSilent(h, xs[..|xs| - 1]);
    }
  }

  /** Coefficients with unit gain: b0 = 1, b1 = a1, b2 = a2. */
  predicate Flat(c: Coefficients) {
    c.b0 == 1.0 && c.b1 == c.a1 && c.b2 == c.a2
  }

  /** A history in which every past output equals the past input. */
  predicate Settled(h: History) {
    h.x1 == h.y1 && h.x2 == h.y2
  }

  /** One step of a flat filter from a settled history outputs its input and
      leaves the history settled. */
  lemma FlatStepIsTransparent(c: Coefficients, g: History, x: real)
    requires Flat(c) && Settled(g)
    ensures Step(FilterState(c, g), x).out == x
    ensures Settled(Step(FilterState(c, g), x).state.history)
  {
    assert c.b1 * g.x1 == c.a1 * g.y1 && c.b2 * g.x2 == c.a2 * g.y2;
  }

  /** A flat filter started from a settled history (silence, in particular)
      passes every signal through unchanged. */
  lemma {:induction false} FlatFilterIsTransparent(c: Coefficients, h: History, xs: seq<real>)
    requires Flat(c) && Settled(h)
    ensures Run(FilterState(c, h), xs).outs == xs
    ensures Settled(Run(FilterState(c, h), xs).state.history)
    decreases |xs|
  {
    if xs != [] {
      var init := xs[..|xs| - 1];
      FlatFilterIsTransparent(c, h, init);
      var p := Run(FilterState(c, h), init);
      var x := xs[|xs| - 1];
      assert p.state == FilterState(c, p.state.history);
      FlatStepIsTransparent(c, p.state.history, x);
      assert xs == init + [x];
    }
  }

  // ---------------------------------------------------------------------------
  // Peaking-EQ design
  // ---------------------------------------------------------------------------

  /** The coefficients before normalisation (b0Raw … a2Raw). */
  datatype RawPeaking = RawPeaking(b0: real, b1: real, b2: real, a0: real, a1: real, a2: real)

  /** A = 10^(dbGain/40). */
  function Amplitude(m: FloatMath, dbGain: real): real {
    m.Pow(10.0, dbGain / 40.0)
  }

  function RawPeakingEq(m: FloatMath, sampleRate: real, centerFreq: real, q: real, dbGain: real): RawPeaking {
    var a := Amplitude(m, dbGain);
    var w0 := m.Div(2.0 * m.pi * centerFreq, sampleRate);
    var alpha := m.Div(m.Sin(w0), 2.0 * q);
    RawPeaking(1.0 + alpha * a, -2.0 * m.Cos(w0), 1.0 - alpha * a,
               1.0 + m.Div(alpha, a), -2.0 * m.Cos(w0), 1.0 - m.Div(alpha, a))
  }

  /** The stored coefficients: each raw value divided by a0Raw. */
  function PeakingEq(m: FloatMath, sampleRate: real, centerFreq: real, q: real, dbGain: real): Coefficients {
    var r := RawPeakingEq(m, sampleRate, centerFreq, q, dbGain);
    Coefficients(m.Div(r.b0, r.a0), m.Div(r.b1, r.a0), m.Div(r.b2, r.a0), m.Div(r.a1, r.a0), m.Div(r.a2, r.a0))
  }

  /** Scaling the stored coefficients back by a0Raw gives the raw design, and
      b1 = a1 because both raw values are -2·cos(w0). */
  lemma PeakingIsNormalisedDesign(m: FloatMath, sampleRate: real, centerFreq: real, q: real, dbGain: real)
    requires RawPeakingEq(m, sampleRate, centerFreq, q, dbGain).a0 != 0.0
    ensures var c, r := PeakingEq(m, sampleRate, centerFreq, q, dbGain), RawPeakingEq(m, sampleRate, centerFreq, q, dbGain);
            c.b0 * r.a0 == r.b0 && c.b1 * r.a0 == r.b1 && c.b2 * r.a0 == r.b2 &&
            c.a1 * r.a0 == r.a1 && c.a2 * r.a0 == r.a2 && c.b1 == c.a1
  {
  }

  /** A band of 0 dB is flat, provided pow(10, 0) = 1. */
  lemma ZeroGainBandIsFlat(m: FloatMath, sampleRate: real, centerFreq: real, q: real)
    requires m.Pow(10.0, 0.0) == 1.0
    requires RawPeakingEq(m, sampleRate, centerFreq, q, 0.0).a0 != 0.0
    ensures Flat(PeakingEq(m, sampleRate, centerFreq, q, 0.0))
  {
  }

  /** A 0 dB band, configured on a filter whose history is silent, passes
      every signal through unchanged. */
  lemma ZeroGainBandIsTransparent(m: FloatMath, sampleRate: real, centerFreq: real, q: real, xs: seq<real>)
    requires m.Pow(10.0, 0.0) == 1.0
    requires RawPeakingEq(m, sampleRate, centerFreq, q, 0.0).a0 != 0.0
    ensures Run(FilterState(PeakingEq(m, sampleRate, centerFreq, q, 0.0), Silence), xs).outs == xs
  {
    ZeroGainBandIsFlat(m, sampleRate, centerFreq, q);
    FlatFilterIsTransparent(PeakingEq(m, sampleRate, centerFreq, q, 0.0), Silence, xs);
  }

  // ---------------------------------------------------------------------------
  // The filter object
  // ---------------------------------------------------------------------------

  class BiquadFilter {
    var b0: real
    var b1: real
    var b2: real
    var a1: real
    var a2: real

    var x1: real
    var x2: real
    var y1: real
    var y2: real

    /** The value this object holds. */
    function State(): FilterState
      reads this
    {
      FilterState(Coefficients(b0, b1, b2, a1, a2), History(x1, x2, y1, y2))
    }

    constructor()
      ensures State() == Unconfigured
    {
      b0, b1, b2, a1, a2 := 0.0, 0.0, 0.0, 0.0, 0.0;
      x1, x2, y1, y2 := 0.0, 0.0, 0.0, 0.0;
    }

    /** Overwrites the five coefficients with the peaking design; the history is kept. */
    method ConfigurePeakingEq(m: FloatMath, sampleRate: real, centerFreq: real, q: real, dbGain: real)
      modifies this
      ensures State() == FilterState(PeakingEq(m, sampleRate, centerFreq, q, dbGain), old(State()).history)
    {
      var a := m.Pow(10.0, dbGain / 40.0);
      var w0 := m.Div(2.0 * m.pi * centerFreq, sampleRate);
      var alpha := m.Div(m.Sin(w0), 2.0 * q);

      var b0Raw := 1.0 + alpha * a;
      var b1Raw := -2.0 * m.Cos(w0);
      var b2Raw := 1.0 - alpha * a;
      var a0Raw := 1.0 + m.Div(alpha, a);
      var a1Raw := -2.0 * m.Cos(w0);
      var a2Raw := 1.0 - m.Div(alpha, a);

      assert RawPeakingEq(m, sampleRate, centerFreq, q, dbGain) == RawPeaking(b0Raw, b1Raw, b2Raw, a0Raw, a1Raw, a2Raw);
      b0 := m.Div(b0Raw, a0Raw);
      b1 := m.Div(b1Raw, a0Raw);
      b2 := m.Div(b2Raw, a0Raw);
      a1 := m.Div(a1Raw, a0Raw);
      a2 := m.Div(a2Raw, a0Raw);
    }

    /** Filters one sample. */
    method Process(sample: real) returns (y: real)
      modifies this
      ensures Stepped(y, State()) == Step(old(State()), sample)
    {
      y := b0 * sample + b1 * x1 + b2 * x2 - a1 * y1 - a2 * y2;
      x2 := x1;
      x1 := sample;
      y2 := y1;
      y1 := y;
    }

    /** Zeroes the history; the coefficients are kept. */
    method Reset()
      modifies this
      ensures State() == FilterState(old(State()).coeffs, Silence)
    {
      x1 := 0.0;
      x2 := 0.0;
      y1 := 0.0;
      y2 := 0.0;
    }
  }

  // ---------------------------------------------------------------------------
  // The band list and the cascade
  // ---------------------------------------------------------------------------

  /** One band of the equaliser; its identity is its index in the band list. */
  datatype TitanEqBand = TitanEqBand(frequency: real, gain: real, q: real, enabled: bool)

  datatype Cascaded = Cascaded(out: real, states: seq<FilterState>)

  /** The sample `x` fed through the enabled slots among 0 .. n-1, slot 0 first. */
  function CascadeUpTo(bands: seq<TitanEqBand>, fs: seq<FilterState>, n: nat, x: real): (r: Cascaded)
    requires n <= |bands| && n <= |fs|
    ensures |r.states| == |fs|
    decreases n
  {
    if n == 0 then Cascaded(x, fs)
    else
      var p := CascadeUpTo(bands, fs, n - 1, x);
      if bands[n - 1].enabled then
        var s := Step(p.states[n - 1], p.out);
        Cascaded(s.out, p.states[n - 1 := s.state])
      else p
  }

  /** Only the enabled slots below n change, and with no enabled slot the
      sample passes through untouched. */
  lemma {:induction false} CascadeTouchesOnlyEnabled(bands: seq<TitanEqBand>, fs: seq<FilterState>, n: nat, x: real)
    requires n <= |bands| && n <= |fs|
    ensures forall j :: 0 <= j < |fs| && !(j < n && bands[j].enabled) ==> CascadeUpTo(bands, fs, n, x).states[j] == fs[j]
    ensures (forall j :: 0 <= j < n ==> !bands[j].enabled) ==> CascadeUpTo(bands, fs, n, x).out == x
    decreases n
  {
    if n > 0 {
      CascadeTouchesOnlyEnabled(bands, fs, n - 1, x);
      var p, r := CascadeUpTo(bands, fs, n - 1, x), CascadeUpTo(bands, fs, n, x);
      if bands[n - 1].enabled {
        assert r.states == p.states[n - 1 := r.states[n - 1]];
      } else {
        assert r == p;
      }
    }
  }

  /** What `processL`/`processR` compute: the cascade over the first
      min(|bands|, |fs|) slots. */
  function Cascade(bands: seq<TitanEqBand>, fs: seq<FilterState>, x: real): Cascaded
  {
    CascadeUpTo(bands, fs, Min(|bands|, |fs|), x)
  }

  /** The enabled slot indices below n, in ascending order. */
  function EnabledSlots(bands: seq<TitanEqBand>, n: nat): (r: seq<nat>)
    requires n <= |bands|
    ensures forall j: nat :: j in r <==> j < n && bands[j].enabled
    ensures forall i, k :: 0 <= i < k < |r| ==> r[i] < r[k]
    ensures forall i :: 0 <= i < |r| ==> r[i] < n
    decreases n
  {
    if n == 0 then []
    else if bands[n - 1].enabled then EnabledSlots(bands, n - 1) + [n - 1]
    else EnabledSlots(bands, n - 1)
  }

  /** Reference definition: fold the sample through the listed slots, in list order. */
  function FoldSlots(slots: seq<nat>, fs: seq<FilterState>, x: real): (r: Cascaded)
    requires forall i :: 0 <= i < |slots| ==> slots[i] < |fs|
    ensures |r.states| == |fs|
    decreases |slots|
  {
    if slots == [] then Cascaded(x, fs)
    else
      var p := FoldSlots(slots[..|slots| - 1], fs, x);
      var j := slots[|slots| - 1];
      var s := Step(p.states[j], p.out);
      Cascaded(s.out, p.states[j := s.state])
  }

  /** The cascade visits exactly the enabled slots below n, in ascending order. */
  lemma {:induction false} CascadeFollowsEnabledSlots(bands: seq<TitanEqBand>, fs: seq<FilterState>, n: nat, x: real)
    requires n <= |bands| && n <= |fs|
    ensures CascadeUpTo(bands, fs, n, x) == FoldSlots(EnabledSlots(bands, n), fs, x)
    decreases n
  {
    if n > 0 {
      CascadeFollowsEnabledSlots(bands, fs, n - 1, x);
      if bands[n - 1].enabled {
        var slots := EnabledSlots(bands, n);
        assert slots[..|slots| - 1] == EnabledSlots(bands, n - 1);
      }
    }
  }

  /** Disabled slots are bypassed: the cascade does not depend on what they hold. */
  lemma {:induction false} CascadeIgnoresDisabledSlots(bands: seq<TitanEqBand>, fs: seq<FilterState>, gs: seq<FilterState>, n: nat, x: real)
    requires n <= |bands| && n <= |fs| && |fs| == |gs|
    requires forall j :: 0 <= j < n && bands[j].enabled ==> fs[j] == gs[j]
    ensures CascadeUpTo(bands, fs, n, x).out == CascadeUpTo(bands, gs, n, x).out
    ensures forall j :: 0 <= j < n && bands[j].enabled ==>
              CascadeUpTo(bands, fs, n, x).states[j] == CascadeUpTo(bands, gs, n, x).states[j]
    decreases n
  {
    if n > 0 {
      CascadeIgnoresDisabledSlots(bands, fs, gs, n - 1, x);
      CascadeTouchesOnlyEnabled(bands, fs, n - 1, x);
      CascadeTouchesOnlyEnabled(bands, gs, n - 1, x);
    }
  }

  /** Every slot whose band is disabled holds a silent history. */
  predicate DisabledSilent(bands: seq<TitanEqBand>, fs: seq<FilterState>) {
    forall j :: 0 <= j < |bands| && j < |fs| && !bands[j].enabled ==> fs[j].history == Silence
  }

  /** The cascade never touches a disabled slot, so their silence survives it. */
  lemma CascadeKeepsDisabledSilent(bands: seq<TitanEqBand>, fs: seq<FilterState>, x: real)
    requires DisabledSilent(bands, fs)
    ensures DisabledSilent(bands, Cascade(bands, fs, x).states)
  {
    CascadeTouchesOnlyEnabled(bands, fs, Min(|bands|, |fs|), x);
  }

  // ---------------------------------------------------------------------------
  // Setup and reset on values
  // ---------------------------------------------------------------------------

  /** What `setup` does to one slot. */
  function SetupSlot(m: FloatMath, sampleRate: real, band: TitanEqBand, f: FilterState): FilterState
  {
    if band.enabled then FilterState(PeakingEq(m, sampleRate, band.frequency, band.q, band.gain), f.history)
    else FilterState(f.coeffs, Silence)
  }

  /** What the first n iterations of the `setup` loop do to one side's filters. */
  function ConfigurePrefix(m: FloatMath, sampleRate: real, bands: seq<TitanEqBand>, fs: seq<FilterState>, n: nat): (r: seq<FilterState>)
    requires n <= |bands| && n <= |fs|
    ensures |r| == |fs|
    decreases n
  {
    if n == 0 then fs
    else
      var p := ConfigurePrefix(m, sampleRate, bands, fs, n - 1);
      p[n - 1 := SetupSlot(m, sampleRate, bands[n - 1], p[n - 1])]
  }

  /** The first n slots are set up, the others are left alone. */
  lemma {:induction false} ConfigurePrefixSlots(m: FloatMath, sampleRate: real, bands: seq<TitanEqBand>, fs: seq<FilterState>, n: nat)
    requires n <= |bands| && n <= |fs|
    ensures forall j :: 0 <= j < |fs| ==>
              ConfigurePrefix(m, sampleRate, bands, fs, n)[j] == if j < n then SetupSlot(m, sampleRate, bands[j], fs[j]) else fs[j]
    decreases n
  {
    if n > 0 {
      ConfigurePrefixSlots(m, sampleRate, bands, fs, n - 1);
    }
  }

  /** What `setup` does to one side's filters: the slots below
      min(|bands|, |fs|) are set up, the others are left alone. */
  function Configure(m: FloatMath, sampleRate: real, bands: seq<TitanEqBand>, fs: seq<FilterState>): (r: seq<FilterState>)
  {
    ConfigurePrefix(m, sampleRate, bands, fs, Min(|bands|, |fs|))
  }

  /** After `setup`, the left and right filters of every slot that was
      configured carry identical coefficients, each slot below
      min(|bands|, numBands) holds what its band asks for, and every slot at
      or beyond it is unchanged. */
  lemma SetupShapesSlots(m: FloatMath, sampleRate: real, bands: seq<TitanEqBand>, ls: seq<FilterState>, rs: seq<FilterState>)
    requires |ls| == |rs|
    ensures forall j :: 0 <= j < Min(|bands|, |ls|) && bands[j].enabled ==>
              Configure(m, sampleRate, bands, ls)[j].coeffs == Configure(m, sampleRate, bands, rs)[j].coeffs ==
              PeakingEq(m, sampleRate, bands[j].frequency, bands[j].q, bands[j].gain) &&
              Configure(m, sampleRate, bands, ls)[j].history == ls[j].history
    ensures forall j :: 0 <= j < Min(|bands|, |ls|) && !bands[j].enabled ==>
              Configure(m, sampleRate, bands, ls)[j] == FilterState(ls[j].coeffs, Silence)
    ensures forall j :: Min(|bands|, |ls|) <= j < |ls| ==> Configure(m, sampleRate, bands, ls)[j] == ls[j]
  {
    ConfigurePrefixSlots(m, sampleRate, bands, ls, Min(|bands|, |ls|));
    ConfigurePrefixSlots(m, sampleRate, bands, rs, Min(|bands|, |rs|));
  }

  /** After `setup`, every disabled slot is silent. */
  lemma SetupSilencesDisabledSlots(m: FloatMath, sampleRate: real, bands: seq<TitanEqBand>, fs: seq<FilterState>)
    ensures DisabledSilent(bands, Configure(m, sampleRate, bands, fs))
  {
    ConfigurePrefixSlots(m, sampleRate, bands, fs, Min(|bands|, |fs|));
  }

  /** What `reset` does to one side's filters: every history is zeroed. */
  function ResetAll(fs: seq<FilterState>): (r: seq<FilterState>)
    ensures |r| == |fs|
  {
    seq(|fs|, j requires 0 <= j < |fs| => FilterState(fs[j].coeffs, Silence))
  }

  /** Resetting keeps every coefficient and silences every slot, enabled or not. */
  lemma ResetKeepsCoefficients(bands: seq<TitanEqBand>, fs: seq<FilterState>)
    ensures forall j :: 0 <= j < |fs| ==> ResetAll(fs)[j].coeffs == fs[j].coeffs && ResetAll(fs)[j].history == Silence
    ensures DisabledSilent(bands, ResetAll(fs))
  {
  }

  // ---------------------------------------------------------------------------
  // The engine object
  // ---------------------------------------------------------------------------

  /** The values held by a sequence of filter objects. */
  ghost function States(fs: seq<BiquadFilter>): (r: seq<FilterState>)
    reads fs
    ensures |r| == |fs|
    ensures forall i :: 0 <= i < |fs| ==> r[i] == fs[i].State()
  {
    seq(|fs|, i requires 0 <= i < |fs| reads fs => fs[i].State())
  }

  /** One side of the engine: every slot holds its own filter object, and all
      of them are in `repr`. */
  ghost predicate Bank(filters: array<BiquadFilter>, repr: set<BiquadFilter>)
    reads filters
  {
    (forall i :: 0 <= i < filters.Length ==> filters[i] in repr) &&
    (forall i, j :: 0 <= i < filters.Length && 0 <= j < filters.Length && i != j ==> filters[i] != filters[j])
  }

  /** The values held by one side, slot by slot. */
  ghost function BankStates(filters: array<BiquadFilter>, repr: set<BiquadFilter>): seq<FilterState>
    requires Bank(filters, repr)
    reads filters, repr
  {
    States(filters[..])
  }

  /** Allocates `n` distinct, freshly constructed filters; `repr` is the set of them. */
  method NewFilters(n: nat) returns (a: array<BiquadFilter>, ghost repr: set<BiquadFilter>)
    ensures fresh(a) && fresh(repr) && a.Length == n
    ensures Bank(a, repr) && forall i :: 0 <= i < n ==> a[i].State() == Unconfigured
  {
    var placeholder := new BiquadFilter();
    a := new BiquadFilter[n](_ => placeholder);
    repr := {};
    var i := 0;
    while i < n
      invariant 0 <= i <= n && fresh(repr)
      invariant forall j :: 0 <= j < i ==> a[j] in repr && a[j].State() == Unconfigured
      invariant forall j, k :: 0 <= j < i && 0 <= k < i && j != k ==> a[j] != a[k]
    {
      var f := new BiquadFilter();
      a[i] := f;
      repr := repr + {f};
      i := i + 1;
    }
  }

  /** Allocates the two sides of an engine with `n` slots each. */
  method NewBanks(n: nat) returns (ls: array<BiquadFilter>, ghost reprL: set<BiquadFilter>,
                                   rs: array<BiquadFilter>, ghost reprR: set<BiquadFilter>)
    ensures fresh(ls) && fresh(rs) && fresh(reprL) && fresh(reprR) && ls.Length == rs.Length == n
    ensures reprL !! reprR && Bank(ls, reprL) && Bank(rs, reprR)
    ensures forall i :: 0 <= i < n ==> ls[i].State() == Unconfigured && rs[i].State() == Unconfigured
  {
    ls, reprL := NewFilters(n);
    rs, reprR := NewFilters(n);
  }

  /** The loop of `processL` and `processR`: the sample goes through the
      filter of every enabled slot below n, in ascending slot order. */
  method CascadeBank(filters: array<BiquadFilter>, ghost repr: set<BiquadFilter>, bands: seq<TitanEqBand>, n: nat, sample: real)
    returns (out: real)
    requires Bank(filters, repr) && n <= |bands| && n <= filters.Length
    modifies repr
    ensures Cascaded(out, BankStates(filters, repr)) == CascadeUpTo(bands, old(BankStates(filters, repr)), n, sample)
  {
    ghost var fs := BankStates(filters, repr);
    ghost var st := fs;
    out := sample;
    var i := 0;
    while i < n
      invariant 0 <= i <= n
      invariant Cascaded(out, st) == CascadeUpTo(bands, fs, i, sample)
      invariant forall j :: 0 <= j < filters.Length ==> filters[j].State() == st[j]
    {
      if bands[i].enabled {
        out := filters[i].Process(out);
        st := st[i := filters[i].State()];
      }
      i := i + 1;
    }
    assert BankStates(filters, repr) == st;
  }

  /** The body of the `setup` loop for slot i on one side: configure the
      filter when the band is enabled, reset it otherwise. */
  method SetupSlotOn(filters: array<BiquadFilter>, ghost repr: set<BiquadFilter>,
                     i: nat, m: FloatMath, sampleRate: real, band: TitanEqBand)
    requires Bank(filters, repr) && i < filters.Length
    modifies filters[i]
    ensures var fs := old(BankStates(filters, repr));
            BankStates(filters, repr) == fs[i := SetupSlot(m, sampleRate, band, fs[i])]
  {
    ghost var fs := BankStates(filters, repr);
    var f := filters[i];
    if band.enabled {
      f.ConfigurePeakingEq(m, sampleRate, band.frequency, band.q, band.gain);
    } else {
      f.Reset();
    }
    assert BankStates(filters, repr) == fs[i := f.State()];
  }

  /** The body of the `setup` loop for slot i: both sides, left first. */
  method SetupSlotPair(filtersL: array<BiquadFilter>, ghost reprL: set<BiquadFilter>,
                       filtersR: array<BiquadFilter>, ghost reprR: set<BiquadFilter>,
                       i: nat, m: FloatMath, sampleRate: real, band: TitanEqBand)
    requires Bank(filtersL, reprL) && Bank(filtersR, reprR) && reprL !! reprR
    requires i < filtersL.Length == filtersR.Length
    modifies filtersL[i], filtersR[i]
    ensures var ls := old(BankStates(filtersL, reprL));
            BankStates(filtersL, reprL) == ls[i := SetupSlot(m, sampleRate, band, ls[i])]
    ensures var rs := old(BankStates(filtersR, reprR));
            BankStates(filtersR, reprR) == rs[i := SetupSlot(m, sampleRate, band, rs[i])]
  {
    SetupSlotOn(filtersL, reprL, i, m, sampleRate, band);
    SetupSlotOn(filtersR, reprR, i, m, sampleRate, band);
  }

  /** The loop of `setup`: slots 0 .. n-1 of both sides, in ascending order. */
  method SetupBanks(filtersL: array<BiquadFilter>, ghost reprL: set<BiquadFilter>,
                    filtersR: array<BiquadFilter>, ghost reprR: set<BiquadFilter>,
                    m: FloatMath, sampleRate: real, bands: seq<TitanEqBand>, n: nat)
    requires Bank(filtersL, reprL) && Bank(filtersR, reprR) && reprL !! reprR
    requires n <= |bands| && n <= filtersL.Length == filtersR.Length
    modifies reprL, reprR
    ensures BankStates(filtersL, reprL) == ConfigurePrefix(m, sampleRate, bands, old(BankStates(filtersL, reprL)), n)
    ensures BankStates(filtersR, reprR) == ConfigurePrefix(m, sampleRate, bands, old(BankStates(filtersR, reprR)), n)
  {
    ghost var ls, rs := BankStates(filtersL, reprL), BankStates(filtersR, reprR);
    var i := 0;
    while i < n
      invariant 0 <= i <= n && Bank(filtersL, reprL) && Bank(filtersR, reprR)
      invariant BankStates(filtersL, reprL) == ConfigurePrefix(m, sampleRate, bands, ls, i)
      invariant BankStates(filtersR, reprR) == ConfigurePrefix(m, sampleRate, bands, rs, i)
    {
      ghost var pl, pr := ConfigurePrefix(m, sampleRate, bands, ls, i), ConfigurePrefix(m, sampleRate, bands, rs, i);
      assert ConfigurePrefix(m, sampleRate, bands, ls, i + 1) == pl[i := SetupSlot(m, sampleRate, bands[i], pl[i])];
      assert ConfigurePrefix(m, sampleRate, bands, rs, i + 1) == pr[i := SetupSlot(m, sampleRate, bands[i], pr[i])];
      SetupSlotPair(filtersL, reprL, filtersR, reprR, i, m, sampleRate, bands[i]);
      i := i + 1;
    }
  }

  /** The loop of `reset` over one side: every history is zeroed. */
  method ResetBank(filters: array<BiquadFilter>, ghost repr: set<BiquadFilter>)
    requires Bank(filters, repr)
    modifies repr
    ensures BankStates(filters, repr) == ResetAll(old(BankStates(filters, repr)))
  {
    ghost var fs := BankStates(filters, repr);
    var i := 0;
    while i < filters.Length
      invariant 0 <= i <= filters.Length
      invariant forall j :: 0 <= j < filters.Length ==>
                  filters[j].State() == (if j < i then FilterState(fs[j].coeffs, Silence) else fs[j])
    {
      filters[i].Reset();
      i := i + 1;
    }
    assert BankStates(filters, repr) == ResetAll(fs);
  }

  class TitanEqCore {
    const numBands: nat
    const filtersL: array<BiquadFilter>
    const filtersR: array<BiquadFilter>
    var currentBands: seq<TitanEqBand>

    /** The filter objects of each side. */
    ghost const ReprL: set<BiquadFilter>
    ghost const ReprR: set<BiquadFilter>

    /** Both arrays have `numBands` slots, each side owns its own filters,
        and no filter object fills two slots. */
    ghost predicate Valid()
      reads filtersL, filtersR
    {
      filtersL.Length == numBands && filtersR.Length == numBands && ReprL !! ReprR &&
      Bank(filtersL, ReprL) && Bank(filtersR, ReprR)
    }

    /** The values held by the left filters, slot by slot. */
    ghost function Left(): seq<FilterState>
      requires Valid()
      reads filtersL, filtersR, ReprL
    {
      BankStates(filtersL, ReprL)
    }

    /** The values held by the right filters, slot by slot. */
    ghost function Right(): seq<FilterState>
      requires Valid()
      reads filtersL, filtersR, ReprR
    {
      BankStates(filtersR, ReprR)
    }

    constructor(numBands: nat)
      ensures Valid() && this.numBands == numBands
      ensures fresh(ReprL) && fresh(ReprR)
      ensures currentBands == []
      ensures forall i :: 0 <= i < numBands ==>
                filtersL[i].State() == Unconfigured && filtersR[i].State() == Unconfigured
    {
      this.numBands := numBands;
      var ls, rs;
      ghost var gl, gr;
      ls, gl, rs, gr := NewBanks(numBands);
      filtersL, ReprL := ls, gl;
      filtersR, ReprR := rs, gr;
      currentBands := [];
    }

    /** Stores the band list, then configures the enabled slots below
        min(numBands, |bands|) on both sides and resets the disabled ones. */
    method Setup(m: FloatMath, sampleRate: real, bands: seq<TitanEqBand>)
      requires Valid()
      modifies this, ReprL, ReprR
      ensures Valid() && currentBands == bands
      ensures Left() == Configure(m, sampleRate, bands, old(Left()))
      ensures Right() == Configure(m, sampleRate, bands, old(Right()))
    {
      currentBands := bands;
      var bandsToProcess := Min(numBands, |bands|);
      SetupBanks(filtersL, ReprL, filtersR, ReprR, m, sampleRate, bands, bandsToProcess);
    }

    /** Cascades a sample through the left filters of the enabled slots. */
    method ProcessL(sampleL: real) returns (outL: real)
      requires Valid()
      modifies ReprL
      ensures Valid()
      ensures Cascaded(outL, Left()) == Cascade(currentBands, old(Left()), sampleL)
      ensures Right() == old(Right())
    {
      outL := CascadeBank(filtersL, ReprL, currentBands, Min(|currentBands|, numBands), sampleL);
    }

    /** Cascades a sample through the right filters of the enabled slots. */
    method ProcessR(sampleR: real) returns (outR: real)
      requires Valid()
      modifies ReprR
      ensures Valid()
      ensures Cascaded(outR, Right()) == Cascade(currentBands, old(Right()), sampleR)
      ensures Left() == old(Left())
    {
      outR := CascadeBank(filtersR, ReprR, currentBands, Min(|currentBands|, numBands), sampleR);
    }

    /** Resets the history of every filter on both sides. */
    method Reset()
      requires Valid()
      modifies ReprL, ReprR
      ensures Valid()
      ensures Left() == ResetAll(old(Left())) && Right() == ResetAll(old(Right()))
    {
      ResetBank(filtersL, ReprL);
      ResetBank(filtersR, ReprR);
    }
  }
}
