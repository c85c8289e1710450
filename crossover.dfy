// The block-processing engine of BandSplitterAudioProcessor (processBlock,
// processMono, processStereo in PluginProcessor.cpp) as functions on values:
// the reference the imperative methods in processor.dfy are proved against.

module Crossover {
  import opened Types

  /** Everything a block reads and writes: the channels of the host buffer,
      the biquad table and the filter-history pool. */
  datatype Engine = Engine(rows: seq<seq<real>>, filters: seq<BiquadParams>, states: seq<real>)

  function Samples(rows: seq<seq<real>>): nat
  {
    if |rows| == 0 then 0 else |rows[0]|
  }

  /** Every channel of the buffer holds the same number of samples. */
  predicate Uniform(rows: seq<seq<real>>)
  {
    forall c :: 0 <= c < |rows| ==> |rows[c]| == Samples(rows)
  }

  predicate Shaped(e: Engine)
  {
    Uniform(e.rows) && |e.filters| == FILTER_COUNT && |e.states| == STATE_SLOTS
  }

  // ---------------------------------------------------------------------
  // Channel gate and band-count clamp

  datatype Layout = Mono | Stereo

  /** Physical channels per band. */
  function Width(l: Layout): nat
  {
    if l == Mono then 1 else 2
  }

  datatype Path = PassThrough | Split(layout: Layout)

  /** processBlock's gate: blocks pass through untouched unless there are
      more outputs than inputs; one input selects the mono path, more than
      one the stereo path. */
  function Route(inputs: nat, outputs: nat): (p: Path)
    ensures p == PassThrough <==> (inputs == 0 || outputs == 0 || outputs <= inputs)
    ensures p == Split(Mono) <==> (inputs == 1 && outputs > 1)
    ensures p == Split(Stereo) <==> (inputs >= 2 && outputs > inputs)
  {
    if inputs == 0 then PassThrough
    else if outputs == 0 then PassThrough
    else if outputs <= inputs then PassThrough
    else if inputs == 1 then Split(Mono)
    else Split(Stereo)
  }

  /** The effective band count: the largest count not above the request
      whose channels fit in the outputs. */
  function EffectiveBands(l: Layout, bands: int, outputs: nat): (n: int)
    ensures n <= bands && n * Width(l) <= outputs
    ensures n == bands || (n + 1) * Width(l) > outputs
    ensures bands >= 0 ==> n >= 0
    ensures bands >= 1 && outputs >= Width(l) ==> n >= 1
  {
    match l
    case Mono => if bands > outputs then outputs else bands
    case Stereo => if bands * 2 > outputs then outputs / 2 else bands
  }

  /** Buffer channel of physical channel `lane` of band `band`. */
  function Channel(l: Layout, band: nat, lane: nat): nat
  {
    if l == Mono then band else 2 * band + lane
  }

  /** History slot of biquad pass `pass` (0 or 1) on `lane` at crossover `i`:
      mono uses i and i - 1 + MAX_BANDS, stereo i, MAX_BANDS - 1 + i,
      MAX_BANDS * 2 - 2 + i and MAX_BANDS * 3 - 3 + i. */
  function Slot(l: Layout, pass: nat, lane: nat, i: nat): nat
  {
    if l == Mono then 15 * pass + i else 30 * pass + 15 * lane + i
  }

  /** The slots crossover `i` may write. */
  predicate UsesSlot(l: Layout, i: nat, s: nat)
  {
    s < 30 * Width(l) && s % 15 == i
  }

  // ---------------------------------------------------------------------
  // The primitive buffer and table operations of one crossover

  /** `memcpy(dst, src, samples * sizeof(float))` */
  function Copied(e: Engine, src: nat, dst: nat): Engine
    requires src < |e.rows| && dst < |e.rows|
  {
    e.(rows := e.rows[dst := e.rows[src]])
  }

  function Diff(a: seq<real>, b: seq<real>): (d: seq<real>)
    requires |a| == |b|
    ensures |d| == |a| && forall j :: 0 <= j < |a| ==> d[j] + b[j] == a[j]
  {
    seq(|a|, j requires 0 <= j < |a| => a[j] - b[j])
  }

  /** The per-sample loop `dst[j] -= src[j]`. */
  function Subtracted(e: Engine, dst: nat, src: nat): Engine
    requires dst < |e.rows| && src < |e.rows| && |e.rows[dst]| == |e.rows[src]|
  {
    e.(rows := e.rows[dst := Diff(e.rows[dst], e.rows[src])])
  }

  /** A stage is re-parameterised only when its stored frequency differs
      from the current split value. */
  function Refreshed(p: BiquadParams, f: real): (r: BiquadParams)
    ensures r.f == f && (r == p || r == LowpassAt(f))
    ensures p.f == f ==> r == p
  {
    if p.f != f then LowpassAt(f) else p
  }

  function Refresh(e: Engine, i: nat, f: real): Engine
    requires i < |e.filters|
  {
    e.(filters := e.filters[i := Refreshed(e.filters[i], f)])
  }

  /** `filters[fi].processBlock(BUF(ch), samples, states[slot])` */
  function Filtered(e: Engine, ch: nat, fi: nat, slot: nat, run: BiquadRun): Engine
    requires ch < |e.rows| && fi < |e.filters| && slot < |e.states|
  {
    var out := run(e.filters[fi], e.rows[ch], e.states[slot]);
    e.(rows := e.rows[ch := out.0], states := e.states[slot := out.1])
  }

  // ---------------------------------------------------------------------
  // One crossover of the subtractive split cascade

  /** The two biquad passes of mono crossover `i`, in place on band i:
      nothing but channel i and slots i and i + 15 changes. */
  function MonoPasses(e: Engine, i: nat, run: BiquadRun): (r: Engine)
    requires Shaped(e) && i < SPLITS && i < |e.rows|
    ensures Shaped(r) && |r.rows| == |e.rows| && Samples(r.rows) == Samples(e.rows)
    ensures forall ch :: 0 <= ch < |e.rows| && ch != i ==> r.rows[ch] == e.rows[ch]
    ensures r.filters == e.filters
    ensures forall s :: 0 <= s < STATE_SLOTS && s != i && s != i + 15 ==> r.states[s] == e.states[s]
  {
    var e1 := Filtered(e, i, i, Slot(Mono, 0, 0, i), run);
    var r := Filtered(e1, i, i, Slot(Mono, 1, 0, i), run);
    assert forall c :: 0 <= c < |r.rows| ==> |r.rows[c]| == |e.rows[c]|;
    r
  }

  /** Iteration `i` of processMono's loop: copy band i to band i + 1,
      refresh stage i, filter band i twice, subtract it from band i + 1. */
  function MonoStep(e: Engine, i: nat, f: real, run: BiquadRun): (r: Engine)
    requires Shaped(e) && i < SPLITS && i + 1 < |e.rows|
    ensures Shaped(r) && |r.rows| == |e.rows| && Samples(r.rows) == Samples(e.rows)
  {
    var p := MonoPasses(Refresh(Copied(e, i, i + 1), i, f), i, run);
    Subtracted(p, i + 1, i)
  }

  /** The copies that seed stereo crossover `i`: l2 = 2i+2 and r2 = 2i+3
      start as l = 2i and r = 2i+1. */
  function StereoSeeded(e: Engine, i: nat): (r: Engine)
    requires Shaped(e) && i < SPLITS && 2 * i + 3 < |e.rows|
    ensures Shaped(r) && |r.rows| == |e.rows| && Samples(r.rows) == Samples(e.rows)
    ensures r.rows == e.rows[2 * i + 2 := e.rows[2 * i]][2 * i + 3 := e.rows[2 * i + 1]]
    ensures r.filters == e.filters && r.states == e.states
  {
    Copied(Copied(e, 2 * i, 2 * i + 2), 2 * i + 1, 2 * i + 3)
  }

  /** The four biquad passes of stereo crossover `i`, in place on l and r:
      nothing but channels 2i, 2i+1 and slots i, 15+i, 30+i, 45+i changes. */
  function StereoPasses(e: Engine, i: nat, run: BiquadRun): (r: Engine)
    requires Shaped(e) && i < SPLITS && 2 * i + 1 < |e.rows|
    ensures Shaped(r) && |r.rows| == |e.rows| && Samples(r.rows) == Samples(e.rows)
    ensures forall ch :: 0 <= ch < |e.rows| && ch != 2 * i && ch != 2 * i + 1 ==> r.rows[ch] == e.rows[ch]
    ensures r.filters == e.filters
    ensures forall s :: 0 <= s < STATE_SLOTS && s != i && s != 15 + i && s != 30 + i && s != 45 + i ==>
      r.states[s] == e.states[s]
  {
    var e1 := Filtered(e, 2 * i, i, Slot(Stereo, 0, 0, i), run);
    var e2 := Filtered(e1, 2 * i + 1, i, Slot(Stereo, 0, 1, i), run);
    var e3 := Filtered(e2, 2 * i, i, Slot(Stereo, 1, 0, i), run);
    var r := Filtered(e3, 2 * i + 1, i, Slot(Stereo, 1, 1, i), run);
    assert forall c :: 0 <= c < |r.rows| ==> |r.rows[c]| == |e.rows[c]|;
    r
  }

  /** The subtraction loop of stereo crossover `i`: l2 -= l and r2 -= r. */
  function StereoSubtracted(e: Engine, i: nat): (r: Engine)
    requires Shaped(e) && i < SPLITS && 2 * i + 3 < |e.rows|
    ensures Shaped(r) && |r.rows| == |e.rows| && Samples(r.rows) == Samples(e.rows)
    ensures r.rows == e.rows[2 * i + 2 := Diff(e.rows[2 * i + 2], e.rows[2 * i])]
                            [2 * i + 3 := Diff(e.rows[2 * i + 3], e.rows[2 * i + 1])]
    ensures r.filters == e.filters && r.states == e.states
  {
    Subtracted(Subtracted(e, 2 * i + 2, 2 * i), 2 * i + 3, 2 * i + 1)
  }

  /** Iteration `i` of processStereo's loop. */
  function StereoStep(e: Engine, i: nat, f: real, run: BiquadRun): (r: Engine)
    requires Shaped(e) && i < SPLITS && 2 * i + 3 < |e.rows|
    ensures Shaped(r) && |r.rows| == |e.rows| && Samples(r.rows) == Samples(e.rows)
  {
    StereoSubtracted(StereoPasses(Refresh(StereoSeeded(e, i), i, f), i, run), i)
  }

  function Step(l: Layout, e: Engine, i: nat, f: real, run: BiquadRun): (r: Engine)
    requires Shaped(e) && i < SPLITS && Channel(l, i + 2, 0) <= |e.rows|
    ensures Shaped(r) && |r.rows| == |e.rows| && Samples(r.rows) == Samples(e.rows)
  {
    if l == Mono then MonoStep(e, i, f, run) else StereoStep(e, i, f, run)
  }

  /** The state after the first `k` iterations of the crossover loop. */
  function Cascade(l: Layout, e: Engine, k: nat, freqs: seq<real>, run: BiquadRun): (r: Engine)
    requires Shaped(e) && k <= SPLITS && |freqs| == SPLITS
    requires Channel(l, k + 1, 0) <= |e.rows|
    ensures Shaped(r) && |r.rows| == |e.rows| && Samples(r.rows) == Samples(e.rows)
    decreases k
  {
    if k == 0 then e
    else Step(l, Cascade(l, e, k - 1, freqs, run), k - 1, freqs[k - 1], run)
  }

  // ---------------------------------------------------------------------
  // Reconfiguration, stability guard and the whole block

  /** `buffer.clear()` */
  function Cleared(rows: seq<seq<real>>): (z: seq<seq<real>>)
  {
    seq(|rows|, c requires 0 <= c < |rows| => Zeros(|rows[c]|))
  }

  /** The reconfiguration loop: stages 0..n-2 get the current split
      frequencies, the others keep theirs. */
  function Configured(filters: seq<BiquadParams>, freqs: seq<real>, n: int): (r: seq<BiquadParams>)
    requires |freqs| == SPLITS && n - 1 <= SPLITS
  {
    seq(|filters|, k requires 0 <= k < |filters| => if k < n - 1 then LowpassAt(freqs[k]) else filters[k])
  }

  function Reconfigure(e: Engine, n: int, freqs: seq<real>): Engine
    requires |freqs| == SPLITS && n - 1 <= SPLITS
  {
    Engine(Cleared(e.rows), Configured(e.filters, freqs, n), e.states)
  }

  /** The guard as written: it reads `BUF(0)[0]`, which exists only when
      the block has a channel and at least one sample. */
  function GuardAsWritten(e: Engine, finite: real -> bool): (r: Engine)
    requires |e.rows| > 0 && |e.rows[0]| > 0
    ensures r.rows == e.rows && r.filters == e.filters
    ensures !finite(e.rows[0][0]) ==> r.states == Zeros(|e.states|)
    ensures finite(e.rows[0][0]) ==> r == e
  {
    if !finite(e.rows[0][0]) then e.(states := Zeros(|e.states|)) else e
  }

  /** The stability guard fires when the first sample of channel 0 is not
      finite. The block must hold a sample for that to be read; an empty
      block leaves the history alone. */
  predicate Tripped(e: Engine, finite: real -> bool)
  {
    |e.rows| > 0 && |e.rows[0]| > 0 && !finite(e.rows[0][0])
  }

  /** `if (!std::isfinite(BUF(0)[0])) memset(states, 0, sizeof(states))` */
  function Guard(e: Engine, finite: real -> bool): (r: Engine)
    ensures r.rows == e.rows && r.filters == e.filters
    ensures Tripped(e, finite) ==> r.states == Zeros(|e.states|)
    ensures !Tripped(e, finite) ==> r == e
  {
    if Tripped(e, finite) then e.(states := Zeros(|e.states|)) else e
  }

  /** processMono / processStereo: the new `lastBands` and engine state. */
  function Block(l: Layout, last: int, e: Engine, bands: int, freqs: seq<real>,
                 finite: real -> bool, run: BiquadRun): (r: (int, Engine))
    requires Shaped(e) && 2 <= bands <= MAX_BANDS && |freqs| == SPLITS
    requires |e.rows| >= Width(l)
    ensures r.0 == EffectiveBands(l, bands, |e.rows|)
    ensures Shaped(r.1) && |r.1.rows| == |e.rows| && Samples(r.1.rows) == Samples(e.rows)
  {
    var n := EffectiveBands(l, bands, |e.rows|);
    if last != n then (n, Reconfigure(e, n, freqs))
    else (last, Guard(Cascade(l, e, n - 1, freqs, run), finite))
  }
}
