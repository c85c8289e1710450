// BandSplitterAudioProcessor's mutable state (PluginProcessor.hpp) and its
// block-processing and state-persistence methods (PluginProcessor.cpp),
// proved equal to the functions of modules Crossover and StateCodec.

module Processor {
  import opened Types
  import opened Crossover
  import opened StateCodec

  /** Channel `c` of the host buffer, one row of `buffer[channel, sample]`. */
  ghost function Row(a: array2<real>, c: nat): seq<real>
    reads a
    requires c < a.Length0
  {
    seq(a.Length1, j requires 0 <= j < a.Length1 reads a => a[c, j])
  }

  /** All channels of the host buffer. */
  ghost function Rows(a: array2<real>): seq<seq<real>>
    reads a
  {
    seq(a.Length0, c requires 0 <= c < a.Length0 reads a => Row(a, c))
  }

  lemma RowsShape(a: array2<real>)
    ensures |Rows(a)| == a.Length0 && Uniform(Rows(a))
    ensures a.Length0 > 0 ==> Samples(Rows(a)) == a.Length1
    ensures forall c, j :: 0 <= c < a.Length0 && 0 <= j < a.Length1 ==> Rows(a)[c][j] == a[c, j]
  {
  }

  /** The buffer holds exactly the channels `rows`. */
  lemma RowsAre(a: array2<real>, rows: seq<seq<real>>)
    requires |rows| == a.Length0
    requires forall c :: 0 <= c < |rows| ==> |rows[c]| == a.Length1
    requires forall c, j :: 0 <= c < a.Length0 && 0 <= j < a.Length1 ==> a[c, j] == rows[c][j]
    ensures Rows(a) == rows
  {
    forall c | 0 <= c < a.Length0 ensures Rows(a)[c] == rows[c] {
      assert Rows(a)[c] == Row(a, c);
    }
  }

  /** `std::memcpy(BUF(dst), BUF(src), samples * sizeof(float))` */
  method CopyChannel(buffer: array2<real>, src: nat, dst: nat)
    requires src < buffer.Length0 && dst < buffer.Length0
    modifies buffer
    ensures Rows(buffer) == old(Rows(buffer))[dst := old(Rows(buffer))[src]]
  {
    ghost var rows := Rows(buffer);
    RowsShape(buffer);
    forall j | 0 <= j < buffer.Length1 {
      buffer[dst, j] := buffer[src, j];
    }
    RowsAre(buffer, rows[dst := rows[src]]);
  }

  /** `for (j = 0; j < samples; j++) b[j] -= a[j];` */
  method SubtractChannel(buffer: array2<real>, dst: nat, src: nat)
    requires dst < buffer.Length0 && src < buffer.Length0 && dst != src
    modifies buffer
    ensures Rows(buffer) == old(Rows(buffer))[dst := Diff(old(Rows(buffer))[dst], old(Rows(buffer))[src])]
  {
    ghost var rows := Rows(buffer);
    RowsShape(buffer);
    var j := 0;
    while j < buffer.Length1
      invariant 0 <= j <= buffer.Length1
      invariant forall c, k :: 0 <= c < buffer.Length0 && 0 <= k < buffer.Length1 ==>
        buffer[c, k] == if c == dst && k < j then rows[dst][k] - rows[src][k] else rows[c][k]
    {
      buffer[dst, j] := buffer[dst, j] - buffer[src, j];
      j := j + 1;
    }
    RowsAre(buffer, rows[dst := Diff(rows[dst], rows[src])]);
  }

  /** processStereo's subtraction loop, `l2[j] -= l[j]; r2[j] -= r[j];`. */
  method SubtractChannelPair(buffer: array2<real>, l2: nat, l: nat, r2: nat, r: nat)
    requires l2 < buffer.Length0 && l < buffer.Length0 && r2 < buffer.Length0 && r < buffer.Length0
    requires l2 != l && l2 != r && l2 != r2 && r2 != l && r2 != r
    modifies buffer
    ensures Rows(buffer) == old(Rows(buffer))[l2 := Diff(old(Rows(buffer))[l2], old(Rows(buffer))[l])]
                                             [r2 := Diff(old(Rows(buffer))[r2], old(Rows(buffer))[r])]
  {
    ghost var rows := Rows(buffer);
    RowsShape(buffer);
    var j := 0;
    while j < buffer.Length1
      invariant 0 <= j <= buffer.Length1
      invariant forall c, k :: 0 <= c < buffer.Length0 && 0 <= k < buffer.Length1 ==>
        buffer[c, k] == if c == l2 && k < j then rows[l2][k] - rows[l][k]
                        else if c == r2 && k < j then rows[r2][k] - rows[r][k]
                        else rows[c][k]
    {
      buffer[l2, j] := buffer[l2, j] - buffer[l, j];
      buffer[r2, j] := buffer[r2, j] - buffer[r, j];
      j := j + 1;
    }
    RowsAre(buffer, rows[l2 := Diff(rows[l2], rows[l])][r2 := Diff(rows[r2], rows[r])]);
  }

  /** `buffer.clear()` */
  method ClearBuffer(buffer: array2<real>)
    modifies buffer
    ensures Rows(buffer) == Cleared(old(Rows(buffer)))
  {
    ghost var rows := Rows(buffer);
    RowsShape(buffer);
    forall c, j | 0 <= c < buffer.Length0 && 0 <= j < buffer.Length1 {
      buffer[c, j] := 0.0;
    }
    RowsAre(buffer, Cleared(rows));
  }

  class BandSplitterProcessor {
    /** The effective band count the previous block was processed with. */
    var lastBands: int
    /** The table of 2 * (MAX_BANDS - 1) biquad stages; crossover i uses
        stage i, so only the first MAX_BANDS - 1 are ever addressed. */
    const filters: array<BiquadParams>
    /** The filter-history pool, one slot per (channel, pass, crossover). */
    const states: array<real>
    /** The normalised value of the band-count parameter. */
    var bandsParam: real
    /** The normalised values of the split-frequency parameters. */
    const splitParams: array<real>

    ghost predicate Valid()
    {
      filters.Length == FILTER_COUNT && states.Length == STATE_SLOTS &&
      splitParams.Length == SPLITS && states != splitParams
    }

    /** The host-facing parameter values. */
    ghost function Parameters(): Params
      reads this, splitParams
    {
      Params(bandsParam, splitParams[..])
    }

    /** The buffer, the biquad table and the history pool, as values. */
    ghost function EngineOf(buffer: array2<real>): Engine
      reads buffer, filters, states
    {
      Engine(Rows(buffer), filters[..], states[..])
    }

    /** A new processor: `lastBands` is 0, every history slot is zero, and
        the parameters hold their defaults. (The defaults and the stages'
        value-initialised settings come from JUCE and BiquadFilter.hpp, so
        they are given here.) */
    constructor (bandsDefault: real, splitDefaults: seq<real>, blank: BiquadParams)
      requires |splitDefaults| == SPLITS
      ensures Valid() && fresh(filters) && fresh(states) && fresh(splitParams)
      ensures lastBands == 0
      ensures states[..] == Zeros(STATE_SLOTS)
      ensures filters[..] == seq(FILTER_COUNT, _ => blank)
      ensures Parameters() == Params(bandsDefault, splitDefaults)
    {
      lastBands := 0;
      filters := new BiquadParams[FILTER_COUNT](_ => blank);
      states := new real[STATE_SLOTS](_ => 0.0);
      bandsParam := bandsDefault;
      splitParams := new real[SPLITS](i requires 0 <= i < SPLITS => splitDefaults[i]);
      new;
      assert splitParams[..] == splitDefaults;
    }

    /** `getFreqParam(split)`: valid only for 0 <= split < MAX_BANDS - 1,
        as the commented-out assertion says; it is the value the state
        codec saves at position split + 2. */
    function GetFreqParam(split: int): (r: real)
      reads this, splitParams
      requires Valid() && 0 <= split < MAX_BANDS - 1
      ensures SaveState(Parameters())[2 + split] == FloatItem(r)
    {
      splitParams[split]
    }

    /** `filters[fi].processBlock(BUF(ch), samples, states[slot])` */
    method RunFilter(buffer: array2<real>, ch: nat, fi: nat, slot: nat, run: BiquadRun)
      requires Valid() && ch < buffer.Length0 && fi < FILTER_COUNT && slot < STATE_SLOTS
      modifies buffer, states
      ensures EngineOf(buffer) == Filtered(old(EngineOf(buffer)), ch, fi, slot, run)
    {
      ghost var rows := Rows(buffer);
      RowsShape(buffer);
      var x := seq(buffer.Length1, j requires 0 <= j < buffer.Length1 reads buffer => buffer[ch, j]);
      assert x == rows[ch];
      var out := run(filters[fi], x, states[slot]);
      var y := out.0;
      forall j | 0 <= j < buffer.Length1 {
        buffer[ch, j] := y[j];
      }
      states[slot] := out.1;
      RowsAre(buffer, rows[ch := y]);
    }

    /** The reconfiguration loop over stages 0..n-2. */
    method ConfigureFilters(n: int, freqs: seq<real>)
      requires Valid() && |freqs| == SPLITS && n - 1 <= SPLITS
      modifies filters
      ensures filters[..] == Configured(old(filters[..]), freqs, n)
    {
      var i := 0;
      while i < n - 1
        invariant 0 <= i <= (if n - 1 < 0 then 0 else n - 1)
        invariant forall k :: 0 <= k < FILTER_COUNT ==>
          filters[k] == if k < i then LowpassAt(freqs[k]) else old(filters[k])
      {
        filters[i] := LowpassAt(freqs[i]);
        i := i + 1;
      }
    }

    /** `std::memset(states, 0, sizeof(states))` */
    method ZeroStates()
      requires Valid()
      modifies states
      ensures states[..] == Zeros(STATE_SLOTS)
    {
      forall k | 0 <= k < states.Length {
        states[k] := 0.0;
      }
    }

    /** `if (filters[i].getParameters().f != freq) filters[i].setParameters(...)` */
    method RefreshFilter(i: nat, f: real)
      requires Valid() && i < FILTER_COUNT
      modifies filters
      ensures filters[..] == old(filters[..])[i := Refreshed(old(filters[i]), f)]
    {
      if filters[i].f != f {
        filters[i] := LowpassAt(f);
      }
    }

    /** The two biquad passes of mono crossover `i`, both with stage i. */
    method MonoFilterPasses(buffer: array2<real>, i: nat, run: BiquadRun)
      requires Valid() && i < SPLITS && i < buffer.Length0
      modifies buffer, states
      ensures EngineOf(buffer) == MonoPasses(old(EngineOf(buffer)), i, run)
    {
      RowsShape(buffer);
      ghost var e := EngineOf(buffer);
      RunFilter(buffer, i, i, i, run);
      assert EngineOf(buffer) == Filtered(e, i, i, Slot(Mono, 0, 0, i), run);
      RunFilter(buffer, i, i, i - 1 + MAX_BANDS, run);
    }

    /** One iteration of processMono's crossover loop. */
    method MonoCrossover(buffer: array2<real>, i: nat, f: real, run: BiquadRun)
      requires Valid() && i < SPLITS && i + 1 < buffer.Length0
      modifies buffer, filters, states
      ensures EngineOf(buffer) == MonoStep(old(EngineOf(buffer)), i, f, run)
    {
      RowsShape(buffer);
      ghost var e := EngineOf(buffer);
      CopyChannel(buffer, i, i + 1);
      RefreshFilter(i, f);
      ghost var e2 := Refresh(Copied(e, i, i + 1), i, f);
      assert EngineOf(buffer) == e2;
      MonoFilterPasses(buffer, i, run);
      assert EngineOf(buffer) == MonoPasses(e2, i, run);
      SubtractChannel(buffer, i + 1, i);
    }

    /** The four biquad passes of stereo crossover `i`, all with stage i. */
    method StereoFilterPasses(buffer: array2<real>, i: nat, run: BiquadRun)
      requires Valid() && i < SPLITS && 2 * i + 1 < buffer.Length0
      modifies buffer, states
      ensures EngineOf(buffer) == StereoPasses(old(EngineOf(buffer)), i, run)
    {
      RowsShape(buffer);
      ghost var e := EngineOf(buffer);
      var l, r := i * 2, i * 2 + 1;
      RunFilter(buffer, l, i, i, run);
      ghost var e1 := Filtered(e, 2 * i, i, Slot(Stereo, 0, 0, i), run);
      assert EngineOf(buffer) == e1;
      RunFilter(buffer, r, i, MAX_BANDS - 1 + i, run);
      ghost var e2 := Filtered(e1, 2 * i + 1, i, Slot(Stereo, 0, 1, i), run);
      assert EngineOf(buffer) == e2;
      RunFilter(buffer, l, i, MAX_BANDS * 2 - 2 + i, run);
      assert EngineOf(buffer) == Filtered(e2, 2 * i, i, Slot(Stereo, 1, 0, i), run);
      RunFilter(buffer, r, i, MAX_BANDS * 3 - 3 + i, run);
    }

    /** One iteration of processStereo's crossover loop, on channels
        l = 2i, r = 2i + 1, l2 = 2i + 2 and r2 = 2i + 3. */
    method StereoCrossover(buffer: array2<real>, i: nat, f: real, run: BiquadRun)
      requires Valid() && i < SPLITS && 2 * i + 3 < buffer.Length0
      modifies buffer, filters, states
      ensures EngineOf(buffer) == StereoStep(old(EngineOf(buffer)), i, f, run)
    {
      RowsShape(buffer);
      ghost var e := EngineOf(buffer);
      var l, r, l2, r2 := i * 2, i * 2 + 1, i * 2 + 2, i * 2 + 3;
      CopyChannel(buffer, l, l2);
      CopyChannel(buffer, r, r2);
      RefreshFilter(i, f);
      ghost var e2 := Refresh(StereoSeeded(e, i), i, f);
      assert EngineOf(buffer) == e2;
      StereoFilterPasses(buffer, i, run);
      assert EngineOf(buffer) == StereoPasses(e2, i, run);
      SubtractChannelPair(buffer, l2, l, r2, r);
    }

    /** A change of effective band count: `buffer.clear()` and the
        stages of the first n - 1 crossovers are given the current split
        frequencies; the filter history is kept. */
    method Reconfiguration(buffer: array2<real>, n: int, freqs: seq<real>)
      requires Valid() && |freqs| == SPLITS && n - 1 <= SPLITS
      modifies buffer, filters
      ensures EngineOf(buffer) == Reconfigure(old(EngineOf(buffer)), n, freqs)
    {
      ClearBuffer(buffer);
      ConfigureFilters(n, freqs);
    }

    /** The stability guard at the end of a split block. */
    method StabilityGuard(buffer: array2<real>, finite: real -> bool)
      requires Valid() && buffer.Length0 >= 1
      modifies states
      ensures EngineOf(buffer) == Guard(old(EngineOf(buffer)), finite)
    {
      RowsShape(buffer);
      if buffer.Length1 > 0 && !finite(buffer[0, 0]) {
        ZeroStates();
      }
    }

    /** processMono's crossover loop over the first n - 1 crossovers. */
    method MonoCascade(buffer: array2<real>, n: int, freqs: seq<real>, run: BiquadRun)
      requires Valid() && 1 <= n <= MAX_BANDS && n <= buffer.Length0 && |freqs| == SPLITS
      modifies buffer, filters, states
      ensures EngineOf(buffer) == Cascade(Mono, old(EngineOf(buffer)), n - 1, freqs, run)
    {
      RowsShape(buffer);
      ghost var e := EngineOf(buffer);
      var i := 0;
      while i < n - 1
        invariant 0 <= i <= n - 1
        invariant EngineOf(buffer) == Cascade(Mono, e, i, freqs, run)
      {
        MonoCrossover(buffer, i, freqs[i], run);
        i := i + 1;
      }
    }

    /** processStereo's crossover loop over the first n - 1 crossovers. */
    method StereoCascade(buffer: array2<real>, n: int, freqs: seq<real>, run: BiquadRun)
      requires Valid() && 1 <= n <= MAX_BANDS && 2 * n <= buffer.Length0 && |freqs| == SPLITS
      modifies buffer, filters, states
      ensures EngineOf(buffer) == Cascade(Stereo, old(EngineOf(buffer)), n - 1, freqs, run)
    {
      RowsShape(buffer);
      ghost var e := EngineOf(buffer);
      var i := 0;
      while i < n - 1
        invariant 0 <= i <= n - 1
        invariant EngineOf(buffer) == Cascade(Stereo, e, i, freqs, run)
      {
        StereoCrossover(buffer, i, freqs[i], run);
        i := i + 1;
      }
    }

    /** processMono, with one input and `buffer.Length0` outputs. */
    method ProcessMono(buffer: array2<real>, bands: int, freqs: seq<real>, finite: real -> bool, run: BiquadRun)
      requires Valid() && buffer.Length0 >= 1 && 2 <= bands <= MAX_BANDS && |freqs| == SPLITS
      modifies this`lastBands, buffer, filters, states
      ensures lastBands == Block(Mono, old(lastBands), old(EngineOf(buffer)), bands, freqs, finite, run).0
      ensures EngineOf(buffer) == Block(Mono, old(lastBands), old(EngineOf(buffer)), bands, freqs, finite, run).1
    {
      RowsShape(buffer);
      ghost var e := EngineOf(buffer);
      var outputs := buffer.Length0;
      var n := bands;
      if n > outputs {
        n := outputs;
      }
      assert n == EffectiveBands(Mono, bands, outputs);
      if lastBands != n {
        lastBands := n;
        Reconfiguration(buffer, n, freqs);
        return;
      }
      MonoCascade(buffer, n, freqs, run);
      ghost var c := Cascade(Mono, e, n - 1, freqs, run);
      assert EngineOf(buffer) == c;
      StabilityGuard(buffer, finite);
      assert EngineOf(buffer) == Guard(c, finite);
    }

    /** processStereo, with at least two inputs and `buffer.Length0`
        outputs: band b occupies channels 2b (left) and 2b+1 (right). */
    method ProcessStereo(buffer: array2<real>, bands: int, freqs: seq<real>, finite: real -> bool, run: BiquadRun)
      requires Valid() && buffer.Length0 >= 2 && 2 <= bands <= MAX_BANDS && |freqs| == SPLITS
      modifies this`lastBands, buffer, filters, states
      ensures lastBands == Block(Stereo, old(lastBands), old(EngineOf(buffer)), bands, freqs, finite, run).0
      ensures EngineOf(buffer) == Block(Stereo, old(lastBands), old(EngineOf(buffer)), bands, freqs, finite, run).1
    {
      RowsShape(buffer);
      ghost var e := EngineOf(buffer);
      var outputs := buffer.Length0;
      var n := bands;
      if n * 2 > outputs {
        n := outputs / 2;
      }
      assert n == EffectiveBands(Stereo, bands, outputs);
      if lastBands != n {
        lastBands := n;
        Reconfiguration(buffer, n, freqs);
        return;
      }
      StereoCascade(buffer, n, freqs, run);
      ghost var c := Cascade(Stereo, e, n - 1, freqs, run);
      assert EngineOf(buffer) == c;
      StabilityGuard(buffer, finite);
      assert EngineOf(buffer) == Guard(c, finite);
    }

    /** processBlock: the host buffer holds max(inputs, outputs) channels.
        Blocks pass through untouched unless there are more outputs than
        inputs; then one input selects the mono path and more the stereo
        path. */
    method ProcessBlock(buffer: array2<real>, inputs: nat, outputs: nat, bands: int, freqs: seq<real>,
                        finite: real -> bool, run: BiquadRun)
      requires Valid() && buffer.Length0 == (if inputs > outputs then inputs else outputs)
      requires 2 <= bands <= MAX_BANDS && |freqs| == SPLITS
      modifies this`lastBands, buffer, filters, states
      ensures Route(inputs, outputs) == PassThrough ==>
        lastBands == old(lastBands) && unchanged(buffer) && unchanged(filters) && unchanged(states)
      ensures Route(inputs, outputs).Split? ==>
        (lastBands, EngineOf(buffer)) ==
          Block(Route(inputs, outputs).layout, old(lastBands), old(EngineOf(buffer)), bands, freqs, finite, run)
    {
      if inputs == 0 {
        return;
      }
      if outputs == 0 {
        return;
      }
      if outputs <= inputs {
        return;
      }
      if inputs == 1 {
        ProcessMono(buffer, bands, freqs, finite, run);
      } else {
        ProcessStereo(buffer, bands, freqs, finite, run);
      }
    }

    /** getStateInformation */
    method GetStateInformation() returns (data: seq<Item>)
      requires Valid()
      ensures data == SaveState(Parameters())
    {
      data := [IntItem(MAX_BANDS), FloatItem(bandsParam)];
      var i := 0;
      while i < MAX_BANDS - 1
        invariant 0 <= i <= SPLITS
        invariant data == SaveState(Parameters())[..2 + i]
      {
        data := data + [FloatItem(splitParams[i])];
        i := i + 1;
      }
    }

    /** setStateInformation */
    method SetStateInformation(data: seq<Item>)
      requires Valid()
      modifies this`bandsParam, splitParams
      ensures Parameters() == LoadState(old(Parameters()), data)
    {
      var pos := 0;
      var n := ReadInt(data, pos);
      pos := pos + 1;
      bandsParam := ReadFloat(data, pos);
      pos := pos + 1;
      var m := StoredSplits(n);
      var i := 0;
      while i < MAX_BANDS - 1 && i < n - 1
        invariant 0 <= i <= m && pos == 2 + i
        invariant bandsParam == ReadFloat(data, 1)
        invariant LoadSplits(splitParams[..], data, i, m) == LoadSplits(old(splitParams[..]), data, 0, m)
      {
        splitParams[i] := ReadFloat(data, pos);
        pos := pos + 1;
        i := i + 1;
      }
      assert i == m;
      assert LoadSplits(splitParams[..], data, i, m) == splitParams[..];
      assert m == StoredSplits(ReadInt(data, 0));
      assert splitParams[..] == LoadSplits(old(splitParams[..]), data, 0, m);
    }
  }
}
