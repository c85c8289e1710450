// What the subtractive split cascade guarantees, proved about the functions
// of module Crossover for every filter function and every input block.

module CrossoverProperties {
  import opened Types
  import opened Crossover

  // ---------------------------------------------------------------------
  // Index arithmetic

  /** Each (pass, lane, crossover) triple has a slot of its own below 60,
      and the slot belongs to that crossover. */
  lemma SlotsDisjoint(l: Layout, p1: nat, c1: nat, i1: nat, p2: nat, c2: nat, i2: nat)
    requires p1 < 2 && c1 < Width(l) && i1 < SPLITS
    requires p2 < 2 && c2 < Width(l) && i2 < SPLITS
    ensures Slot(l, p1, c1, i1) < STATE_SLOTS && UsesSlot(l, i1, Slot(l, p1, c1, i1))
    ensures Slot(l, p1, c1, i1) == Slot(l, p2, c2, i2) ==> p1 == p2 && c1 == c2 && i1 == i2
  {
  }

  /** The slot formula is the source's own index expressions. */
  lemma SlotsMatchSource(i: nat)
    requires i < SPLITS
    ensures Slot(Mono, 0, 0, i) == i && Slot(Mono, 1, 0, i) == i - 1 + MAX_BANDS
    ensures Slot(Stereo, 0, 0, i) == i && Slot(Stereo, 0, 1, i) == MAX_BANDS - 1 + i
    ensures Slot(Stereo, 1, 0, i) == MAX_BANDS * 2 - 2 + i
    ensures Slot(Stereo, 1, 1, i) == MAX_BANDS * 3 - 3 + i
  {
  }

  /** Every channel, filter stage and history slot a split block addresses
      is in range: mono touches channels up to i+1, stereo up to 2i+3. */
  lemma ChannelBounds(inputs: nat, outputs: nat, bands: int, i: nat)
    requires Route(inputs, outputs).Split? && 2 <= bands <= MAX_BANDS
    requires i + 2 <= EffectiveBands(Route(inputs, outputs).layout, bands, outputs)
    ensures var l := Route(inputs, outputs).layout;
      Channel(l, i + 1, Width(l) - 1) < outputs &&
      (l == Mono ==> Channel(l, i + 1, 0) == i + 1) &&
      (l == Stereo ==> Channel(l, i + 1, 1) == 2 * i + 3)
    ensures i < SPLITS && i < FILTER_COUNT
    ensures Slot(Route(inputs, outputs).layout, 1, Width(Route(inputs, outputs).layout) - 1, i) < STATE_SLOTS
  {
  }

  /** `lastBands` starts at 0, and no block that reaches the split paths
      computes 0 bands (mono gets at least 2, stereo at least 1), so the
      first such block always reconfigures. */
  lemma FirstBlockReconfigures(inputs: nat, outputs: nat, bands: int)
    requires Route(inputs, outputs).Split? && 2 <= bands <= MAX_BANDS
    ensures var l := Route(inputs, outputs).layout;
      EffectiveBands(l, bands, outputs) != 0 &&
      (l == Mono ==> EffectiveBands(l, bands, outputs) >= 2) &&
      (l == Stereo ==> EffectiveBands(l, bands, outputs) >= 1)
  {
  }

  /** The first split block after construction (lastBands == 0) only
      reconfigures: it clears the buffer and processes no audio. */
  lemma FirstBlockIsReconfiguration(inputs: nat, e: Engine, bands: int, freqs: seq<real>,
                                    finite: real -> bool, run: BiquadRun)
    requires Route(inputs, |e.rows|).Split? && 2 <= bands <= MAX_BANDS
    requires Shaped(e) && |freqs| == SPLITS
    ensures var l := Route(inputs, |e.rows|).layout;
      var n := EffectiveBands(l, bands, |e.rows|);
      Block(l, 0, e, bands, freqs, finite, run) == (n, Reconfigure(e, n, freqs))
  {
    FirstBlockReconfigures(inputs, |e.rows|, bands);
  }

  // ---------------------------------------------------------------------
  // One crossover

  /** Mono crossover `i` writes only channels i and i + 1, and the new
      band i plus the new band i + 1 is the old band i, sample by sample. */
  lemma MonoStepBands(e: Engine, i: nat, f: real, run: BiquadRun)
    requires Shaped(e) && i < SPLITS && i + 1 < |e.rows|
    ensures forall ch :: 0 <= ch < |e.rows| && ch != i && ch != i + 1 ==> MonoStep(e, i, f, run).rows[ch] == e.rows[ch]
    ensures forall j :: 0 <= j < Samples(e.rows) ==>
      MonoStep(e, i, f, run).rows[i][j] + MonoStep(e, i, f, run).rows[i + 1][j] == e.rows[i][j]
  {
  }

  /** Stereo crossover `i` writes only channels 2i..2i+3, and on each lane
      the new band i plus the new band i + 1 is the old band i. */
  lemma StereoStepBands(e: Engine, i: nat, f: real, run: BiquadRun)
    requires Shaped(e) && i < SPLITS && 2 * i + 3 < |e.rows|
    ensures forall ch :: 0 <= ch < |e.rows| && (ch < 2 * i || ch > 2 * i + 3) ==> StereoStep(e, i, f, run).rows[ch] == e.rows[ch]
    ensures forall lane, j :: 0 <= lane < 2 && 0 <= j < Samples(e.rows) ==>
      StereoStep(e, i, f, run).rows[Channel(Stereo, i, lane)][j] + StereoStep(e, i, f, run).rows[Channel(Stereo, i + 1, lane)][j]
        == e.rows[Channel(Stereo, i, lane)][j]
  {
  }

  /** Crossover `i` writes only the channels of bands i and i + 1. */
  lemma StepKeepsOtherBands(l: Layout, e: Engine, i: nat, f: real, run: BiquadRun)
    requires Shaped(e) && i < SPLITS && Channel(l, i + 2, 0) <= |e.rows|
    ensures forall ch :: 0 <= ch < |e.rows| && (ch < Channel(l, i, 0) || ch >= Channel(l, i + 2, 0)) ==>
      Step(l, e, i, f, run).rows[ch] == e.rows[ch]
  {
    if l == Mono {
      MonoStepBands(e, i, f, run);
    } else {
      StereoStepBands(e, i, f, run);
    }
  }

  /** On each lane, the new band i plus the new band i + 1 is the old band
      i, sample by sample, whatever the filter computes. */
  lemma StepLaneSum(l: Layout, e: Engine, i: nat, f: real, run: BiquadRun)
    requires Shaped(e) && i < SPLITS && Channel(l, i + 2, 0) <= |e.rows|
    ensures forall lane, j :: 0 <= lane < Width(l) && 0 <= j < Samples(e.rows) ==>
      Step(l, e, i, f, run).rows[Channel(l, i, lane)][j] + Step(l, e, i, f, run).rows[Channel(l, i + 1, lane)][j]
        == e.rows[Channel(l, i, lane)][j]
  {
    if l == Mono {
      MonoStepBands(e, i, f, run);
    } else {
      StereoStepBands(e, i, f, run);
    }
  }

  /** Crossover `i` re-parameterises at most stage i, and only when its
      frequency differs from the split value. */
  lemma StepFilters(l: Layout, e: Engine, i: nat, f: real, run: BiquadRun)
    requires Shaped(e) && i < SPLITS && Channel(l, i + 2, 0) <= |e.rows|
    ensures Step(l, e, i, f, run).filters == e.filters[i := Refreshed(e.filters[i], f)]
  {
  }

  /** Crossover `i` writes only its own history slots. */
  lemma StepStates(l: Layout, e: Engine, i: nat, f: real, run: BiquadRun)
    requires Shaped(e) && i < SPLITS && Channel(l, i + 2, 0) <= |e.rows|
    ensures forall s :: 0 <= s < STATE_SLOTS && !UsesSlot(l, i, s) ==> Step(l, e, i, f, run).states[s] == e.states[s]
  {
    forall s | 0 <= s < STATE_SLOTS && !UsesSlot(l, i, s)
      ensures Step(l, e, i, f, run).states[s] == e.states[s]
    {
      if l == Mono {
        assert s != i && s != i + 15;
      } else {
        assert s != i && s != 15 + i && s != 30 + i && s != 45 + i;
      }
    }
  }

  // ---------------------------------------------------------------------
  // Reconstruction

  /** Sample `j` of lane `lane`, summed over bands 0..k-1. */
  function SumBands(rows: seq<seq<real>>, l: Layout, lane: nat, k: nat, j: nat): real
    requires Uniform(rows) && lane < Width(l) && j < Samples(rows)
    requires Channel(l, k, 0) <= |rows|
    decreases k
  {
    if k == 0 then 0.0
    else SumBands(rows, l, lane, k - 1, j) + rows[Channel(l, k - 1, lane)][j]
  }

  /** The sum over bands 0..k-1 reads only those bands' channels. */
  lemma {:induction false} SumBandsFrame(a: seq<seq<real>>, b: seq<seq<real>>, l: Layout, lane: nat, k: nat, j: nat)
    requires Uniform(a) && Uniform(b) && lane < Width(l) && j < Samples(a) && j < Samples(b)
    requires Channel(l, k, 0) <= |a| && Channel(l, k, 0) <= |b|
    requires forall ch :: 0 <= ch < Channel(l, k, 0) ==> a[ch] == b[ch]
    ensures SumBands(a, l, lane, k, j) == SumBands(b, l, lane, k, j)
    decreases k
  {
    if k > 0 {
      SumBandsFrame(a, b, l, lane, k - 1, j);
      assert a[Channel(l, k - 1, lane)] == b[Channel(l, k - 1, lane)];
    }
  }

  /** If crossover k-1 keeps the channels below band k-1, and its two
      bands add up to the old band k-1, then the sum over bands 0..k is the
      old sum over bands 0..k-1. */
  lemma SumStep(l: Layout, a: seq<seq<real>>, b: seq<seq<real>>, k: nat)
    requires Uniform(a) && Uniform(b) && |a| == |b| && Samples(a) == Samples(b)
    requires 1 <= k && Channel(l, k + 1, 0) <= |a|
    requires forall ch :: 0 <= ch < Channel(l, k - 1, 0) ==> b[ch] == a[ch]
    requires forall lane, j :: 0 <= lane < Width(l) && 0 <= j < Samples(a) ==>
      b[Channel(l, k - 1, lane)][j] + b[Channel(l, k, lane)][j] == a[Channel(l, k - 1, lane)][j]
    ensures forall lane, j :: 0 <= lane < Width(l) && 0 <= j < Samples(a) ==>
      SumBands(b, l, lane, k + 1, j) == SumBands(a, l, lane, k, j)
  {
    forall lane, j | 0 <= lane < Width(l) && 0 <= j < Samples(a)
      ensures SumBands(b, l, lane, k + 1, j) == SumBands(a, l, lane, k, j)
    {
      SumBandsFrame(b, a, l, lane, k - 1, j);
    }
  }

  /** After the first k crossovers, bands 0..k of each lane sum sample by
      sample to that lane of the input. */
  lemma {:induction false} CascadeSum(l: Layout, e: Engine, k: nat, freqs: seq<real>, run: BiquadRun)
    requires Shaped(e) && k <= SPLITS && |freqs| == SPLITS
    requires Channel(l, k + 1, 0) <= |e.rows|
    ensures forall lane, j :: 0 <= lane < Width(l) && 0 <= j < Samples(e.rows) ==>
      SumBands(Cascade(l, e, k, freqs, run).rows, l, lane, k + 1, j) == e.rows[lane][j]
    decreases k
  {
    if k == 0 {
      forall lane, j | 0 <= lane < Width(l) && 0 <= j < Samples(e.rows)
        ensures SumBands(e.rows, l, lane, 1, j) == e.rows[lane][j]
      {
        assert Channel(l, 0, lane) == lane;
      }
    } else {
      var k' := k - 1;
      assert k' + 1 == k;
      var p := Cascade(l, e, k', freqs, run);
      CascadeSum(l, e, k', freqs, run);
      StepKeepsOtherBands(l, p, k', freqs[k'], run);
      StepLaneSum(l, p, k', freqs[k'], run);
      SumStep(l, p.rows, Step(l, p, k', freqs[k'], run).rows, k);
    }
  }

  /** After the first k crossovers, channels above band k are untouched. */
  lemma {:induction false} CascadeUntouched(l: Layout, e: Engine, k: nat, freqs: seq<real>, run: BiquadRun)
    requires Shaped(e) && k <= SPLITS && |freqs| == SPLITS
    requires Channel(l, k + 1, 0) <= |e.rows|
    ensures forall ch :: Channel(l, k + 1, 0) <= ch < |e.rows| ==> Cascade(l, e, k, freqs, run).rows[ch] == e.rows[ch]
    decreases k
  {
    if k > 0 {
      var k' := k - 1;
      assert k' + 1 == k;
      CascadeUntouched(l, e, k', freqs, run);
      StepKeepsOtherBands(l, Cascade(l, e, k', freqs, run), k', freqs[k'], run);
    }
  }

  /** After the first k crossovers, stages below k are refreshed and the
      others untouched. */
  lemma {:induction false} CascadeFilters(l: Layout, e: Engine, k: nat, freqs: seq<real>, run: BiquadRun)
    requires Shaped(e) && k <= SPLITS && |freqs| == SPLITS
    requires Channel(l, k + 1, 0) <= |e.rows|
    ensures forall i :: 0 <= i < FILTER_COUNT ==>
      Cascade(l, e, k, freqs, run).filters[i] == if i < k then Refreshed(e.filters[i], freqs[i]) else e.filters[i]
    decreases k
  {
    if k > 0 {
      var k' := k - 1;
      assert k' + 1 == k;
      CascadeFilters(l, e, k', freqs, run);
      StepFilters(l, Cascade(l, e, k', freqs, run), k', freqs[k'], run);
    }
  }

  /** After the first k crossovers, no slot of a later crossover and no
      slot beyond the layout's share of the pool has been written. */
  lemma {:induction false} CascadeStates(l: Layout, e: Engine, k: nat, freqs: seq<real>, run: BiquadRun)
    requires Shaped(e) && k <= SPLITS && |freqs| == SPLITS
    requires Channel(l, k + 1, 0) <= |e.rows|
    ensures forall s :: 0 <= s < STATE_SLOTS && (s >= 30 * Width(l) || s % 15 >= k) ==>
      Cascade(l, e, k, freqs, run).states[s] == e.states[s]
    decreases k
  {
    if k > 0 {
      var k' := k - 1;
      assert k' + 1 == k;
      CascadeStates(l, e, k', freqs, run);
      StepStates(l, Cascade(l, e, k', freqs, run), k', freqs[k'], run);
    }
  }

  // ---------------------------------------------------------------------
  // The whole block

  /** A block whose effective band count n differs from `lastBands` stores
      n, silences every sample of every channel, gives stages 0..n-2 the
      current split frequencies, and leaves the other stages and the whole
      history pool as they were. */
  lemma ReconfigurationBlock(l: Layout, last: int, e: Engine, bands: int, freqs: seq<real>,
                             finite: real -> bool, run: BiquadRun)
    requires Shaped(e) && 2 <= bands <= MAX_BANDS && |freqs| == SPLITS && |e.rows| >= Width(l)
    requires EffectiveBands(l, bands, |e.rows|) != last
    ensures Block(l, last, e, bands, freqs, finite, run).0 == EffectiveBands(l, bands, |e.rows|)
    ensures |Block(l, last, e, bands, freqs, finite, run).1.rows| == |e.rows|
    ensures forall c :: 0 <= c < |e.rows| ==> |Block(l, last, e, bands, freqs, finite, run).1.rows[c]| == |e.rows[c]|
    ensures forall c, j :: 0 <= c < |e.rows| && 0 <= j < |e.rows[c]| ==>
      Block(l, last, e, bands, freqs, finite, run).1.rows[c][j] == 0.0
    ensures forall i :: 0 <= i < FILTER_COUNT ==>
      Block(l, last, e, bands, freqs, finite, run).1.filters[i] ==
        if i < EffectiveBands(l, bands, |e.rows|) - 1 then LowpassAt(freqs[i]) else e.filters[i]
    ensures Block(l, last, e, bands, freqs, finite, run).1.states == e.states
  {
  }

  /** A block whose effective band count n equals `lastBands` keeps it and
      writes the cascade's bands, which sum back to the input sample by
      sample, lane by lane, whatever the filter computes; channels from
      band n up are untouched. */
  lemma SplitBlockBands(l: Layout, last: int, e: Engine, bands: int, freqs: seq<real>,
                  finite: real -> bool, run: BiquadRun)
    requires Shaped(e) && 2 <= bands <= MAX_BANDS && |freqs| == SPLITS && |e.rows| >= Width(l)
    requires EffectiveBands(l, bands, |e.rows|) == last
    ensures Block(l, last, e, bands, freqs, finite, run).0 == last && last >= 1
    ensures forall lane, j :: 0 <= lane < Width(l) && 0 <= j < Samples(e.rows) ==>
      SumBands(Block(l, last, e, bands, freqs, finite, run).1.rows, l, lane, last, j) == e.rows[lane][j]
    ensures forall ch :: Channel(l, last, 0) <= ch < |e.rows| ==>
      Block(l, last, e, bands, freqs, finite, run).1.rows[ch] == e.rows[ch]
  {
    var k := last - 1;
    assert k + 1 == last;
    var c := Cascade(l, e, k, freqs, run);
    assert Block(l, last, e, bands, freqs, finite, run).1 == Guard(c, finite);
    CascadeSum(l, e, k, freqs, run);
    CascadeUntouched(l, e, k, freqs, run);
  }

  /** In the same block, stages 0..n-2 end with the current split
      frequency, re-parameterised only where it differed, and the others
      are untouched. */
  lemma SplitBlockFilters(l: Layout, last: int, e: Engine, bands: int, freqs: seq<real>,
                  finite: real -> bool, run: BiquadRun)
    requires Shaped(e) && 2 <= bands <= MAX_BANDS && |freqs| == SPLITS && |e.rows| >= Width(l)
    requires EffectiveBands(l, bands, |e.rows|) == last
    ensures forall i :: 0 <= i < FILTER_COUNT ==>
      Block(l, last, e, bands, freqs, finite, run).1.filters[i] ==
        if i < last - 1 then Refreshed(e.filters[i], freqs[i]) else e.filters[i]
    ensures forall i :: 0 <= i < last - 1 ==> Block(l, last, e, bands, freqs, finite, run).1.filters[i].f == freqs[i]
  {
    var k := last - 1;
    assert k + 1 == last;
    var c := Cascade(l, e, k, freqs, run);
    assert Block(l, last, e, bands, freqs, finite, run).1 == Guard(c, finite);
    CascadeFilters(l, e, k, freqs, run);
  }

  /** In the same block, the history pool ends either all zero (the probe
      sample is not finite) or unchanged outside crossovers 0..n-2. */
  lemma SplitBlockStates(l: Layout, last: int, e: Engine, bands: int, freqs: seq<real>,
                  finite: real -> bool, run: BiquadRun)
    requires Shaped(e) && 2 <= bands <= MAX_BANDS && |freqs| == SPLITS && |e.rows| >= Width(l)
    requires EffectiveBands(l, bands, |e.rows|) == last
    ensures Tripped(Cascade(l, e, last - 1, freqs, run), finite) ==>
      Block(l, last, e, bands, freqs, finite, run).1.states == Zeros(STATE_SLOTS)
    ensures !Tripped(Cascade(l, e, last - 1, freqs, run), finite) ==>
      forall s :: 0 <= s < STATE_SLOTS && (s >= 30 * Width(l) || s % 15 >= last - 1) ==>
        Block(l, last, e, bands, freqs, finite, run).1.states[s] == e.states[s]
  {
    var k := last - 1;
    assert k + 1 == last;
    var c := Cascade(l, e, k, freqs, run);
    assert Block(l, last, e, bands, freqs, finite, run).1 == Guard(c, finite);
    CascadeStates(l, e, k, freqs, run);
  }

  // ---------------------------------------------------------------------
  // The stability guard on an empty block

  /** A block of zero samples on two outputs, after a block that settled on
      two bands, reaches the guard: it is not a reconfiguration block, and
      the cascade's channel 0 has no sample 0 for `BUF(0)[0]` to read. */
  lemma EmptyBlockReachesGuard(filters: seq<BiquadParams>, states: seq<real>, freqs: seq<real>,
                               finite: real -> bool, run: BiquadRun)
    requires |filters| == FILTER_COUNT && |states| == STATE_SLOTS && |freqs| == SPLITS
    ensures var e := Engine([[], []], filters, states);
      Shaped(e) && EffectiveBands(Mono, 2, |e.rows|) == 2 &&
      Block(Mono, 2, e, 2, freqs, finite, run).1 == Guard(Cascade(Mono, e, 1, freqs, run), finite) &&
      |Cascade(Mono, e, 1, freqs, run).rows| == 2 && |Cascade(Mono, e, 1, freqs, run).rows[0]| == 0
  {
    var e := Engine([[], []], filters, states);
    assert Samples(e.rows) == 0;
    var c := Cascade(Mono, e, 1, freqs, run);
    assert Samples(c.rows) == 0;
  }

  /** Wherever the guard as written can read its probe sample, the
      corrected guard does the same thing; on an empty block the corrected
      guard keeps the history. */
  lemma GuardMatchesAsWritten(e: Engine, finite: real -> bool)
    ensures |e.rows| > 0 && |e.rows[0]| > 0 ==> Guard(e, finite) == GuardAsWritten(e, finite)
    ensures (|e.rows| == 0 || |e.rows[0]| == 0) ==> Guard(e, finite) == e
  {
  }
}
