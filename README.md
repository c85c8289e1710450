# BandSplitter block engine in Dafny

This project models the audio engine of the BandSplitter plug-in's
`BandSplitterAudioProcessor`. The plug-in splits its input into up to 16
bands, one output bus per band. It does this with a subtractive
crossover cascade. For crossover i, band i is copied into band i + 1. Band i
is run twice, in place, through lowpass biquad stage i. The filtered band i
is then subtracted from band i + 1. So band i keeps the low part and band
i + 1 carries the rest on to the next crossover. The mono path works on one
channel per band. The stereo path works on the left/right pair 2b, 2b + 1
for band b.

The model has five modules:

- `Types` (types.dfy): the header's constants (`MAX_BANDS` = 16, 15
  crossovers, 30 biquad stages), the 60 history slots the block code
  indexes, and the biquad stage's
  parameters. A pass of a biquad over a buffer is an arbitrary function
  value, `BiquadRun`, that keeps the buffer's length.
- `Crossover` (crossover.dfy): one block as functions on values.
  - `Engine`: the buffer's channels, the biquad table and the history pool.
  - `Route`: the channel gate.
  - `EffectiveBands`: the band-count clamp.
  - the copy, refresh, filter and subtract primitives.
  - `MonoStep` / `StereoStep` (one crossover) and `Cascade` (the first k
    crossovers).
  - the reconfiguration block, the stability guard, and `Block` (a whole
    block).
- `CrossoverProperties` (crossover_properties.dfy): what those functions
  guarantee for every filter and every input block. It covers:
  - perfect reconstruction;
  - the untouched upper channels;
  - coefficient refresh;
  - history-slot disjointness;
  - the two kinds of block.
- `StateCodec` (state_codec.dfy): the save/restore format as a sequence of
  stream values, and its round trip.
- `Processor` (processor.dfy): the processor object. `lastBands`, the
  biquad table, the history pool and the parameter values are fields of a
  class. The host buffer is an `array2<real>` (channel, sample). Every
  method is proved equal to the `Crossover` or `StateCodec` function for
  the same step, so the lemmas about those functions apply to the methods.

Samples are exact reals. Reconstruction is therefore exact, whatever the
biquad computes. `std::isfinite` is a parameter `finite`. The per-block
snapshot of the parameters is also a pair of parameters: the band count
`bands` (an integer in 2..16, the range of its `AudioParameterInt`) and the
15 split frequencies `freqs`.

Behaviours of the code worth knowing; the model follows the code in each:

- A change of band count does not reset the filter history. Only the
  stability guard zeroes it.
- The block code indexes one pool `states`, with top index
  3 * (MAX_BANDS - 1) + 14 = 59. The header declares `lp_states[360]` and
  `hp_states[180]` instead. The model has one 60-slot pool, and
  `memset(states, 0, sizeof(states))` zeroes all of it.
- Restoring from a short stream does not keep the current values. The
  values read past the end are zero, and they are stored.

## Model

| member | source | states |
|---|---|---|
| Crossover.Route | BandSplitter/Source/PluginProcessor.cpp:230-240 | pass-through exactly when there are no inputs, no outputs, or outputs <= inputs; otherwise mono exactly when there is one input, stereo exactly when there are two or more |
| Crossover.EffectiveBands | BandSplitter/Source/PluginProcessor.cpp:122-123 | the clamp (mono here, stereo at 174-175) gives the largest count not above the request whose channels (1 or 2 per band) fit in the outputs; never negative |
| Crossover.Slot | BandSplitter/Source/PluginProcessor.cpp:151-152 | the history slot of a pass (mono here, stereo at 206-209); SlotsDisjoint and SlotsMatchSource state that it is the source's index, below 60, one per (pass, lane, crossover) |
| Crossover.Copied | BandSplitter/Source/PluginProcessor.cpp:140 | the copy of one channel into another (mono here, stereo at 194-195); MonoStepBands and StereoStepBands state its effect inside a crossover |
| Crossover.Subtracted | BandSplitter/Source/PluginProcessor.cpp:155-157 | the subtraction of one channel from another; through Diff, MonoStepBands and StepLaneSum state that the new bands sum to the old one |
| Crossover.Refresh | BandSplitter/Source/PluginProcessor.cpp:145-148 | the refresh of stage i in the table; StepFilters states that only stage i changes, by Refreshed |
| Crossover.Filtered | BandSplitter/Source/PluginProcessor.cpp:151 | one biquad pass over one channel with one history slot; MonoPasses and StereoPasses state what the passes write |
| Crossover.Cleared | BandSplitter/Source/PluginProcessor.cpp:126 | the cleared buffer; ReconfigurationBlock states that every sample of every channel is 0 and the shape is kept |
| Crossover.Configured | BandSplitter/Source/PluginProcessor.cpp:127-131 | the configured table; ReconfigurationBlock states that stages 0..n-2 become the lowpass at their split frequency and the others keep theirs |
| Crossover.Reconfigure | BandSplitter/Source/PluginProcessor.cpp:124-133 | the reconfiguring block's new state; ReconfigurationBlock states its buffer, table and (unchanged) history |
| Crossover.Block | BandSplitter/Source/PluginProcessor.cpp:115-162 | a whole split block (mono here, stereo at 164-220): the new `lastBands` is always the effective band count, and the buffer keeps its shape; ReconfigurationBlock and SplitBlockBands / SplitBlockFilters / SplitBlockStates state the rest |
| Crossover.Diff | BandSplitter/Source/PluginProcessor.cpp:155-157 | after `b[j] -= a[j]`, the new b[j] plus a[j] is the old b[j], for every sample |
| Crossover.Refreshed | BandSplitter/Source/PluginProcessor.cpp:145-148 | after the update the stage holds the split frequency; it is either unchanged or the Butterworth lowpass at that frequency, and unchanged whenever the frequency already matched |
| Crossover.MonoPasses | BandSplitter/Source/PluginProcessor.cpp:151-152 | the two mono passes write only channel i and history slots i and i + 15, and leave the table alone |
| Crossover.StereoSeeded | BandSplitter/Source/PluginProcessor.cpp:194-195 | l2 and r2 start as copies of l and r |
| Crossover.StereoPasses | BandSplitter/Source/PluginProcessor.cpp:206-209 | the four stereo passes write only channels 2i, 2i+1 and slots i, 15+i, 30+i, 45+i |
| Crossover.StereoSubtracted | BandSplitter/Source/PluginProcessor.cpp:212-215 | l2 becomes l2 - l and r2 becomes r2 - r, nothing else changes |
| Crossover.MonoStep | BandSplitter/Source/PluginProcessor.cpp:135-158 | one mono crossover keeps the buffer's shape; what it writes is stated by MonoStepBands, StepFilters and StepStates |
| Crossover.StereoStep | BandSplitter/Source/PluginProcessor.cpp:187-216 | one stereo crossover keeps the buffer's shape; what it writes is stated by StereoStepBands, StepFilters and StepStates |
| Crossover.Cascade | BandSplitter/Source/PluginProcessor.cpp:135 | the first k crossovers keep the buffer's shape; what they write is stated by the Cascade lemmas |
| Crossover.GuardAsWritten | BandSplitter/Source/PluginProcessor.cpp:159-161 | as written: the guard needs a sample 0 in channel 0; it zeroes every slot when that sample is not finite and changes nothing otherwise |
| Crossover.Guard | BandSplitter/Source/PluginProcessor.cpp:217-219 | corrected guard: buffer and table never change; all slots zero exactly when the probe sample exists and is not finite, else nothing changes |
| CrossoverProperties.SlotsDisjoint | BandSplitter/Source/PluginProcessor.cpp:206-209 | every (pass, lane, crossover) has its own history slot below 60, and that slot belongs to the crossover |
| CrossoverProperties.SlotsMatchSource | BandSplitter/Source/PluginProcessor.cpp:151-152 | the slot formula equals the source's index expressions, mono (here) and stereo (206-209) |
| CrossoverProperties.ChannelBounds | BandSplitter/Source/PluginProcessor.cpp:187-191 | every crossover of a split block addresses only channels below the output count (up to i+1 mono, 2i+3 stereo), stages below 30 and slots below 60 |
| CrossoverProperties.FirstBlockReconfigures | BandSplitter/Source/PluginProcessor.hpp:62 | no split block computes a band count of 0 (mono >= 2, stereo >= 1), so the first one after construction reconfigures |
| CrossoverProperties.FirstBlockIsReconfiguration | BandSplitter/Source/PluginProcessor.cpp:124-133 | with `lastBands` at its initial 0 (PluginProcessor.hpp:62), a split block is exactly the reconfiguration block |
| CrossoverProperties.MonoStepBands | BandSplitter/Source/PluginProcessor.cpp:135-158 | a mono crossover writes only channels i and i+1, and their new sum is the old channel i, sample by sample |
| CrossoverProperties.StereoStepBands | BandSplitter/Source/PluginProcessor.cpp:187-216 | a stereo crossover writes only channels 2i..2i+3, and on each lane the new bands i and i+1 sum to the old band i |
| CrossoverProperties.StepKeepsOtherBands | BandSplitter/Source/PluginProcessor.cpp:135-158 | in either layout, crossover i leaves every channel outside bands i and i+1 as it was |
| CrossoverProperties.StepLaneSum | BandSplitter/Source/PluginProcessor.cpp:187-216 | in either layout, on each lane, the new bands i and i+1 sum to the old band i |
| CrossoverProperties.StepFilters | BandSplitter/Source/PluginProcessor.cpp:197-203 | crossover i changes at most stage i, by the refresh rule |
| CrossoverProperties.StepStates | BandSplitter/Source/PluginProcessor.cpp:151-152 | crossover i writes only history slots that belong to it |
| CrossoverProperties.CascadeSum | BandSplitter/Source/PluginProcessor.cpp:135-158 | after k crossovers, bands 0..k of each lane sum sample by sample to that lane of the input |
| CrossoverProperties.CascadeUntouched | BandSplitter/Source/PluginProcessor.cpp:187-216 | after k crossovers, every channel above band k is as it was |
| CrossoverProperties.CascadeFilters | BandSplitter/Source/PluginProcessor.cpp:142-148 | after k crossovers, stages below k are refreshed to their split frequency and the others are untouched |
| CrossoverProperties.CascadeStates | BandSplitter/Source/PluginProcessor.cpp:206-209 | after k crossovers, no slot of a later crossover and no slot beyond the layout's share of the pool has been written |
| CrossoverProperties.ReconfigurationBlock | BandSplitter/Source/PluginProcessor.cpp:124-133 | when the band count changes: `lastBands` becomes it, every sample of every channel is 0, stages 0..n-2 get the split frequencies and the rest keep theirs, and the history is unchanged |
| CrossoverProperties.SplitBlockBands | BandSplitter/Source/PluginProcessor.cpp:135-158 | when it does not change: `lastBands` is kept, the n bands of each lane sum to that lane of the input, and channels from band n up are untouched |
| CrossoverProperties.SplitBlockFilters | BandSplitter/Source/PluginProcessor.cpp:197-203 | in such a block every used stage ends at its split frequency, re-parameterised only where it differed; unused stages are untouched |
| CrossoverProperties.SplitBlockStates | BandSplitter/Source/PluginProcessor.cpp:217-219 | in such a block the history ends either all zero (probe not finite) or unchanged outside the used crossovers |
| CrossoverProperties.EmptyBlockReachesGuard | BandSplitter/Source/PluginProcessor.cpp:159-161 | a zero-sample mono block on two outputs after a two-band block reaches the guard with no sample 0 in channel 0 |
| CrossoverProperties.GuardMatchesAsWritten | BandSplitter/Source/PluginProcessor.cpp:217-219 | the corrected guard equals the written guard wherever the probe sample exists, and does nothing on an empty block |
| StateCodec.ReadInt | BandSplitter/Source/PluginProcessor.cpp:263 | reading the stored count; RoundTrip and SmallerBoundKeepsTrailing state what a restore reads |
| StateCodec.ReadFloat | BandSplitter/Source/PluginProcessor.cpp:264-266 | reading the band value and the split values; LoadState and RoundTrip state what a restore reads |
| StateCodec.SaveState | BandSplitter/Source/PluginProcessor.cpp:249-257 | the stream is MAX_BANDS as an int, the band value, then the 15 split values in order: 17 values |
| StateCodec.StoredSplits | BandSplitter/Source/PluginProcessor.cpp:265 | the restore loop runs min(15, n - 1) times, and never when n <= 1 |
| StateCodec.LoadSplits | BandSplitter/Source/PluginProcessor.cpp:265-267 | iterations i..m-1 set split k to the float at stream position 2 + k and leave the rest |
| StateCodec.LoadState | BandSplitter/Source/PluginProcessor.cpp:259-268 | restoring always sets the band value from the second stream value, and sets the first min(15, n - 1) splits from the stream; the others keep their values |
| StateCodec.RoundTrip | BandSplitter/Source/PluginProcessor.cpp:249-268 | restoring a saved stream gives back every parameter, whatever the parameters held before |
| StateCodec.SmallerBoundKeepsTrailing | BandSplitter/Source/PluginProcessor.cpp:263-267 | a stream whose stored count is n <= 16 restores only splits below n - 1; the trailing ones (all when n <= 1) keep their values |
| Processor.CopyChannel | BandSplitter/Source/PluginProcessor.cpp:140 | the destination channel becomes the source channel; nothing else changes |
| Processor.SubtractChannel | BandSplitter/Source/PluginProcessor.cpp:155-157 | the destination channel becomes its difference with the source channel; nothing else changes |
| Processor.SubtractChannelPair | BandSplitter/Source/PluginProcessor.cpp:212-215 | l2 and r2 become their differences with l and r in one pass |
| Processor.ClearBuffer | BandSplitter/Source/PluginProcessor.cpp:126 | every sample becomes 0 |
| Processor.BandSplitterProcessor.constructor | BandSplitter/Source/PluginProcessor.hpp:62-71 | `lastBands` is 0, every history slot is 0, the parameters hold their defaults |
| Processor.BandSplitterProcessor.GetFreqParam | BandSplitter/Source/PluginProcessor.hpp:50-53 | defined only for 0 <= split < 15; gives the value the codec saves at position split + 2 |
| Processor.BandSplitterProcessor.ZeroStates | BandSplitter/Source/PluginProcessor.cpp:160 | the guard's `memset` (mono here, stereo at 218): every history slot becomes 0 |
| Processor.BandSplitterProcessor.RunFilter | BandSplitter/Source/PluginProcessor.cpp:151 | one pass of a stage over one channel with one history slot, as `Filtered` |
| Processor.BandSplitterProcessor.ConfigureFilters | BandSplitter/Source/PluginProcessor.cpp:127-131 | stages 0..n-2 become the lowpass at their split frequency; the others are unchanged |
| Processor.BandSplitterProcessor.RefreshFilter | BandSplitter/Source/PluginProcessor.cpp:145-148 | stage i is updated by the refresh rule and no other stage changes |
| Processor.BandSplitterProcessor.MonoFilterPasses | BandSplitter/Source/PluginProcessor.cpp:151-152 | the two mono passes, as `MonoPasses` |
| Processor.BandSplitterProcessor.MonoCrossover | BandSplitter/Source/PluginProcessor.cpp:136-157 | one mono crossover, as `MonoStep` |
| Processor.BandSplitterProcessor.StereoFilterPasses | BandSplitter/Source/PluginProcessor.cpp:206-209 | the four stereo passes, as `StereoPasses` |
| Processor.BandSplitterProcessor.StereoCrossover | BandSplitter/Source/PluginProcessor.cpp:188-215 | one stereo crossover, as `StereoStep` |
| Processor.BandSplitterProcessor.Reconfiguration | BandSplitter/Source/PluginProcessor.cpp:176-185 | buffer cleared and stages configured, as `Reconfigure`; the history is kept |
| Processor.BandSplitterProcessor.StabilityGuard | BandSplitter/Source/PluginProcessor.cpp:159-161 | the corrected guard, as `Guard` |
| Processor.BandSplitterProcessor.MonoCascade | BandSplitter/Source/PluginProcessor.cpp:135-158 | the mono loop leaves exactly `Cascade(Mono, ..., n - 1)` |
| Processor.BandSplitterProcessor.StereoCascade | BandSplitter/Source/PluginProcessor.cpp:187-216 | the stereo loop leaves exactly `Cascade(Stereo, ..., n - 1)` |
| Processor.BandSplitterProcessor.ProcessMono | BandSplitter/Source/PluginProcessor.cpp:115-162 | the new `lastBands`, buffer, table and history are those of `Block(Mono, ...)` |
| Processor.BandSplitterProcessor.ProcessStereo | BandSplitter/Source/PluginProcessor.cpp:164-220 | the new `lastBands`, buffer, table and history are those of `Block(Stereo, ...)` |
| Processor.BandSplitterProcessor.ProcessBlock | BandSplitter/Source/PluginProcessor.cpp:222-241 | a pass-through block changes nothing; otherwise the block is `Block` on the layout the gate chose |
| Processor.BandSplitterProcessor.GetStateInformation | BandSplitter/Source/PluginProcessor.cpp:249-257 | the written stream is `SaveState` of the current parameters |
| Processor.BandSplitterProcessor.SetStateInformation | BandSplitter/Source/PluginProcessor.cpp:259-268 | the new parameters are `LoadState` of the old ones and the stream |

## Left out

- The biquad itself is not part of this model. Its coefficient design and
  per-sample recurrence are in BiquadFilter.hpp. A pass is any
  length-preserving function of (stage, channel, history slot), and each
  history slot is one real. The stages' value-initialised parameters are a
  constructor parameter.
- Floating point is not modelled. Samples are exact reals, and
  `std::isfinite` is a parameter. `juce::ScopedNoDenormals` has no effect
  on exact arithmetic.
- The default split frequencies use `std::pow` and `std::round`. Their
  floating-point values are constructor parameters.
- JUCE's parameter normalisation (`convertTo0to1`, `setValueNotifyingHost`)
  is not modelled. The processor stores the normalised values the codec
  writes. The block takes the plain band count and split frequencies as
  inputs, so the mapping between the two is not modelled.
- The stream classes' byte encoding is not modelled. The stream is a
  sequence of int and float values. A read past the end, or of the wrong
  kind, gives 0, as JUCE's readers do when the stream is exhausted.
- StateCodec.LoadState: the stored count is an unbounded integer, not a
  32-bit int, so the overflow of `n - 1` for the smallest 32-bit value is
  not modelled.
- Processor.BandSplitterProcessor.GetFreqParam: returns the parameter's
  value, not a pointer to the parameter object.
- The filter-family parameter `type` is declared but never constructed or
  saved, so it is not modelled.
- Bus layouts, plugin metadata, program stubs, `prepareToPlay`,
  `releaseResources`, `createEditor` and the editor are host and UI glue.
  They are not modelled.
- Concurrent changes to parameters by the host or UI during a block are
  not modelled. Parameters are read once per block.
- Sample rate and `inputs` inside processMono/processStereo are read but
  never used, so they are not modelled.

## Findings

| source | as written | input that shows it | evidently intended | confidence | as-written member | corrected member |
|---|---|---|---|---|---|---|
| BandSplitter/Source/PluginProcessor.cpp:159-161 (also 217-219) | the stability guard reads `BUF(0)[0]` after every non-reconfiguring block | a mono block of 0 samples on 2 outputs with bands = 2, after a block that set `lastBands` to 2: the loop runs once on empty channels, then the guard reads sample 0 of an empty channel | probe the first sample only when the block has one | not executed; medium (hosts may call processBlock with 0 samples) | Crossover.GuardAsWritten, CrossoverProperties.EmptyBlockReachesGuard | Crossover.Guard, CrossoverProperties.GuardMatchesAsWritten |
