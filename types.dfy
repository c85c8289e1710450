// Constants and value types of BandSplitterAudioProcessor (PluginProcessor.hpp).

module Types {

  /** The largest number of bands the plug-in splits into. */
  const MAX_BANDS: int := 16

  /** One crossover (split) between each pair of adjacent bands. */
  const SPLITS: int := 15

  /** Size of the biquad table `filters[(MAX_BANDS - 1) * 2]`. */
  const FILTER_COUNT: int := 30

  /** Size of the one filter-history pool the block code indexes. The highest
      slot the stereo path uses is 3 * (MAX_BANDS - 1) + 14 = 59. */
  const STATE_SLOTS: int := 60

  /** The fixed Butterworth quality factor handed to every biquad. */
  const BUTTERWORTH_Q: real := 0.70710678118

  datatype FilterKind = Lowpass | Highpass

  /** What `BiquadFilter::setParameters` stores: the response, the target
      frequency, the quality factor and the gain. */
  datatype BiquadParams = BiquadParams(kind: FilterKind, f: real, q: real, gain: real)

  /** The parameters every crossover stage is given: a Butterworth lowpass. */
  function LowpassAt(f: real): BiquadParams
  {
    BiquadParams(Lowpass, f, BUTTERWORTH_Q, 0.0)
  }

  /** One `BiquadFilter::processBlock(buf, samples, state)` call: it reads the
      stage's parameters, the buffer and one history slot, and gives the new
      buffer (as long as the old one) and the new history slot. Which
      recurrence it computes is left open. */
  type BiquadRun = run: (BiquadParams, seq<real>, real) -> (seq<real>, real)
    | forall p, x, s :: |run(p, x, s).0| == |x|
    witness (p: BiquadParams, x: seq<real>, s: real) => (x, s)

  /** How many zero history slots `memset(states, 0, ...)` leaves behind. */
  function Zeros(count: nat): (z: seq<real>)
    ensures |z| == count && forall k :: 0 <= k < count ==> z[k] == 0.0
  {
    seq(count, _ => 0.0)
  }
}
