// getStateInformation / setStateInformation (PluginProcessor.cpp): the
// parameter save/restore format, with the stream modelled as a sequence of
// values rather than bytes.

module StateCodec {
  import opened Types

  /** One value written to or read from the memory stream. */
  datatype Item = IntItem(i: int) | FloatItem(x: real)

  /** The normalised (0..1) values of the band-count parameter and of the
      split-frequency parameters, as the host sees them. */
  datatype Params = Params(bands: real, splits: seq<real>)

  /** `readInt` at position `pos`: zero when the stream is exhausted. */
  function ReadInt(data: seq<Item>, pos: nat): int
  {
    if pos < |data| && data[pos].IntItem? then data[pos].i else 0
  }

  /** `readFloat` at position `pos`: zero when the stream is exhausted. */
  function ReadFloat(data: seq<Item>, pos: nat): real
  {
    if pos < |data| && data[pos].FloatItem? then data[pos].x else 0.0
  }

  /** What getStateInformation writes: MAX_BANDS as an int, the band count,
      then the split values in declaration order. */
  function SaveState(p: Params): (data: seq<Item>)
    requires |p.splits| == SPLITS
    ensures |data| == 2 + SPLITS
    ensures data[0] == IntItem(MAX_BANDS) && data[1] == FloatItem(p.bands)
    ensures forall i :: 0 <= i < SPLITS ==> data[2 + i] == FloatItem(p.splits[i])
  {
    [IntItem(MAX_BANDS), FloatItem(p.bands)] + seq(SPLITS, i requires 0 <= i < SPLITS => FloatItem(p.splits[i]))
  }

  /** How many split values a stream whose first int is `stored` restores:
      the loop runs while i < MAX_BANDS - 1 and i < stored - 1. */
  function StoredSplits(stored: int): (m: nat)
    ensures m <= MAX_BANDS - 1 && m <= if stored - 1 < 0 then 0 else stored - 1
    ensures m == MAX_BANDS - 1 || m == stored - 1 || (m == 0 && stored <= 1)
  {
    if stored - 1 <= 0 then 0 else if stored - 1 > SPLITS then SPLITS else stored - 1
  }

  /** The restore loop from iteration `i` to `m`: each iteration reads the
      next float, at stream position 2 + i, into split parameter i. */
  function LoadSplits(splits: seq<real>, data: seq<Item>, i: nat, m: nat): (r: seq<real>)
    requires i <= m <= |splits|
    ensures |r| == |splits|
    ensures forall k :: 0 <= k < |splits| ==> r[k] == if i <= k < m then ReadFloat(data, 2 + k) else splits[k]
    decreases m - i
  {
    if i == m then splits
    else LoadSplits(splits[i := ReadFloat(data, 2 + i)], data, i + 1, m)
  }

  /** What setStateInformation does to the parameters: the band count is
      always set from the second value; only the first min(15, n - 1)
      splits are set, n being the stored int, and the others keep their
      values. */
  function LoadState(p: Params, data: seq<Item>): (r: Params)
    requires |p.splits| == SPLITS
    ensures r.bands == ReadFloat(data, 1) && |r.splits| == SPLITS
    ensures forall i :: 0 <= i < SPLITS ==>
      r.splits[i] == if i < StoredSplits(ReadInt(data, 0)) then ReadFloat(data, 2 + i) else p.splits[i]
  {
    Params(ReadFloat(data, 1), LoadSplits(p.splits, data, 0, StoredSplits(ReadInt(data, 0))))
  }

  /** Loading what was saved restores every parameter, whatever the
      parameters held before. */
  lemma RoundTrip(before: Params, p: Params)
    requires |before.splits| == SPLITS && |p.splits| == SPLITS
    ensures LoadState(before, SaveState(p)) == p
  {
    var data := SaveState(p);
    var r := LoadState(before, data);
    assert ReadInt(data, 0) == MAX_BANDS;
    assert StoredSplits(ReadInt(data, 0)) == SPLITS;
    forall i | 0 <= i < SPLITS ensures r.splits[i] == p.splits[i] {
      assert data[2 + i] == FloatItem(p.splits[i]);
      assert ReadFloat(data, 2 + i) == p.splits[i];
      assert r.splits[i] == ReadFloat(data, 2 + i);
    }
    assert r.splits == p.splits;
  }

  /** A stream written with a smaller band bound `stored` restores only the
      first stored - 1 splits (none when stored <= 1) and leaves the
      trailing ones unchanged. */
  lemma SmallerBoundKeepsTrailing(before: Params, data: seq<Item>, stored: int)
    requires |before.splits| == SPLITS && |data| > 0 && data[0] == IntItem(stored) && stored <= MAX_BANDS
    ensures forall i :: 0 <= i < SPLITS && i >= stored - 1 ==> LoadState(before, data).splits[i] == before.splits[i]
    ensures forall i :: 0 <= i < SPLITS && i < stored - 1 ==> LoadState(before, data).splits[i] == ReadFloat(data, 2 + i)
    ensures stored <= 1 ==> LoadState(before, data).splits == before.splits
  {
  }
}
