/**
 * The frame-fill writer of the audio callback.
 *
 * The output buffer holds interleaved samples, `channels` slots per frame.
 * The writer walks the buffer frame by frame (the last frame may be short),
 * draws one value from the sample generator per frame and writes it into
 * every slot of that frame, so the signal is the same on every channel. The
 * generator is modelled by the sequence of values it yields, consumed in order.
 */
module Output {

  /** The number of frames of a buffer of `len` slots: `len / channels`
      rounded up, counting a short final frame. */
  function FrameCount(len: nat, channels: nat): (n: nat)
    requires channels > 0
    ensures len <= n * channels
    ensures n == 0 || (n - 1) * channels < len
  {
    var n := (len + channels - 1) / channels;
    assert len + channels - 1 == n * channels + (len + channels - 1) % channels;
    n
  }

  /** The buffer `values` fill, frame by frame: the first frame (at most
      `channels` slots) holds the first value, and the rest of the buffer is
      filled from the remaining values. */
  function Fill<T>(values: seq<T>, len: nat, channels: nat): (r: seq<T>)
    requires channels > 0 && FrameCount(len, channels) <= |values|
    ensures |r| == len
    decreases len
  {
    if len == 0 then []
    else if len <= channels then seq(len, _ => values[0])
    else
      FrameCountStep(len, channels);
      seq(channels, _ => values[0]) + Fill(values[1..], len - channels, channels)
  }

  /** Slot `i` of the fill holds value number `i / channels`: the generator
      is drawn once per frame, in order. */
  lemma {:induction false} FillAt<T>(values: seq<T>, len: nat, channels: nat, i: nat)
    requires channels > 0 && FrameCount(len, channels) <= |values|
    requires i < len
    ensures i / channels < |values|
    ensures Fill(values, len, channels)[i] == values[i / channels]
    decreases len
  {
    if i < channels {
      SlotOfFrame(i, 0, channels);
    } else {
      FrameCountStep(len, channels);
      FillAt(values[1..], len - channels, channels, i - channels);
      NextFrame(i, channels);
    }
  }

  /** Multiplication by a non-negative number is monotonic. */
  lemma MulMonotonic(a: int, b: int, c: int)
    requires a <= b && 0 <= c
    ensures a * c <= b * c
  {
    assert (b - a) * c >= 0;
  }

  /** A slot at index `i` of frame `k` has `i / channels == k`. */
  lemma SlotOfFrame(i: int, k: int, channels: int)
    requires channels > 0 && k * channels <= i < k * channels + channels
    ensures i / channels == k
  {
    var q, r := i / channels, i % channels;
    assert i == q * channels + r && 0 <= r < channels;
    if q > k {
      MulMonotonic(k + 1, q, channels);
    } else if q < k {
      MulMonotonic(q + 1, k, channels);
    }
  }

  /** The slot one frame further on lies in the next frame. */
  lemma NextFrame(i: int, channels: int)
    requires 0 < channels <= i
    ensures (i - channels) / channels + 1 == i / channels
  {
    var q := (i - channels) / channels;
    assert i - channels == q * channels + (i - channels) % channels;
    SlotOfFrame(i, q + 1, channels);
  }

  /** Every slot of a buffer lies in one of its frames. */
  lemma SlotInBuffer(i: nat, len: nat, channels: nat)
    requires channels > 0 && i < len
    ensures i / channels < FrameCount(len, channels)
  {
    var n := FrameCount(len, channels);
    var q := i / channels;
    assert q * channels + i % channels == i;
    if q >= n {
      MulMonotonic(n, q, channels);
    }
  }

  /** FrameCount is the only count with the ceiling property. */
  lemma FrameCountUnique(len: nat, channels: nat, n: nat)
    requires channels > 0
    requires len <= n * channels
    requires n == 0 || (n - 1) * channels < len
    ensures n == FrameCount(len, channels)
  {
    SlotOfFrame(len + channels - 1, n, channels);
  }

  /** Removing one full frame removes one from the frame count. */
  lemma FrameCountStep(len: nat, channels: nat)
    requires 0 < channels < len
    ensures FrameCount(len - channels, channels) == FrameCount(len, channels) - 1
  {
    var n := FrameCount(len, channels);
    assert n > 1 by {
      if n <= 1 {
        MulMonotonic(n, 1, channels);
      }
    }
    FrameCountUnique(len - channels, channels, n - 1);
  }

  /** All slots of one frame hold the same value: the signal is the same on
      every channel. */
  lemma FramesAreMonophonic<T>(values: seq<T>, len: nat, channels: nat, i: nat, j: nat)
    requires channels > 0 && FrameCount(len, channels) <= |values|
    requires i < len && j < len && i / channels == j / channels
    ensures Fill(values, len, channels)[i] == Fill(values, len, channels)[j]
  {
    FillAt(values, len, channels, i);
    FillAt(values, len, channels, j);
  }

  /** The inner loop of `write_data`: writes `value` into every slot of the
      frame `output[start..end]` and leaves the other slots alone. */
  method WriteFrame<T>(output: array<T>, start: nat, end: nat, value: T)
    requires start <= end <= output.Length
    modifies output
    ensures forall i :: start <= i < end ==> output[i] == value
    ensures forall i :: 0 <= i < output.Length && !(start <= i < end) ==> output[i] == old(output[i])
  {
    var j := start;
    while j < end
      invariant start <= j <= end
      invariant forall i :: start <= i < j ==> output[i] == value
      invariant forall i :: 0 <= i < output.Length && !(start <= i < j) ==> output[i] == old(output[i])
    {
      output[j] := value;
      j := j + 1;
    }
  }

  /** `write_data`: fills `output` frame by frame from the generator values
      `samples`, and returns how many values it drew. */
  method WriteData<T>(output: array<T>, channels: nat, samples: seq<T>) returns (calls: nat)
    requires channels > 0
    requires FrameCount(output.Length, channels) <= |samples|
    modifies output
    ensures calls == FrameCount(output.Length, channels)
    ensures output[..] == Fill(samples, output.Length, channels)
  {
    ghost var filled := Fill(samples, output.Length, channels);
    var start := 0;
    calls := 0;
    while start < output.Length
      invariant start <= output.Length
      invariant start == output.Length || start == calls * channels
      invariant start <= calls * channels
      invariant calls == 0 || (calls - 1) * channels < output.Length
      invariant forall i :: 0 <= i < start ==> output[i] == filled[i]
    {
      SlotInBuffer(start, output.Length, channels);
      SlotOfFrame(start, calls, channels);
      var value := samples[calls];
      var end := if start + channels <= output.Length then start + channels else output.Length;
      forall i | start <= i < end
        ensures filled[i] == value
      {
        FillAt(samples, output.Length, channels, i);
        SlotOfFrame(i, calls, channels);
      }
      WriteFrame(output, start, end, value);
      start := end;
      calls := calls + 1;
    }
    FrameCountUnique(output.Length, channels, calls);
  }
}
