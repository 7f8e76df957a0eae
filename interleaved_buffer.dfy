/** cAudioBuffer: a non-owning view of interleaved samples, addressed by
    (frame, channel). Sample values are not modelled: the element type is a
    type parameter. A channel pointer `data + i` is modelled as the offset
    `i` into the viewed array. */
module InterleavedBuffer {

  /** mMaxNumChannels */
  const MaxNumChannels: nat := 6

  /** Where sample (frame, channel) lives in an interleaved block: channel
      `channel` starts at offset `channel`, and consecutive frames of one
      channel are `numChannels` apart. */
  function Offset(frame: nat, channel: nat, numChannels: nat): nat {
    channel + frame * numChannels
  }

  /** Every in-range (frame, channel) pair addresses a sample inside the
      numFrames * numChannels block. */
  lemma OffsetInBounds(frame: nat, channel: nat, numFrames: nat, numChannels: nat)
    requires frame < numFrames && channel < numChannels
    ensures Offset(frame, channel, numChannels) < numFrames * numChannels
  {
    assert Offset(frame, channel, numChannels) < (frame + 1) * numChannels;
    MulMonotone(frame + 1, numFrames, numChannels);
  }

  lemma MulMonotone(a: nat, b: nat, c: nat)
    requires a <= b
    ensures a * c <= b * c
  {
    assert b * c == a * c + (b - a) * c;
  }

  /** The offset splits back into its frame (quotient) and channel
      (remainder): the interleaved layout is a bijection. */
  lemma OffsetSplits(frame: nat, channel: nat, numChannels: nat)
    requires channel < numChannels
    ensures Offset(frame, channel, numChannels) / numChannels == frame
    ensures Offset(frame, channel, numChannels) % numChannels == channel
  {
    var n := Offset(frame, channel, numChannels);
    var q, r := n / numChannels, n % numChannels;
    assert n == q * numChannels + r && 0 <= r < numChannels;
    assert frame * numChannels + channel == q * numChannels + r;
    if q < frame {
      MulMonotone(q + 1, frame, numChannels);
      assert false;
    } else if q > frame {
      MulMonotone(frame + 1, q, numChannels);
      assert false;
    }
  }

  /** Distinct in-range pairs never share a sample. */
  lemma OffsetInjective(f1: nat, c1: nat, f2: nat, c2: nat, numChannels: nat)
    requires c1 < numChannels && c2 < numChannels
    requires Offset(f1, c1, numChannels) == Offset(f2, c2, numChannels)
    ensures f1 == f2 && c1 == c2
  {
    OffsetSplits(f1, c1, numChannels);
    OffsetSplits(f2, c2, numChannels);
  }

  /** The slots of the channel table that the constructor loop
      (`mChannels[i] = data + i` for every i < numChannels) writes, in
      order. Nothing bounds the loop by the table: more channels than
      MaxNumChannels write past the end of the six-entry table. */
  function ChannelTableWrites(numChannels: nat): (slots: seq<nat>)
    ensures |slots| == numChannels
    ensures numChannels > MaxNumChannels ==> exists i :: 0 <= i < numChannels && slots[i] >= MaxNumChannels
    ensures numChannels <= MaxNumChannels ==> forall i :: 0 <= i < numChannels ==> slots[i] < MaxNumChannels
  {
    var slots := seq(numChannels, i => i);
    assert numChannels > MaxNumChannels ==> slots[MaxNumChannels] == MaxNumChannels;
    slots
  }

  class AudioBuffer<T> {
    const data: array<T>
    const numFrames: nat
    const numChannels: nat
    const stride: nat
    /** mChannels: the base offset of each channel, one slot per possible channel */
    const channels: array<nat>

    ghost predicate Valid()
      reads this, channels
    {
      && channels.Length == MaxNumChannels
      && (channels as object) != (data as object)
      && numChannels <= MaxNumChannels
      && stride == numChannels
      && numFrames * numChannels <= data.Length
      && (forall i :: 0 <= i < numChannels ==> channels[i] == i)
    }

    constructor (data: array<T>, numFrames: nat, numChannels: nat)
      requires numChannels <= MaxNumChannels
      requires numFrames * numChannels <= data.Length
      ensures Valid() && fresh(channels)
      ensures this.data == data && this.numFrames == numFrames && this.numChannels == numChannels
    {
      var table := new nat[MaxNumChannels];
      for i := 0 to numChannels
        invariant table[..i] == ChannelTableWrites(i)
      {
        table[i] := i;
      }
      this.data := data;
      this.numFrames := numFrames;
      this.numChannels := numChannels;
      this.stride := numChannels;
      this.channels := table;
    }

    function SizeFrames(): nat { numFrames }

    function SizeChannels(): nat { numChannels }

    /** getSizeSamples: the block holds every addressable sample and no more
        than the viewed array. */
    function SizeSamples(): (n: nat)
      reads this, channels
      requires Valid()
      ensures n <= data.Length
      ensures forall f: nat, c: nat :: f < numFrames && c < numChannels ==> Offset(f, c, numChannels) < n
    {
      forall f: nat, c: nat | f < numFrames && c < numChannels
        ensures Offset(f, c, numChannels) < numChannels * numFrames
      {
        OffsetInBounds(f, c, numFrames, numChannels);
      }
      numChannels * numFrames
    }

    /** operator(): the sample at (frame, channel) is the one at the
        interleaved offset in the underlying block. */
    function At(frame: nat, channel: nat): (x: T)
      reads this, channels, data
      requires Valid() && frame < numFrames && channel < numChannels
      ensures x == data[Offset(frame, channel, numChannels)]
    {
      OffsetInBounds(frame, channel, numFrames, numChannels);
      data[channels[channel] + frame * stride]
    }

    /** A write through the reference operator() returns: only that one
        sample of the block changes. */
    method Write(frame: nat, channel: nat, x: T)
      requires Valid() && frame < numFrames && channel < numChannels
      modifies data
      ensures Valid()
      ensures data[..] == old(data[..])[Offset(frame, channel, numChannels) := x]
      ensures At(frame, channel) == x
      ensures forall f: nat, c: nat :: f < numFrames && c < numChannels && (f != frame || c != channel) ==>
        At(f, c) == old(At(f, c))
    {
      OffsetInBounds(frame, channel, numFrames, numChannels);
      data[channels[channel] + frame * stride] := x;
      forall f: nat, c: nat | f < numFrames && c < numChannels && (f != frame || c != channel)
        ensures At(f, c) == old(At(f, c))
      {
        OffsetInBounds(f, c, numFrames, numChannels);
        if Offset(f, c, numChannels) == Offset(frame, channel, numChannels) {
          OffsetInjective(f, c, frame, channel, numChannels);
        }
      }
    }
  }
}
