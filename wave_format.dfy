/** The device's mix format (WAVEFORMATEXTENSIBLE) and the arithmetic the
    device does on it: the WAVEFORMATEX fix-up, the switch to 32-bit float,
    and the buffer duration handed to IAudioClient::Initialize. */
module WaveFormats {
  import opened Common

  datatype SubFormat = IeeeFloat | Pcm | OtherSubFormat

  /** The fields of WAVEFORMATEXTENSIBLE that the device reads or writes. */
  datatype WaveFormat = WaveFormat(
    subFormat: SubFormat,
    nChannels: Word,
    nSamplesPerSec: DWord,
    wBitsPerSample: Word,
    wValidBitsPerSample: Word,
    nBlockAlign: Word,
    nAvgBytesPerSec: DWord)

  /** sizeof(float) * 8 */
  const FloatBits: Word := 32

  /** REFERENCE_TIME units (100 ns) per second. */
  const RefTimesPerSecond: nat := 10_000_000

  /** nChannels * wBitsPerSample / 8, computed in int and stored in a WORD. */
  function BlockAlign(nChannels: Word, bits: Word): Word {
    (nChannels * bits / 8) % WordLimit
  }

  /** nSamplesPerSec * wBitsPerSample * nChannels / 8: both products are
      DWORD (unsigned 32-bit) arithmetic, so each one wraps. */
  function AvgBytesPerSec(rate: DWord, bits: Word, nChannels: Word): DWord {
    DivBy8Fits((rate * bits) % DWordLimit * nChannels % DWordLimit);
    ((rate * bits) % DWordLimit * nChannels % DWordLimit) / 8
  }

  lemma DivBy8Fits(x: nat)
    requires x < DWordLimit
    ensures x / 8 < DWordLimit
  {
  }

  /** fixupMixFormat: recompute nBlockAlign and nAvgBytesPerSec; nothing else changes. */
  function Fixup(f: WaveFormat): (r: WaveFormat)
    ensures r.(nBlockAlign := f.nBlockAlign, nAvgBytesPerSec := f.nAvgBytesPerSec) == f
  {
    f.(nBlockAlign := BlockAlign(f.nChannels, f.wBitsPerSample),
       nAvgBytesPerSec := AvgBytesPerSec(f.nSamplesPerSec, f.wBitsPerSample, f.nChannels))
  }

  /** The format rewrite `connect` performs: IEEE float, 32 bits, then fix-up. */
  function ForceFloat(f: WaveFormat): (r: WaveFormat)
    ensures r.subFormat == IeeeFloat
    ensures r.wBitsPerSample == FloatBits && r.wValidBitsPerSample == FloatBits
    ensures r.nChannels == f.nChannels && r.nSamplesPerSec == f.nSamplesPerSec
  {
    Fixup(f.(subFormat := IeeeFloat, wBitsPerSample := FloatBits, wValidBitsPerSample := FloatBits))
  }

  /** The format rewrite `setSampleRate` performs. */
  function WithSampleRate(f: WaveFormat, rate: DWord): (r: WaveFormat)
    ensures r.nSamplesPerSec == rate
    ensures r.subFormat == f.subFormat && r.nChannels == f.nChannels
    ensures r.wBitsPerSample == f.wBitsPerSample && r.wValidBitsPerSample == f.wValidBitsPerSample
  {
    Fixup(f.(nSamplesPerSec := rate))
  }

  /** When no product overflows, the fix-up computes the WAVEFORMATEX rules
      exactly: nBlockAlign = nChannels * bits / 8 and
      nAvgBytesPerSec = rate * bits * nChannels / 8. */
  lemma FixupExact(f: WaveFormat)
    requires f.nChannels * f.wBitsPerSample < 8 * WordLimit
    requires f.nSamplesPerSec * f.wBitsPerSample * f.nChannels < DWordLimit
    ensures Fixup(f).nBlockAlign == f.nChannels * f.wBitsPerSample / 8
    ensures Fixup(f).nAvgBytesPerSec == f.nSamplesPerSec * f.wBitsPerSample * f.nChannels / 8
  {
    var rate, bits, ch := f.nSamplesPerSec, f.wBitsPerSample, f.nChannels;
    assert ch * bits / 8 < WordLimit;
    if ch == 0 {
      assert (rate * bits) % DWordLimit * ch == 0;
      assert rate * bits * ch == 0;
    } else {
      assert rate * bits <= rate * bits * ch by {
        assert rate * bits * ch == rate * bits * (ch - 1) + rate * bits;
      }
      assert (rate * bits) % DWordLimit == rate * bits;
      assert (rate * bits) % DWordLimit * ch % DWordLimit == rate * bits * ch;
    }
  }

  /** After `connect`'s rewrite a format with realistic channel count and
      rate obeys the WAVEFORMATEX invariants: four bytes per sample per
      channel, and nAvgBytesPerSec = nSamplesPerSec * nBlockAlign. */
  lemma ForceFloatConsistent(f: WaveFormat)
    requires f.nChannels < 0x4000
    requires f.nSamplesPerSec * f.nChannels * FloatBits < DWordLimit
    ensures ForceFloat(f).nBlockAlign == 4 * f.nChannels
    ensures ForceFloat(f).nAvgBytesPerSec == ForceFloat(f).nSamplesPerSec * ForceFloat(f).nBlockAlign
  {
    var g := f.(subFormat := IeeeFloat, wBitsPerSample := FloatBits, wValidBitsPerSample := FloatBits);
    assert g.nSamplesPerSec * g.wBitsPerSample * g.nChannels == f.nSamplesPerSec * f.nChannels * FloatBits;
    FixupExact(g);
    assert g.nChannels * FloatBits / 8 == 4 * f.nChannels;
    assert f.nSamplesPerSec * FloatBits * f.nChannels / 8 == f.nSamplesPerSec * (4 * f.nChannels) by {
      assert f.nSamplesPerSec * FloatBits * f.nChannels == 8 * (f.nSamplesPerSec * (4 * f.nChannels));
    }
  }

  /** `start`'s buffer_duration: (10'000'000 * frames) / rate in REFERENCE_TIME
      (signed 64-bit). The source divides by the rate unchecked. */
  function BufferDuration(frames: DWord, rate: DWord): int
    requires rate > 0
  {
    RefTimesPerSecond * frames / rate
  }

  /** The duration is the floor of frames / rate in 100 ns units, and it
      always fits a REFERENCE_TIME. */
  lemma BufferDurationIsFloor(frames: DWord, rate: DWord)
    requires rate > 0
    ensures var d := BufferDuration(frames, rate);
      && 0 <= d < 0x8000_0000_0000_0000
      && d * rate <= RefTimesPerSecond * frames < (d + 1) * rate
  {
    var n := RefTimesPerSecond * frames;
    DivisionBounds(n, rate);
    assert n < 0x8000_0000_0000_0000 by {
      assert n <= RefTimesPerSecond * (DWordLimit - 1);
    }
  }

  lemma DivisionBounds(n: nat, k: nat)
    requires k > 0
    ensures 0 <= n / k <= n
    ensures (n / k) * k <= n < (n / k + 1) * k
  {
    var d, m := n / k, n % k;
    assert n == d * k + m && 0 <= m < k;
    MulGrows(d, k);
    assert (d + 1) * k == d * k + k;
  }

  lemma MulGrows(d: nat, k: nat)
    requires k > 0
    ensures d <= d * k
  {
    var j := k - 1;
    assert d * k == d * j + d;
    NonNegProduct(d, j);
  }

  lemma NonNegProduct(a: nat, b: nat)
    ensures 0 <= a * b
  {
  }
}
