/** The frame layout shared by the spectrum dump and the inference input.
    A buffer holds `n` frames of `fs` samples each, frame `i` starting at
    `i * fs`; only the upper half of every frame, columns `fs / 2 .. fs - 1`,
    is ever read. */
module Frames {

  /** First column read in every frame. */
  function FirstColumn(fs: nat): nat { fs / 2 }

  /** Number of columns read in every frame (`fs - fs / 2`, which is
      `fs / 2` only when `fs` is even). */
  function Width(fs: nat): nat { fs - fs / 2 }

  lemma MulStep(n: nat, fs: nat)
    requires n > 0
    ensures (n - 1) * fs + fs == n * fs
  {
  }

  /** Moving from frame `i` to frame `i + 1` of `n`. */
  lemma NextFrame(n: nat, fs: nat, i: nat)
    requires i < n
    ensures (i + 1) * fs == i * fs + fs
    ensures (i + 1) * Width(fs) == i * Width(fs) + Width(fs)
    ensures (i + 1) * Width(fs) <= n * Width(fs)
    ensures (i + 1) * fs <= n * fs
  {
  }

  /** The samples read from the first `n` frames of `d`, in reading order. */
  function Gather(d: seq<int>, n: nat, fs: nat): (g: seq<int>)
    requires n * fs <= |d|
    ensures |g| == n * Width(fs)
    decreases n
  {
    if n == 0 then []
    else
      MulStep(n, fs);
      MulStep(n, Width(fs));
      Gather(d, n - 1, fs) + d[(n - 1) * fs + FirstColumn(fs) .. n * fs]
  }

  /** Reading position `i * Width(fs) + k` holds sample `k` of the upper
      half of frame `i`, that is `d[i * fs + fs / 2 + k]`. */
  lemma {:induction false} GatherAt(d: seq<int>, n: nat, fs: nat, i: nat, k: nat)
    requires n * fs <= |d|
    requires i < n && k < Width(fs)
    ensures i * Width(fs) + k < n * Width(fs)
    ensures i * fs + FirstColumn(fs) + k < |d|
    ensures Gather(d, n, fs)[i * Width(fs) + k] == d[i * fs + FirstColumn(fs) + k]
    decreases n
  {
    if i < n - 1 {
      GatherAt(d, n - 1, fs, i, k);
      GatherAtEarlier(d, n, fs, i, k);
    } else {
      GatherAtLast(d, n, fs, i, k);
    }
  }

  /** A position in an earlier frame is read from the first `n - 1` frames. */
  lemma GatherAtEarlier(d: seq<int>, n: nat, fs: nat, i: nat, k: nat)
    requires n * fs <= |d|
    requires i < n - 1 && k < Width(fs)
    requires i * Width(fs) + k < (n - 1) * Width(fs)
    ensures i * Width(fs) + k < n * Width(fs)
    ensures Gather(d, n, fs)[i * Width(fs) + k] == Gather(d, n - 1, fs)[i * Width(fs) + k]
  {
    MulStep(n, Width(fs));
    MulStep(n, fs);
    var prev := Gather(d, n - 1, fs);
    var last := d[(n - 1) * fs + FirstColumn(fs) .. n * fs];
    assert Gather(d, n, fs) == prev + last;
  }

  /** A position in the last frame is read from that frame's upper half. */
  lemma GatherAtLast(d: seq<int>, n: nat, fs: nat, i: nat, k: nat)
    requires n * fs <= |d|
    requires i == n - 1 && k < Width(fs)
    ensures i * Width(fs) + k < n * Width(fs)
    ensures i * fs + FirstColumn(fs) + k < |d|
    ensures Gather(d, n, fs)[i * Width(fs) + k] == d[i * fs + FirstColumn(fs) + k]
  {
    MulStep(n, Width(fs));
    MulStep(n, fs);
    var prev := Gather(d, n - 1, fs);
    var last := d[(n - 1) * fs + FirstColumn(fs) .. n * fs];
    assert Gather(d, n, fs) == prev + last;
    assert |prev| == (n - 1) * Width(fs);
  }

  /** `GatherAt` for a loop that tracks where frame `i` starts in the
      buffer (`start`) and in reading order (`base`). */
  lemma GatherAtFrom(d: seq<int>, n: nat, fs: nat, i: nat, start: int, base: int, k: nat)
    requires n * fs <= |d|
    requires i < n && k < Width(fs)
    requires start == i * fs + FirstColumn(fs) && base == i * Width(fs)
    ensures 0 <= base + k < n * Width(fs) && 0 <= start + k < |d|
    ensures Gather(d, n, fs)[base + k] == d[start + k]
  {
    GatherAt(d, n, fs, i, k);
  }

  /** Frame `i`'s upper half, as a block of the buffer `d` starting at
      `start` and a block of the reading order `g` starting at `base`. */
  lemma FrameBlock(d: seq<int>, n: nat, fs: nat, g: seq<int>, i: nat, start: int, base: int)
    requires n * fs <= |d| && g == Gather(d, n, fs) && i < n
    requires start == i * fs + FirstColumn(fs) && base == i * Width(fs)
    ensures 0 <= start && start + Width(fs) <= |d|
    ensures 0 <= base && base + Width(fs) <= |g|
    ensures forall k :: base <= k < base + Width(fs) ==> g[k] == d[start + (k - base)]
  {
    FrameBounds(n, fs, i, start, base);
    forall k | base <= k < base + Width(fs)
      ensures g[k] == d[start + (k - base)]
    {
      GatherAtFrom(d, n, fs, i, start, base, k - base);
    }
  }

  lemma FrameBounds(n: nat, fs: nat, i: nat, start: int, base: int)
    requires i < n
    requires start == i * fs + FirstColumn(fs) && base == i * Width(fs)
    ensures 0 <= start && start + Width(fs) <= n * fs
    ensures 0 <= base && base + Width(fs) <= n * Width(fs)
  {
    NextFrame(n, fs, i);
  }

  /** The number of samples read equals `n * (fs / 2)` exactly when `fs` is
      even (or there are no frames). */
  lemma {:induction false} GatheredCountIsHalf(n: nat, fs: nat)
    ensures n * Width(fs) == n * (fs / 2) <==> (n == 0 || fs % 2 == 0)
  {
    if n > 0 && fs % 2 == 1 {
      assert Width(fs) == fs / 2 + 1;
      assert n * Width(fs) == n * (fs / 2) + n;
    }
  }
}
