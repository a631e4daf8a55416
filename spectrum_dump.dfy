/** `print_array`: a diagnostic dump of the upper half of every FFT frame,
    with each run of zero samples that is followed by a nonzero sample
    shortened to the pair `0, length`. The printed text is modelled as the
    sequence of numbers it prints. */
module SpectrumDump {
  import opened Frames
  import opened Widths


  function Zeros(n: nat): (z: seq<int>)
    ensures |z| == n && forall i :: 0 <= i < n ==> z[i] == 0
  {
    if n == 0 then [] else Zeros(n - 1) + [0]
  }

  /** The encoder after some samples: the numbers printed so far and the
      length of the zero run not yet printed. */
  datatype Encoder = Encoder(out: seq<int>, run: nat)

  /** One sample: a zero extends the pending run; a nonzero sample first
      prints the pending run as `0, length` (if there is one), then itself. */
  function Feed(e: Encoder, x: int): Encoder
  {
    if x == 0 then e.(run := e.run + 1)
    else Encoder(e.out + (if e.run > 0 then [0, e.run] else []) + [x], 0)
  }

  /** The encoder after the samples `s`, fed in order. */
  function Encoded(s: seq<int>): Encoder
  {
    if s == [] then Encoder([], 0) else Feed(Encoded(s[..|s| - 1]), s[|s| - 1])
  }

  /** The reader's side: a nonzero number is a sample, `0, n` stands for
      `n` zeros. A dangling `0` expands to nothing. */
  function Expand(t: seq<int>): seq<int>
    decreases |t|
  {
    if t == [] then []
    else if t[0] != 0 then [t[0]] + Expand(t[1..])
    else if |t| == 1 then []
    else Zeros(if t[1] < 0 then 0 else t[1]) + Expand(t[2..])
  }

  /** `t` splits into whole items: samples and `0, n` pairs. */
  predicate Aligned(t: seq<int>)
    decreases |t|
  {
    if t == [] then true
    else if t[0] != 0 then Aligned(t[1..])
    else |t| >= 2 && t[1] >= 0 && Aligned(t[2..])
  }

  /** Expanding whole items one after the other. */
  lemma {:induction false} ExpandAppend(a: seq<int>, b: seq<int>)
    requires Aligned(a)
    ensures Expand(a + b) == Expand(a) + Expand(b)
    ensures Aligned(b) ==> Aligned(a + b)
    decreases |a|
  {
    if a == [] {
      assert a + b == b;
    } else if a[0] != 0 {
      assert (a + b)[0] == a[0] && (a + b)[1..] == a[1..] + b;
      ExpandAppend(a[1..], b);
    } else {
      assert (a + b)[0] == 0 && (a + b)[1] == a[1] && (a + b)[2..] == a[2..] + b;
      ExpandAppend(a[2..], b);
    }
  }

  lemma ExpandTail(run: nat, x: int)
    requires x != 0
    ensures Aligned([x]) && Expand([x]) == [x]
    ensures run > 0 ==> Aligned([0, run] + [x]) && Expand([0, run] + [x]) == Zeros(run) + [x]
  {
    assert [x][1..] == [];
    if run > 0 {
      assert ([0, run] + [x])[2..] == [x];
    }
  }

  /** The round trip: expanding what the encoder printed and appending its
      pending run gives back the samples, and the expansion is empty or ends
      in a nonzero sample. So a trailing zero run is never printed, and
      expanding the output reproduces the samples with trailing zeros
      removed. */
  lemma {:induction false} EncodedRoundTrip(s: seq<int>)
    ensures RoundTrips(Encoded(s), s)
  {
    if s != [] {
      var init, x := s[..|s| - 1], s[|s| - 1];
      EncodedRoundTrip(init);
      assert s == init + [x];
      FeedRoundTrips(Encoded(init), init, x);
    }
  }

  /** Encoder `e` accounts for the samples `s`: its output expands to `s`
      less its pending run of zeros, and ends in a nonzero sample if at all. */
  predicate RoundTrips(e: Encoder, s: seq<int>)
  {
    var x := Expand(e.out);
    Aligned(e.out) && x + Zeros(e.run) == s && (x == [] || x[|x| - 1] != 0)
  }

  /** One sample keeps the encoder in step with the samples fed so far. */
  lemma FeedRoundTrips(e: Encoder, s: seq<int>, x: int)
    requires RoundTrips(e, s)
    ensures RoundTrips(Feed(e, x), s + [x])
  {
    if x == 0 {
      FeedZero(e, s);
    } else {
      FeedSample(e, s, x);
    }
  }

  lemma FeedZero(e: Encoder, s: seq<int>)
    requires RoundTrips(e, s)
    ensures RoundTrips(Feed(e, 0), s + [0])
  {
    var x := Expand(e.out);
    assert Feed(e, 0) == Encoder(e.out, e.run + 1);
    assert Zeros(e.run + 1) == Zeros(e.run) + [0];
    assert x + (Zeros(e.run) + [0]) == (x + Zeros(e.run)) + [0];
  }

  lemma FeedSample(e: Encoder, s: seq<int>, x: int)
    requires RoundTrips(e, s) && x != 0
    ensures RoundTrips(Feed(e, x), s + [x])
  {
    var item := if e.run > 0 then [0, e.run] + [x] else [x];
    ExpandTail(e.run, x);
    assert Feed(e, x) == Encoder(e.out + item, 0);
    AppendItem(e.out, e.run, item, s, x);
  }

  /** Printing the item for a pending run and the sample `x` that ends it. */
  lemma AppendItem(out: seq<int>, run: nat, item: seq<int>, s: seq<int>, x: int)
    requires Aligned(out) && Expand(out) + Zeros(run) == s
    requires Aligned(item) && Expand(item) == Zeros(run) + [x] && x != 0
    ensures RoundTrips(Encoder(out + item, 0), s + [x])
  {
    ExpandAppend(out, item);
    var post := Expand(out + item);
    assert post == (Expand(out) + Zeros(run)) + [x];
    assert post[|post| - 1] == x;
  }

  lemma EncodedSnoc(s: seq<int>, k: nat)
    requires k < |s|
    ensures Encoded(s[..k + 1]) == Feed(Encoded(s[..k]), s[k])
  {
    assert s[..k + 1][..k] == s[..k];
  }

  /** The input of the worked example in the doc comment at main.c:229-236. */
  const DocInput: seq<int> := [1, 0, 0, 3, 3, 3, 0, 0, 0, 0, 0, 0, 0, 0, 0, 0, 5, 6, 1]

  /** The encoder after the first 5 samples of the worked example. */
  lemma DocExampleUpTo5()
    ensures Encoded(DocInput[..5]) == Encoder([1, 0, 2, 3, 3], 0)
  {
    var s := DocInput;
    assert Encoded(s[..0]) == Encoder([], 0);
    assert s[..1][..0] == s[..0];
    assert Encoded(s[..1]) == Encoder([1], 0);
    assert s[..2][..1] == s[..1];
    assert Encoded(s[..2]) == Encoder([1], 1);
    assert s[..3][..2] == s[..2];
    assert Encoded(s[..3]) == Encoder([1], 2);
    assert s[..4][..3] == s[..3];
    assert Encoded(s[..4]) == Encoder([1, 0, 2, 3], 0);
    assert s[..5][..4] == s[..4];
    assert Encoded(s[..5]) == Encoder([1, 0, 2, 3, 3], 0);
  }

  /** The encoder after the first 10 samples of the worked example. */
  lemma DocExampleUpTo10()
    ensures Encoded(DocInput[..10]) == Encoder([1, 0, 2, 3, 3, 3], 4)
  {
    var s := DocInput;
    DocExampleUpTo5();
    assert s[..6][..5] == s[..5];
    assert Encoded(s[..6]) == Encoder([1, 0, 2, 3, 3, 3], 0);
    assert s[..7][..6] == s[..6];
    assert Encoded(s[..7]) == Encoder([1, 0, 2, 3, 3, 3], 1);
    assert s[..8][..7] == s[..7];
    assert Encoded(s[..8]) == Encoder([1, 0, 2, 3, 3, 3], 2);
    assert s[..9][..8] == s[..8];
    assert Encoded(s[..9]) == Encoder([1, 0, 2, 3, 3, 3], 3);
    assert s[..10][..9] == s[..9];
    assert Encoded(s[..10]) == Encoder([1, 0, 2, 3, 3, 3], 4);
  }

  /** The encoder after the first 15 samples of the worked example. */
  lemma DocExampleUpTo15()
    ensures Encoded(DocInput[..15]) == Encoder([1, 0, 2, 3, 3, 3], 9)
  {
    var s := DocInput;
    DocExampleUpTo10();
    assert s[..11][..10] == s[..10];
    assert Encoded(s[..11]) == Encoder([1, 0, 2, 3, 3, 3], 5);
    assert s[..12][..11] == s[..11];
    assert Encoded(s[..12]) == Encoder([1, 0, 2, 3, 3, 3], 6);
    assert s[..13][..12] == s[..12];
    assert Encoded(s[..13]) == Encoder([1, 0, 2, 3, 3, 3], 7);
    assert s[..14][..13] == s[..13];
    assert Encoded(s[..14]) == Encoder([1, 0, 2, 3, 3, 3], 8);
    assert s[..15][..14] == s[..14];
    assert Encoded(s[..15]) == Encoder([1, 0, 2, 3, 3, 3], 9);
  }

  /** The worked example of the doc comment at main.c:229-236. */
  lemma DocExample()
    ensures Encoded(DocInput).out == [1, 0, 2, 3, 3, 3, 0, 10, 5, 6, 1]
  {
    var s := DocInput;
    DocExampleUpTo15();
    assert s[..16][..15] == s[..15];
    assert Encoded(s[..16]) == Encoder([1, 0, 2, 3, 3, 3], 10);
    assert s[..17][..16] == s[..16];
    assert Encoded(s[..17]) == Encoder([1, 0, 2, 3, 3, 3, 0, 10, 5], 0);
    assert s[..18][..17] == s[..17];
    assert Encoded(s[..18]) == Encoder([1, 0, 2, 3, 3, 3, 0, 10, 5, 6], 0);
    assert s[..19][..18] == s[..18];
    assert Encoded(s[..19]) == Encoder([1, 0, 2, 3, 3, 3, 0, 10, 5, 6, 1], 0);
    assert s[..19] == s;
  }

  /** The body of the inner loop at main.c:269-282 for one sample `x`. */
  method EmitSample(body: seq<int>, zeroCount: nat, prevZero: int, x: int)
    returns (body': seq<int>, zeroCount': nat, prevZero': int)
    requires zeroCount + 1 < U16
    requires prevZero == if zeroCount > 0 then 1 else 0
    ensures Encoder(body', zeroCount') == Feed(Encoder(body, zeroCount), x)
    ensures prevZero' == if zeroCount' > 0 then 1 else 0
  {
    body', zeroCount', prevZero' := body, zeroCount, prevZero;
    if 0 == x {
      zeroCount' := (zeroCount' + 1) % U16;
      prevZero' := 1;
    } else {
      if 1 == prevZero' {
        body' := body' + [0];
        body' := body' + [zeroCount'];
        zeroCount' := 0;
        prevZero' := 0;
      }
      body' := body' + [x];
    }
  }

  /** The scan of main.c:261-285: the upper half of each frame, in order,
      through the zero-run encoder. `zero_count` is a `uint16_t`; the
      requirement on the number of samples read keeps it from wrapping. */
  method EmitFrames(data: seq<int>, frameNum: nat, frameSize: nat) returns (body: seq<int>)
    requires frameNum * frameSize <= |data|
    requires frameNum * Width(frameSize) < U16
    ensures body == Encoded(Gather(data, frameNum, frameSize)).out
  {
    ghost var g := Gather(data, frameNum, frameSize);
    ghost var done := 0;
    body := [];
    var pos := frameSize / 2;
    var prevZero := 0;
    var zeroCount: nat := 0;
    for i := 0 to frameNum
      invariant done == i * Width(frameSize) && done <= |g|
      invariant pos == i * frameSize + frameSize / 2
      invariant Encoder(body, zeroCount) == Encoded(g[..done])
      invariant zeroCount <= done
      invariant prevZero == if zeroCount > 0 then 1 else 0
    {
      NextFrame(frameNum, frameSize, i);
      FrameBlock(data, frameNum, frameSize, g, i, pos, done);
      body, zeroCount, prevZero := EmitFrame(data, frameSize, pos, body, zeroCount, prevZero, g, done);
      pos := pos + frameSize;
      done := done + Width(frameSize);
    }
    assert g[..done] == g;
  }

  /** The inner loop of main.c:267-283: the upper half of one frame, which
      starts at `pos` in `data` and at `done` in the reading order `g`. */
  method EmitFrame(data: seq<int>, frameSize: nat, pos: nat,
                   body: seq<int>, zeroCount: nat, prevZero: int, ghost g: seq<int>, ghost done: nat)
    returns (body': seq<int>, zeroCount': nat, prevZero': int)
    requires pos + Width(frameSize) <= |data|
    requires done + Width(frameSize) <= |g| < U16
    requires forall k :: done <= k < done + Width(frameSize) ==> g[k] == data[pos + (k - done)]
    requires Encoder(body, zeroCount) == Encoded(g[..done])
    requires zeroCount <= done
    requires prevZero == if zeroCount > 0 then 1 else 0
    ensures Encoder(body', zeroCount') == Encoded(g[..done + Width(frameSize)])
    ensures zeroCount' <= done + Width(frameSize)
    ensures prevZero' == if zeroCount' > 0 then 1 else 0
  {
    body', zeroCount', prevZero' := body, zeroCount, prevZero;
    var tPos := pos;
    for j := frameSize / 2 to frameSize
      invariant tPos == pos + (j - frameSize / 2)
      invariant Encoder(body', zeroCount') == Encoded(g[..done + (j - frameSize / 2)])
      invariant zeroCount' <= done + (j - frameSize / 2)
      invariant prevZero' == if zeroCount' > 0 then 1 else 0
    {
      ghost var k := done + (j - frameSize / 2);
      assert g[k] == data[tPos];
      EncodedSnoc(g, k);
      body', zeroCount', prevZero' := EmitSample(body', zeroCount', prevZero', data[tPos]);
      tPos := tPos + 1;
    }
  }

  /** First word of the header line. */
  datatype Tag = SN | SY

  /** Everything one call prints: the header (tag and call number), the
      frame count and half the frame size, then the encoded samples. */
  datatype Dump = Dump(tag: Tag, counter: int, frameNum: int, half: int, body: seq<int>)

  /** The reader's side of a whole dump: expand the body and pad it with
      zeros to `frameNum * half` samples, the size announced in the header. */
  function Decode(d: Dump): seq<int>
  {
    var x := Expand(d.body);
    if d.frameNum >= 0 && d.half >= 0 && |x| <= d.frameNum * d.half
    then x + Zeros(d.frameNum * d.half - |x|)
    else x
  }

  /** For an even frame size (the firmware's is 128) the header announces
      exactly the number of samples read, and decoding a dump gives back
      every sample read, trailing zeros included. */
  lemma DumpRoundTrip(data: seq<int>, frameNum: nat, frameSize: nat, tag: Tag, counter: int)
    requires frameNum * frameSize <= |data| && frameSize % 2 == 0
    ensures var g := Gather(data, frameNum, frameSize);
      Decode(Dump(tag, counter, frameNum, frameSize / 2, Encoded(g).out)) == g
  {
    var g := Gather(data, frameNum, frameSize);
    EncodedRoundTrip(g);
    GatheredCountIsHalf(frameNum, frameSize);
  }

  /** The `static` call counter of `print_array`. */
  class Printer {
    var counter: int

    ghost predicate Valid()
      reads this
    {
      0 <= counter < U16
    }

    constructor ()
      ensures Valid() && counter == 0
    {
      counter := 0;
    }

    /** main.c:248-286. The header says SN for button 0 and SY otherwise and
        carries the call number, which advances by one per call (as a
        `uint16_t`); the body is the encoded upper halves of the frames. */
    method PrintArray(activeButton: int, data: seq<int>, frameNum: nat, frameSize: nat) returns (dump: Dump)
      requires Valid()
      requires frameNum < U16 && frameSize < U16
      requires frameNum * frameSize <= |data|
      requires frameNum * Width(frameSize) < U16
      modifies this
      ensures Valid()
      ensures counter == (old(counter) + 1) % U16
      ensures dump == Dump(if activeButton == 0 then SN else SY, old(counter), frameNum, frameSize / 2,
                           Encoded(Gather(data, frameNum, frameSize)).out)
    {
      var tag := if 0 == activeButton then SN else SY;
      var number := counter;
      counter := (counter + 1) % U16;
      var body := EmitFrames(data, frameNum, frameSize);
      dump := Dump(tag, number, frameNum, frameSize / 2, body);
    }
  }
}
