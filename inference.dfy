/** The glue between the spectrogram and the neural network: `setup` binds
    the model's tensors after checking the input shape, and `check` fills the
    input tensor from the upper half of every frame, runs the network and
    copies the scores out. The interpreter is not modelled: its verdicts
    (the model's schema version, whether allocation and invocation succeed)
    and the tensors it hands out are parameters. */
module Inference {
  import opened Frames
  import opened Widths

  /** The schema version this build of the runtime supports. */
  const SchemaVersion := 3


  /** Element type of a tensor; only `int8` matters here. */
  datatype ElementType = Int8 | OtherType

  /** What gets sent to the error reporter. */
  datatype Report =
    | SchemaMismatch(found: int)
    | AllocateFailed
    | BadInputShape
    | BadInputType
    | InvokeFailed

  /** A tensor handed out by the interpreter: its shape, element type and
      storage. */
  class Tensor {
    const dims: seq<int>
    const kind: ElementType
    const data: array<int>

    constructor (dims: seq<int>, kind: ElementType, size: nat)
      ensures this.dims == dims && this.kind == kind
      ensures fresh(data) && data.Length == size
    {
      this.dims := dims;
      this.kind := kind;
      data := new int[size];
    }
  }

  /** The input shape the network must have for `sliceCount` slices of
      `sliceSize` values: rank 4, batch 1, then the two slice dimensions
      (the fourth dimension is not looked at). */
  predicate ShapeOk(dims: seq<int>, sliceCount: int, sliceSize: int)
  {
    |dims| == 4 && dims[0] == 1 && dims[1] == sliceCount && dims[2] == sliceSize
  }

  /** `main` calls `setup(frame_num, frame_size / 2)` and then
      `check(..., frame_num, frame_size, ...)`. When the shape check passed,
      `check` writes exactly as many values as the input tensor's two slice
      dimensions hold precisely when the frame size is even (there is at
      least one frame); for an odd size it writes `frame_num` more. */
  lemma CheckFillsInput(dims: seq<int>, frameNum: nat, frameSize: nat)
    requires ShapeOk(dims, frameNum, frameSize / 2)
    requires frameNum > 0
    ensures frameNum * Width(frameSize) == dims[1] * dims[2] <==> frameSize % 2 == 0
    ensures frameSize % 2 == 1 ==> frameNum * Width(frameSize) == dims[1] * dims[2] + frameNum
  {
    GatheredCountIsHalf(frameNum, frameSize);
    assert frameNum * Width(frameSize) == frameNum * (frameSize / 2) + frameNum * (Width(frameSize) - frameSize / 2);
  }

  /** A spectrum value the conversion at main_functions.cc:140 is defined
      for: an `int16_t` whose scaled value `x / 256 - 128` truncates into
      the `int8_t` range. */
  predicate Quantizable(x: int)
  {
    -256 < x < 0x8000
  }

  predicate AllQuantizable(s: seq<int>)
  {
    forall k :: 0 <= k < |s| ==> Quantizable(s[k])
  }

  /** `int8_t((float) x / 256 - 128)`. The float arithmetic is exact for a
      16-bit `x`, the value is never positive, and the conversion truncates
      toward zero, that is upwards. */
  function Quantize(x: int): (q: int)
    requires Quantizable(x)
    ensures -128 <= q <= 0
    ensures 256 * (q - 1) < x - 32768 <= 256 * q
  {
    -((32768 - x) / 256)
  }

  /** The truncation is pinned down by its bounds: no other value lies
      within one step below `(x - 32768) / 256`. */
  lemma QuantizeUnique(x: int, q: int)
    requires Quantizable(x)
    requires 256 * (q - 1) < x - 32768 <= 256 * q
    ensures q == Quantize(x)
  {
  }

  /** Louder spectrum values never give smaller network inputs. */
  lemma QuantizeMonotone(x: int, y: int)
    requires Quantizable(x) && Quantizable(y) && x <= y
    ensures Quantize(x) <= Quantize(y)
  {
  }

  /** The outcome of `Invoke()`: a failure, or success with the scores the
      network writes into the output tensor. */
  datatype Invocation = Failed | Succeeded(scores: seq<int>)

  /** The file-level globals of main_functions.cc. */
  class Engine {
    /** `interpreter != nullptr`. */
    var interpreterBuilt: bool
    var input: Tensor?
    var output: Tensor?
    var inferenceCount: int
    /** Everything sent to the error reporter so far. */
    var reports: seq<Report>

    constructor ()
      ensures !interpreterBuilt && input == null && output == null
      ensures inferenceCount == 0 && reports == []
    {
      interpreterBuilt := false;
      input := null;
      output := null;
      inferenceCount := 0;
      reports := [];
    }

    /** Everything `check` needs that `setup` establishes. */
    predicate Ready()
      reads this
    {
      interpreterBuilt && input != null && output != null
    }

    /** main_functions.cc:47-107. A schema mismatch or a failed allocation
        is reported and ends setup; a bad input shape is reported and ends
        setup with the input bound but the output not; a wrong element type
        is only reported. No failure stops the caller. */
    method Setup(sliceCount: int, sliceSize: int, modelVersion: int, allocateOk: bool,
                 inputTensor: Tensor, outputTensor: Tensor)
      modifies this
      ensures modelVersion != SchemaVersion ==>
        reports == old(reports) + [SchemaMismatch(modelVersion)] &&
        interpreterBuilt == old(interpreterBuilt) && input == old(input) &&
        output == old(output) && inferenceCount == old(inferenceCount)
      ensures modelVersion == SchemaVersion && !allocateOk ==>
        reports == old(reports) + [AllocateFailed] && interpreterBuilt &&
        input == old(input) && output == old(output) && inferenceCount == old(inferenceCount)
      ensures modelVersion == SchemaVersion && allocateOk &&
              !ShapeOk(inputTensor.dims, sliceCount, sliceSize) ==>
        reports == old(reports) + [BadInputShape] && interpreterBuilt &&
        input == inputTensor && output == old(output) && inferenceCount == old(inferenceCount)
      ensures modelVersion == SchemaVersion && allocateOk &&
              ShapeOk(inputTensor.dims, sliceCount, sliceSize) ==>
        reports == old(reports) + (if inputTensor.kind != Int8 then [BadInputType] else []) &&
        Ready() && input == inputTensor && output == outputTensor && inferenceCount == 0
    {
      if modelVersion != SchemaVersion {
        reports := reports + [SchemaMismatch(modelVersion)];
        return;
      }
      interpreterBuilt := true;
      if !allocateOk {
        reports := reports + [AllocateFailed];
        return;
      }
      input := inputTensor;
      if |input.dims| != 4 || input.dims[0] != 1 || input.dims[1] != sliceCount || input.dims[2] != sliceSize {
        reports := reports + [BadInputShape];
        return;
      }
      if input.kind != Int8 {
        reports := reports + [BadInputType];
      }
      output := outputTensor;
      inferenceCount := 0;
    }

    /** main_functions.cc:128-167. The network receives the quantized
        upper halves: input position `i * w + k` (with `w` the number of
        columns read per frame) holds sample `k` of the upper half of frame
        `i` when `Invoke()` runs, and the rest of the input tensor is left
        alone. A failed invocation is reported and leaves `answer` as it
        was. A successful one writes its scores into the output tensor, and
        `check` copies the first `wordsCount` of them into `answer`.

        `check` dereferences `interpreter` and `input` in any case and
        `output` after a successful run; those are what it needs of `setup`.
        The run is taken to write the output tensor only. */
    method Check(data: seq<int>, frameNum: nat, frameSize: nat, answer: array<int>,
                 wordsCount: nat, invocation: Invocation)
      requires interpreterBuilt && input != null
      requires invocation.Succeeded? ==> output != null
      requires frameNum < U16 && frameSize < U16
      requires frameNum * frameSize <= |data|
      requires frameNum * Width(frameSize) <= input.data.Length
      requires AllQuantizable(Gather(data, frameNum, frameSize))
      requires answer != input.data
      requires output != null ==> answer != output.data && input.data != output.data
      requires invocation.Succeeded? ==>
        |invocation.scores| == output.data.Length && wordsCount <= answer.Length &&
        wordsCount <= output.data.Length
      modifies this, input.data, answer, if output != null then {output.data} else {}
      ensures interpreterBuilt == old(interpreterBuilt) && input == old(input) &&
              output == old(output) && inferenceCount == old(inferenceCount)
      ensures var g := Gather(data, frameNum, frameSize);
        |g| <= input.data.Length &&
        (forall k :: 0 <= k < |g| ==> input.data[k] == Quantize(g[k])) &&
        input.data[|g|..] == old(input.data[|g|..])
      ensures invocation == Failed ==>
        reports == old(reports) + [InvokeFailed] && answer[..] == old(answer[..])
      ensures invocation.Succeeded? ==>
        reports == old(reports) &&
        output.data[..] == invocation.scores &&
        answer[..wordsCount] == invocation.scores[..wordsCount] &&
        answer[wordsCount..] == old(answer[wordsCount..])
    {
      FillInput(data, frameNum, frameSize, input.data);
      if invocation.Failed? {
        reports := reports + [InvokeFailed];
        return;
      }
      // What `Invoke()` leaves in the output tensor.
      var scores := invocation.scores;
      forall k | 0 <= k < output.data.Length {
        output.data[k] := scores[k];
      }
      for i := 0 to wordsCount
        modifies answer
        invariant answer[..i] == scores[..i]
        invariant answer[wordsCount..] == old(answer[wordsCount..])
      {
        answer[i] := output.data[i];
      }
    }
  }

  /** The loops of main_functions.cc:133-147: quantize the upper half of
      every frame, in order, into `dest`. */
  method FillInput(data: seq<int>, frameNum: nat, frameSize: nat, dest: array<int>)
    requires frameNum * frameSize <= |data|
    requires frameNum * Width(frameSize) <= dest.Length
    requires AllQuantizable(Gather(data, frameNum, frameSize))
    modifies dest
    ensures var g := Gather(data, frameNum, frameSize);
      (forall k :: 0 <= k < |g| ==> dest[k] == Quantize(g[k])) &&
      dest[|g|..] == old(dest[|g|..])
  {
    ghost var g := Gather(data, frameNum, frameSize);
    var dataPos := 0;
    var pos := frameSize / 2;
    for i := 0 to frameNum
      invariant dataPos == i * Width(frameSize) && dataPos <= |g|
      invariant pos == i * frameSize + frameSize / 2
      invariant forall k :: 0 <= k < dataPos ==> dest[k] == Quantize(g[k])
      invariant dest[|g|..] == old(dest[|g|..])
    {
      NextFrame(frameNum, frameSize, i);
      FrameBlock(data, frameNum, frameSize, g, i, pos, dataPos);
      dataPos := FillFrame(data, frameSize, pos, dataPos, dest, g);
      pos := pos + frameSize;
    }
  }

  /** The inner loop of main_functions.cc:139-145: quantize the upper half
      of one frame, which starts at `pos` in `data` and at `dataPos` in the
      reading order `g`, into `dest` from `dataPos` on. */
  method FillFrame(data: seq<int>, frameSize: nat, pos: nat, dataPos: nat, dest: array<int>,
                   ghost g: seq<int>) returns (dataPos': nat)
    requires pos + Width(frameSize) <= |data|
    requires dataPos + Width(frameSize) <= |g| <= dest.Length
    requires forall k :: dataPos <= k < dataPos + Width(frameSize) ==> g[k] == data[pos + (k - dataPos)]
    requires AllQuantizable(g)
    requires forall k :: 0 <= k < dataPos ==> dest[k] == Quantize(g[k])
    modifies dest
    ensures dataPos' == dataPos + Width(frameSize)
    ensures forall k :: 0 <= k < dataPos' ==> dest[k] == Quantize(g[k])
    ensures dest[dataPos'..] == old(dest[dataPos'..])
  {
    dataPos' := dataPos;
    var tPos := pos;
    for j := frameSize / 2 to frameSize
      invariant tPos == pos + (j - frameSize / 2)
      invariant dataPos' == dataPos + (j - frameSize / 2)
      invariant forall k :: 0 <= k < dataPos' ==> dest[k] == Quantize(g[k])
      invariant dest[dataPos + Width(frameSize)..] == old(dest[dataPos + Width(frameSize)..])
    {
      assert g[dataPos'] == data[tPos];
      var temp := Quantize(data[tPos]);
      dest[dataPos'] := temp;
      tPos := tPos + 1;
      dataPos' := dataPos' + 1;
    }
  }
}
