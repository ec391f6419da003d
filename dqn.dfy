/** The integer bookkeeping of the DQN convolutional net: the size of the linear head after three
    strided convolutions, and the guard around the optional input preprocessor. */
module Dqn {
  import opened Wrappers
  import opened PyArith

  /** One convolution without padding or dilation: `(d - (k - 1) - 1) // stride + 1` outputs along
      an axis of `d` inputs, with Python's floor division. */
  function Connections(d: int, kernel: int, stride: int): (r: int)
    requires stride != 0
    ensures stride > 0 ==> stride * (r - 1) + kernel <= d < stride * r + kernel
  {
    FloorDiv(d - (kernel - 1) - 1, stride) + 1
  }

  /** `n` convolutions in a row along one axis. */
  function Layers(d: int, kernel: int, stride: int, n: nat): int
    requires stride != 0
  {
    if n == 0 then d else Connections(Layers(d, kernel, stride, n - 1), kernel, stride)
  }

  /** `__get_connections__`: three convolutions along each axis, times the output channels. */
  function GetConnections(width: int, height: int, kernel: int, stride: int, outChannel: int): (r: int)
    requires stride != 0
    ensures r == Layers(width, kernel, stride, 3) * Layers(height, kernel, stride, 3) * outChannel
  {
    var w := Connections(Connections(Connections(width, kernel, stride), kernel, stride), kernel, stride);
    var h := Connections(Connections(Connections(height, kernel, stride), kernel, stride), kernel, stride);
    ThreeLayers(width, kernel, stride);
    ThreeLayers(height, kernel, stride);
    w * h * outChannel
  }

  lemma ThreeLayers(d: int, kernel: int, stride: int)
    requires stride != 0
    ensures Layers(d, kernel, stride, 3)
            == Connections(Connections(Connections(d, kernel, stride), kernel, stride), kernel, stride)
  {
    var d1 := Connections(d, kernel, stride);
    var d2 := Connections(d1, kernel, stride);
    assert Layers(d, kernel, stride, 1) == d1;
    assert Layers(d, kernel, stride, 2) == d2;
  }

  /** A layer's output count is the largest `r` whose last window still fits: windows start every
      `stride` inputs, and the `r`-th one ends at input `stride * (r - 1) + kernel`. */
  lemma ConnectionsIsLargestFit(d: int, kernel: int, stride: int, r: int)
    requires stride > 0
    ensures stride * (r - 1) + kernel <= d <==> r <= Connections(d, kernel, stride)
  {
    var c := Connections(d, kernel, stride);
    if r <= c {
      assert stride * (r - 1) <= stride * (c - 1) by {
        MultiplyMonotone(stride, r - 1, c - 1);
      }
    } else {
      assert stride * c <= stride * (r - 1) by {
        MultiplyMonotone(stride, c, r - 1);
      }
    }
  }

  lemma MultiplyMonotone(s: int, a: int, b: int)
    requires s > 0 && a <= b
    ensures s * a <= s * b
  {
  }

  /** More inputs never give fewer outputs. */
  lemma ConnectionsMonotone(d1: int, d2: int, kernel: int, stride: int)
    requires stride > 0 && d1 <= d2
    ensures Connections(d1, kernel, stride) <= Connections(d2, kernel, stride)
  {
    ConnectionsIsLargestFit(d2, kernel, stride, Connections(d1, kernel, stride));
  }

  /** Stacking layers keeps that: a wider input never gives a narrower output, however many
      layers. */
  lemma {:induction false} LayersMonotone(d1: int, d2: int, kernel: int, stride: int, n: nat)
    requires stride > 0 && d1 <= d2
    ensures Layers(d1, kernel, stride, n) <= Layers(d2, kernel, stride, n)
    decreases n
  {
    if n > 0 {
      LayersMonotone(d1, d2, kernel, stride, n - 1);
      ConnectionsMonotone(Layers(d1, kernel, stride, n - 1), Layers(d2, kernel, stride, n - 1), kernel, stride);
    }
  }

  /** A larger image never needs a smaller head, as long as the smaller image survives the three
      convolutions (no negative output count) and the channel count is not negative. */
  lemma GetConnectionsMonotone(w1: int, h1: int, w2: int, h2: int, kernel: int, stride: int, outChannel: int)
    requires stride > 0 && w1 <= w2 && h1 <= h2 && outChannel >= 0
    requires Layers(w1, kernel, stride, 3) >= 0 && Layers(h1, kernel, stride, 3) >= 0
    ensures GetConnections(w1, h1, kernel, stride, outChannel) <= GetConnections(w2, h2, kernel, stride, outChannel)
  {
    LayersMonotone(w1, w2, kernel, stride, 3);
    LayersMonotone(h1, h2, kernel, stride, 3);
    ProductMonotone(Layers(w1, kernel, stride, 3), Layers(w2, kernel, stride, 3),
                    Layers(h1, kernel, stride, 3), Layers(h2, kernel, stride, 3), outChannel);
  }

  lemma ProductMonotone(a1: int, a2: int, b1: int, b2: int, c: int)
    requires 0 <= a1 <= a2 && 0 <= b1 <= b2 && 0 <= c
    ensures a1 * b1 * c <= a2 * b2 * c
  {
    assert a1 * b1 <= a2 * b1 <= a2 * b2;
  }

  /** The net's head: 5-wide kernels with stride 2 take 160 columns to 78, 37 and 17, and 210 rows
      to 103, 50 and 23, so the head reads 17 * 23 * 32 = 12512 values. */
  lemma HeadSize()
    ensures Connections(160, 5, 2) == 78 && Connections(78, 5, 2) == 37 && Connections(37, 5, 2) == 17
    ensures Connections(210, 5, 2) == 103 && Connections(103, 5, 2) == 50 && Connections(50, 5, 2) == 23
    ensures GetConnections(160, 210, 5, 2, 32) == 12512
  {
  }

  /** Why `preprocess` or `set_preprocessor` fails; all are ValueErrors in the net. */
  datatype PreprocessError = OverwriteWithoutFlag | MissingPreprocessor | PreprocessorRaised

  /** `set_preprocessor(f, overwrite)` on the current preprocessor: stored when none is set or when
      overwriting is asked for, refused otherwise. So a preprocessor once set stays until replaced
      with `overwrite`, and the result says which happened. */
  function SetStep<F>(current: Option<F>, f: F, overwrite: bool): (r: (Option<F>, Result<(), PreprocessError>))
    ensures r.1.Ok? <==> current.None? || overwrite
    ensures r.1.Ok? ==> r.0 == Some(f)
    ensures r.1.Err? ==> r.0 == current && r.1.error == OverwriteWithoutFlag
  {
    if current.None? || overwrite then (Some(f), Ok(())) else (current, Err(OverwriteWithoutFlag))
  }

  /** Setting twice without `overwrite` keeps the first; with it, the second wins. */
  lemma SetTwice<F>(f: F, g: F)
    ensures SetStep(SetStep(None, f, false).0, g, false) == (Some(f), Err(OverwriteWithoutFlag))
    ensures SetStep(SetStep(None, f, false).0, g, true) == (Some(g), Ok(()))
  {
  }

  /** `CNN`: the size of the linear head and an optional preprocessor. A preprocessor is a call
      that either gives a value or raises (`None`). */
  class Cnn<I, O> {
    var preprocessor: Option<I -> Option<O>>
    const headInputs: int
    const headOutputs: int

    /** `CNN(width, height, outputs, set_preprocessor)`: the head reads `__get_connections__` of
        the image with 5-wide kernels, stride 2 and 32 channels, and the resizing pipeline, given
        here as `pipeline`, is attached only when asked for. */
    constructor (width: int, height: int, outputs: int, setPreprocessor: bool, pipeline: I -> Option<O>)
      ensures headInputs == GetConnections(width, height, 5, 2, 32) && headOutputs == outputs
      ensures preprocessor == if setPreprocessor then Some(pipeline) else None
    {
      headInputs := GetConnections(width, height, 5, 2, 32);
      headOutputs := outputs;
      preprocessor := if setPreprocessor then Some(pipeline) else None;
    }

    /** `preprocessor_exists()`: despite its name, true exactly when no preprocessor is set. */
    function PreprocessorExists(): (r: bool)
      reads this
      ensures r <==> preprocessor.None?
    {
      preprocessor.None?
    }

    method SetPreprocessor(f: I -> Option<O>, overwrite: bool) returns (r: Result<(), PreprocessError>)
      modifies this
      ensures (preprocessor, r) == SetStep(old(preprocessor), f, overwrite)
    {
      if PreprocessorExists() || overwrite {
        preprocessor := Some(f);
        return Ok(());
      }
      r := Err(OverwriteWithoutFlag);
    }

    /** `preprocess(inputs)`: the preprocessor's value, a failure when it raises, and a failure
        when none is set. */
    function Preprocess(inputs: I): (r: Result<O, PreprocessError>)
      reads this
      ensures preprocessor.None? ==> r == Err(MissingPreprocessor)
      ensures preprocessor.Some? && preprocessor.value(inputs).Some? ==> r == Ok(preprocessor.value(inputs).value)
      ensures preprocessor.Some? && preprocessor.value(inputs).None? ==> r == Err(PreprocessorRaised)
    {
      if !PreprocessorExists() then
        var out := preprocessor.value(inputs);
        if out.Some? then Ok(out.value) else Err(PreprocessorRaised)
      else
        Err(MissingPreprocessor)
    }
  }

  /** The preprocessing test: a 160 by 210 net built with its pipeline has a 12512-wide head and
      preprocesses whatever the pipeline accepts; without the pipeline it refuses. */
  method PreprocessScenario<I, O>(pipeline: I -> Option<O>, image: I) returns (head: int, processed: Result<O, PreprocessError>, bare: Result<O, PreprocessError>)
    requires pipeline(image).Some?
    ensures head == 12512 && processed == Ok(pipeline(image).value)
    ensures bare == Err(MissingPreprocessor)
  {
    HeadSize();
    var cnn := new Cnn<I, O>(160, 210, 6, true, pipeline);
    head := cnn.headInputs;
    processed := cnn.Preprocess(image);
    var plain := new Cnn<I, O>(160, 210, 6, false, pipeline);
    bare := plain.Preprocess(image);
  }
}
