/**
 * Shape and channel flow through the inference layers of
 * `draw/nn/single_layer/inference.py`: the two image downsamplers, the
 * inference LSTM core and the posterior heads. A layer is known here only
 * by what it does to an NCHW shape; `None` is Chainer's shape error.
 */
module InferenceShapes {
  import opened Tensors

  /** The shape of an NCHW tensor. */
  datatype Shape = Shape(batch: nat, channels: nat, height: nat, width: nat)

  /** A `Convolution2D` layer: output channels, square kernel, stride and padding. */
  datatype Conv = Conv(outChannels: nat, kernel: nat, stride: nat, pad: nat)

  /** One output side of a convolution; the layer rejects an input smaller than its kernel. */
  function ConvSide(n: nat, kernel: nat, stride: nat, pad: nat): (side: Option<nat>)
    requires stride > 0
    ensures side.Some? <==> n + 2 * pad >= kernel
    ensures side.Some? ==> side.value >= 1
    ensures side.Some? ==> (side.value - 1) * stride <= n + 2 * pad - kernel < side.value * stride
  {
    if n + 2 * pad < kernel then None else Some((n + 2 * pad - kernel) / stride + 1)
  }

  function ApplyConv(c: Conv, x: Shape): (y: Option<Shape>)
    requires c.stride > 0
  {
    var h := ConvSide(x.height, c.kernel, c.stride, c.pad);
    var w := ConvSide(x.width, c.kernel, c.stride, c.pad);
    if h.Some? && w.Some? then Some(Shape(x.batch, c.outChannels, h.value, w.value)) else None
  }

  /** Kernel 2, stride 2, no padding. */
  function Halving(channels: nat): Conv { Conv(channels, 2, 2, 0) }

  /** Kernel 3, stride 1, padding 1. */
  function Same3(channels: nat): Conv { Conv(channels, 3, 1, 1) }

  /** Kernel 5, stride 1, padding 2: the gate and head convolutions. */
  function Same5(channels: nat): Conv { Conv(channels, 5, 1, 2) }

  /** Kernel 1, stride 1, no padding. */
  function Pointwise(channels: nat): Conv { Conv(channels, 1, 1, 0) }

  /** Elementwise addition or product of two variables: both shapes must agree. */
  function Elementwise(a: Option<Shape>, b: Option<Shape>): Option<Shape>
  {
    if a.Some? && b.Some? && a.value == b.value then a else None
  }

  /** A kernel-2 stride-2 convolution halves a side of at least 2, rounding down. */
  lemma HalvingSide(n: nat)
    ensures ConvSide(n, 2, 2, 0) == if n >= 2 then Some(n / 2) else None
  {
  }

  /** A stride-1 convolution padded by half its odd kernel keeps any non-empty side. */
  lemma SamePaddingSide(n: nat, kernel: nat, pad: nat)
    requires kernel == 2 * pad + 1
    ensures ConvSide(n, kernel, 1, pad) == if n >= 1 then Some(n) else None
  {
  }

  /** A size-preserving convolution keeps the grid and sets the channel count. */
  lemma SameConvShape(c: Conv, x: Shape)
    requires c.stride == 1 && c.kernel == 2 * c.pad + 1
    ensures ApplyConv(c, x) == if x.height >= 1 && x.width >= 1
                                then Some(Shape(x.batch, c.outChannels, x.height, x.width)) else None
  {
    SamePaddingSide(x.height, c.kernel, c.pad);
    SamePaddingSide(x.width, c.kernel, c.pad);
  }

  /** A halving convolution maps the grid to half of it. */
  lemma HalvingShape(channels: nat, x: Shape)
    ensures ApplyConv(Halving(channels), x) == if x.height >= 2 && x.width >= 2
                                then Some(Shape(x.batch, channels, x.height / 2, x.width / 2)) else None
  {
    HalvingSide(x.height);
    HalvingSide(x.width);
  }

  // ---------------------------------------------------------------------
  // _Downsampler
  // ---------------------------------------------------------------------

  /** `_Downsampler.downsample`: halve, a size-keeping 3×3 convolution, halve again. ReLU keeps shapes. */
  function QuarterDownsample(channels: nat, x: Shape): Option<Shape>
  {
    var a := ApplyConv(Halving(channels), x);
    if a.None? then None
    else
      var b := ApplyConv(Same3(channels), a.value);
      if b.None? then None else ApplyConv(Halving(channels), b.value)
  }

  /** The two-layer downsampler maps an H×W image with H, W ≥ 4 to `channels` × H/4 × W/4, and fails otherwise. */
  lemma QuarterDownsampleShape(channels: nat, x: Shape)
    ensures QuarterDownsample(channels, x) == if x.height >= 4 && x.width >= 4
              then Some(Shape(x.batch, channels, x.height / 4, x.width / 4)) else None
  {
    HalvingShape(channels, x);
    HalfOfHalf(x.height);
    HalfOfHalf(x.width);
    if x.height >= 2 && x.width >= 2 {
      var a := Shape(x.batch, channels, x.height / 2, x.width / 2);
      SameConvShape(Same3(channels), a);
      HalvingShape(channels, a);
    }
  }

  // ---------------------------------------------------------------------
  // Downsampler (two residual blocks)
  // ---------------------------------------------------------------------

  /** `Downsampler.downsample`, with the two residual adds checked for equal shapes. */
  function ResidualDownsample(channels: nat, x: Shape): Option<Shape>
  {
    var resnetIn := ApplyConv(Halving(channels), x);
    if resnetIn.None? then None
    else
      var residual := ApplyConv(Halving(channels), resnetIn.value);
      var out := ApplyConv(Same3(channels / 2), resnetIn.value);
      if out.None? then None
      else
        var merged := Elementwise(ApplyConv(Halving(channels), out.value), residual);
        if merged.None? then None
        else
          var residual2 := ApplyConv(Same3(channels), merged.value);
          var out2 := ApplyConv(Same3(channels / 2), merged.value);
          if out2.None? then None
          else
            var merged2 := Elementwise(ApplyConv(Same3(channels), out2.value), residual2);
            if merged2.None? then None else ApplyConv(Pointwise(channels), merged2.value)
  }

  /** Halving twice, rounding down each time, is taking a quarter. */
  lemma HalfOfHalf(n: nat)
    ensures n / 2 / 2 == n / 4
  {
    var q, r := n / 4, n % 4;
    assert n == 4 * q + r;
    assert n / 2 == 2 * q + r / 2;
  }

  /**
   * In the first block, the residual branch (`conv1_res`) and the main
   * branch (`conv1_2` then `conv1_3`) both reach `channels` × H/4 × W/4.
   */
  lemma FirstResidualAddAgrees(channels: nat, x: Shape)
    requires x.height >= 4 && x.width >= 4
    ensures var resnetIn := Shape(x.batch, channels, x.height / 2, x.width / 2);
            var quarter := Some(Shape(x.batch, channels, x.height / 4, x.width / 4));
            && ApplyConv(Halving(channels), x) == Some(resnetIn)
            && ApplyConv(Halving(channels), resnetIn) == quarter
            && ApplyConv(Same3(channels / 2), resnetIn).Some?
            && ApplyConv(Halving(channels), ApplyConv(Same3(channels / 2), resnetIn).value) == quarter
  {
    var resnetIn := Shape(x.batch, channels, x.height / 2, x.width / 2);
    HalfOfHalf(x.height);
    HalfOfHalf(x.width);
    HalvingShape(channels, x);
    HalvingShape(channels, resnetIn);
    SameConvShape(Same3(channels / 2), resnetIn);
    HalvingShape(channels, Shape(x.batch, channels / 2, x.height / 2, x.width / 2));
  }

  /**
   * In the second block, the residual branch (`conv2_res`) and the main
   * branch (`conv2_1` then `conv2_2`) both keep the grid and output `channels`.
   */
  lemma SecondResidualAddAgrees(channels: nat, y: Shape)
    requires y.height >= 1 && y.width >= 1 && y.channels == channels
    ensures && ApplyConv(Same3(channels), y) == Some(y)
            && ApplyConv(Same3(channels / 2), y).Some?
            && ApplyConv(Same3(channels), ApplyConv(Same3(channels / 2), y).value) == Some(y)
  {
    SameConvShape(Same3(channels), y);
    SameConvShape(Same3(channels / 2), y);
    SameConvShape(Same3(channels), Shape(y.batch, channels / 2, y.height, y.width));
  }

  /**
   * The residual downsampler maps an H×W image with H, W ≥ 4 to
   * `channels` × H/4 × W/4, both adds succeeding; it fails otherwise.
   */
  lemma ResidualDownsampleShape(channels: nat, x: Shape)
    ensures ResidualDownsample(channels, x) == if x.height >= 4 && x.width >= 4
              then Some(Shape(x.batch, channels, x.height / 4, x.width / 4)) else None
  {
    HalvingShape(channels, x);
    if x.height >= 4 && x.width >= 4 {
      FirstResidualAddAgrees(channels, x);
      var y := Shape(x.batch, channels, x.height / 4, x.width / 4);
      SecondResidualAddAgrees(channels, y);
      SameConvShape(Pointwise(channels), y);
    } else if x.height >= 2 && x.width >= 2 {
      var resnetIn := Shape(x.batch, channels, x.height / 2, x.width / 2);
      HalvingShape(channels, resnetIn);
      SameConvShape(Same3(channels / 2), resnetIn);
      HalvingShape(channels, Shape(x.batch, channels / 2, x.height / 2, x.width / 2));
    }
  }

  // ---------------------------------------------------------------------
  // Core and Posterior
  // ---------------------------------------------------------------------

  /** Two shapes share batch and grid. */
  predicate SameGrid(a: Shape, b: Shape)
  {
    a.batch == b.batch && a.height == b.height && a.width == b.width
  }

  function ChannelSum(parts: seq<Shape>): nat
  {
    if parts == [] then 0 else ChannelSum(parts[..|parts| - 1]) + parts[|parts| - 1].channels
  }

  /** `cf.concat(parts, axis=1)`: the parts must share batch and grid. */
  function Concat(parts: seq<Shape>): Option<Shape>
    requires parts != []
  {
    if forall k :: 0 <= k < |parts| ==> SameGrid(parts[k], parts[0])
    then Some(Shape(parts[0].batch, ChannelSum(parts), parts[0].height, parts[0].width))
    else None
  }

  /**
   * `Core.forward_onestep` on shapes: the four inputs are concatenated,
   * every gate is a size-keeping 5×5 convolution to `channelsChz`, and the
   * gated products with `prev_ce` need its shape to match the gates'.
   */
  function CoreStep(channelsChz: nat, prevHg: Shape, prevHe: Shape, prevCe: Shape, x: Shape, diffXr: Shape)
    : Option<(Shape, Shape)>
  {
    var lstmIn := Concat([prevHe, prevHg, x, diffXr]);
    if lstmIn.None? then None
    else
      var gate := ApplyConv(Same5(channelsChz), lstmIn.value);
      var nextC := Elementwise(Elementwise(gate, Some(prevCe)), gate);
      var nextH := Elementwise(gate, nextC);
      if nextH.None? then None else Some((nextH.value, nextC.value))
  }

  /**
   * The concatenated input has as many channels as `prev_he`, `prev_hg`,
   * `x` and `diff_xr` together, and the step succeeds exactly when the four
   * share a non-empty grid and `prev_ce` already has the gates' shape; then
   * `next_h` and `next_c` both have that shape.
   */
  lemma CoreStepShape(channelsChz: nat, prevHg: Shape, prevHe: Shape, prevCe: Shape, x: Shape, diffXr: Shape)
    ensures var lstmIn := Concat([prevHe, prevHg, x, diffXr]);
            lstmIn.Some? ==> lstmIn.value.channels == prevHe.channels + prevHg.channels + x.channels + diffXr.channels
    ensures var gates := Shape(prevHe.batch, channelsChz, prevHe.height, prevHe.width);
            CoreStep(channelsChz, prevHg, prevHe, prevCe, x, diffXr)
              == if SameGrid(prevHg, prevHe) && SameGrid(x, prevHe) && SameGrid(diffXr, prevHe)
                    && prevHe.height >= 1 && prevHe.width >= 1 && prevCe == gates
                 then Some((gates, gates)) else None
  {
    var parts := [prevHe, prevHg, x, diffXr];
    assert parts[..3] == [prevHe, prevHg, x] && parts[..3][..2] == [prevHe, prevHg];
    assert parts[..3][..2][..1] == [prevHe] && parts[..3][..2][..1][..0] == [];
    assert ChannelSum([prevHe]) == prevHe.channels;
    assert ChannelSum([prevHe, prevHg]) == prevHe.channels + prevHg.channels;
    assert ChannelSum([prevHe, prevHg, x]) == prevHe.channels + prevHg.channels + x.channels;
    var lstmIn := Concat(parts);
    var grid := SameGrid(prevHg, prevHe) && SameGrid(x, prevHe) && SameGrid(diffXr, prevHe);
    assert grid ==> forall k :: 0 <= k < |parts| ==> SameGrid(parts[k], parts[0]);
    assert lstmIn.Some? ==> SameGrid(parts[1], parts[0]) && SameGrid(parts[2], parts[0]) && SameGrid(parts[3], parts[0]);
    if lstmIn.Some? {
      SameConvShape(Same5(channelsChz), lstmIn.value);
    }
  }

  /** `Posterior`'s two heads, each a size-keeping 5×5 convolution of the same `h`. */
  function PosteriorHeads(channelsZ: nat, h: Shape): (Option<Shape>, Option<Shape>)
  {
    (ApplyConv(Same5(channelsZ), h), ApplyConv(Same5(channelsZ), h))
  }

  /** Mean and log-variance come out with the same shape: `channels_z` channels on the grid of `h`. */
  lemma PosteriorHeadsShape(channelsZ: nat, h: Shape)
    ensures var heads := PosteriorHeads(channelsZ, h);
            && heads.0 == heads.1
            && heads.0 == if h.height >= 1 && h.width >= 1
                          then Some(Shape(h.batch, channelsZ, h.height, h.width)) else None
  {
    SameConvShape(Same5(channelsZ), h);
  }

  // ---------------------------------------------------------------------
  // The grid of the latent state against the downsampled image
  // ---------------------------------------------------------------------

  /** The square image side of the 64×64 runs (`image_size`). */
  const ImageSide: nat := 64

  /** The latent grid side the training script sets, whatever the image size. */
  const ScriptChrzSide: nat := 32

  /** The latent grid side that matches the residual downsampler: a quarter of the image side. */
  function QuarterChrzSide(imageSide: nat): (side: nat)
    ensures 4 * side <= imageSide < 4 * side + 4
  {
    imageSide / 4
  }

  /**
   * One inference-core step of the reconstruction pass on shapes: the
   * hidden states live on a `chrzSide` grid and the query image is the
   * residual downsampler's output for a square image.
   */
  function ReconstructCoreStep(batch: nat, channelsChz: nat, chrzSide: nat, imageSide: nat,
                               channelsMapX: nat, diffChannels: nat): Option<(Shape, Shape)>
  {
    var state := Shape(batch, channelsChz, chrzSide, chrzSide);
    var xq := ResidualDownsample(channelsMapX, Shape(batch, 3, imageSide, imageSide));
    if xq.None? then None
    else CoreStep(channelsChz, state, state, state, xq.value, Shape(batch, diffChannels, chrzSide, chrzSide))
  }

  /** With a 64×64 image and the script's 32×32 latent grid, the concat of the inference core fails. */
  lemma ScriptChrzSizeRejected(batch: nat, channelsChz: nat, channelsMapX: nat, diffChannels: nat)
    ensures ReconstructCoreStep(batch, channelsChz, ScriptChrzSide, ImageSide, channelsMapX, diffChannels) == None
  {
    var image := Shape(batch, 3, ImageSide, ImageSide);
    ResidualDownsampleShape(channelsMapX, image);
    var state := Shape(batch, channelsChz, ScriptChrzSide, ScriptChrzSide);
    CoreStepShape(channelsChz, state, state, state, Shape(batch, channelsMapX, 16, 16),
                  Shape(batch, diffChannels, ScriptChrzSide, ScriptChrzSide));
  }

  /**
   * With the latent grid a quarter of the image side, every inference-core
   * step succeeds and hands back hidden and cell states of the shape it was
   * given, so the loop can run any number of steps.
   */
  lemma QuarterChrzSizeAccepted(batch: nat, channelsChz: nat, imageSide: nat, channelsMapX: nat, diffChannels: nat)
    requires imageSide >= 4
    ensures var side := QuarterChrzSide(imageSide);
            var state := Shape(batch, channelsChz, side, side);
            ReconstructCoreStep(batch, channelsChz, side, imageSide, channelsMapX, diffChannels) == Some((state, state))
  {
    var side := QuarterChrzSide(imageSide);
    ResidualDownsampleShape(channelsMapX, Shape(batch, 3, imageSide, imageSide));
    var state := Shape(batch, channelsChz, side, side);
    CoreStepShape(channelsChz, state, state, state, Shape(batch, channelsMapX, side, side),
                  Shape(batch, diffChannels, side, side));
  }
}
