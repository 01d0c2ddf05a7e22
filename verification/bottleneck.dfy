/** The inverted-residual block with a dense (concatenating) shortcut.

    The main path expands the channels with a 1x1 convolution, mixes each
    channel spatially with a depthwise 3x3 convolution at the block's stride,
    and projects back with a 1x1 convolution. The shortcut is the optional
    downsample container applied to the input, or the input itself. Both are
    concatenated along the channel axis and fused by the transition
    container. */
module Bottleneck {
  import opened Results
  import opened Shapes
  import opened Ops

  datatype Block = Block(
    conv1: Op, bn1: Op,
    conv2: Op, bn2: Op,
    conv3: Op, bn3: Op,
    downsample: Option<seq<Op>>,
    transition: seq<Op>,
    stride: nat)

  /** The block constructor: sub-operator sizes derived from the input width,
      the target width, the stride and the expansion factor. */
  function MakeBlock(inplanes: nat, planes: nat, stride: nat,
                     downsample: Option<seq<Op>>, transition: seq<Op>,
                     expansion: nat): (b: Block)
    ensures b.conv1.Conv2d? && b.conv2.Conv2d? && b.conv3.Conv2d?
    // expand: pointwise, inplanes -> inplanes * expansion
    ensures b.conv1 == Pointwise(inplanes, inplanes * expansion, 1)
    // depthwise: one group per channel, 3x3, padding 1, the block's stride
    ensures b.conv2.inC == b.conv2.outC == b.conv2.groups == b.conv1.outC
    ensures b.conv2.k == 3 && b.conv2.pad == 1 && b.conv2.stride == stride
    // project: pointwise, the expanded width -> planes
    ensures b.conv3 == Pointwise(b.conv2.outC, planes, 1)
    // each normalisation sits on the width its convolution produces
    ensures b.bn1 == BatchNorm2d(b.conv1.outC) && b.bn2 == BatchNorm2d(b.conv2.outC)
    ensures b.bn3 == BatchNorm2d(planes)
    ensures b.downsample == downsample && b.transition == transition
  {
    var wide := inplanes * expansion;
    Block(
      Pointwise(inplanes, wide, 1), BatchNorm2d(wide),
      Conv2d(wide, wide, 3, stride, 1, wide), BatchNorm2d(wide),
      Pointwise(wide, planes, 1), BatchNorm2d(planes),
      downsample, transition, stride)
  }

  /** Expand, depthwise and project, with their normalisations and the two
      activations between them. */
  function MainPath(b: Block): seq<Op> {
    [b.conv1, b.bn1, ReLU, b.conv2, b.bn2, ReLU, b.conv3, b.bn3]
  }

  /** Channel concatenation of two maps. */
  function Concat(a: Shape, b: Shape): (r: Result<Shape>)
    ensures r.Ok? <==> a.h == b.h && a.w == b.w
    ensures r.Ok? ==> r.value.c == a.c + b.c && r.value.h == a.h && r.value.w == a.w
  {
    if a.h != b.h || a.w != b.w then Err(SpatialMismatch)
    else Ok(Shape(a.c + b.c, a.h, a.w))
  }

  /** The shortcut tensor: the downsample applied to the input, or the input. */
  function Shortcut(b: Block, x: Shape): (r: Result<Shape>)
    ensures b.downsample.None? ==> r == Ok(x)
    ensures b.downsample.Some? ==> r == ApplyAll(b.downsample.value, x)
  {
    match b.downsample
    case Some(ds) => ApplyAll(ds, x)
    case None => Ok(x)
  }

  /** The block's forward pass. */
  function Forward(b: Block, x: Shape): (r: Result<Shape>)
    ensures r.Ok? ==> ApplyAll(MainPath(b), x).Ok? && Shortcut(b, x).Ok?
  {
    var out :- ApplyAll(MainPath(b), x);
    var residual :- Shortcut(b, x);
    var cat :- Concat(out, residual);
    var act := Apply(ReLU, cat).value;
    ApplyAll(b.transition, act)
  }

  /** A chain of blocks applied in order (one stage). */
  function ForwardAll(blocks: seq<Block>, x: Shape): (r: Result<Shape>)
    ensures |blocks| == 0 ==> r == Ok(x)
    ensures |blocks| > 0 && Forward(blocks[0], x).Err? ==> r.Err?
  {
    if |blocks| == 0 then Ok(x)
    else
      var y :- Forward(blocks[0], x);
      ForwardAll(blocks[1..], y)
  }

  /** Spatial size after the depthwise convolution of a block with stride s. */
  function Strided(n: nat, s: nat): (r: nat)
    requires n >= 1 && s >= 1
    ensures r >= 1 && Windows(n, 3, s, 1, r)
  {
    ConvOutSize(n, 3, s, 1)
  }

  /** For positive widths and a positive input map, the main path of a block
      turns `inplanes` channels into `planes` channels at the block's stride. */
  lemma MainPathShape(inplanes: nat, planes: nat, stride: nat,
                      downsample: Option<seq<Op>>, transition: seq<Op>,
                      expansion: nat, h: nat, w: nat)
    requires inplanes >= 1 && planes >= 1 && stride >= 1 && expansion >= 1
    requires h >= 1 && w >= 1
    ensures ApplyAll(MainPath(MakeBlock(inplanes, planes, stride, downsample, transition, expansion)),
                     Shape(inplanes, h, w))
            == Ok(Shape(planes, Strided(h, stride), Strided(w, stride)))
  {
    var b := MakeBlock(inplanes, planes, stride, downsample, transition, expansion);
    var wide := inplanes * expansion;
    assert wide >= 1 by { MulPositive(inplanes, expansion); }
    var p := MainPath(b);
    var x0 := Shape(inplanes, h, w);
    var x1 := Shape(wide, h, w);
    var x2 := Shape(wide, Strided(h, stride), Strided(w, stride));
    var x3 := Shape(planes, Strided(h, stride), Strided(w, stride));
    assert Apply(p[0], x0) == Ok(x1);
    assert Apply(p[3], x1) == Ok(x2);
    assert Apply(p[6], x2) == Ok(x3);
    assert ApplyAll(p[7..], x3) == Ok(x3);
    assert ApplyAll(p[6..], x2) == Ok(x3);
    assert ApplyAll(p[5..], x2) == Ok(x3);
    assert ApplyAll(p[4..], x2) == Ok(x3);
    assert ApplyAll(p[3..], x1) == Ok(x3);
    assert ApplyAll(p[2..], x1) == Ok(x3);
    assert ApplyAll(p[1..], x1) == Ok(x3);
  }

  lemma MulPositive(a: nat, b: nat)
    requires a >= 1 && b >= 1
    ensures a * b >= 1
  {
  }

  /** The main path fails on any width but the expand convolution's declared
      input, and on success leaves the width of its last normalisation. */
  lemma MainPathEnds(b: Block, x: Shape)
    ensures b.conv1.Conv2d? && x.c != b.conv1.inC ==> ApplyAll(MainPath(b), x).Err?
    ensures ApplyAll(MainPath(b), x).Ok? && b.bn3.BatchNorm2d? ==>
              ApplyAll(MainPath(b), x).value.c == b.bn3.features
  {
    var ops := MainPath(b);
    assert ops[|ops| - 1] == b.bn3;
    if b.bn3.BatchNorm2d? {
      ApplyAllEndsInNorm(ops, x);
    }
  }

  /** A block refuses an input whose width is not its declared input width. */
  lemma MainPathRejectsWidth(b: Block, x: Shape)
    requires b.conv1.Conv2d? && x.c != b.conv1.inC
    ensures Forward(b, x).Err?
  {
  }
}
