/** The network builder and its forward pipeline.

    Construction threads a running channel count through seven stage
    specifications; it starts at the stem's width and becomes each stage's
    target width once that stage's first block is built. The model writes this
    as a pure fold instead of a mutated field. */
module Network {
  import opened Results
  import opened Shapes
  import opened Ops
  import opened Bottleneck

  /** One stage: target width, repeat count (as given, possibly below one),
      stride of its first block and expansion factor of all its blocks. */
  datatype StageSpec = StageSpec(planes: nat, blocks: int, stride: nat, expansion: nat)

  /** A stage specification every block of which can be built and run. */
  predicate PositiveSpec(s: StageSpec) {
    s.planes >= 1 && s.stride >= 1 && s.expansion >= 1
  }

  predicate PositiveSpecs(specs: seq<StageSpec>) {
    forall i :: 0 <= i < |specs| ==> PositiveSpec(specs[i])
  }

  /** Width of the stem's output, and the running width before stage one. */
  const StemWidth: nat := 32

  /** The fixed stage schedule: target widths, strides and expansions. */
  const StagePlanes: seq<nat> := [16, 24, 32, 64, 96, 160, 320]
  const StageStrides: seq<nat> := [1, 2, 2, 2, 1, 2, 1]
  const StageExpansions: seq<nat> := [1, 6, 6, 6, 6, 6, 6]

  /** Repeat counts of the published configuration. */
  const V1Counts: seq<int> := [1, 2, 3, 4, 3, 3, 1]

  /** The downsample of a stage's first block: a strided 1x1 convolution that
      keeps the running width, then its normalisation. */
  function StageDownsample(running: nat, stride: nat): (ops: seq<Op>)
    ensures forall x: Shape ::
              ApplyAll(ops, x).Ok? <==> stride >= 1 && x.c == running && x.h >= 1 && x.w >= 1
    ensures forall x: Shape :: ApplyAll(ops, x).Ok? ==>
              ApplyAll(ops, x).value
              == Shape(running, ConvOutSize(x.h, 1, stride, 0), ConvOutSize(x.w, 1, stride, 0))
  {
    [Pointwise(running, running, stride), BatchNorm2d(running)]
  }

  /** The transition container, built by the helper `_downsample`: its
      input width is the builder's current running width plus `planes`,
      whatever `inplanes` and `kernelSize` are passed. There is no
      activation after the normalisation. */
  function Transition(current: nat, inplanes: nat, planes: nat, kernelSize: nat, stride: nat)
    : (ops: seq<Op>)
    ensures forall x: Shape ::
              ApplyAll(ops, x).Ok?
              <==> stride >= 1 && x.c == current + planes && x.h >= 1 && x.w >= 1
    ensures forall x: Shape :: ApplyAll(ops, x).Ok? ==>
              ApplyAll(ops, x).value
              == Shape(planes, ConvOutSize(x.h, 1, stride, 0), ConvOutSize(x.w, 1, stride, 0))
  {
    [Pointwise(current + planes, planes, stride), BatchNorm2d(planes)]
  }

  /** Number of blocks a stage gets: the first block is always built and
      `range(1, blocks)` adds the rest. */
  function RepeatCount(blocks: int): (n: nat)
    ensures n >= 1
    ensures n - 1 == (if blocks > 1 then blocks - 1 else 0)
  {
    if blocks >= 1 then blocks else 1
  }

  /** First block of a stage: reads the running width before it is updated. */
  function FirstBlock(spec: StageSpec, running: nat): (b: Block)
    ensures b.conv1.Conv2d? && b.conv1.inC == running
    // the expand convolution uses the stage's expansion factor
    ensures b.conv1.outC == running * spec.expansion
    ensures b.conv3.Conv2d? && b.conv3.outC == spec.planes
    ensures b.stride == spec.stride
    // the shortcut keeps the running width
    ensures b.downsample == Some(StageDownsample(running, spec.stride))
    // the transition is declared for the concatenation of both paths
    ensures |b.transition| >= 1 && b.transition[0].Conv2d?
    ensures b.transition[0].inC == b.conv3.outC + b.conv1.inC && b.transition[0].outC == spec.planes
  {
    MakeBlock(running, spec.planes, spec.stride,
              Some(StageDownsample(running, spec.stride)),
              Transition(running, running + spec.planes, spec.planes, 1, 1),
              spec.expansion)
  }

  /** Every later block of a stage: the running width is now the target width. */
  function LaterBlock(spec: StageSpec): (b: Block)
    ensures b.conv1.Conv2d? && b.conv1.inC == spec.planes
    // the expand convolution uses the stage's expansion factor
    ensures b.conv1.outC == spec.planes * spec.expansion
    ensures b.conv3.Conv2d? && b.conv3.outC == spec.planes
    ensures b.stride == 1 && b.downsample.None?
    // the transition is declared for the main path plus the raw input
    ensures |b.transition| >= 1 && b.transition[0].Conv2d?
    ensures b.transition[0].inC == b.conv3.outC + b.conv1.inC && b.transition[0].outC == spec.planes
  {
    MakeBlock(spec.planes, spec.planes, 1, None,
              Transition(spec.planes, spec.planes + spec.planes, spec.planes, 1, 1),
              spec.expansion)
  }

  /** One stage of the builder: the blocks and the new running width. */
  function MakeLayer(spec: StageSpec, running: nat): (r: (seq<Block>, nat))
    ensures r.1 == spec.planes
    ensures |r.0| >= 1 && (spec.blocks >= 1 ==> |r.0| == spec.blocks)
    ensures spec.blocks <= 1 ==> |r.0| == 1
    // the first block takes the running width, strides, and has a downsample
    ensures r.0[0].conv1.Conv2d? && r.0[0].conv1.inC == running
    ensures r.0[0].conv1.outC == running * spec.expansion
    ensures r.0[0].stride == spec.stride
    ensures r.0[0].downsample == Some([Pointwise(running, running, spec.stride), BatchNorm2d(running)])
    ensures |r.0[0].transition| >= 1 && r.0[0].transition[0] == Pointwise(running + spec.planes, spec.planes, 1)
    // later blocks take the target width at stride 1 with a raw shortcut
    ensures forall i :: 1 <= i < |r.0| ==>
              && r.0[i].conv1.Conv2d? && r.0[i].conv1.inC == spec.planes
              && r.0[i].conv1.outC == spec.planes * spec.expansion
              && r.0[i].stride == 1
              && r.0[i].downsample.None?
              && |r.0[i].transition| >= 1 && r.0[i].transition[0] == Pointwise(2 * spec.planes, spec.planes, 1)
  {
    var first := FirstBlock(spec, running);
    var rest := seq(RepeatCount(spec.blocks) - 1, _ => LaterBlock(spec));
    ([first] + rest, spec.planes)
  }

  /** The builder's fold over the stage specifications. */
  function BuildStages(specs: seq<StageSpec>, running: nat): (r: (seq<seq<Block>>, nat))
    ensures |r.0| == |specs|
    ensures r.1 == if |specs| == 0 then running else specs[|specs| - 1].planes
    ensures forall i {:trigger r.0[i]} :: 0 <= i < |specs| ==>
              r.0[i] == MakeLayer(specs[i], if i == 0 then running else specs[i - 1].planes).0
  {
    if |specs| == 0 then ([], running)
    else
      var (layer, next) := MakeLayer(specs[0], running);
      var (rest, last) := BuildStages(specs[1..], next);
      ([layer] + rest, last)
  }

  /** The seven stage specifications for given repeat counts. */
  function Schedule(layers: seq<int>): (specs: seq<StageSpec>)
    requires |layers| >= 7
    ensures |specs| == 7 && PositiveSpecs(specs)
    ensures forall i :: 0 <= i < 7 ==> specs[i].blocks == layers[i]
  {
    seq(7, i requires 0 <= i < 7 =>
      StageSpec(StagePlanes[i], layers[i], StageStrides[i], StageExpansions[i]))
  }

  datatype Network = Network(
    stem: seq<Op>,
    stages: seq<seq<Block>>,
    conv8: Op,
    avgpool: Op,
    conv9: Op)

  /** Every operator of `part` occurs among `ops`. */
  predicate Contains(ops: seq<Op>, part: seq<Op>) {
    forall k :: 0 <= k < |part| ==> part[k] in ops
  }

  lemma ContainsConcat(a: seq<Op>, b: seq<Op>)
    ensures Contains(a + b, a) && Contains(a + b, b)
  {
    forall k | 0 <= k < |b| ensures b[k] in a + b {
      assert (a + b)[|a| + k] == b[k];
    }
  }

  lemma ContainsTrans(a: seq<Op>, b: seq<Op>, c: seq<Op>)
    requires Contains(a, b) && Contains(b, c)
    ensures Contains(a, c)
  {
    forall k | 0 <= k < |c| ensures c[k] in a {
      var m :| 0 <= m < |b| && b[m] == c[k];
    }
  }

  /** Every operator the weight-initialisation pass visits, in module order. */
  function AllOps(net: Network): (ops: seq<Op>)
    ensures Contains(ops, net.stem)
    ensures Contains(ops, StagesOps(net.stages))
    ensures net.conv8 in ops && net.avgpool in ops && net.conv9 in ops
  {
    var head := [net.conv8, net.avgpool, net.conv9];
    var mid := StagesOps(net.stages);
    ContainsConcat(net.stem, mid);
    ContainsConcat(net.stem + mid, head);
    ContainsTrans(net.stem + mid + head, net.stem + mid, net.stem);
    ContainsTrans(net.stem + mid + head, net.stem + mid, mid);
    assert head[0] == net.conv8 && head[1] == net.avgpool && head[2] == net.conv9;
    net.stem + mid + head
  }

  function StagesOps(stages: seq<seq<Block>>): seq<Op> {
    if |stages| == 0 then [] else BlocksOps(stages[0]) + StagesOps(stages[1..])
  }

  function BlocksOps(blocks: seq<Block>): seq<Op> {
    if |blocks| == 0 then [] else BlockOps(blocks[0]) + BlocksOps(blocks[1..])
  }

  /** The walk over a stage visits every operator of each of its blocks. */
  lemma {:induction false} BlocksOpsVisit(blocks: seq<Block>, j: nat)
    requires j < |blocks|
    ensures Contains(BlocksOps(blocks), BlockOps(blocks[j]))
    decreases |blocks|
  {
    var first := BlockOps(blocks[0]);
    var rest := BlocksOps(blocks[1..]);
    assert BlocksOps(blocks) == first + rest;
    ContainsConcat(first, rest);
    if j > 0 {
      assert blocks[j] == blocks[1..][j - 1];
      BlocksOpsVisit(blocks[1..], j - 1);
      ContainsTrans(first + rest, rest, BlockOps(blocks[j]));
    }
  }

  /** The walk over the stages visits every operator of every block. */
  lemma {:induction false} StagesOpsVisit(stages: seq<seq<Block>>, i: nat, j: nat)
    requires i < |stages| && j < |stages[i]|
    ensures Contains(StagesOps(stages), BlockOps(stages[i][j]))
    decreases |stages|
  {
    var first := BlocksOps(stages[0]);
    var rest := StagesOps(stages[1..]);
    ContainsConcat(first, rest);
    if i > 0 {
      assert stages[i] == stages[1..][i - 1];
      StagesOpsVisit(stages[1..], i - 1, j);
      ContainsTrans(first + rest, rest, BlockOps(stages[i][j]));
    } else {
      BlocksOpsVisit(stages[0], j);
      ContainsTrans(first + rest, first, BlockOps(stages[i][j]));
    }
  }

  /** The initialisation walk reaches every operator of the network: the stem,
      each operator of each block of each stage, and the head. */
  lemma AllOpsVisitsEverything(net: Network, i: nat, j: nat)
    requires i < |net.stages| && j < |net.stages[i]|
    ensures Contains(AllOps(net), net.stem)
    ensures Contains(AllOps(net), BlockOps(net.stages[i][j]))
    ensures net.conv8 in AllOps(net) && net.avgpool in AllOps(net) && net.conv9 in AllOps(net)
  {
    StagesOpsVisit(net.stages, i, j);
    ContainsTrans(AllOps(net), StagesOps(net.stages), BlockOps(net.stages[i][j]));
  }

  /** The operators one block registers. */
  function BlockOps(b: Block): seq<Op> {
    [b.conv1, b.bn1, b.conv2, b.bn2, b.conv3, b.bn3, ReLU]
    + (match b.downsample case Some(ds) => ds case None => [])
    + b.transition
  }

  /** The walk over one block visits its convolutions and normalisations, its
      downsample container and its transition. */
  lemma BlockOpsVisit(b: Block)
    ensures var ops := BlockOps(b);
            && b.conv1 in ops && b.conv2 in ops && b.conv3 in ops
            && b.bn1 in ops && b.bn2 in ops && b.bn3 in ops
            && (b.downsample.Some? ==> Contains(ops, b.downsample.value))
            && Contains(ops, b.transition)
  {
    var main := [b.conv1, b.bn1, b.conv2, b.bn2, b.conv3, b.bn3, ReLU];
    var ds := if b.downsample.Some? then b.downsample.value else [];
    assert BlockOps(b) == main + ds + b.transition;
    assert main[0] == b.conv1 && main[2] == b.conv2 && main[4] == b.conv3;
    assert main[1] == b.bn1 && main[3] == b.bn2 && main[5] == b.bn3;
    ContainsConcat(main, ds);
    ContainsConcat(main + ds, b.transition);
    ContainsTrans(main + ds + b.transition, main + ds, main);
    ContainsTrans(main + ds + b.transition, main + ds, ds);
  }

  /** Every convolution among `ops` has a positive fan-out. */
  predicate PositiveFanOuts(ops: seq<Op>) {
    forall i :: 0 <= i < |ops| && ops[i].Conv2d? ==> FanOut(ops[i]) > 0
  }

  /** The weight-initialisation pass over the convolutions: each gets a normal
      draw with variance 2 / fan-out, so a zero fan-out is a division by
      zero. */
  function InitPass(ops: seq<Op>): (r: Result<seq<nat>>)
    ensures r.Ok? <==> PositiveFanOuts(ops)
    ensures r.Err? ==> r.error == ZeroFanOut
    ensures r.Ok? ==> forall j :: 0 <= j < |r.value| ==> r.value[j] > 0
  {
    if |ops| == 0 then Ok([])
    else if ops[0].Conv2d? && FanOut(ops[0]) == 0 then Err(ZeroFanOut)
    else
      var rest :- InitPass(ops[1..]);
      assert PositiveFanOuts(ops) by {
        forall i | 0 <= i < |ops| && ops[i].Conv2d?
          ensures FanOut(ops[i]) > 0
        {
          if i > 0 { assert ops[i] == ops[1..][i - 1]; }
        }
      }
      if ops[0].Conv2d? then Ok([FanOut(ops[0])] + rest) else Ok(rest)
  }

  /** The stem: a strided 3x3 convolution from the three input channels to
      the stem width, its normalisation and an activation. */
  function StemOps(): seq<Op> {
    [Conv2d(3, StemWidth, 3, 2, 1, 1), BatchNorm2d(StemWidth), ReLU]
  }

  /** The topology the constructor assembles, before initialisation. */
  function Assemble(layers: seq<int>, numClasses: nat): Network
    requires |layers| >= 7
  {
    Network(
      StemOps(),
      BuildStages(Schedule(layers), StemWidth).0,
      Pointwise(320, 1280, 1),
      AvgPool2d(4, 1),
      Pointwise(1280, numClasses, 1))
  }

  /** The network constructor for given repeat counts and class count: the
      topology, then the initialisation pass over all its operators. */
  function Build(layers: seq<int>, numClasses: nat): (r: Result<Network>)
    ensures r.Ok? <==> |layers| >= 7 && numClasses >= 1
    ensures |layers| < 7 ==> r == Err(MissingStageCount(|layers|))
    ensures |layers| >= 7 && numClasses == 0 ==> r == Err(ZeroFanOut)
    ensures r.Ok? ==> r.value == Assemble(layers, numClasses)
  {
    if |layers| < 7 then Err(MissingStageCount(|layers|))
    else
      var net := Assemble(layers, numClasses);
      InitPassSucceeds(layers, numClasses);
      var _ :- InitPass(AllOps(net));
      Ok(net)
  }

  /** The published configuration. */
  function MobDenseNetV1(numClasses: nat := 1000): (r: Result<Network>)
    ensures r.Ok? <==> numClasses >= 1
    ensures r.Ok? ==> r.value == Assemble(V1Counts, numClasses)
  {
    Build(V1Counts, numClasses)
  }

  /** All stages applied in order. */
  function StagesForward(stages: seq<seq<Block>>, x: Shape): (r: Result<Shape>)
    ensures |stages| == 0 ==> r == Ok(x)
  {
    if |stages| == 0 then Ok(x)
    else
      var y :- ForwardAll(stages[0], x);
      StagesForward(stages[1..], y)
  }

  /** The network's forward pass: the length of each sample's flattened output. */
  function NetForward(net: Network, x: Shape): (r: Result<nat>)
    // the stem, then the stages, then the head must each succeed
    ensures r.Ok? ==> ApplyAll(net.stem, x).Ok?
    ensures r.Ok? ==> StagesForward(net.stages, ApplyAll(net.stem, x).value).Ok?
    ensures ApplyAll(net.stem, x).Err? ==> r.Err?
  {
    var a :- ApplyAll(net.stem, x);
    var b :- StagesForward(net.stages, a);
    var c :- ApplyAll([net.conv8, net.avgpool, net.conv9], b);
    Ok(Flatten(c))
  }

  /** Running two groups of stages one after the other is running their
      concatenation. */
  lemma {:induction false} StagesForwardAppend(a: seq<seq<Block>>, b: seq<seq<Block>>, x: Shape)
    ensures StagesForward(a + b, x)
            == if StagesForward(a, x).Ok? then StagesForward(b, StagesForward(a, x).value)
               else StagesForward(a, x)
    decreases |a|
  {
    if |a| == 0 {
      assert a + b == b;
    } else {
      assert (a + b)[0] == a[0];
      assert (a + b)[1..] == a[1..] + b;
      if ForwardAll(a[0], x).Ok? {
        StagesForwardAppend(a[1..], b, ForwardAll(a[0], x).value);
      }
    }
  }

  /** Per-sample length of a map flattened to one vector. */
  function Flatten(x: Shape): (n: nat)
    ensures n == 0 <==> x.c == 0 || x.h == 0 || x.w == 0
  {
    var hw := x.h * x.w;
    assert hw == 0 <==> x.h == 0 || x.w == 0;
    x.c * hw
  }

  /** Spatial size after the stages of `specs`, each striding once. */
  function SpatialAfter(specs: seq<StageSpec>, n: nat): (r: nat)
    requires n >= 1 && PositiveSpecs(specs)
    ensures r >= 1
  {
    if |specs| == 0 then n else SpatialAfter(specs[1..], Strided(n, specs[0].stride))
  }

  // ---------------------------------------------------------------------
  // Lemmas used by the constructor

  lemma PositiveFanOutsAppend(a: seq<Op>, b: seq<Op>)
    requires PositiveFanOuts(a) && PositiveFanOuts(b)
    ensures PositiveFanOuts(a + b)
  {
    forall i | 0 <= i < |a + b| && (a + b)[i].Conv2d?
      ensures FanOut((a + b)[i]) > 0
    {
      if i >= |a| { assert (a + b)[i] == b[i - |a|]; }
    }
  }

  lemma BlockFanOuts(spec: StageSpec, running: nat, b: Block)
    requires PositiveSpec(spec) && running >= 1
    requires b == FirstBlock(spec, running) || b == LaterBlock(spec)
    ensures PositiveFanOuts(BlockOps(b))
  {
    MulPositive(b.conv1.inC, spec.expansion);
    var ds := if b.downsample.Some? then b.downsample.value else [];
    assert PositiveFanOuts(ds) by {
      if b.downsample.Some? {
        assert ds == StageDownsample(running, spec.stride);
        assert ds[0] == Pointwise(running, running, spec.stride);
      }
    }
    assert PositiveFanOuts(b.transition) by {
      assert b.transition[0] == Pointwise(b.transition[0].inC, spec.planes, 1);
      assert b.transition[1].BatchNorm2d?;
    }
    BlockOpsFanOuts(b, ds);
  }

  /** A block's registered operators have positive fan-outs once its three
      convolutions, its downsample and its transition do. */
  lemma BlockOpsFanOuts(b: Block, ds: seq<Op>)
    requires ds == if b.downsample.Some? then b.downsample.value else []
    requires b.conv1.Conv2d? && FanOut(b.conv1) > 0
    requires b.conv2.Conv2d? && FanOut(b.conv2) > 0
    requires b.conv3.Conv2d? && FanOut(b.conv3) > 0
    requires !b.bn1.Conv2d? && !b.bn2.Conv2d? && !b.bn3.Conv2d?
    requires PositiveFanOuts(ds) && PositiveFanOuts(b.transition)
    ensures PositiveFanOuts(BlockOps(b))
  {
    var main := [b.conv1, b.bn1, b.conv2, b.bn2, b.conv3, b.bn3, ReLU];
    assert BlockOps(b) == main + ds + b.transition;
    PositiveFanOutsAppend(main, ds);
    PositiveFanOutsAppend(main + ds, b.transition);
  }

  lemma {:induction false} LayerFanOuts(spec: StageSpec, running: nat, blocks: seq<Block>)
    requires PositiveSpec(spec) && running >= 1
    requires forall i :: 0 <= i < |blocks| ==>
               blocks[i] == FirstBlock(spec, running) || blocks[i] == LaterBlock(spec)
    ensures PositiveFanOuts(BlocksOps(blocks))
    decreases |blocks|
  {
    if |blocks| > 0 {
      BlockFanOuts(spec, running, blocks[0]);
      LayerFanOuts(spec, running, blocks[1..]);
      PositiveFanOutsAppend(BlockOps(blocks[0]), BlocksOps(blocks[1..]));
    }
  }

  lemma {:induction false} StagesFanOuts(specs: seq<StageSpec>, running: nat)
    requires PositiveSpecs(specs) && running >= 1
    ensures PositiveFanOuts(StagesOps(BuildStages(specs, running).0))
    decreases |specs|
  {
    var stages := BuildStages(specs, running).0;
    if |specs| > 0 {
      var layer := MakeLayer(specs[0], running).0;
      assert stages[0] == layer;
      assert stages[1..] == BuildStages(specs[1..], specs[0].planes).0;
      LayerFanOuts(specs[0], running, layer);
      StagesFanOuts(specs[1..], specs[0].planes);
      PositiveFanOutsAppend(BlocksOps(layer), StagesOps(stages[1..]));
    }
  }

  /** The assembled topology: seven stages of the scheduled lengths, the stem
      feeding the first block, conv8 reading the width the last stage leaves,
      and conv9 mapping conv8's width to the classes. */
  lemma AssembleLayout(layers: seq<int>, numClasses: nat)
    requires |layers| >= 7
    ensures var net := Assemble(layers, numClasses);
            && |net.stages| == 7
            && (forall i :: 0 <= i < 7 ==> |net.stages[i]| == RepeatCount(layers[i]))
            && net.stem[0].Conv2d? && net.stages[0][0].conv1.Conv2d?
            && net.stages[0][0].conv1.inC == net.stem[0].outC
            && net.conv8.Conv2d? && net.conv8.inC == BuildStages(Schedule(layers), StemWidth).1
            && net.conv9.Conv2d? && net.conv9.inC == net.conv8.outC && net.conv9.outC == numClasses
  {
    var specs := Schedule(layers);
    var stages := BuildStages(specs, StemWidth).0;
    assert stages[0] == MakeLayer(specs[0], StemWidth).0;
    assert specs[6].planes == 320;
  }

  /** The schedule gives stage i the width, stride and expansion factor of
      the i-th `_make_layer` call. */
  lemma ScheduleStages(layers: seq<int>)
    requires |layers| >= 7
    ensures forall i :: 0 <= i < 7 ==>
              && Schedule(layers)[i].planes == StagePlanes[i]
              && Schedule(layers)[i].stride == StageStrides[i]
              && Schedule(layers)[i].expansion == StageExpansions[i]
  {
  }

  /** Only the stem and the first blocks of stages 2, 3, 4 and 6 stride by
      two; every other block keeps the spatial size. */
  lemma StrideLayout(layers: seq<int>, numClasses: nat)
    requires |layers| >= 7
    ensures var net := Assemble(layers, numClasses);
            && net.stem[0].Conv2d? && net.stem[0].stride == 2
            && |net.stages| == 7
            && forall i, j :: 0 <= i < 7 && 0 <= j < |net.stages[i]| ==>
                 net.stages[i][j].stride
                 == if j == 0 && (i == 1 || i == 2 || i == 3 || i == 5) then 2 else 1
  {
    var net := Assemble(layers, numClasses);
    var specs := Schedule(layers);
    ScheduleStages(layers);
    forall i, j | 0 <= i < 7 && 0 <= j < |net.stages[i]|
      ensures net.stages[i][j].stride
              == if j == 0 && (i == 1 || i == 2 || i == 3 || i == 5) then 2 else 1
    {
      var running := if i == 0 then StemWidth else specs[i - 1].planes;
      assert net.stages[i] == MakeLayer(specs[i], running).0;
    }
  }

  lemma InitPassSucceeds(layers: seq<int>, numClasses: nat)
    requires |layers| >= 7
    ensures PositiveFanOuts(AllOps(Assemble(layers, numClasses))) <==> numClasses >= 1
  {
    var net := Assemble(layers, numClasses);
    var head := [net.conv8, net.avgpool, net.conv9];
    StagesFanOuts(Schedule(layers), StemWidth);
    PositiveFanOutsAppend(net.stem, StagesOps(net.stages));
    if numClasses >= 1 {
      PositiveFanOutsAppend(net.stem + StagesOps(net.stages), head);
    } else {
      var all := AllOps(net);
      assert all[|all| - 1] == net.conv9;
    }
  }
}
