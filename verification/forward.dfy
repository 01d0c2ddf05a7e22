/** Shape theorems about the built network: every block, stage and the
    whole forward pipeline is channel- and spatially consistent. */
module NetworkShapes {
  import opened Results
  import opened Shapes
  import opened Ops
  import opened Bottleneck
  import opened Network

  lemma UnitStride(n: nat)
    requires n >= 1
    ensures ConvOutSize(n, 1, 1, 0) == n && Strided(n, 1) == n
  {
  }

  /** The first block of a stage is channel-consistent: its shortcut is the
      running width at the stage's stride, so the concatenation has
      `planes + running` channels, exactly the transition's declared input,
      and the block yields `planes` channels at the stage's stride. */
  lemma FirstBlockForward(spec: StageSpec, running: nat, h: nat, w: nat)
    requires PositiveSpec(spec) && running >= 1 && h >= 1 && w >= 1
    ensures Forward(FirstBlock(spec, running), Shape(running, h, w))
            == Ok(Shape(spec.planes, Strided(h, spec.stride), Strided(w, spec.stride)))
  {
    var b := FirstBlock(spec, running);
    var x := Shape(running, h, w);
    var hs, ws := Strided(h, spec.stride), Strided(w, spec.stride);
    MainPathShape(running, spec.planes, spec.stride, b.downsample, b.transition,
                  spec.expansion, h, w);
    DepthwiseMatchesPointwise(h, spec.stride);
    DepthwiseMatchesPointwise(w, spec.stride);
    assert Shortcut(b, x) == Ok(Shape(running, hs, ws));
    var cat := Shape(spec.planes + running, hs, ws);
    assert Concat(Shape(spec.planes, hs, ws), Shape(running, hs, ws)) == Ok(cat);
    UnitStride(hs);
    UnitStride(ws);
    assert ApplyAll(b.transition, cat) == Ok(Shape(spec.planes, hs, ws));
  }

  /** A later block of a stage: raw shortcut of `planes` channels, so the
      concatenation has `2 * planes` channels, the transition's declared
      input; the block keeps the shape of its input. */
  lemma LaterBlockForward(spec: StageSpec, h: nat, w: nat)
    requires PositiveSpec(spec) && h >= 1 && w >= 1
    ensures Forward(LaterBlock(spec), Shape(spec.planes, h, w)) == Ok(Shape(spec.planes, h, w))
  {
    var b := LaterBlock(spec);
    var x := Shape(spec.planes, h, w);
    MainPathShape(spec.planes, spec.planes, 1, b.downsample, b.transition,
                  spec.expansion, h, w);
    UnitStride(h);
    UnitStride(w);
    var cat := Shape(spec.planes + spec.planes, h, w);
    assert Concat(x, x) == Ok(cat);
    assert ApplyAll(b.transition, cat) == Ok(x);
  }

  lemma {:induction false} LaterBlocksForward(spec: StageSpec, n: nat, h: nat, w: nat)
    requires PositiveSpec(spec) && h >= 1 && w >= 1
    ensures ForwardAll(seq(n, _ => LaterBlock(spec)), Shape(spec.planes, h, w))
            == Ok(Shape(spec.planes, h, w))
  {
    var blocks := seq(n, _ => LaterBlock(spec));
    if n > 0 {
      LaterBlockForward(spec, h, w);
      assert blocks[0] == LaterBlock(spec);
      assert blocks[1..] == seq(n - 1, _ => LaterBlock(spec));
      LaterBlocksForward(spec, n - 1, h, w);
    }
  }

  /** A whole stage maps the running width to its target width at its
      stride, whatever its repeat count. */
  lemma LayerForward(spec: StageSpec, running: nat, h: nat, w: nat)
    requires PositiveSpec(spec) && running >= 1 && h >= 1 && w >= 1
    ensures ForwardAll(MakeLayer(spec, running).0, Shape(running, h, w))
            == Ok(Shape(spec.planes, Strided(h, spec.stride), Strided(w, spec.stride)))
  {
    var first := FirstBlock(spec, running);
    var rest := seq(RepeatCount(spec.blocks) - 1, _ => LaterBlock(spec));
    assert MakeLayer(spec, running).0 == [first] + rest;
    FirstBlockForward(spec, running, h, w);
    LaterBlocksForward(spec, RepeatCount(spec.blocks) - 1,
                       Strided(h, spec.stride), Strided(w, spec.stride));
    ForwardAllCons(first, rest, Shape(running, h, w));
  }

  lemma ForwardAllCons(b: Block, rest: seq<Block>, x: Shape)
    ensures ForwardAll([b] + rest, x)
            == if Forward(b, x).Ok? then ForwardAll(rest, Forward(b, x).value) else Forward(b, x)
  {
    assert ([b] + rest)[0] == b;
    assert ([b] + rest)[1..] == rest;
  }

  /** The builder's stages, run in order from the running width, end at the
      last stage's width with every stage's stride applied once. */
  lemma {:induction false} StagesForwardShape(specs: seq<StageSpec>, running: nat, h: nat, w: nat)
    requires PositiveSpecs(specs) && running >= 1 && h >= 1 && w >= 1
    ensures StagesForward(BuildStages(specs, running).0, Shape(running, h, w))
            == Ok(Shape(BuildStages(specs, running).1, SpatialAfter(specs, h), SpatialAfter(specs, w)))
    decreases |specs|
  {
    if |specs| > 0 {
      var spec := specs[0];
      var stages := BuildStages(specs, running).0;
      assert stages[0] == MakeLayer(spec, running).0;
      assert stages[1..] == BuildStages(specs[1..], spec.planes).0;
      assert PositiveSpec(spec);
      LayerForward(spec, running, h, w);
      assert PositiveSpecs(specs[1..]) by {
        forall i | 0 <= i < |specs[1..]| ensures PositiveSpec(specs[1..][i]) {
          assert specs[1..][i] == specs[i + 1];
        }
      }
      StagesForwardShape(specs[1..], spec.planes,
                         Strided(h, spec.stride), Strided(w, spec.stride));
    }
  }

  /** The schedule strides twice in stages 2, 3, 4 and 6 and once elsewhere;
      with the stem's stride-2 convolution that is five halvings. */
  lemma ScheduleSpatial(layers: seq<int>, n: nat)
    requires |layers| >= 7 && n >= 1
    ensures SpatialAfter(Schedule(layers), Halve(n)) == (n - 1) / 32 + 1
  {
    var s0 := Schedule(layers);
    var s1 := s0[1..];
    var s2 := s1[1..];
    var s3 := s2[1..];
    var s4 := s3[1..];
    var s5 := s4[1..];
    var s6 := s5[1..];
    assert s1[0] == s0[1] && s2[0] == s0[2] && s3[0] == s0[3];
    assert s4[0] == s0[4] && s5[0] == s0[5] && s6[0] == s0[6];
    assert |s6| == 1 && s6[1..] == [];
    var n1 := Halve(n);
    var n2 := Halve(n1);
    var n3 := Halve(n2);
    var n4 := Halve(n3);
    var n5 := Halve(n4);
    UnitStride(n5);
    assert SpatialAfter(s6, n5) == n5;
    assert SpatialAfter(s5, n4) == n5;
    UnitStride(n4);
    assert SpatialAfter(s4, n4) == n5;
    assert SpatialAfter(s3, n3) == n5;
    assert SpatialAfter(s2, n2) == n5;
    assert SpatialAfter(s1, n1) == n5;
    UnitStride(n1);
    assert SpatialAfter(s0, n1) == n5;
    FiveHalvings(n);
  }

  /** The stem accepts three channels of any positive size and halves it. */
  lemma StemForward(c: nat, h: nat, w: nat)
    ensures ApplyAll(StemOps(), Shape(c, h, w)).Ok?
            <==> c == 3 && h >= 1 && w >= 1
    ensures c == 3 && h >= 1 && w >= 1 ==>
              ApplyAll(StemOps(), Shape(c, h, w))
              == Ok(Shape(StemWidth, Halve(h), Halve(w)))
  {
    var stem := StemOps();
    var x := Shape(c, h, w);
    if c != 3 || h == 0 || w == 0 {
      assert Apply(stem[0], x).Err?;
    } else {
      var a := Shape(StemWidth, Halve(h), Halve(w));
      assert Apply(stem[0], x) == Ok(a);
      assert ApplyAll(stem[2..], a) == Ok(a);
      assert ApplyAll(stem[1..], a) == Ok(a);
    }
  }

  /** The head maps the last stage's 320 channels to the class count and
      needs at least a 4x4 map for its pool, which shrinks each side by 3. */
  lemma HeadForward(numClasses: nat, sh: nat, sw: nat)
    requires sh >= 1 && sw >= 1
    ensures ApplyAll([Pointwise(320, 1280, 1), AvgPool2d(4, 1), Pointwise(1280, numClasses, 1)],
                     Shape(320, sh, sw)).Ok?
            <==> sh >= 4 && sw >= 4
    ensures sh >= 4 && sw >= 4 ==>
              ApplyAll([Pointwise(320, 1280, 1), AvgPool2d(4, 1), Pointwise(1280, numClasses, 1)],
                       Shape(320, sh, sw))
              == Ok(Shape(numClasses, sh - 3, sw - 3))
  {
    var head := [Pointwise(320, 1280, 1), AvgPool2d(4, 1), Pointwise(1280, numClasses, 1)];
    var b := Shape(320, sh, sw);
    UnitStride(sh);
    UnitStride(sw);
    var b8 := Shape(1280, sh, sw);
    assert Apply(head[0], b) == Ok(b8);
    if sh >= 4 && sw >= 4 {
      var p := Shape(1280, sh - 3, sw - 3);
      assert PoolOutSize(sh, 4, 1) == sh - 3;
      assert PoolOutSize(sw, 4, 1) == sw - 3;
      assert Apply(head[1], b8) == Ok(p);
      var o := Shape(numClasses, sh - 3, sw - 3);
      UnitStride(sh - 3);
      UnitStride(sw - 3);
      assert Apply(head[2], p) == Ok(o);
      assert ApplyAll(head[3..], o) == Ok(o);
      assert ApplyAll(head[2..], p) == Ok(o);
      assert ApplyAll(head[1..], b8) == Ok(o);
    } else {
      assert Apply(head[1], b8).Err?;
      assert ApplyAll(head[1..], b8).Err?;
    }
  }

  /** All seven stages take the stem's 32 channels to 320 and shrink each side
      by 16, rounding up. */
  lemma AllStagesForward(layers: seq<int>, h: nat, w: nat)
    requires |layers| >= 7 && h >= 1 && w >= 1
    ensures StagesForward(BuildStages(Schedule(layers), StemWidth).0,
                          Shape(StemWidth, Halve(h), Halve(w)))
            == Ok(Shape(320, (h - 1) / 32 + 1, (w - 1) / 32 + 1))
  {
    StagesForwardShape(Schedule(layers), StemWidth, Halve(h), Halve(w));
    ScheduleSpatial(layers, h);
    ScheduleSpatial(layers, w);
  }

  /** Forward pass of any network with this stem and head whose stages take
      the stem's output to a 320-channel map of sides `sh` and `sw`. */
  lemma NetForwardThroughHead(net: Network, numClasses: nat, h: nat, w: nat, sh: nat, sw: nat)
    requires h >= 1 && w >= 1 && sh >= 1 && sw >= 1
    requires net.stem == StemOps()
    requires net.conv8 == Pointwise(320, 1280, 1) && net.avgpool == AvgPool2d(4, 1)
    requires net.conv9 == Pointwise(1280, numClasses, 1)
    requires StagesForward(net.stages, Shape(StemWidth, Halve(h), Halve(w))) == Ok(Shape(320, sh, sw))
    ensures NetForward(net, Shape(3, h, w)).Ok? <==> sh >= 4 && sw >= 4
    ensures NetForward(net, Shape(3, h, w)).Ok? ==>
              NetForward(net, Shape(3, h, w)).value == Flatten(Shape(numClasses, sh - 3, sw - 3))
  {
    StemForward(3, h, w);
    HeadForward(numClasses, sh, sw);
    assert [net.conv8, net.avgpool, net.conv9]
           == [Pointwise(320, 1280, 1), AvgPool2d(4, 1), Pointwise(1280, numClasses, 1)];
  }

  /** The assembled network, given where its stages take the stem's output. */
  lemma AssembledForward(layers: seq<int>, numClasses: nat, h: nat, w: nat, sh: nat, sw: nat)
    requires |layers| >= 7 && h >= 1 && w >= 1 && sh >= 1 && sw >= 1
    requires StagesForward(BuildStages(Schedule(layers), StemWidth).0,
                           Shape(StemWidth, Halve(h), Halve(w)))
             == Ok(Shape(320, sh, sw))
    ensures NetForward(Assemble(layers, numClasses), Shape(3, h, w)).Ok? <==> sh >= 4 && sw >= 4
    ensures NetForward(Assemble(layers, numClasses), Shape(3, h, w)).Ok? ==>
              NetForward(Assemble(layers, numClasses), Shape(3, h, w)).value
              == Flatten(Shape(numClasses, sh - 3, sw - 3))
  {
    NetForwardThroughHead(Assemble(layers, numClasses), numClasses, h, w, sh, sw);
  }

  /** The forward pass accepts exactly three-channel inputs of side at least
      97 (the 4x4 pool needs a 4x4 map after five halvings); the flattened
      length is the class count times the pooled area. */
  lemma NetForwardShape(layers: seq<int>, numClasses: nat, c: nat, h: nat, w: nat)
    requires |layers| >= 7
    ensures NetForward(Assemble(layers, numClasses), Shape(c, h, w)).Ok?
            <==> c == 3 && h >= 97 && w >= 97
    ensures NetForward(Assemble(layers, numClasses), Shape(c, h, w)).Ok? ==>
              NetForward(Assemble(layers, numClasses), Shape(c, h, w)).value
              == Flatten(Shape(numClasses, (h - 1) / 32 - 2, (w - 1) / 32 - 2))
  {
    StemForward(c, h, w);
    if c == 3 && h >= 1 && w >= 1 {
      AllStagesForward(layers, h, w);
      AssembledForward(layers, numClasses, h, w, (h - 1) / 32 + 1, (w - 1) / 32 + 1);
    } else {
      assert ApplyAll(Assemble(layers, numClasses).stem, Shape(c, h, w)).Err?;
    }
  }

  /** A 224x224 input leaves a 7x7 map after the last stage, so the 4x4 pool
      leaves 4x4 and each sample flattens to sixteen times the class count. */
  lemma Forward224(numClasses: nat)
    requires numClasses >= 1
    ensures NetForward(MobDenseNetV1(numClasses).value, Shape(3, 224, 224)) == Ok(16 * numClasses)
  {
    assert MobDenseNetV1(numClasses).value == Assemble(V1Counts, numClasses);
    SevenBySevenForward(V1Counts, numClasses, 224);
  }

  /** Every square input of side 193 to 224 leaves a 7x7 map after the last
      stage and flattens to sixteen values per class; the repeat counts play
      no part. */
  lemma SevenBySevenForward(layers: seq<int>, numClasses: nat, side: nat)
    requires |layers| >= 7 && 193 <= side <= 224
    ensures NetForward(Assemble(layers, numClasses), Shape(3, side, side)) == Ok(16 * numClasses)
  {
    NetForwardShape(layers, numClasses, 3, side, side);
    assert (side - 1) / 32 - 2 == 4;
    FlattenFourByFour(numClasses);
  }

  lemma FlattenFourByFour(n: nat)
    ensures Flatten(Shape(n, 4, 4)) == 16 * n
  {
  }

  /** The output is one value per class exactly when the map after the last
      stage is 4x4, that is for input sides from 97 to 128. */
  lemma SingleCellOutput(layers: seq<int>, numClasses: nat, c: nat, h: nat, w: nat)
    requires Build(layers, numClasses).Ok?
    ensures NetForward(Build(layers, numClasses).value, Shape(c, h, w)) == Ok(numClasses)
            <==> c == 3 && 97 <= h <= 128 && 97 <= w <= 128
  {
    assert Build(layers, numClasses).value == Assemble(layers, numClasses);
    SingleCellAssembled(layers, numClasses, c, h, w);
  }

  lemma SingleCellAssembled(layers: seq<int>, numClasses: nat, c: nat, h: nat, w: nat)
    requires |layers| >= 7 && numClasses >= 1
    ensures NetForward(Assemble(layers, numClasses), Shape(c, h, w)) == Ok(numClasses)
            <==> c == 3 && 97 <= h <= 128 && 97 <= w <= 128
  {
    NetForwardShape(layers, numClasses, c, h, w);
    if c == 3 && h >= 97 && w >= 97 {
      OneCellPerSide(numClasses, h, w);
    }
  }

  lemma OneCellPerSide(n: nat, h: nat, w: nat)
    requires n >= 1 && h >= 97 && w >= 97
    ensures Flatten(Shape(n, (h - 1) / 32 - 2, (w - 1) / 32 - 2)) == n <==> h <= 128 && w <= 128
  {
    var a, b := (h - 1) / 32 - 2, (w - 1) / 32 - 2;
    assert a == 1 <==> h <= 128;
    assert b == 1 <==> w <= 128;
    FlattenIsClassCount(n, a, b);
  }

  /** A map of `n` channels flattens to exactly `n` values iff it is 1x1. */
  lemma FlattenIsClassCount(n: nat, a: nat, b: nat)
    requires n >= 1 && a >= 1 && b >= 1
    ensures Flatten(Shape(n, a, b)) == n <==> a == 1 && b == 1
  {
  }

  /** Changing the class count changes the classifier's output width and
      nothing else. */
  lemma ClassCountOnlyAffectsClassifier(layers: seq<int>, n1: nat, n2: nat)
    requires Build(layers, n1).Ok? && Build(layers, n2).Ok?
    ensures Build(layers, n1).value.(conv9 := Pointwise(1280, n2, 1)) == Build(layers, n2).value
    ensures Build(layers, n1).value.conv9.outC == n1
  {
  }

  /** The running width enters stage one at the stem's width, enters every
      later stage at the previous stage's width, and leaves the last stage at
      320, the projection convolution's declared input. */
  lemma RunningWidths(layers: seq<int>, numClasses: nat)
    requires Build(layers, numClasses).Ok?
    ensures var net := Build(layers, numClasses).value;
            && |net.stages| == 7
            && (forall i :: 0 <= i < 7 ==>
                  && |net.stages[i]| >= 1 && net.stages[i][0].conv1.Conv2d?
                  && net.stages[i][0].conv1.inC == if i == 0 then StemWidth else StagePlanes[i - 1])
            && BuildStages(Schedule(layers), StemWidth).1 == net.conv8.inC == 320
  {
    var specs := Schedule(layers);
    var stages: seq<seq<Block>> := BuildStages(specs, StemWidth).0;
    forall i | 0 <= i < 7
      ensures && |stages[i]| >= 1 && stages[i][0].conv1.Conv2d?
              && stages[i][0].conv1.inC == if i == 0 then StemWidth else StagePlanes[i - 1]
    {
      var running := if i == 0 then StemWidth else specs[i - 1].planes;
      assert stages[i] == MakeLayer(specs[i], running).0;
    }
  }

  /** The first block of a stage as it would be if its transition read the
      running width after it is set to the stage's width rather than before. */
  function FirstBlockReadLate(spec: StageSpec, running: nat): Block {
    MakeBlock(running, spec.planes, spec.stride,
              Some(StageDownsample(running, spec.stride)),
              Transition(spec.planes, running + spec.planes, spec.planes, 1, 1),
              spec.expansion)
  }

  /** Reading the running width after its update would declare the first
      block's transition for `2 * planes` inputs while the concatenation is
      `planes + running` wide: the block then fails whenever the stage changes
      the width. */
  lemma TransitionReadAfterUpdateFails(spec: StageSpec, running: nat, h: nat, w: nat)
    requires PositiveSpec(spec) && running >= 1 && h >= 1 && w >= 1
    requires running != spec.planes
    ensures Forward(FirstBlockReadLate(spec, running), Shape(running, h, w)).Err?
  {
    var b := FirstBlockReadLate(spec, running);
    var x := Shape(running, h, w);
    var hs, ws := Strided(h, spec.stride), Strided(w, spec.stride);
    MainPathShape(running, spec.planes, spec.stride, b.downsample, b.transition,
                  spec.expansion, h, w);
    DepthwiseMatchesPointwise(h, spec.stride);
    DepthwiseMatchesPointwise(w, spec.stride);
    var out, res := Shape(spec.planes, hs, ws), Shape(running, hs, ws);
    assert Shortcut(b, x) == Ok(res);
    ForwardSteps(b, x, out, res);
    var cat := Shape(spec.planes + running, hs, ws);
    assert Concat(out, res) == Ok(cat);
    assert ApplyAll(b.transition, cat).Err?;
  }

  /** A block's forward pass once its main path and shortcut are known. */
  lemma ForwardSteps(b: Block, x: Shape, out: Shape, res: Shape)
    requires ApplyAll(MainPath(b), x) == Ok(out) && Shortcut(b, x) == Ok(res)
    ensures Forward(b, x)
            == if Concat(out, res).Ok? then ApplyAll(b.transition, Concat(out, res).value)
               else Concat(out, res)
  {
  }

  /** A block without downsample passes its raw input as the shortcut: with a
      `2 * planes` transition it runs exactly when the input already has
      `planes` channels and the stride leaves the spatial size unchanged. */
  lemma RawShortcutForward(inplanes: nat, spec: StageSpec, stride: nat, h: nat, w: nat)
    requires PositiveSpec(spec) && inplanes >= 1 && stride >= 1 && h >= 1 && w >= 1
    ensures Forward(MakeBlock(inplanes, spec.planes, stride, None,
                              Transition(spec.planes, 2 * spec.planes, spec.planes, 1, 1),
                              spec.expansion),
                    Shape(inplanes, h, w)).Ok?
            <==> inplanes == spec.planes && Strided(h, stride) == h && Strided(w, stride) == w
  {
    var b := MakeBlock(inplanes, spec.planes, stride, None,
                       Transition(spec.planes, 2 * spec.planes, spec.planes, 1, 1),
                       spec.expansion);
    var x := Shape(inplanes, h, w);
    var hs, ws := Strided(h, stride), Strided(w, stride);
    MainPathShape(inplanes, spec.planes, stride, b.downsample, b.transition,
                  spec.expansion, h, w);
    var out := Shape(spec.planes, hs, ws);
    if hs == h && ws == w {
      var cat := Shape(spec.planes + inplanes, h, w);
      assert Concat(out, x) == Ok(cat);
      UnitStride(h);
      UnitStride(w);
      assert ApplyAll(b.transition, cat).Ok? <==> inplanes == spec.planes;
    } else {
      assert Concat(out, x).Err?;
    }
  }

  /** The transition helper depends only on the builder's running width, the
      target width and the stride, not on its `inplanes` or `kernelSize`
      arguments. */
  lemma TransitionIgnoresArguments(current: nat, a1: nat, a2: nat, planes: nat,
                                   k1: nat, k2: nat, stride: nat)
    ensures Transition(current, a1, planes, k1, stride) == Transition(current, a2, planes, k2, stride)
    ensures Transition(current, a1, planes, k1, stride)[0].inC == current + planes
  {
  }
}

