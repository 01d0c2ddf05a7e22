# MobDenseNet shape model

A Dafny model of the topology builder and the forward shape pipeline of
MobDenseNet (`DenseMobileNetV4` in `MobDenseNet.py`). This network combines
inverted-residual blocks with dense fusion: each block concatenates its
projected output with a shortcut along the channel axis. A 1×1 "transition"
convolution then compresses the result back to the stage width.

The model keeps only integer arithmetic. Each operator is a descriptor:

- a convolution is `(inC, outC, k, stride, pad, groups)`;
- a batch norm records its feature count;
- ReLU carries no parameters;
- an average pool records its size and step.

A tensor is a `(C, H, W)` shape. The batch dimension passes through every
operator unchanged, so it is left out. `Ops.Apply` is the tensor engine's
shape contract. It returns an `Err` where the engine raises on a shape: a
channel mismatch, a window larger than the padded input, or invalid
parameters. The
spatial rules are the standard ones. For a convolution the output size is
`floor((n + 2p − k)/s) + 1`. For an unpadded pool it is `floor((n − k)/s) + 1`.
Both are characterised by `Shapes.Windows`: `r` windows fit and one more would
not.

Files:

- `results.dfy` holds `Result`, `Option` and the error kinds.
- `shapes.dfy` holds shapes, the window-count rule and its arithmetic facts.
- `ops.dfy` holds the operators, `Apply`, sequential containers
  (`ApplyAll`) and the initialisation fan-out.
- `bottleneck.dfy` holds the block, its constructor and its forward pass.
- `network.dfy` holds the stage builder as a pure fold over stage
  specifications, the constructor `Build` with its initialisation pass, and
  the network forward pass.
- `forward.dfy` holds the shape theorems: every block, stage and the whole
  pipeline is channel- and spatially consistent.

The source keeps the running width in the mutable field `self.inplanes`. The
model threads it explicitly: `MakeLayer(spec, running)` returns the stage's
blocks and the new running width, and `BuildStages` folds it over the specs.
The code never validates channel counts while building. The model's `Build`
does not validate them either. Instead, consistency is proved for every input
(`FirstBlockForward`, `LaterBlockForward`, `NetForwardShape`).

Three facts about the code that a reader might not expect:

- The transition container comes from `_downsample` (MobDenseNet.py:83-86):
  a convolution plus batch norm with no activation. `_transition_layer`, which
  ends in a ReLU, is never called.
- A 224×224 input flattens to 16 · num_classes values per sample, not
  num_classes (`Forward224`). The last stage leaves a 7×7 map, and the
  4×4, stride-1 pool turns it into a 4×4 map. Exactly one value per class
  comes out only for input sides 97–128 (`SingleCellOutput`).
- A repeat count below 1 still builds one block, because the first block is
  built outside `range(1, blocks)`.

## Model

| member | source | states |
|---|---|---|
| Shapes.ConvOutSize | MobDenseNet.py:15-16 | the convolution output size is at least 1, and it is the number of stride-spaced kernel windows that fit in the padded input: one more would not fit |
| Shapes.PoolOutSize | MobDenseNet.py:66 | the same window characterisation for an unpadded pool |
| Shapes.WindowsUnique | MobDenseNet.py:15-16 | only one count satisfies the window characterisation, so it fully specifies the size rule |
| Shapes.DepthwiseMatchesPointwise | MobDenseNet.py:15-16 | for every size and stride, a 3×3/pad-1 convolution and a 1×1/pad-0 convolution both accept the input exactly when it is non-empty, and they give the same output size |
| Shapes.Halve | MobDenseNet.py:55 | a stride-2, 3×3, pad-1 convolution gives ceil(n/2) |
| Shapes.FiveHalvings | MobDenseNet.py:55-63 | five such halvings give ceil(n/32) |
| Ops.Apply | MobDenseNet.py:13-19 | a convolution succeeds exactly when its parameters are valid, the input width equals its declared input width and the kernel fits; it then has the declared output width and the window-count size. Batch norm succeeds exactly on its own width and keeps the shape. ReLU keeps the shape. A pool keeps the width and shrinks the sides by the window rule |
| Ops.ApplyAll | MobDenseNet.py:39-44 | an empty sequential container returns its input unchanged, and a container fails as soon as its first operator fails |
| Ops.ApplyAllAppend | MobDenseNet.py:105-114 | running two sequential containers one after the other equals running their concatenation, including failure propagation |
| Ops.FanOut | MobDenseNet.py:71 | the initialisation fan-out is zero exactly when the kernel or the output width is zero |
| Bottleneck.MakeBlock | MobDenseNet.py:11-23 | the expand convolution is pointwise from inplanes to inplanes·expansion. The depthwise convolution has input width = output width = groups = the expanded width, kernel 3, pad 1 and the block's stride. The project convolution is pointwise from the expanded width to planes. Each batch norm matches the width before it |
| Bottleneck.Concat | MobDenseNet.py:42 | concatenation succeeds exactly when the heights and widths agree, and its width is the sum of the two widths |
| Bottleneck.Shortcut | MobDenseNet.py:26-40 | without a downsample the shortcut is the raw input; with one, it is the downsample container applied to the input |
| Bottleneck.MainPathEnds | MobDenseNet.py:28-37 | the main path (`MainPath`: expand, depthwise and project with their normalisations, activations after the first two) fails on any input width other than conv1's declared input, and on success has bn3's width |
| Bottleneck.ForwardAll | MobDenseNet.py:98 | a stage's sequential container of blocks returns its input when empty and fails when its first block fails |
| Bottleneck.Forward | MobDenseNet.py:25-46 | a block's forward pass succeeds only if both its main path and its shortcut succeed. Its exact output shape is stated by the stage lemmas below |
| Bottleneck.MainPathShape | MobDenseNet.py:28-37 | for positive widths and a non-empty input of `inplanes` channels, the main path yields `planes` channels at the depthwise convolution's strided size |
| Bottleneck.MainPathRejectsWidth | MobDenseNet.py:13 | a block fails on an input whose width is not the expand convolution's declared input |
| Network.StageDownsample | MobDenseNet.py:89-90 | the stage downsample accepts exactly non-empty inputs of the running width. It keeps that width and applies the 1×1 strided size rule |
| Network.Transition | MobDenseNet.py:83-86 | the transition accepts exactly inputs of width (current running width + planes) and yields `planes` channels. The `inplanes` and `kernel_size` arguments play no part |
| NetworkShapes.TransitionIgnoresArguments | MobDenseNet.py:83-84 | two calls that differ only in the `inplanes` or `kernel_size` argument give the same container, whose input width is the running width plus planes |
| Network.FirstBlock | MobDenseNet.py:89-93 | the first block of a stage reads the running width, expands it by the stage's expansion factor, strides, has a downsample that keeps the running width, and has a transition declared for exactly the concatenation of its project output (planes) and its input width |
| Network.LaterBlock | MobDenseNet.py:95-97 | a later block reads planes, expands it by the stage's expansion factor, runs at stride 1 with no downsample, and its transition is declared for exactly the concatenation of its project output and its raw input |
| Network.RepeatCount | MobDenseNet.py:93-95 | a stage has at least one block, and one more than `range(1, blocks)` yields |
| Network.MakeLayer | MobDenseNet.py:88-98 | a stage has max(1, blocks) blocks and sets the running width to planes. Its first block reads the old running width, expands it by the stage's expansion factor, strides, has a width-preserving downsample, and has a transition declared for running + planes inputs. Every later block reads planes, expands it by the same factor, has stride 1 and no downsample, and has a transition declared for 2·planes inputs |
| Network.BuildStages | MobDenseNet.py:53-64 | the fold builds one stage per spec. Stage i is built from the previous stage's width (the initial width for stage 0). The final running width is the last spec's width |
| Network.Schedule | MobDenseNet.py:58-64 | the seven stage specs are all positive and carry the given repeat counts in order |
| Network.ScheduleStages | MobDenseNet.py:58-64 | stage i gets the width, stride and expansion factor of the i-th `_make_layer` call: widths 16, 24, 32, 64, 96, 160, 320; strides 1, 2, 2, 2, 1, 2, 1; expansions 1, 6, 6, 6, 6, 6, 6 |
| Network.StrideLayout | MobDenseNet.py:55-64 | in the assembled network only the stem and the first block of stages 2, 3, 4 and 6 have stride 2; every other block has stride 1 |
| Network.AllOps | MobDenseNet.py:69 | the module walk visits every stem operator, every operator the stages register, conv8, the pool and conv9 |
| Network.AllOpsVisitsEverything | MobDenseNet.py:69 | the walk reaches every operator of every block of every stage (through `StagesOps` and `BlocksOps`), as well as the stem and the head |
| Network.BlockOpsVisit | MobDenseNet.py:69 | the walk over one block (`BlockOps`) visits its three convolutions and three normalisations, its downsample container's operators and its transition's operators |
| Network.InitPass | MobDenseNet.py:69-72 | the initialisation pass succeeds exactly when every convolution has a positive fan-out. Otherwise it fails with a division by zero. On success every recorded fan-out is positive |
| Network.InitPassSucceeds | MobDenseNet.py:69-72 | in the assembled network every convolution has a positive fan-out exactly when the class count is positive |
| Network.Build | MobDenseNet.py:52-75 | construction succeeds exactly when there are at least seven repeat counts and at least one class. With fewer counts it fails on the missing index; with zero classes it fails in initialisation |
| Network.AssembleLayout | MobDenseNet.py:53-67 | the assembled topology (`Assemble`) has seven stages, stage i with max(1, layers[i]) blocks; the stem's output width is the first block's input; conv8 reads the width the last stage leaves; conv9 maps conv8's width to num_classes |
| Network.MobDenseNetV1 | MobDenseNet.py:120-124 | the published configuration, with num_classes defaulting to 1000, builds exactly when the class count is positive, and then yields the topology assembled from the counts [1,2,3,4,3,3,1] |
| Network.StagesForwardAppend | MobDenseNet.py:105-111 | running the stages in order (`StagesForward`) composes: two groups of stages run one after the other equal their concatenation run at once, failures included |
| Network.NetForward | MobDenseNet.py:100-117 | the forward pass fails whenever the stem fails, and succeeds only if the stem and then all stages succeed; `NetworkShapes.NetForwardShape` gives its exact acceptance condition and output length |
| Network.Flatten | MobDenseNet.py:115 | the flattened per-sample length is zero exactly when one of the dimensions is zero |
| NetworkShapes.FirstBlockForward | MobDenseNet.py:88-94 | the first block of any positive stage turns a non-empty map of the running width into `planes` channels at the stage's stride. The concatenation width planes + running is exactly its transition's declared input |
| NetworkShapes.LaterBlockForward | MobDenseNet.py:95-97 | a later block maps a `planes`-channel map to the same shape. The 2·planes concatenation is exactly its transition's input |
| NetworkShapes.LaterBlocksForward | MobDenseNet.py:95-97 | any number of later blocks in a row preserve a `planes`-channel map |
| NetworkShapes.LayerForward | MobDenseNet.py:88-98 | a whole stage, for any repeat count, maps the running width to `planes` at the stage's stride |
| NetworkShapes.StagesForwardShape | MobDenseNet.py:105-111 | the built stages, run in order from the running width, succeed. They end at the fold's final width with each stage's stride applied once |
| NetworkShapes.ScheduleSpatial | MobDenseNet.py:55-64 | the stem and the seven scheduled stages together shrink each side to ceil(n/32); which stages stride is stated by `Network.StrideLayout` |
| NetworkShapes.StemForward | MobDenseNet.py:101-103 | the stem accepts exactly non-empty three-channel inputs and halves each side into 32 channels |
| NetworkShapes.HeadForward | MobDenseNet.py:112-114 | the head maps 320 channels to the class count. It accepts exactly maps at least 4×4, and the pool shrinks each side by 3 |
| NetworkShapes.RunningWidths | MobDenseNet.py:53-65 | stage 1 starts at width 32 and each later stage starts at the previous stage's width. The running width after stage 7 is 320, conv8's declared input |
| NetworkShapes.NetForwardShape | MobDenseNet.py:100-117 | the forward pass succeeds exactly on three-channel inputs with both sides ≥ 97. The flattened length is num_classes · (ceil(H/32) − 3) · (ceil(W/32) − 3) |
| NetworkShapes.Forward224 | MobDenseNet.py:113-115 | a 224×224 input flattens to 16 · num_classes values per sample |
| NetworkShapes.SevenBySevenForward | MobDenseNet.py:113-115 | for any repeat counts, every square input of side 193 to 224 leaves a 7×7 map and flattens to 16 · num_classes values |
| NetworkShapes.SingleCellOutput | MobDenseNet.py:113-115 | the output has exactly num_classes values per sample iff the input has three channels and both sides lie in 97..128 |
| NetworkShapes.FlattenIsClassCount | MobDenseNet.py:115 | an n-channel map flattens to n values iff it is 1×1 |
| NetworkShapes.ClassCountOnlyAffectsClassifier | MobDenseNet.py:65-67 | two networks built with different class counts differ only in conv9's output width |
| NetworkShapes.TransitionReadAfterUpdateFails | MobDenseNet.py:92-94 | suppose the first block's transition read the running width after it is set to planes. Then it would be declared for 2·planes inputs, and the block would fail whenever the stage changes the width. This is why the read order on lines 92-94 matters |
| NetworkShapes.RawShortcutForward | MobDenseNet.py:95-97 | a block without a downsample, and with a 2·planes transition, runs iff its input already has `planes` channels and its stride keeps the spatial size |

## Left out

- Tensor values: the numerics of convolution, batch norm, ReLU, pooling and `torch.cat` are not modelled. Only their shape contracts are.
- Weight initialisation values: the normal draw with standard deviation `sqrt(2/n)` and the batch-norm fills of 1 and 0 are floating-point and random. Only the integer fan-out `n` is kept, along with the division by zero it causes when `n` is 0 (`InitPass`).
- In-place ReLU aliasing, `nn.Module` registration and the `self.modules()` traversal are framework plumbing. `AllOps` lists the same operators the traversal visits. The order in which they are visited does not affect the outcome.
- `_transition_layer` (MobDenseNet.py:77-81) is never called, so it is not modelled.
- The batch dimension is carried through unchanged by every operator, so it is not represented. `Flatten` gives the per-sample length of `x.view(x.size(0), -1)`.
- Negative class counts are not modelled: `numClasses` is a `nat`. The tensor engine's rejection of negative widths is not part of this model.
- Ops.Apply: batch norm is modelled as in evaluation mode. A freshly built network is in training mode, where batch norm raises on a map with one value per channel (batch 1 and a 1×1 map); `Apply` returns `Ok` there, so the block and stage lemmas also claim success at 1×1 inputs. The whole forward pass never reaches that case: it accepts only sides of at least 97, and the sides only shrink through the network down to ceil(n/32) ≥ 4 after the last stage (`ScheduleSpatial`), so every batch norm sees a map of at least 4×4.
- The engine's constructor-time parameter checks (positive kernel, stride and groups; groups dividing both widths) are reported by `Apply` when the operator is used, not when it is constructed. For this network's schedule they never fail.
- Determinism of construction holds by definition: every builder function is pure.
