/** The primitive operators of the network, as shape transformers.

    Each operator is a descriptor carrying exactly the integers the tensor
    engine uses to size its output; `Apply` is the engine's shape contract
    (the numerics of convolution, normalisation, activation and pooling are
    not modelled). */
module Ops {
  import opened Results
  import opened Shapes

  datatype Op =
    | Conv2d(inC: nat, outC: nat, k: nat, stride: nat, pad: nat, groups: nat)
    | BatchNorm2d(features: nat)
    | ReLU
    | AvgPool2d(size: nat, step: nat)

  /** A bias-free 1x1 convolution with the engine's default padding 0 and a
      single group. */
  function Pointwise(inC: nat, outC: nat, stride: nat): Op {
    Conv2d(inC, outC, 1, stride, 0, 1)
  }

  /** Parameter checks the engine makes on an operator, independent of input. */
  predicate ValidParams(op: Op) {
    match op
    case Conv2d(inC, outC, k, s, _, g) =>
      k >= 1 && s >= 1 && g >= 1 && inC % g == 0 && outC % g == 0
    case AvgPool2d(k, s) => k >= 1 && s >= 1
    case _ => true
  }

  /** The shape an operator produces from an input of shape `x`. */
  function Apply(op: Op, x: Shape): (r: Result<Shape>)
    ensures r.Ok? ==> ValidParams(op)
    ensures op.Conv2d? ==>
              (r.Ok? <==> ValidParams(op) && x.c == op.inC
                          && op.k <= x.h + 2 * op.pad && op.k <= x.w + 2 * op.pad)
    ensures op.Conv2d? && r.Ok? ==>
              && r.value.c == op.outC
              && Windows(x.h, op.k, op.stride, op.pad, r.value.h)
              && Windows(x.w, op.k, op.stride, op.pad, r.value.w)
    ensures op.BatchNorm2d? ==> (r.Ok? <==> x.c == op.features) && (r.Ok? ==> r.value == x)
    ensures op.ReLU? ==> r == Ok(x)
    ensures op.AvgPool2d? ==>
              (r.Ok? <==> ValidParams(op) && op.size <= x.h && op.size <= x.w)
    ensures op.AvgPool2d? && r.Ok? ==>
              && r.value.c == x.c
              && Windows(x.h, op.size, op.step, 0, r.value.h)
              && Windows(x.w, op.size, op.step, 0, r.value.w)
  {
    if !ValidParams(op) then Err(BadConfig)
    else match op
      case Conv2d(inC, outC, k, s, p, _) =>
        if x.c != inC then Err(ChannelMismatch(inC, x.c))
        else if k > x.h + 2 * p || k > x.w + 2 * p then Err(KernelTooLarge)
        else Ok(Shape(outC, ConvOutSize(x.h, k, s, p), ConvOutSize(x.w, k, s, p)))
      case BatchNorm2d(f) =>
        if x.c != f then Err(ChannelMismatch(f, x.c)) else Ok(x)
      case ReLU => Ok(x)
      case AvgPool2d(k, s) =>
        if k > x.h || k > x.w then Err(KernelTooLarge)
        else Ok(Shape(x.c, PoolOutSize(x.h, k, s), PoolOutSize(x.w, k, s)))
  }

  /** A sequential container: the operators applied in order, stopping at the
      first failure. */
  function ApplyAll(ops: seq<Op>, x: Shape): (r: Result<Shape>)
    ensures |ops| == 0 ==> r == Ok(x)
    ensures |ops| > 0 && Apply(ops[0], x).Err? ==> r.Err?
  {
    if |ops| == 0 then Ok(x)
    else
      var y :- Apply(ops[0], x);
      ApplyAll(ops[1..], y)
  }

  /** Running two containers one after the other is running their
      concatenation. */
  lemma {:induction false} ApplyAllAppend(a: seq<Op>, b: seq<Op>, x: Shape)
    ensures ApplyAll(a + b, x)
            == (match ApplyAll(a, x)
                case Ok(y) => ApplyAll(b, y)
                case Err(e) => Err(e))
  {
    if |a| == 0 {
      assert a + b == b;
    } else {
      assert (a + b)[0] == a[0];
      assert (a + b)[1..] == a[1..] + b;
      match Apply(a[0], x)
      case Ok(y) => ApplyAllAppend(a[1..], b, y);
      case Err(_) =>
    }
  }

  /** A container that ends in a normalisation yields, when it succeeds,
      that normalisation's width. */
  lemma {:induction false} ApplyAllEndsInNorm(ops: seq<Op>, x: Shape)
    requires |ops| >= 1 && ops[|ops| - 1].BatchNorm2d?
    ensures ApplyAll(ops, x).Ok? ==> ApplyAll(ops, x).value.c == ops[|ops| - 1].features
    decreases |ops|
  {
    if |ops| > 1 {
      match Apply(ops[0], x)
      case Ok(y) =>
        assert ops[1..][|ops[1..]| - 1] == ops[|ops| - 1];
        ApplyAllEndsInNorm(ops[1..], y);
      case Err(_) =>
    }
  }

  /** Weight-initialisation fan-out of a convolution: kernel area times
      output channels, independent of the group count. */
  function FanOut(op: Op): (n: nat)
    requires op.Conv2d?
    ensures n == 0 <==> op.k == 0 || op.outC == 0
  {
    op.k * op.k * op.outC
  }
}
