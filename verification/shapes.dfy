/** Feature-map shapes and the sliding-window size rule.

    A tensor is described only by its channel count and spatial size; the
    batch dimension is never touched by any operator here and is left out. */
module Shapes {

  datatype Shape = Shape(c: nat, h: nat, w: nat)

  /** `r` windows of size `k`, `s` apart, fit in a line of `n` cells padded by
      `p` on both sides, and one more window would not. */
  predicate Windows(n: nat, k: nat, s: nat, p: nat, r: nat) {
    (r - 1) * s + k <= n + 2 * p < r * s + k
  }

  /** Output size of a 2-D convolution along one axis:
      floor((n + 2p - k) / s) + 1. */
  function ConvOutSize(n: nat, k: nat, s: nat, p: nat): (r: nat)
    requires s >= 1 && k <= n + 2 * p
    ensures r >= 1
    ensures Windows(n, k, s, p, r)
  {
    var m := n + 2 * p - k;
    DivBounds(m, s);
    m / s + 1
  }

  /** Output size of an unpadded average pool along one axis:
      floor((n - k) / s) + 1. */
  function PoolOutSize(n: nat, k: nat, s: nat): (r: nat)
    requires s >= 1 && k <= n
    ensures r >= 1
    ensures Windows(n, k, s, 0, r)
  {
    ConvOutSize(n, k, s, 0)
  }

  lemma DivBounds(m: nat, s: nat)
    requires s >= 1
    ensures (m / s) * s <= m < (m / s) * s + s
  {
  }

  /** The window characterisation pins the output size down: whatever count
      satisfies it is the one `ConvOutSize` computes. */
  lemma WindowsUnique(n: nat, k: nat, s: nat, p: nat, r: nat)
    requires s >= 1 && k <= n + 2 * p
    requires Windows(n, k, s, p, r)
    ensures r == ConvOutSize(n, k, s, p)
  {
    var q := ConvOutSize(n, k, s, p);
    if r < q {
      MulMono(r, q - 1, s);
    } else if r > q {
      MulMono(q, r - 1, s);
    }
  }

  lemma MulMono(a: nat, b: nat, s: nat)
    requires a <= b
    ensures a * s <= b * s
  {
  }

  /** A strided convolution needs a window that fits: for a 3x3 kernel with
      padding 1 and for a 1x1 kernel with padding 0 this is the same
      condition, and both give the same output size. */
  lemma DepthwiseMatchesPointwise(n: nat, s: nat)
    requires s >= 1
    ensures 3 <= n + 2 <==> 1 <= n
    ensures n >= 1 ==> ConvOutSize(n, 3, s, 1) == ConvOutSize(n, 1, s, 0)
  {
  }

  /** One stride-2 reduction with a 3x3 kernel and padding 1: ceil(n / 2). */
  function Halve(n: nat): (r: nat)
    requires n >= 1
    ensures r >= 1 && 2 * r - 1 <= n <= 2 * r
  {
    ConvOutSize(n, 3, 2, 1)
  }

  /** Five such reductions shrink the side by 32, rounding up. */
  lemma FiveHalvings(n: nat)
    requires n >= 1
    ensures Halve(Halve(Halve(Halve(Halve(n))))) == (n - 1) / 32 + 1
  {
  }
}
