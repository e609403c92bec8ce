/** The fully connected layer: z = W x + b followed by an activation on the
    forward pass, the chain rule on the reverse pass, and a flat index space
    over the tunable parameters (the weights, then the biases).

    W is stored row-major with one row per output: W[i * inputSize + j]
    connects input j to output i. */
module Dense {
  import opened DLMath

  datatype Activation = ReLU | Softmax | Linear

  /** A reference to one scalar inside a layer buffer; param and gradient
      return these as `NumType*` addresses. */
  datatype Slot = Slot(buffer: array<real>, index: nat)

  function Value(s: Slot): real
    reads s.buffer
    requires s.index < s.buffer.Length
  {
    s.buffer[s.index]
  }

  // ---------------------------------------------------------------------
  // Specification functions
  // ---------------------------------------------------------------------

  /** z = W x + b for an outputs x inputs weight matrix. */
  function Affine(w: seq<real>, b: seq<real>, x: seq<real>, outputs: nat, inputs: nat): (z: seq<real>)
    requires outputs * inputs <= |w| && outputs <= |b| && inputs <= |x|
    ensures |z| == outputs
  {
    Add(MatVec(w, x, outputs, inputs), b[..outputs])
  }

  /** g(z), the activation applied after the affine map. */
  function Activate(act: Activation, z: seq<real>, exp: real -> real): (a: seq<real>)
    requires forall x :: exp(x) > 0.0
    ensures |a| == |z|
  {
    match act
    case ReLU => ReluOf(z)
    case Softmax => SoftmaxOf(z, exp)
    case Linear => z
  }

  function Ones(n: nat): (r: seq<real>)
    ensures |r| == n
  {
    seq(n, _ => 1.0)
  }

  /** dg(z)/dz as reverse computes it from the stored activations a = g(z). */
  function ActivationDerivative(act: Activation, a: seq<real>): (d: seq<real>)
    ensures |d| == |a|
  {
    match act
    case ReLU => Relu1Of(a)
    case Softmax => Softmax1OptOf(a)
    case Linear => Ones(|a|)
  }

  /** dJ/dz = dJ/dg(z) * dg(z)/dz, element by element. */
  function Delta(act: Activation, a: seq<real>, upstream: seq<real>): (d: seq<real>)
    requires |upstream| == |a|
    ensures |d| == |a|
  {
    Mul(ActivationDerivative(act, a), upstream)
  }

  /** Entry k of a flat matrix with cols columns lies in row k / cols,
      column k % cols. */
  lemma FlatDivBound(k: nat, rows: nat, cols: nat)
    requires k < rows * cols
    ensures cols > 0 && k / cols < rows && k % cols < cols
  {
    if k / cols >= rows {
      MulMonotone(rows, k / cols, cols);
    }
  }

  /** Row i, column j of a flat matrix with cols columns is entry
      i * cols + j, and that entry maps back to (i, j). */
  lemma FlatDivMod(i: nat, j: nat, cols: nat)
    requires j < cols
    ensures (i * cols + j) / cols == i && (i * cols + j) % cols == j
  {
    var k := i * cols + j;
    var q, r := k / cols, k % cols;
    assert k == q * cols + r && 0 <= r < cols;
    if q > i {
      MulMonotone(i + 1, q, cols);
    } else if q < i {
      MulMonotone(q + 1, i, cols);
    }
  }

  /** wg + d xᵀ for the flat |d| x cols matrix wg: every entry (i, j) gains
      d[i] * x[j]. */
  function AccumulateOuter(wg: seq<real>, d: seq<real>, x: seq<real>, cols: nat): (r: seq<real>)
    requires |wg| == |d| * cols && cols <= |x|
    ensures |r| == |wg|
  {
    seq(|wg|, k requires 0 <= k < |wg| =>
      FlatDivBound(k, |d|, cols); wg[k] + d[k / cols] * x[k % cols])
  }

  // ---------------------------------------------------------------------
  // Lemmas about the specification functions
  // ---------------------------------------------------------------------

  /** Entry (i, j) of the accumulated weight gradient gains d[i] * x[j]. */
  lemma {:induction false} OuterAt(wg: seq<real>, d: seq<real>, x: seq<real>, cols: nat, i: nat, j: nat)
    requires |wg| == |d| * cols && cols <= |x| && i < |d| && j < cols
    ensures i * cols + j < |wg|
    ensures AccumulateOuter(wg, d, x, cols)[i * cols + j] == wg[i * cols + j] + d[i] * x[j]
  {
    FlatIndexBound(i, j, |d|, cols);
    FlatDivMod(i, j, cols);
  }

  /** The weight gradients once the accumulation loop has covered the flat
      entries below off: those hold the target t, the rest are as they
      were in wg. */
  ghost predicate AccumulatedBelow(cur: seq<real>, wg: seq<real>, t: seq<real>, off: nat)
  {
    && |cur| == |wg| == |t|
    && forall k :: 0 <= k < |cur| ==> cur[k] == if k < off then t[k] else wg[k]
  }

  /** One more row of the outer-product update: if the first i rows of
      before already hold AccumulateOuter and after adds d[i] * x to row i
      only, then the first i + 1 rows of after hold it. */
  lemma {:induction false} OuterRowStep(wg: seq<real>, d: seq<real>, x: seq<real>, cols: nat, i: nat,
                                        off: nat, t: seq<real>, before: seq<real>, after: seq<real>)
    requires |wg| == |d| * cols && cols <= |x| && i < |d| && off == i * cols
    requires t == AccumulateOuter(wg, d, x, cols)
    requires AccumulatedBelow(before, wg, t, off) && |after| == |wg|
    requires off + cols <= |after|
    requires forall j :: 0 <= j < cols ==> after[off + j] == before[off + j] + d[i] * x[j]
    requires forall k :: 0 <= k < |after| && !(off <= k < off + cols) ==> after[k] == before[k]
    ensures AccumulatedBelow(after, wg, t, off + cols)
  {
    forall k | off <= k < off + cols
      ensures after[k] == t[k]
    {
      OuterAt(wg, d, x, cols, i, k - off);
      assert after[off + (k - off)] == before[off + (k - off)] + d[i] * x[k - off];
    }
  }

  /** Once every entry is covered, the loop state is the target. */
  lemma {:induction false} AccumulatedAll(cur: seq<real>, wg: seq<real>, t: seq<real>)
    requires AccumulatedBelow(cur, wg, t, |wg|)
    ensures cur == t
  {
    assert forall k :: 0 <= k < |cur| ==> cur[k] == t[k];
  }

  /** The ReLU branch of reverse: the activation gradient is the upstream
      gradient where the stored activation is positive and 0 elsewhere. */
  lemma DeltaRelu(a: seq<real>, upstream: seq<real>)
    requires |upstream| == |a|
    ensures forall i :: 0 <= i < |a| ==>
      Delta(ReLU, a, upstream)[i] == (if a[i] > 0.0 then upstream[i] else 0.0)
  {
  }

  /** The Linear branch of reverse: the activation gradient is the upstream
      gradient. */
  lemma {:induction false} DeltaLinear(a: seq<real>, upstream: seq<real>)
    requires |upstream| == |a|
    ensures Delta(Linear, a, upstream) == upstream
  {
    assert forall i :: 0 <= i < |a| ==> Delta(Linear, a, upstream)[i] == 1.0 * upstream[i];
  }

  /** The Softmax branch of reverse: entry i is s_i (1 - Σ s) times the
      upstream gradient, s being the stored activations. */
  lemma {:induction false} DeltaSoftmax(a: seq<real>, upstream: seq<real>)
    requires |upstream| == |a|
    ensures forall i :: 0 <= i < |a| ==>
      Delta(Softmax, a, upstream)[i] == a[i] * (1.0 - Sum(a)) * upstream[i]
  {
    var d := Softmax1OptOf(a);
    Softmax1OptClosedForm(a);
    assert Delta(Softmax, a, upstream) == Mul(d, upstream);
    forall i | 0 <= i < |a|
      ensures Delta(Softmax, a, upstream)[i] == a[i] * (1.0 - Sum(a)) * upstream[i]
    {
      assert Mul(d, upstream)[i] == d[i] * upstream[i];
    }
  }

  /** Reverse takes the ReLU derivative of the stored activations relu(z)
      rather than of z; the two agree. */
  lemma {:induction false} ReluDerivativeOfActivations(z: seq<real>)
    ensures Relu1Of(ReluOf(z)) == Relu1Of(z)
  {
    forall i | 0 <= i < |z|
      ensures Relu1Of(ReluOf(z))[i] == Relu1Of(z)[i]
    {
      ReluDerivativeFromOutput(z[i]);
    }
  }

  /** After a Softmax forward pass the stored activations sum to one, so the
      derivative reverse multiplies into the upstream gradient is zero in
      every entry, whatever the upstream gradient. */
  lemma {:induction false} SoftmaxDeltaVanishes(z: seq<real>, exp: real -> real, upstream: seq<real>)
    requires forall x :: exp(x) > 0.0
    requires |upstream| == |z|
    ensures Delta(Softmax, SoftmaxOf(z, exp), upstream) == Zeros(|z|)
  {
    var a := SoftmaxOf(z, exp);
    Softmax1OfSoftmaxVanishes(z, exp);
    assert forall i :: 0 <= i < |z| ==> Delta(Softmax, a, upstream)[i] == 0.0 * upstream[i];
  }

  /** Entry (i, j) of the softmax Jacobian ds_i/dz_j in terms of the outputs
      s: s_i (1 - s_i) on the diagonal and -s_i s_j off it. softmax_1_opt
      adds these up along row i. */
  function SoftmaxJacobian(s: seq<real>, i: nat, j: nat): real
    requires i < |s| && j < |s|
  {
    if i == j then s[i] * (1.0 - s[i]) else -s[i] * s[j]
  }

  /** Column j of the softmax Jacobian: ds_i/dz_j for every output i. */
  function SoftmaxJacobianColumn(s: seq<real>, j: nat): (c: seq<real>)
    requires j < |s|
    ensures |c| == |s|
  {
    seq(|s|, i requires 0 <= i < |s| => SoftmaxJacobian(s, i, j))
  }

  /** dJ/dz of a Softmax layer by the chain rule, from its outputs s and the
      upstream gradient u: s_j (u_j - Σ_i s_i u_i). */
  function SoftmaxBackward(s: seq<real>, u: seq<real>): (r: seq<real>)
    requires |u| == |s|
    ensures |r| == |s|
  {
    seq(|s|, j requires 0 <= j < |s| => s[j] * (u[j] - Dot(s, u)))
  }

  /** A sequence that is zero except at entry j contributes only that entry
      to a dot product. */
  lemma {:induction false} DotSingleEntry(e: seq<real>, v: seq<real>, j: nat, n: nat)
    requires n <= |e| && n <= |v| && j < |e|
    requires forall i :: 0 <= i < |e| && i != j ==> e[i] == 0.0
    ensures DotUpTo(e, v, n) == if j < n then e[j] * v[j] else 0.0
  {
    if n > 0 {
      DotSingleEntry(e, v, j, n - 1);
      assert DotUpTo(e, v, n) == DotUpTo(e, v, n - 1) + e[n - 1] * v[n - 1];
      if n - 1 != j {
        assert e[n - 1] == 0.0;
        assert e[n - 1] * v[n - 1] == 0.0;
      }
    }
  }

  /** s_j on the diagonal and 0 elsewhere. */
  function DiagonalEntry(s: seq<real>, j: nat): (e: seq<real>)
    requires j < |s|
    ensures |e| == |s|
  {
    seq(|s|, i requires 0 <= i < |s| => if i == j then s[j] else 0.0)
  }

  /** Column j of the softmax Jacobian is s_j times the unit vector at j,
      minus s_j times s. */
  lemma {:induction false} JacobianColumnSplit(s: seq<real>, j: nat)
    requires j < |s|
    ensures forall i :: 0 <= i < |s| ==>
      SoftmaxJacobianColumn(s, j)[i] == DiagonalEntry(s, j)[i] + -s[j] * s[i]
  {
    forall i | 0 <= i < |s|
      ensures SoftmaxJacobianColumn(s, j)[i] == DiagonalEntry(s, j)[i] + -s[j] * s[i]
    {
      if i == j {
        assert s[j] * (1.0 - s[j]) == s[j] + -s[j] * s[j];
      } else {
        assert -s[i] * s[j] == 0.0 + -s[j] * s[i];
      }
    }
  }

  /** Entry j of the corrected Softmax branch. */
  lemma {:induction false} SoftmaxBackwardAt(s: seq<real>, u: seq<real>, j: nat)
    requires |u| == |s| && j < |s|
    ensures SoftmaxBackward(s, u)[j] == Dot(SoftmaxJacobianColumn(s, j), u)
  {
    var e := DiagonalEntry(s, j);
    JacobianColumnSplit(s, j);
    DotLinear(SoftmaxJacobianColumn(s, j), e, s, u, -s[j], |s|);
    DotSingleEntry(e, u, j, |s|);
    Distribute(s[j], u[j], Dot(s, u));
  }

  lemma Distribute(a: real, x: real, y: real)
    ensures a * (x - y) == a * x + -a * y
  {
  }

  /** The corrected Softmax branch: entry j of SoftmaxBackward is the dot
      product of column j of the softmax Jacobian with the upstream gradient,
      that is, entry j of Jᵀ u. */
  lemma {:induction false} SoftmaxBackwardIsChainRule(s: seq<real>, u: seq<real>)
    requires |u| == |s|
    ensures forall j :: 0 <= j < |s| ==>
      SoftmaxBackward(s, u)[j] == Dot(SoftmaxJacobianColumn(s, j), u)
  {
    forall j | 0 <= j < |s|
      ensures SoftmaxBackward(s, u)[j] == Dot(SoftmaxJacobianColumn(s, j), u)
    {
      SoftmaxBackwardAt(s, u, j);
    }
  }

  /** An input that shows the discrepancy: softmax of [0, 0] is [0.5, 0.5]
      for every positive exp. With upstream gradient [1, 0] reverse computes
      dJ/dz == [0, 0], where the chain rule gives [0.25, -0.25]. */
  lemma SoftmaxDeltaCounterexample(exp: real -> real)
    requires forall x :: exp(x) > 0.0
    ensures SoftmaxOf([0.0, 0.0], exp) == [0.5, 0.5]
    ensures Delta(Softmax, [0.5, 0.5], [1.0, 0.0]) == [0.0, 0.0]
    ensures SoftmaxBackward([0.5, 0.5], [1.0, 0.0]) == [0.25, -0.25]
  {
    var z, s, u := [0.0, 0.0], [0.5, 0.5], [1.0, 0.0];
    var e := exp(0.0);
    assert Exps(z, exp) == [e, e];
    assert SumOfExps(z, exp) == e + e by {
      assert SumUpTo([e, e], 1) == e by { assert SumUpTo([e, e], 0) == 0.0; }
    }
    assert e * (1.0 / (e + e)) == 0.5;
    assert SoftmaxOf(z, exp) == Scale([e, e], 1.0 / (e + e));
    assert Scale([e, e], 1.0 / (e + e)) == s by {
      var c := Scale([e, e], 1.0 / (e + e));
      assert c[0] == e * (1.0 / (e + e)) && c[1] == e * (1.0 / (e + e));
    }
    Softmax1OfSoftmaxVanishes(z, exp);
    assert Delta(Softmax, s, u) == Mul(Zeros(2), u);
    assert Dot(s, u) == 0.5 by {
      assert DotUpTo(s, u, 1) == 0.5 by { assert DotUpTo(s, u, 0) == 0.0; }
    }
  }

  /** One row of the input-gradient loop: adding g[i] times row i to the
      transposed product over the first i rows gives the product over the
      first i + 1. */
  lemma {:induction false} InputGradientStep(ms: seq<seq<real>>, g: seq<real>, cols: nat, i: nat,
                                             cur: seq<real>, next: seq<real>)
    requires IsMatrix(ms, cols) && i < |ms| && i < |g|
    requires cur == MatTVecUpTo(ms, g, cols, i) && |next| == cols
    requires next[..cols] == Add(cur[..cols], Scale(ms[i], g[i]))
    ensures next == MatTVecUpTo(ms, g, cols, i + 1)
  {
    MatTVecUpToStep(ms, g, cols, i);
    assert next == next[..cols] && cur == cur[..cols];
  }

  // ---------------------------------------------------------------------
  // The inner loops of the reverse pass
  // ---------------------------------------------------------------------

  /** dst[offset + j] += c * src[j] for j < n: one row of the weight
      gradient gains c times the input. */
  method AddScaledIntoSlice(dst: array<real>, offset: nat, c: real, src: array<real>, n: nat)
    requires offset + n <= dst.Length && n <= src.Length && dst != src
    modifies dst
    ensures forall j :: 0 <= j < n ==> dst[offset + j] == old(dst[offset + j]) + c * src[j]
    ensures forall k :: 0 <= k < dst.Length && !(offset <= k < offset + n) ==> dst[k] == old(dst[k])
  {
    for j := 0 to n
      invariant forall m :: 0 <= m < j ==> dst[offset + m] == old(dst[offset + m]) + c * src[m]
      invariant forall k :: 0 <= k < dst.Length && !(offset <= k < offset + j) ==> dst[k] == old(dst[k])
    {
      dst[offset + j] := dst[offset + j] + c * src[j];
    }
  }

  /** dst = mᵀ g for the rows x cols row-major matrix m: dst is filled with
      zeros, then gains g[i] times row i for each i in turn. This is the
      input-gradient computation of reverse. */
  method MatTVecInto(dst: array<real>, m: array<real>, g: array<real>, rows: nat, cols: nat)
    requires m.Length == rows * cols && rows <= g.Length && dst.Length == cols
    requires dst != m && dst != g
    modifies dst
    ensures dst[..] == MatTVec(m[..], g[..rows], rows, cols)
  {
    ghost var w := m[..];
    ghost var gs := g[..rows];
    ghost var ms := Rows(w, rows, cols);
    for j := 0 to cols
      invariant forall k :: 0 <= k < j ==> dst[k] == 0.0
    {
      dst[j] := 0.0;
    }
    assert dst[..] == MatTVecUpTo(ms, gs, cols, 0);
    for i := 0 to rows
      invariant m[..] == w && g[..rows] == gs
      invariant dst[..] == MatTVecUpTo(ms, gs, cols, i)
    {
      FlatIndexBound(i, cols, rows, cols);
      ghost var cur := dst[..];
      assert g[i] == gs[i];
      AddScaledSlice(dst, g[i], m, i * cols, cols);
      assert ms[i] == w[i * cols .. i * cols + cols];
      InputGradientStep(ms, gs, cols, i, cur, dst[..]);
    }
  }

  /** wg[i * cols + j] += d[i] * x[j] for every i < rows and j < cols, one
      row at a time: the weight-gradient loop of reverse. */
  method AccumulateOuterInto(wg: array<real>, d: array<real>, x: array<real>, rows: nat, cols: nat)
    requires wg.Length == rows * cols && rows <= d.Length && cols <= x.Length
    requires wg != d && wg != x
    modifies wg
    ensures wg[..] == AccumulateOuter(old(wg[..]), d[..rows], x[..cols], cols)
  {
    ghost var wg0 := wg[..];
    ghost var ds := d[..rows];
    ghost var xs := x[..cols];
    ghost var t := AccumulateOuter(wg0, ds, xs, cols);
    var i, off := 0, 0;
    while i < rows
      invariant 0 <= i <= rows && off == i * cols
      invariant d[..rows] == ds && x[..cols] == xs
      invariant AccumulatedBelow(wg[..], wg0, t, off)
    {
      FlatIndexBound(i, cols, rows, cols);
      ghost var before := wg[..];
      assert d[i] == ds[i];
      AddScaledIntoSlice(wg, off, d[i], x, cols);
      OuterRowStep(wg0, ds, xs, cols, i, off, t, before, wg[..]);
      i, off := i + 1, off + cols;
    }
    AccumulatedAll(wg[..], wg0, t);
  }

  /** dst[j] += c * src[offset + j] for j < n: the input gradient gains c
      times one row of the weights. */
  method AddScaledSlice(dst: array<real>, c: real, src: array<real>, offset: nat, n: nat)
    requires n <= dst.Length && offset + n <= src.Length && dst != src
    modifies dst
    ensures dst[..n] == Add(old(dst[..n]), Scale(src[offset .. offset + n], c))
    ensures dst[n..] == old(dst[n..])
  {
    ghost var d0 := dst[..n];
    ghost var row := src[offset .. offset + n];
    for j := 0 to n
      invariant forall m :: 0 <= m < j ==> dst[m] == d0[m] + row[m] * c
      invariant forall m :: j <= m < dst.Length ==> dst[m] == old(dst[m])
    {
      dst[j] := dst[j] + c * src[offset + j];
    }
    assert forall m :: 0 <= m < n ==> dst[..n][m] == Add(d0, Scale(row, c))[m];
  }

  /** A fresh buffer of n zeros, as std::vector::resize leaves it. */
  method ZeroArray(n: nat) returns (a: array<real>)
    ensures fresh(a) && a[..] == Zeros(n)
  {
    a := new real[n](_ => 0.0);
    assert a[..] == Zeros(n);
  }

  // ---------------------------------------------------------------------
  // The layer
  // ---------------------------------------------------------------------

  class DenseLayer {
    const name: string
    const activation: Activation
    const outputSize: nat
    const inputSize: nat

    const weights: array<real>
    const biases: array<real>
    const activations: array<real>
    const activationGradients: array<real>
    const weightGradients: array<real>
    const biasGradients: array<real>
    const inputGradients: array<real>

    /** The input of the last forward pass; null before the first one. */
    var lastInput: array?<real>

    /** The parameter and gradient buffers line up: one gradient per
        parameter, in four distinct buffers. This is all the flat index
        space needs. */
    ghost predicate Aligned()
    {
      && weightGradients.Length == weights.Length
      && biasGradients.Length == biases.Length
      && weights != biases && weights != weightGradients && weights != biasGradients
      && biases != weightGradients && biases != biasGradients
      && weightGradients != biasGradients
    }

    /** Buffer shapes, and every buffer owned exclusively by the layer. */
    ghost predicate Valid()
    {
      && Aligned()
      && weights.Length == outputSize * inputSize
      && biases.Length == outputSize
      && activations.Length == outputSize
      && activationGradients.Length == outputSize
      && inputGradients.Length == inputSize
      && weights != activations && weights != activationGradients && weights != inputGradients
      && biases != activations && biases != activationGradients && biases != inputGradients
      && activations != activationGradients && activations != weightGradients
      && activations != biasGradients && activations != inputGradients
      && activationGradients != weightGradients && activationGradients != biasGradients
      && activationGradients != inputGradients
      && weightGradients != inputGradients && biasGradients != inputGradients
    }

    /** Sizes every buffer; all of them start out zero. */
    constructor (name: string, activation: Activation, outputSize: nat, inputSize: nat)
      ensures Valid()
      ensures this.name == name && this.activation == activation
      ensures this.outputSize == outputSize && this.inputSize == inputSize
      ensures fresh(weights) && fresh(biases) && fresh(activations) && fresh(activationGradients)
      ensures fresh(weightGradients) && fresh(biasGradients) && fresh(inputGradients)
      ensures weights[..] == Zeros(outputSize * inputSize) && biases[..] == Zeros(outputSize)
      ensures activations[..] == Zeros(outputSize) && activationGradients[..] == Zeros(outputSize)
      ensures weightGradients[..] == Zeros(outputSize * inputSize)
      ensures biasGradients[..] == Zeros(outputSize) && inputGradients[..] == Zeros(inputSize)
      ensures lastInput == null
    {
      this.name := name;
      this.activation := activation;
      this.outputSize := outputSize;
      this.inputSize := inputSize;
      var count := outputSize * inputSize;
      var w := ZeroArray(count);
      var b := ZeroArray(outputSize);
      var a := ZeroArray(outputSize);
      var ag := ZeroArray(outputSize);
      var wg := ZeroArray(count);
      var bg := ZeroArray(outputSize);
      var ig := ZeroArray(inputSize);
      weights, biases, activations, activationGradients := w, b, a, ag;
      weightGradients, biasGradients, inputGradients := wg, bg, ig;
      lastInput := null;
    }

    /** The weights take the sampler's draws, one per weight in storage
        order; every bias becomes 0.01. */
    method Init(draws: seq<real>)
      requires Valid() && |draws| == weights.Length
      modifies weights, biases
      ensures weights[..] == draws
      ensures forall i :: 0 <= i < biases.Length ==> biases[i] == 0.01
    {
      for k := 0 to weights.Length
        invariant forall m :: 0 <= m < k ==> weights[m] == draws[m]
      {
        weights[k] := draws[k];
      }
      for k := 0 to biases.Length
        invariant forall m :: 0 <= m < k ==> biases[m] == 0.01
        invariant weights[..] == draws
      {
        biases[k] := 0.01;
      }
    }

    /** activations = g(W inputs + b); remembers inputs for reverse. The
        product refuses to write the layer's own activations into
        themselves. */
    method Forward(inputs: array<real>, exp: real -> real) returns (r: Outcome)
      requires Valid() && inputSize <= inputs.Length
      requires forall x :: exp(x) > 0.0
      modifies this`lastInput, activations
      ensures lastInput == inputs
      ensures r == AliasingError <==> inputs == activations
      ensures r == AliasingError ==> activations[..] == old(activations[..])
      ensures r == Ok ==> activations[..]
                          == Activate(activation, Affine(old(weights[..]), old(biases[..]), old(inputs[..]),
                                                         outputSize, inputSize), exp)
    {
      lastInput := inputs;
      ghost var z := Affine(weights[..], biases[..], inputs[..], outputSize, inputSize);
      ghost var b := biases[..];
      r := MatArrMul(activations, weights, inputs, outputSize, inputSize);
      if r == AliasingError {
        return;
      }
      assert activations[..] == activations[..outputSize];
      ArrSum(activations, activations, biases, outputSize);
      assert b[..outputSize] == biases[..outputSize];
      assert activations[..] == z;
      match activation {
        case ReLU =>
          ReluArr(activations, activations, outputSize);
          assert activations[..] == activations[..outputSize];
        case Softmax =>
          DLMath.Softmax(activations, activations, outputSize, exp);
          assert activations[..] == activations[..outputSize];
        case Linear =>
      }
    }

    /** The switch at the start of reverse: activationGradients = dg(z)/dz,
        computed from the stored activations. */
    method ComputeActivationDerivative()
      requires Valid()
      modifies activationGradients
      ensures activationGradients[..] == ActivationDerivative(activation, activations[..])
    {
      assert activations[..] == activations[..outputSize];
      match activation {
        case ReLU =>
          Relu1(activationGradients, activations, outputSize);
          assert activationGradients[..] == activationGradients[..outputSize];
        case Softmax =>
          var r := Softmax1Opt(activationGradients, activations, outputSize);
          assert r == Ok;
          assert activationGradients[..] == activationGradients[..outputSize];
        case Linear =>
          for k := 0 to activationGradients.Length
            invariant forall m :: 0 <= m < k ==> activationGradients[m] == 1.0
          {
            activationGradients[k] := 1.0;
          }
          assert activationGradients[..] == Ones(outputSize);
      }
    }

    /** weightGradients[i * inputSize + j] += activationGradients[i] *
        lastInput[j] for every output i and input j. */
    method AccumulateWeightGradients()
      requires Valid() && lastInput != null && inputSize <= lastInput.Length
      requires lastInput != weightGradients
      modifies weightGradients
      ensures weightGradients[..]
              == AccumulateOuter(old(weightGradients[..]), activationGradients[..], lastInput[..inputSize], inputSize)
    {
      AccumulateOuterInto(weightGradients, activationGradients, lastInput, outputSize, inputSize);
      assert activationGradients[..outputSize] == activationGradients[..];
    }

    /** inputGradients = Wᵀ activationGradients, computed from scratch. */
    method ComputeInputGradients()
      requires Valid()
      modifies inputGradients
      ensures inputGradients[..] == MatTVec(weights[..], activationGradients[..], outputSize, inputSize)
    {
      MatTVecInto(inputGradients, weights, activationGradients, outputSize, inputSize);
      assert activationGradients[..outputSize] == activationGradients[..];
    }

    /** The reverse pass for the upstream gradient dJ/dg(z): the activation
        gradient is overwritten with dJ/dz, the bias and weight gradients
        accumulate, and the input gradient is overwritten with Wᵀ dJ/dz.
        The inputs of the last forward pass must still be available. */
    method Reverse(gradients: array<real>)
      requires Valid() && outputSize <= gradients.Length
      requires lastInput != null && inputSize <= lastInput.Length
      requires gradients != activationGradients
      requires lastInput != activationGradients && lastInput != weightGradients && lastInput != biasGradients
      modifies activationGradients, weightGradients, biasGradients, inputGradients
      ensures unchanged(weights) && unchanged(biases) && unchanged(activations)
      ensures activationGradients[..] == Delta(activation, activations[..], old(gradients[..outputSize]))
      ensures biasGradients[..] == Add(old(biasGradients[..]), activationGradients[..])
      ensures weightGradients[..]
              == AccumulateOuter(old(weightGradients[..]), activationGradients[..], old(lastInput[..inputSize]), inputSize)
      ensures inputGradients[..] == MatTVec(weights[..], activationGradients[..], outputSize, inputSize)
    {
      ghost var up := gradients[..outputSize];
      ComputeActivationDerivative();
      ghost var derivative := activationGradients[..];
      assert derivative == derivative[..outputSize] && gradients[..outputSize] == up;
      ArrMul(activationGradients, activationGradients, gradients, outputSize);
      ghost var delta := activationGradients[..];
      assert delta == delta[..outputSize] == Mul(derivative, up);
      assert delta == Delta(activation, activations[..], up);
      ArrSum(biasGradients, biasGradients, activationGradients, outputSize);
      assert biasGradients[..] == biasGradients[..outputSize];
      AccumulateWeightGradients();
      ComputeInputGradients();
      assert activationGradients[..] == delta;
    }

    /** The number of tunable parameters: every weight, then every bias. */
    function ParamCount(): nat
    {
      weights.Length + biases.Length
    }

    /** The slot of parameter index (source: param). */
    function Param(index: nat): (s: Slot)
      requires index < ParamCount()
      ensures s.buffer == weights || s.buffer == biases
      ensures s.index < s.buffer.Length
    {
      if index < weights.Length then Slot(weights, index) else Slot(biases, index - weights.Length)
    }

    /** The slot of the gradient of parameter index (source: gradient). */
    function Gradient(index: nat): (s: Slot)
      requires Aligned() && index < ParamCount()
      ensures s.buffer == weightGradients || s.buffer == biasGradients
      ensures s.index < s.buffer.Length
    {
      if index < weightGradients.Length then Slot(weightGradients, index)
      else Slot(biasGradients, index - weightGradients.Length)
    }

    /** All parameters in flat index order. */
    function Params(): (p: seq<real>)
      reads weights, biases
      ensures |p| == ParamCount()
    {
      weights[..] + biases[..]
    }

    /** All gradients in flat index order. */
    function Grads(): (g: seq<real>)
      reads weightGradients, biasGradients
      ensures |g| == weightGradients.Length + biasGradients.Length
    {
      weightGradients[..] + biasGradients[..]
    }

    /** Parameter k and its gradient sit at the same position of matching
        buffers: a weight's gradient is a weight gradient, a bias's gradient
        a bias gradient. */
    lemma ParamGradientAligned(k: nat)
      requires Aligned() && k < ParamCount()
      ensures Param(k).index == Gradient(k).index
      ensures Param(k).buffer == weights <==> Gradient(k).buffer == weightGradients
      ensures Param(k).buffer == biases <==> Gradient(k).buffer == biasGradients
    {
    }

    /** Distinct indices name distinct parameters and distinct gradients. */
    lemma SlotsInjective(k1: nat, k2: nat)
      requires Aligned() && k1 < ParamCount() && k2 < ParamCount()
      ensures Param(k1) == Param(k2) <==> k1 == k2
      ensures Gradient(k1) == Gradient(k2) <==> k1 == k2
    {
    }

    /** The slots read back as the flat parameter and gradient vectors. */
    lemma SlotValues(k: nat)
      requires Aligned() && k < ParamCount()
      ensures Value(Param(k)) == Params()[k]
      ensures Value(Gradient(k)) == Grads()[k]
    {
    }
  }

  /** A 2 x 2 Linear layer with W = [[1, 2], [3, 4]] and b = [0.01, 0.01]:
      forward on [1, 2] gives [5.01, 11.01]; reverse with upstream gradient
      [1, 0] leaves activation gradient [1, 0], bias gradient [1, 0] and
      input gradient Wᵀ [1, 0] = [1, 2]. */
  method LayerExample() {
    var layer := new DenseLayer("dense", Linear, 2, 2);
    layer.Init([1.0, 2.0, 3.0, 4.0]);
    assert layer.biases[..] == [0.01, 0.01];
    var x := new real[2];
    x[0], x[1] := 1.0, 2.0;
    var r := layer.Forward(x, _ => 1.0);
    assert r == Ok;
    MatVecExample();
    assert x[..] == [1.0, 2.0];
    assert layer.activations[..] == [5.01, 11.01];
    var up := new real[2];
    up[0], up[1] := 1.0, 0.0;
    assert up[..2] == [1.0, 0.0];
    layer.Reverse(up);
    assert layer.activationGradients[..] == [1.0, 0.0];
    assert layer.biasGradients[..] == [1.0, 0.0];
    MatTVecExample();
    assert layer.inputGradients[..] == [1.0, 2.0];
  }
}
