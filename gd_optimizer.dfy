/** Plain gradient descent over a layer's flat parameter space: every
    parameter moves against its accumulated gradient by the learning rate,
    and the gradient is reset for the next epoch. */
module Optimizer {
  import opened DLMath
  import opened Dense

  // ---------------------------------------------------------------------
  // Specification function
  // ---------------------------------------------------------------------

  /** One descent step on every parameter: p - eta * g. */
  function Descend(p: seq<real>, g: seq<real>, eta: real): (r: seq<real>)
    requires |p| == |g|
    ensures |r| == |p|
  {
    seq(|p|, k requires 0 <= k < |p| => p[k] - eta * g[k])
  }

  // ---------------------------------------------------------------------
  // Lemmas about the specification function
  // ---------------------------------------------------------------------

  /** With every gradient at zero a step changes nothing: a second train
      right after the first is a no-op on the parameters. */
  lemma {:induction false} DescendZeroGradient(p: seq<real>, eta: real)
    ensures Descend(p, Zeros(|p|), eta) == p
  {
    assert forall k :: 0 <= k < |p| ==> Descend(p, Zeros(|p|), eta)[k] == p[k] - eta * 0.0;
  }

  /** Writing entry i of a concatenation writes entry i of its first part
      or entry i - |a| of its second. */
  lemma UpdateConcat(a: seq<real>, b: seq<real>, i: nat, v: real)
    requires i < |a| + |b|
    ensures i < |a| ==> (a + b)[i := v] == a[i := v] + b
    ensures i >= |a| ==> (a + b)[i := v] == a + b[i - |a| := v]
  {
    var u := (a + b)[i := v];
    if i < |a| {
      var c := a[i := v] + b;
      assert forall k :: 0 <= k < |u| ==> u[k] == c[k];
    } else {
      var c := a + b[i - |a| := v];
      assert forall k :: 0 <= k < |u| ==> u[k] == c[k];
    }
  }

  /** The parameters after i iterations of train: those below i descended,
      the rest as they were. */
  function DescendedUpTo(p: seq<real>, g: seq<real>, eta: real, i: nat): (r: seq<real>)
    requires |p| == |g|
    ensures |r| == |p|
  {
    seq(|p|, k requires 0 <= k < |p| => if k < i then p[k] - eta * g[k] else p[k])
  }

  /** The gradients after i iterations of train: those below i zero, the
      rest as they were. */
  function ZeroedUpTo(g: seq<real>, i: nat): (r: seq<real>)
    ensures |r| == |g|
  {
    seq(|g|, k requires 0 <= k < |g| => if k < i then 0.0 else g[k])
  }

  /** One iteration of train's loop moves both states one index on: writing
      the descended parameter and a zero gradient at entry i of the state
      after i iterations gives the state after i + 1. */
  lemma {:induction false} TrainedStep(p0: seq<real>, g0: seq<real>, eta: real, i: nat,
                                       p: seq<real>, g: seq<real>, v: real, p': seq<real>, g': seq<real>)
    requires |p0| == |g0| && i < |p0|
    requires p == DescendedUpTo(p0, g0, eta, i) && g == ZeroedUpTo(g0, i)
    requires v == p[i] - eta * g[i]
    requires p' == p[i := v] && g' == g[i := 0.0]
    ensures p' == DescendedUpTo(p0, g0, eta, i + 1) && g' == ZeroedUpTo(g0, i + 1)
  {
    var v := DescendedUpTo(p0, g0, eta, i + 1);
    forall k | 0 <= k < |p'|
      ensures p'[k] == v[k]
    {
      if k != i {
        assert p'[k] == p[k];
      }
    }
    var y := ZeroedUpTo(g0, i + 1);
    forall k | 0 <= k < |g'|
      ensures g'[k] == y[k]
    {
      if k != i {
        assert g'[k] == g[k];
      }
    }
  }

  /** Before the first iteration nothing has changed; after the last the
      parameters are one descent step on and the gradients are zero. */
  lemma {:induction false} TrainedEnds(p: seq<real>, g: seq<real>, eta: real)
    requires |p| == |g|
    ensures DescendedUpTo(p, g, eta, 0) == p && ZeroedUpTo(g, 0) == g
    ensures DescendedUpTo(p, g, eta, |p|) == Descend(p, g, eta)
    ensures ZeroedUpTo(g, |g|) == Zeros(|g|)
  {
    assert forall k :: 0 <= k < |p| ==> DescendedUpTo(p, g, eta, 0)[k] == p[k];
    assert forall k :: 0 <= k < |g| ==> ZeroedUpTo(g, 0)[k] == g[k];
    assert forall k :: 0 <= k < |p| ==> DescendedUpTo(p, g, eta, |p|)[k] == Descend(p, g, eta)[k];
    assert forall k :: 0 <= k < |g| ==> ZeroedUpTo(g, |g|)[k] == Zeros(|g|)[k];
  }

  // ---------------------------------------------------------------------
  // The optimizer
  // ---------------------------------------------------------------------

  class GDOptimizer {
    /** The learning rate. */
    const eta: real

    constructor (eta: real)
      ensures this.eta == eta
    {
      this.eta := eta;
    }

    /** For every flat index below the parameter count: the parameter loses
        eta times its gradient, then the gradient becomes 0. Nothing but the
        parameters and the gradients changes. */
    method Train(layer: DenseLayer)
      requires layer.Aligned()
      modifies layer.weights, layer.biases, layer.weightGradients, layer.biasGradients
      ensures layer.Params() == Descend(old(layer.Params()), old(layer.Grads()), eta)
      ensures layer.Grads() == Zeros(layer.ParamCount())
    {
      ghost var p0 := layer.Params();
      ghost var g0 := layer.Grads();
      var count := layer.ParamCount();
      TrainedEnds(p0, g0, eta);
      for i := 0 to count
        invariant layer.Params() == DescendedUpTo(p0, g0, eta, i)
        invariant layer.Grads() == ZeroedUpTo(g0, i)
      {
        ghost var p, g := layer.Params(), layer.Grads();
        ghost var v := p[i] - eta * g[i];
        Step(layer, i);
        ghost var p', g' := layer.Params(), layer.Grads();
        assert |p'| == |p|;
        assert p'[i] == v;
        assert forall k :: 0 <= k < |p| && k != i ==> p'[k] == p[k];
        assert p' == p[i := v];
        assert g' == g[i := 0.0];
        TrainedStep(p0, g0, eta, i, p, g, v, p', g');
      }
    }

    /** The body of train's loop for flat index i: param -= eta * gradient,
        then gradient = 0, through the two slots. */
    method Step(layer: DenseLayer, i: nat)
      requires layer.Aligned() && i < layer.ParamCount()
      modifies layer.weights, layer.biases, layer.weightGradients, layer.biasGradients
      ensures layer.Params() == old(layer.Params())[i := old(layer.Params())[i] - eta * old(layer.Grads())[i]]
      ensures layer.Grads() == old(layer.Grads())[i := 0.0]
    {
      ghost var w0, b0 := layer.weights[..], layer.biases[..];
      ghost var wg0, bg0 := layer.weightGradients[..], layer.biasGradients[..];
      ghost var v := old(layer.Params())[i] - eta * old(layer.Grads())[i];
      var param := layer.Param(i);
      var gradient := layer.Gradient(i);
      layer.SlotValues(i);
      var p, g := param.buffer[param.index], gradient.buffer[gradient.index];
      assert p == old(layer.Params())[i] && g == old(layer.Grads())[i];
      var updated := p - eta * g;
      assert updated == v;
      param.buffer[param.index] := updated;
      gradient.buffer[gradient.index] := 0.0;
      if i < |w0| {
        assert param == Slot(layer.weights, i) && gradient == Slot(layer.weightGradients, i);
        assert layer.weights[..] == w0[i := v];
        assert layer.biases[..] == b0;
        assert layer.weightGradients[..] == wg0[i := 0.0];
        assert layer.biasGradients[..] == bg0;
      } else {
        assert param == Slot(layer.biases, i - |w0|) && gradient == Slot(layer.biasGradients, i - |wg0|);
        assert layer.weights[..] == w0;
        assert layer.biases[..] == b0[i - |w0| := v];
        assert layer.weightGradients[..] == wg0;
        assert layer.biasGradients[..] == bg0[i - |wg0| := 0.0];
      }
      UpdateConcat(w0, b0, i, v);
      UpdateConcat(wg0, bg0, i, 0.0);
    }
  }

  /** One descent step on a 1 x 1 Linear layer whose weight and bias carry
      gradients 2 and 4: with eta = 0.5 the weight goes from 3 to 2 and the
      bias from 0.01 to -1.99, and both gradients return to 0. */
  method TrainExample() {
    var layer := new DenseLayer("dense", Linear, 1, 1);
    layer.Init([3.0]);
    layer.weightGradients[0] := 2.0;
    layer.biasGradients[0] := 4.0;
    assert layer.Params() == [3.0, 0.01] && layer.Grads() == [2.0, 4.0];
    var opt := new GDOptimizer(0.5);
    opt.Train(layer);
    assert layer.Params() == [2.0, -1.99];
    assert layer.Grads() == [0.0, 0.0];
  }
}
