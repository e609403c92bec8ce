# AriadneDL training core in Dafny

AriadneDL is a small C++ deep-learning library. This project models three
pieces of its training engine and proves properties of them:

- **The numeric kernels of `dlmath`.** These are element-wise sum and product, the row-major
  matrix-vector product, ReLU and its derivative, softmax, and the two
  softmax-derivative kernels. Each kernel is a method over `array<real>` with an
  explicit length, as in the source: it writes its destination in place and is
  specified against a function on sequences. The kernels that throw on aliased
  buffers return `Outcome.AliasingError` instead, and write nothing on that path.
- **`DenseLayer`.** It is a class with the layer's seven buffers as array fields and the
  remembered last input.
  - `Forward` computes g(W x + b).
  - `Reverse` applies the chain rule. The activation gradient is overwritten
    with dJ/dz; the bias and weight gradients accumulate; the input gradient is
    recomputed from scratch as Wᵀ dJ/dz.
  - `Param` and `Gradient` expose the weights followed by the biases as one
    flat index space, as slots: a buffer and an index.
- **`GDOptimizer::train`.** It is one loop over that flat index space. It applies
  p -= η g to each parameter and then sets g = 0.

`NumType` (a `double`) is modelled as `real`, so the model is exact
arithmetic. Several results follow from that model:

- `MatTVecAdjoint`: the input gradient is the adjoint of the forward product.
- `SoftmaxSumsToOne`: softmax outputs sum to one.
- `Softmax1OptClosedForm`: `softmax_1_opt` collapses to s_i (1 - Σ s).
- `Softmax1OfSoftmaxVanishes` and `SoftmaxDeltaVanishes`: on the output of a
  softmax forward pass, `softmax_1_opt` is zero everywhere. The Softmax branch of
  reverse therefore produces a zero dJ/dz whatever the upstream gradient, so a
  Softmax layer never learns. This is a defect of the source; see "## Findings".

Three worked examples replay the values of the kernel unit tests
(tests/dnn/test_dlmath.cpp:88-139, 158-169 and 173-174): `DLMath.ElementwiseExamples`,
`DLMath.MatArrMulExamples` and `DLMath.ReluExamples`. The other two,
`Dense.LayerExample` and `Optimizer.TrainExample`, are examples worked by hand;
no test of the source uses their values.

Files:

- `dlmath.dfy` (module `DLMath`): the kernels and their specification functions.
- `dense.dfy` (module `Dense`): the layer.
- `gd_optimizer.dfy` (module `Optimizer`): the optimizer.

Row-major matrices are handled as lists of rows (`Rows`). This keeps index
products out of most proofs.

## Model

| member | source | states |
|---|---|---|
| DLMath.Relu | source/dnn/dlmath.hpp:135-139 | relu(x) is max(x, 0): non-negative, at least x, and either x or 0 |
| DLMath.Relu1At | source/dnn/dlmath.hpp:200 | the ReLU derivative is 1 exactly when x > 0 and 0 exactly when x <= 0 (so 0 maps to 0) |
| DLMath.ArrMul | source/dnn/dlmath.hpp:72-79 | dst[i] == old src1[i] * old src2[i] for i < length, also when dst is a source; entries from length on unchanged; dst[..length] is `Mul` of the old prefixes |
| DLMath.ArrSum | source/dnn/dlmath.hpp:89-96 | dst[i] == old src1[i] + old src2[i] for i < length, also in place; entries from length on unchanged; dst[..length] is `Add` of the old prefixes |
| DLMath.MatArrMul | source/dnn/dlmath.hpp:108-126 | fails exactly when src is dst, and then dst is unchanged; otherwise dst[..rows] == mat · src (row i is Σ_{j<cols} mat[i*cols+j] * src[j]) and entries from rows on are unchanged; mat and src are not written |
| DLMath.RowTimesVector | source/dnn/dlmath.hpp:118-125 | one outer iteration of matarr_mul: dst[i] becomes row i of mat times src; every other entry of dst is unchanged |
| DLMath.MatVecExample | tests/dnn/test_dlmath.cpp:112-126 | [[1, 2], [3, 4]] · [1, 2] == [5, 11] |
| DLMath.ReluArr | source/dnn/dlmath.hpp:149-156 | dst[i] == relu(old src[i]) for i < length, in place allowed; the rest of dst unchanged |
| DLMath.Relu1 | source/dnn/dlmath.hpp:195-202 | dst[i] == 1 if old src[i] > 0 else 0 for i < length, in place allowed; the rest unchanged |
| DLMath.ExpAndSum | source/dnn/dlmath.hpp:169-175 | the first softmax loop: dst[..length] becomes exp of the old src prefix, the returned sum is Σ exp, the rest of dst unchanged |
| DLMath.SumOfExps | source/dnn/dlmath.hpp:170-178 | Σ_j exp(z_j) is positive for non-empty z, so softmax's division is defined |
| DLMath.ScaleArr | source/dnn/dlmath.hpp:180-184 | the second softmax loop: dst[..length] is multiplied by c, the rest unchanged |
| DLMath.Softmax | source/dnn/dlmath.hpp:166-185 | dst[..length] == softmax(old src[..length]), in place allowed; the rest unchanged |
| DLMath.SoftmaxSumsToOne | source/dnn/dlmath.hpp:158-185 | softmax outputs are positive and sum to one |
| DLMath.Softmax1Opt | source/dnn/dlmath.hpp:215-232 | fails exactly when src is dst, and then dst is unchanged; otherwise dst[i] == Σ_j (s_i (1 - s_i) if i == j else -s_i s_j) with s the old src, for i < length, the rest unchanged |
| DLMath.JacobianRow | source/dnn/dlmath.hpp:224-231 | one outer iteration of softmax_1_opt: dst[i] becomes row sum i of the softmax Jacobian in s, the other entries unchanged |
| DLMath.JacobianRowSumClosedForm | source/dnn/dlmath.hpp:227-230 | after n inner iterations dst[i] holds (s_i if i < n else 0) - s_i Σ_{j<n} s_j |
| DLMath.Softmax1OptClosedForm | source/dnn/dlmath.hpp:205-231 | softmax_1_opt's result is s_i (1 - Σ_j s_j) in every entry |
| DLMath.Softmax1 | source/dnn/dlmath.hpp:243-251 | dst[..length] == softmax_1_opt(softmax(old src[..length])) via a scratch buffer, so src may be dst; the rest unchanged |
| DLMath.Softmax1OfSoftmaxVanishes | source/dnn/dlmath.hpp:243-251 | on a softmax output softmax_1_opt is the zero vector |
| DLMath.ReluDerivativeFromOutput | source/dnn/dense.cpp:162-169 | relu(x) == relu'(x) * x, and relu'(relu(x)) == relu'(x): the derivative may be read off relu's output |
| DLMath.MatTVecAdjoint | source/dnn/dense.cpp:231-248 | the input-gradient product is the adjoint of the forward product: ⟨Wᵀ g, v⟩ == ⟨g, W v⟩ |
| DLMath.MatTVecExample | source/dnn/dense.cpp:240-248 | [[1, 2], [3, 4]]ᵀ · [1, 0] == [1, 2] |
| Dense.DenseLayer.constructor | source/dnn/dense.cpp:34-56 | weights and weight gradients have output*input entries; biases, activations, activation and bias gradients output entries; input gradients input entries; all buffers fresh, distinct and zero; no last input yet |
| Dense.DenseLayer.Init | source/dnn/dense.cpp:95-109 | the weights become the sampler's draws in storage order and every bias becomes 0.01; only weights and biases change |
| Dense.DenseLayer.Forward | source/dnn/dense.cpp:112-146 | records inputs as the last input; fails exactly when inputs is the layer's own activation buffer, leaving activations unchanged; otherwise activations == g(W x + b) with g the layer's activation (ReLU, softmax, or identity for Linear); nothing else changes |
| Dense.DenseLayer.ComputeActivationDerivative | source/dnn/dense.cpp:157-195 | activationGradients becomes relu' of the activations for ReLU, softmax_1_opt of them for Softmax, all ones for Linear |
| Dense.DeltaRelu | source/dnn/dense.cpp:160-175 | with ReLU, dJ/dz_i is the upstream gradient where activation i is positive and 0 elsewhere |
| Dense.DeltaLinear | source/dnn/dense.cpp:188-199 | with Linear, dJ/dz is the upstream gradient |
| Dense.DeltaSoftmax | source/dnn/dense.cpp:176-199 | with Softmax, dJ/dz_i is s_i (1 - Σ s) times the upstream gradient |
| Dense.ReluDerivativeOfActivations | source/dnn/dense.cpp:162-173 | relu' of the stored activations relu(z) equals relu' of z |
| Dense.SoftmaxDeltaVanishes | source/dnn/dense.cpp:176-199 | after a Softmax forward pass, the dJ/dz of reverse is zero for every upstream gradient |
| Dense.SoftmaxDeltaCounterexample | source/dnn/dense.cpp:182-185 | for every positive exp, softmax of [0, 0] is [0.5, 0.5]; with upstream [1, 0] reverse's dJ/dz is [0, 0] while the chain rule gives [0.25, -0.25] |
| Dense.JacobianColumnSplit | source/dnn/dlmath.hpp:208-209 | column j of the softmax Jacobian, with the entries s_i (1 - s_i) and -s_i s_j that softmax_1_opt's comment gives, is s_j at row j and 0 elsewhere, minus s_j s_i in every row i |
| Dense.SoftmaxBackwardAt | source/dnn/dense.cpp:197-199 | entry j of the corrected dJ/dz, s_j (u_j - Σ_i s_i u_i), equals column j of the softmax Jacobian dotted with the upstream gradient |
| Dense.SoftmaxBackwardIsChainRule | source/dnn/dense.cpp:197-199 | the intended dJ/dz of a Softmax layer, s_j (u_j - Σ_i s_i u_i), equals, in every entry j, column j of the softmax Jacobian dotted with the upstream gradient: the transposed Jacobian times the upstream gradient, as the chain rule of line 197 demands |
| Dense.OuterAt | source/dnn/dense.cpp:226-227 | entry i*in+j of the accumulated weight gradient is the old entry plus ag[i] * x[j] |
| Dense.AddScaledIntoSlice | source/dnn/dense.cpp:224-228 | one row of the weight-gradient loop: dst[offset+j] gains c * src[j] for j < n, every other entry unchanged |
| Dense.OuterRowStep | source/dnn/dense.cpp:222-229 | one outer iteration of the weight-gradient loop extends the accumulated prefix by one row and leaves the later rows as they were |
| Dense.AccumulateOuterInto | source/dnn/dense.cpp:222-229 | wg becomes the old wg plus the outer product d xᵀ of the first rows entries of d and cols entries of x, entry by entry |
| Dense.DenseLayer.AccumulateWeightGradients | source/dnn/dense.cpp:222-229 | weightGradients[i*in+j] == old value + ag[i] * lastInput[j] for every i, j: an accumulation, not an overwrite |
| Dense.AddScaledSlice | source/dnn/dense.cpp:243-247 | one row of the input-gradient loop: dst[..n] gains c times src[offset..offset+n], the rest unchanged |
| Dense.InputGradientStep | source/dnn/dense.cpp:241-248 | adding ag[i] times row i of W to the transposed product over i rows gives the product over i + 1 rows |
| Dense.MatTVecInto | source/dnn/dense.cpp:231-248 | dst becomes mᵀ g for the rows x cols matrix m, whatever it held before; m and g are not written |
| Dense.DenseLayer.ComputeInputGradients | source/dnn/dense.cpp:240-248 | inputGradients == Wᵀ ag, that is ig[j] == Σ_i ag[i] * W[i*in+j], whatever it held before |
| Dense.DenseLayer.Reverse | source/dnn/dense.cpp:155-249 | weights, biases and activations unchanged; ag == dg/dz ⊙ upstream; bg == old bg + ag; wg == old wg + ag xᵀ with x the last input; ig == Wᵀ ag |
| Dense.DenseLayer.Param | source/dnn/dense.cpp:256-263 | parameter k is weights[k] for k below the number of weights and biases[k minus that number] otherwise, always in range |
| Dense.DenseLayer.Gradient | source/dnn/dense.cpp:265-272 | gradient k is weightGradients[k] for k below the number of weights and biasGradients[k minus that number] otherwise, always in range |
| Dense.DenseLayer.ParamGradientAligned | source/dnn/dense.cpp:256-272 | parameter k and gradient k sit at the same index of matching buffers (weight with weight gradient, bias with bias gradient) |
| Dense.DenseLayer.SlotsInjective | source/dnn/dense.cpp:256-272 | distinct flat indices give distinct parameter slots and distinct gradient slots |
| Dense.DenseLayer.SlotValues | source/dnn/dense.cpp:256-272 | the value behind slot k is entry k of the flat parameter (resp. gradient) vector |
| Optimizer.GDOptimizer.constructor | source/dnn/gd_optimizer.cpp:29-31 | the optimizer keeps the learning rate it is given |
| Optimizer.GDOptimizer.Step | source/dnn/gd_optimizer.cpp:38-44 | flat parameter i loses η times gradient i, gradient i becomes 0, every other parameter and gradient unchanged |
| Optimizer.TrainedStep | source/dnn/gd_optimizer.cpp:36-45 | one loop iteration turns the state after i iterations into the state after i + 1 |
| Optimizer.TrainedEnds | source/dnn/gd_optimizer.cpp:36-45 | before the loop nothing has changed; after param_count iterations every parameter is descended and every gradient is zero |
| Optimizer.GDOptimizer.Train | source/dnn/gd_optimizer.cpp:33-46 | for every index below param_count, the parameter becomes old p - η old g and the gradient becomes 0; no other buffer of the layer changes |
| Optimizer.DescendZeroGradient | source/dnn/gd_optimizer.cpp:41-44 | a step with all-zero gradients leaves the parameters unchanged, so a second train right after the first is a no-op on them |

## Left out

- `normal_pdf` is not modelled, nor the `sigma`, `sqrt` and random-engine part of `init` (source/dnn/dlmath.hpp:50-62, source/dnn/dense.cpp:60-98). This is floating-point and pseudo-random code.
- Dense.DenseLayer.Init: takes the sampled weights as a parameter `draws`, one per weight, instead of drawing them.
- `std::exp` is a parameter `exp: real -> real` that is required to be positive. DLMath.Softmax and Dense.DenseLayer.Forward are proved for every such function, not for the real exponential.
- IEEE-754 rounding, infinities and NaN: `NumType` is `real`. The tests of `arr_sum`, `arr_mul` and `matarr_mul` run on `int` (tests/dnn/test_dlmath.cpp:89-90, 101-102, 113-114); the ReLU tests and the `softmax_1_opt` aliasing test run on `NumType` (tests/dnn/test_dlmath.cpp:130, 159, 172). All their values are replayed on `real`.
- Buffers are whole Dafny arrays, so two buffers are either the same array or disjoint. C++ pointers may also overlap in part (say `dst == src + 1`); then `arr_mul`, `arr_sum` and `relu` read entries they have already written, and the `==` checks of `matarr_mul` and `softmax_1_opt` (source/dnn/dlmath.hpp:112, 218) do not fire. Every call in the layer passes the `.data()` of a whole vector, so it never does this.
- Sizes are `nat`. The source stores them as `uint16_t`, and its `output_size * input_size` is computed in `int`, which overflows once the product passes 2^31 - 1. The model does not capture that overflow.
- Forwarding to `_subsequents` and `_antecedents` is left out (source/dnn/dense.cpp:149-152, 250-253). It needs the layer graph owned by a `Model` class, which is not part of this model; the model covers one layer at a time.
- `print` and the constructor's `printf` (source/dnn/dense.cpp:41, 274-294) are console output and are left out.
- The layer's `name` is a constant and the `Model` reference is dropped.
- The abstract `Layer` interface (source/dnn/layer.hpp) is not modelled. The optimizer takes a `DenseLayer`, so the default `param_count` of 0 and the null `param`/`gradient` of other layers are not modelled.
- `DenseLayer::param_count` is declared in a file that is not part of this model. It is taken to be |weights| + |biases|.
- Loss functions and `max`/`argmax` are not part of this model.
- DLMath.MatArrMul: also requires `mat != dst`. The source does not check this, and with `mat == dst` it would overwrite the matrix while reading it.
- Dense.DenseLayer.Reverse: requires a prior `Forward`, because the source reads an unset `_last_input` otherwise. It also requires that the upstream gradient is not the activation-gradient buffer. Finally, it requires that the last input is not one of the activation, weight or bias gradient buffers. The source leaves these aliasings unchecked.
- Dense.DenseLayer.Forward: sets the last input before the product, as the source does, so the last input is recorded even on the aliasing failure. The C++ exception becomes an `AliasingError` result.
- Nine loops or loop bodies of the source are separate methods. None of them has a name in the source:
  - `DLMath.RowTimesVector`: the body of `matarr_mul`'s outer loop, source/dnn/dlmath.hpp:120-124.
  - `DLMath.JacobianRow`: the body of `softmax_1_opt`'s outer loop, source/dnn/dlmath.hpp:226-230.
  - `DLMath.ExpAndSum`: the whole first loop of `softmax`, source/dnn/dlmath.hpp:171-175.
  - `DLMath.ScaleArr`: the whole second loop of `softmax`, source/dnn/dlmath.hpp:181-184.
  - `Dense.AddScaledIntoSlice`: the inner loop of the weight-gradient update in `reverse`, source/dnn/dense.cpp:224-228.
  - `Dense.AddScaledSlice`: the inner loop of the input-gradient update in `reverse`, source/dnn/dense.cpp:243-247.
  - `Dense.AccumulateOuterInto`: the whole weight-gradient update of `reverse`, source/dnn/dense.cpp:222-229, called by `AccumulateWeightGradients`.
  - `Dense.MatTVecInto`: the whole input-gradient update of `reverse`, source/dnn/dense.cpp:231-248, called by `ComputeInputGradients`.
  - `Optimizer.GDOptimizer.Step`: the body of `train`'s loop, source/dnn/gd_optimizer.cpp:38-44.
- Dense.DenseLayer.Reverse: its Softmax branch follows the source as written, so it computes the vanishing dJ/dz described under "## Findings". The corrected `Dense.SoftmaxBackward` is stated and proved beside it but is not used by `Reverse`, because `Reverse` models what the code does.

## Findings

| source | as written | input that shows it | evidently intended | confidence | as-written member | corrected member |
|---|---|---|---|---|---|---|
| source/dnn/dense.cpp:182-185 | the Softmax branch of reverse takes the row sums of the softmax Jacobian (softmax_1_opt) and multiplies them element-wise into the upstream gradient; on a softmax output every row sum is s_i (1 - Σ s) = 0, so dJ/dz is zero and a Softmax layer never learns | z = [0, 0], upstream gradient [1, 0]: reverse gives dJ/dz = [0, 0] | the transposed Jacobian times the upstream gradient, s_j (u_j - Σ_i s_i u_i), which is [0.25, -0.25] here | not executed; exact arithmetic, in doubles the result is rounding noise near 0 | Dense.SoftmaxDeltaVanishes, Dense.SoftmaxDeltaCounterexample | Dense.SoftmaxBackwardIsChainRule |
