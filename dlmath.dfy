/** Numeric kernels of the training engine: element-wise sum and product,
    row-major matrix-vector product, ReLU and its derivative, softmax and the
    softmax-derivative kernel.

    The kernels work in place on buffers with an explicit length, as the
    source does; each one is specified against a function on sequences.
    `NumType` is modelled as `real`, so no rounding happens. */
module DLMath {

  /** The kernels that refuse aliased buffers report it instead of throwing. */
  datatype Outcome = Ok | AliasingError

  // ---------------------------------------------------------------------
  // Index arithmetic of row-major matrices
  // ---------------------------------------------------------------------

  lemma {:induction false} MulMonotone(a: nat, b: nat, c: nat)
    requires a <= b
    ensures a * c <= b * c
  {
  }

  /** Entry (i, j) of a rows x cols row-major matrix lies inside it. */
  lemma {:induction false} FlatIndexBound(i: nat, j: nat, rows: nat, cols: nat)
    requires i < rows && j <= cols
    ensures i * cols + j <= rows * cols
    ensures j < cols ==> i * cols + j < rows * cols
  {
    MulMonotone(i + 1, rows, cols);
  }

  // ---------------------------------------------------------------------
  // Specification functions
  // ---------------------------------------------------------------------

  /** Σ_{k<n} s[k], summed left to right as the source's loops do. */
  function SumUpTo(s: seq<real>, n: nat): real
    requires n <= |s|
  {
    if n == 0 then 0.0 else SumUpTo(s, n - 1) + s[n - 1]
  }

  function Sum(s: seq<real>): real
  {
    SumUpTo(s, |s|)
  }

  /** Σ_{k<n} a[k] * b[k]. */
  function DotUpTo(a: seq<real>, b: seq<real>, n: nat): real
    requires n <= |a| && n <= |b|
  {
    if n == 0 then 0.0 else DotUpTo(a, b, n - 1) + a[n - 1] * b[n - 1]
  }

  function Dot(a: seq<real>, b: seq<real>): real
    requires |a| == |b|
  {
    DotUpTo(a, b, |a|)
  }

  function Zeros(n: nat): seq<real>
  {
    seq(n, _ => 0.0)
  }

  /** Element-wise sum of two sequences of equal length. */
  function Add(a: seq<real>, b: seq<real>): (r: seq<real>)
    requires |a| == |b|
    ensures |r| == |a|
  {
    seq(|a|, i requires 0 <= i < |a| => a[i] + b[i])
  }

  /** Element-wise product of two sequences of equal length. */
  function Mul(a: seq<real>, b: seq<real>): (r: seq<real>)
    requires |a| == |b|
    ensures |r| == |a|
  {
    seq(|a|, i requires 0 <= i < |a| => a[i] * b[i])
  }

  /** Row i of the row-major matrix m with cols columns. */
  function Row(m: seq<real>, cols: nat, i: nat): (row: seq<real>)
    requires i * cols + cols <= |m|
    ensures |row| == cols
    ensures forall j :: 0 <= j < cols ==> row[j] == m[i * cols + j]
  {
    m[i * cols .. i * cols + cols]
  }

  /** Every row of ms has cols entries. */
  ghost predicate IsMatrix(ms: seq<seq<real>>, cols: nat)
  {
    forall i :: 0 <= i < |ms| ==> |ms[i]| == cols
  }

  /** The first rows rows of the row-major matrix m, as a sequence of rows. */
  function Rows(m: seq<real>, rows: nat, cols: nat): (ms: seq<seq<real>>)
    requires rows * cols <= |m|
    ensures |ms| == rows && IsMatrix(ms, cols)
  {
    seq(rows, i requires 0 <= i < rows => FlatIndexBound(i, cols, rows, cols); Row(m, cols, i))
  }

  /** Entry (i, j) of Rows(m, rows, cols) is the flat entry i * cols + j. */
  lemma RowsAt(m: seq<real>, rows: nat, cols: nat, i: nat, j: nat)
    requires rows * cols <= |m| && i < rows && j < cols
    ensures i * cols + j < |m| && Rows(m, rows, cols)[i][j] == m[i * cols + j]
  {
    FlatIndexBound(i, cols, rows, cols);
  }

  /** The matrix ms times x: entry i is row i's dot product with x. */
  function MatVecRows(ms: seq<seq<real>>, x: seq<real>, cols: nat): (r: seq<real>)
    requires IsMatrix(ms, cols) && cols <= |x|
    ensures |r| == |ms|
  {
    seq(|ms|, i requires 0 <= i < |ms| => DotUpTo(ms[i], x, cols))
  }

  /** Σ_{i<r} g[i] * ms[i][j]: column j of ms weighted by g, over its first
      r rows. */
  function ColDotUpTo(ms: seq<seq<real>>, g: seq<real>, cols: nat, j: nat, r: nat): real
    requires IsMatrix(ms, cols) && j < cols && r <= |ms| && r <= |g|
  {
    if r == 0 then 0.0 else ColDotUpTo(ms, g, cols, j, r - 1) + g[r - 1] * ms[r - 1][j]
  }

  /** The transpose of the first r rows of ms times g. */
  function MatTVecUpTo(ms: seq<seq<real>>, g: seq<real>, cols: nat, r: nat): (t: seq<real>)
    requires IsMatrix(ms, cols) && r <= |ms| && r <= |g|
    ensures |t| == cols
  {
    seq(cols, j requires 0 <= j < cols => ColDotUpTo(ms, g, cols, j, r))
  }

  /** One more row adds its entries, weighted by g, to every column sum. */
  lemma MatTVecUpToStep(ms: seq<seq<real>>, g: seq<real>, cols: nat, r: nat)
    requires IsMatrix(ms, cols) && r < |ms| && r < |g|
    ensures MatTVecUpTo(ms, g, cols, r + 1) == Add(MatTVecUpTo(ms, g, cols, r), Scale(ms[r], g[r]))
  {
    assert forall j :: 0 <= j < cols ==>
      MatTVecUpTo(ms, g, cols, r + 1)[j] == Add(MatTVecUpTo(ms, g, cols, r), Scale(ms[r], g[r]))[j];
  }

  /** The product of the rows x cols row-major matrix m with x. */
  function MatVec(m: seq<real>, x: seq<real>, rows: nat, cols: nat): (r: seq<real>)
    requires rows * cols <= |m| && cols <= |x|
    ensures |r| == rows
  {
    MatVecRows(Rows(m, rows, cols), x, cols)
  }

  /** The product of the transpose of the rows x cols row-major matrix m
      with g. */
  function MatTVec(m: seq<real>, g: seq<real>, rows: nat, cols: nat): (r: seq<real>)
    requires rows <= |g| && rows * cols <= |m|
    ensures |r| == cols
  {
    MatTVecUpTo(Rows(m, rows, cols), g, cols, rows)
  }

  /** relu(x) = max(x, 0). */
  function Relu(x: real): (r: real)
    ensures r >= 0.0 && r >= x
    ensures r == x || r == 0.0
  {
    if x < 0.0 then 0.0 else x
  }

  /** The derivative of ReLU, taken to be 0 at 0. */
  function Relu1At(x: real): (r: real)
    ensures r == 1.0 <==> x > 0.0
    ensures r == 0.0 <==> x <= 0.0
  {
    if x > 0.0 then 1.0 else 0.0
  }

  function ReluOf(z: seq<real>): (r: seq<real>)
    ensures |r| == |z|
  {
    seq(|z|, i requires 0 <= i < |z| => Relu(z[i]))
  }

  function Relu1Of(z: seq<real>): (r: seq<real>)
    ensures |r| == |z|
  {
    seq(|z|, i requires 0 <= i < |z| => Relu1At(z[i]))
  }

  /** exp applied to every element; exp stands for std::exp. */
  function Exps(z: seq<real>, exp: real -> real): (e: seq<real>)
    ensures |e| == |z|
  {
    seq(|z|, i requires 0 <= i < |z| => exp(z[i]))
  }

  lemma {:induction false} ExpsPositive(z: seq<real>, exp: real -> real)
    requires forall x :: exp(x) > 0.0
    ensures forall k :: 0 <= k < |z| ==> Exps(z, exp)[k] > 0.0
  {
    forall k | 0 <= k < |z|
      ensures Exps(z, exp)[k] > 0.0
    {
      var y := z[k];
      assert exp(y) > 0.0;
      assert Exps(z, exp)[k] == exp(y);
    }
  }

  /** Σ_j exp(z_j): positive when z is not empty. */
  function SumOfExps(z: seq<real>, exp: real -> real): (s: real)
    requires forall x :: exp(x) > 0.0
    ensures |z| > 0 ==> s > 0.0
  {
    ExpsPositive(z, exp);
    SumPositive(Exps(z, exp), |z|);
    Sum(Exps(z, exp))
  }

  /** Every element of e multiplied by c. */
  function Scale(e: seq<real>, c: real): (r: seq<real>)
    ensures |r| == |e|
  {
    seq(|e|, i requires 0 <= i < |e| => e[i] * c)
  }

  /** softmax(z)_i = exp(z_i) * (1 / Σ_j exp(z_j)). */
  function SoftmaxOf(z: seq<real>, exp: real -> real): (r: seq<real>)
    requires forall x :: exp(x) > 0.0
    ensures |r| == |z|
  {
    if |z| == 0 then [] else Scale(Exps(z, exp), 1.0 / SumOfExps(z, exp))
  }

  /** Σ_{j<n} (s_i (1 - s_i) if i == j else -s_i s_j): what softmax_1_opt
      accumulates into dst[i] after n inner iterations. */
  function JacobianRowSum(s: seq<real>, i: nat, n: nat): real
    requires i < |s| && n <= |s|
  {
    if n == 0 then 0.0
    else JacobianRowSum(s, i, n - 1)
         + (if i == n - 1 then s[i] * (1.0 - s[i]) else -s[i] * s[n - 1])
  }

  /** The result of softmax_1_opt on the softmax outputs s. */
  function Softmax1OptOf(s: seq<real>): (r: seq<real>)
    ensures |r| == |s|
  {
    seq(|s|, i requires 0 <= i < |s| => JacobianRowSum(s, i, |s|))
  }

  // ---------------------------------------------------------------------
  // Lemmas about the specification functions
  // ---------------------------------------------------------------------

  lemma {:induction false} SumPositive(s: seq<real>, n: nat)
    requires n <= |s|
    requires forall k :: 0 <= k < |s| ==> s[k] > 0.0
    ensures n == 0 ==> SumUpTo(s, n) == 0.0
    ensures n > 0 ==> SumUpTo(s, n) > 0.0
  {
    if n > 0 {
      SumPositive(s, n - 1);
    }
  }

  lemma {:induction false} SumScaled(e: seq<real>, c: real, r: seq<real>, n: nat)
    requires |r| == |e| && n <= |e|
    requires forall k :: 0 <= k < |e| ==> r[k] == e[k] * c
    ensures SumUpTo(r, n) == c * SumUpTo(e, n)
  {
    if n > 0 {
      SumScaled(e, c, r, n - 1);
    }
  }

  /** Softmax outputs are positive and sum to one. */
  lemma {:induction false} SoftmaxSumsToOne(z: seq<real>, exp: real -> real)
    requires forall x :: exp(x) > 0.0
    requires |z| > 0
    ensures Sum(SoftmaxOf(z, exp)) == 1.0
    ensures forall i :: 0 <= i < |z| ==> SoftmaxOf(z, exp)[i] > 0.0
  {
    var e := Exps(z, exp);
    var s := SumOfExps(z, exp);
    ExpsPositive(z, exp);
    SumScaled(e, 1.0 / s, SoftmaxOf(z, exp), |e|);
    forall i | 0 <= i < |z|
      ensures SoftmaxOf(z, exp)[i] > 0.0
    {
      assert SoftmaxOf(z, exp)[i] == e[i] * (1.0 / s);
    }
  }

  lemma {:induction false} JacobianRowSumClosedForm(s: seq<real>, i: nat, n: nat)
    requires i < |s| && n <= |s|
    ensures JacobianRowSum(s, i, n)
            == (if i < n then s[i] else 0.0) - s[i] * SumUpTo(s, n)
  {
    if n > 0 {
      JacobianRowSumClosedForm(s, i, n - 1);
    }
  }

  /** The row sums of the softmax Jacobian collapse to s_i (1 - Σ_j s_j). */
  lemma {:induction false} Softmax1OptClosedForm(s: seq<real>)
    ensures forall i :: 0 <= i < |s| ==> Softmax1OptOf(s)[i] == s[i] * (1.0 - Sum(s))
  {
    forall i | 0 <= i < |s|
      ensures Softmax1OptOf(s)[i] == s[i] * (1.0 - Sum(s))
    {
      var t := Sum(s);
      JacobianRowSumClosedForm(s, i, |s|);
      assert Softmax1OptOf(s)[i] == s[i] - s[i] * t;
      assert s[i] * (1.0 - t) == s[i] - s[i] * t;
    }
  }

  /** On a genuine softmax output softmax_1_opt yields zero everywhere. */
  lemma {:induction false} Softmax1OfSoftmaxVanishes(z: seq<real>, exp: real -> real)
    requires forall x :: exp(x) > 0.0
    ensures Softmax1OptOf(SoftmaxOf(z, exp)) == Zeros(|z|)
  {
    var s := SoftmaxOf(z, exp);
    if |z| > 0 {
      SoftmaxSumsToOne(z, exp);
    }
    Softmax1OptClosedForm(s);
  }

  /** ReLU is the identity scaled by its derivative, and the derivative may
      be read off the ReLU output instead of its input. */
  lemma ReluDerivativeFromOutput(x: real)
    ensures Relu(x) == Relu1At(x) * x
    ensures Relu1At(Relu(x)) == Relu1At(x)
  {
  }

  /** MatVec and MatTVec are adjoint: <Mᵀ g, v> == <g, M v>. */
  lemma {:induction false} MatTVecAdjoint(m: seq<real>, g: seq<real>, v: seq<real>, rows: nat, cols: nat)
    requires rows * cols <= |m| && |g| == rows && |v| == cols
    ensures Dot(MatTVec(m, g, rows, cols), v) == Dot(g, MatVec(m, v, rows, cols))
  {
    AdjointUpTo(Rows(m, rows, cols), g, v, cols, rows);
  }

  /** The adjoint identity restricted to the first r rows of ms. */
  lemma {:induction false} AdjointUpTo(ms: seq<seq<real>>, g: seq<real>, v: seq<real>, cols: nat, r: nat)
    requires IsMatrix(ms, cols) && |g| == |ms| && |v| == cols && r <= |ms|
    ensures DotUpTo(MatTVecUpTo(ms, g, cols, r), v, cols)
            == DotUpTo(g, MatVecRows(ms, v, cols), r)
  {
    if r == 0 {
      ZeroDot(MatTVecUpTo(ms, g, cols, 0), v, cols);
    } else {
      AdjointUpTo(ms, g, v, cols, r - 1);
      AdjointStep(ms, g, v, cols, r);
    }
  }

  lemma {:induction false} ZeroDot(a: seq<real>, b: seq<real>, n: nat)
    requires n <= |a| && n <= |b|
    requires forall k :: 0 <= k < |a| ==> a[k] == 0.0
    ensures DotUpTo(a, b, n) == 0.0
  {
    if n > 0 {
      ZeroDot(a, b, n - 1);
    }
  }

  /** Adding row r - 1 adds g[r - 1] times that row's product with v. */
  lemma {:induction false} AdjointStep(ms: seq<seq<real>>, g: seq<real>, v: seq<real>, cols: nat, r: nat)
    requires IsMatrix(ms, cols) && 0 < r <= |ms| && r <= |g| && cols <= |v|
    ensures DotUpTo(MatTVecUpTo(ms, g, cols, r), v, cols)
            == DotUpTo(MatTVecUpTo(ms, g, cols, r - 1), v, cols) + g[r - 1] * DotUpTo(ms[r - 1], v, cols)
  {
    var a := MatTVecUpTo(ms, g, cols, r);
    var b := MatTVecUpTo(ms, g, cols, r - 1);
    assert forall j :: 0 <= j < cols ==> a[j] == b[j] + g[r - 1] * ms[r - 1][j];
    DotLinear(a, b, ms[r - 1], v, g[r - 1], cols);
  }

  /** The dot product is linear in its first argument. */
  lemma {:induction false} DotLinear(a: seq<real>, b: seq<real>, c: seq<real>, v: seq<real>, k: real, n: nat)
    requires n <= |a| && n <= |b| && n <= |c| && n <= |v|
    requires forall j :: 0 <= j < n ==> a[j] == b[j] + k * c[j]
    ensures DotUpTo(a, v, n) == DotUpTo(b, v, n) + k * DotUpTo(c, v, n)
  {
    if n > 0 {
      DotLinear(a, b, c, v, k, n - 1);
      DotLinearStep(a[n - 1], b[n - 1], c[n - 1], v[n - 1], k,
                    DotUpTo(a, v, n - 1), DotUpTo(b, v, n - 1), DotUpTo(c, v, n - 1));
    }
  }

  lemma DotLinearStep(an: real, bn: real, cn: real, vn: real, k: real, da: real, db: real, dc: real)
    requires an == bn + k * cn && da == db + k * dc
    ensures da + an * vn == (db + bn * vn) + k * (dc + cn * vn)
  {
  }

  /** [[1, 2], [3, 4]] · [1, 2] == [5, 11]. */
  lemma MatVecExample()
    ensures MatVec([1.0, 2.0, 3.0, 4.0], [1.0, 2.0], 2, 2) == [5.0, 11.0]
  {
    var m, x := [1.0, 2.0, 3.0, 4.0], [1.0, 2.0];
    assert Row(m, 2, 0) == [1.0, 2.0] && Row(m, 2, 1) == [3.0, 4.0];
    assert Rows(m, 2, 2) == [Row(m, 2, 0), Row(m, 2, 1)];
    assert DotUpTo([1.0, 2.0], x, 2) == 5.0 by {
      assert DotUpTo([1.0, 2.0], x, 1) == 1.0;
    }
    assert DotUpTo([3.0, 4.0], x, 2) == 11.0 by {
      assert DotUpTo([3.0, 4.0], x, 1) == 3.0;
    }
  }

  /** [[1, 2], [3, 4]]ᵀ · [1, 0] == [1, 2]. */
  lemma MatTVecExample()
    ensures MatTVec([1.0, 2.0, 3.0, 4.0], [1.0, 0.0], 2, 2) == [1.0, 2.0]
  {
    var m, g := [1.0, 2.0, 3.0, 4.0], [1.0, 0.0];
    var ms := Rows(m, 2, 2);
    assert Row(m, 2, 0) == [1.0, 2.0] && Row(m, 2, 1) == [3.0, 4.0];
    assert ms == [[1.0, 2.0], [3.0, 4.0]];
    assert ColDotUpTo(ms, g, 2, 0, 2) == 1.0 by {
      assert ColDotUpTo(ms, g, 2, 0, 1) == 1.0;
    }
    assert ColDotUpTo(ms, g, 2, 1, 2) == 2.0 by {
      assert ColDotUpTo(ms, g, 2, 1, 1) == 2.0;
    }
  }

  // ---------------------------------------------------------------------
  // Kernels
  // ---------------------------------------------------------------------

  /** dst[i] = src1[i] * src2[i] for i < length; dst may be src1 or src2. */
  method ArrMul(dst: array<real>, src1: array<real>, src2: array<real>, length: nat)
    requires length <= dst.Length && length <= src1.Length && length <= src2.Length
    modifies dst
    ensures forall i :: 0 <= i < length ==> dst[i] == old(src1[i]) * old(src2[i])
    ensures forall i :: length <= i < dst.Length ==> dst[i] == old(dst[i])
    ensures dst[..length] == Mul(old(src1[..length]), old(src2[..length]))
  {
    for i := 0 to length
      invariant forall k :: 0 <= k < i ==> dst[k] == old(src1[k]) * old(src2[k])
      invariant forall k :: i <= k < dst.Length ==> dst[k] == old(dst[k])
    {
      dst[i] := src1[i] * src2[i];
    }
    assert forall k :: 0 <= k < length ==> dst[..length][k] == Mul(old(src1[..length]), old(src2[..length]))[k];
  }

  /** dst[i] = src1[i] + src2[i] for i < length; dst may be src1 or src2. */
  method ArrSum(dst: array<real>, src1: array<real>, src2: array<real>, length: nat)
    requires length <= dst.Length && length <= src1.Length && length <= src2.Length
    modifies dst
    ensures forall i :: 0 <= i < length ==> dst[i] == old(src1[i]) + old(src2[i])
    ensures forall i :: length <= i < dst.Length ==> dst[i] == old(dst[i])
    ensures dst[..length] == Add(old(src1[..length]), old(src2[..length]))
  {
    for i := 0 to length
      invariant forall k :: 0 <= k < i ==> dst[k] == old(src1[k]) + old(src2[k])
      invariant forall k :: i <= k < dst.Length ==> dst[k] == old(dst[k])
    {
      dst[i] := src1[i] + src2[i];
    }
  }

  /** dst = mat · src for a rows x cols row-major mat; refuses dst == src. */
  method MatArrMul(dst: array<real>, mat: array<real>, src: array<real>, rows: nat, cols: nat)
    returns (r: Outcome)
    requires rows <= dst.Length && rows * cols <= mat.Length && cols <= src.Length
    requires mat != dst
    modifies dst
    ensures r == AliasingError <==> src == dst
    ensures r == AliasingError ==> dst[..] == old(dst[..])
    ensures r == Ok ==> dst[..rows] == MatVec(old(mat[..]), old(src[..]), rows, cols)
    ensures r == Ok ==> forall i :: rows <= i < dst.Length ==> dst[i] == old(dst[i])
  {
    if src == dst {
      return AliasingError;
    }
    ghost var m, x := mat[..], src[..];
    for i := 0 to rows
      invariant mat[..] == m && src[..] == x
      invariant forall k :: 0 <= k < i ==> dst[k] == MatVec(m, x, rows, cols)[k]
      invariant forall k :: rows <= k < dst.Length ==> dst[k] == old(dst[k])
    {
      RowTimesVector(dst, mat, src, rows, cols, i);
    }
    return Ok;
  }

  /** The body of matarr_mul's outer loop: dst[i] = row i of mat times src. */
  method RowTimesVector(dst: array<real>, mat: array<real>, src: array<real>, rows: nat, cols: nat, i: nat)
    requires i < rows <= dst.Length && rows * cols <= mat.Length && cols <= src.Length
    requires mat != dst && src != dst
    modifies dst
    ensures dst[i] == MatVec(mat[..], src[..], rows, cols)[i]
    ensures forall k :: 0 <= k < dst.Length && k != i ==> dst[k] == old(dst[k])
  {
    ghost var row := Rows(mat[..], rows, cols)[i];
    dst[i] := 0.0;
    for j := 0 to cols
      invariant dst[i] == DotUpTo(row, src[..], j)
      invariant forall k :: 0 <= k < dst.Length && k != i ==> dst[k] == old(dst[k])
    {
      RowsAt(mat[..], rows, cols, i, j);
      dst[i] := dst[i] + mat[i * cols + j] * src[j];
    }
  }

  /** dst[i] = relu(src[i]) for i < length; works in place. */
  method ReluArr(dst: array<real>, src: array<real>, length: nat)
    requires length <= dst.Length && length <= src.Length
    modifies dst
    ensures forall i :: 0 <= i < length ==> dst[i] == Relu(old(src[i]))
    ensures forall i :: length <= i < dst.Length ==> dst[i] == old(dst[i])
    ensures dst[..length] == ReluOf(old(src[..length]))
  {
    for i := 0 to length
      invariant forall k :: 0 <= k < i ==> dst[k] == Relu(old(src[k]))
      invariant forall k :: i <= k < dst.Length ==> dst[k] == old(dst[k])
    {
      dst[i] := Relu(src[i]);
    }
  }

  /** dst[i] = 1 if src[i] > 0 else 0, for i < length; works in place. */
  method Relu1(dst: array<real>, src: array<real>, length: nat)
    requires length <= dst.Length && length <= src.Length
    modifies dst
    ensures forall i :: 0 <= i < length ==> dst[i] == Relu1At(old(src[i]))
    ensures forall i :: length <= i < dst.Length ==> dst[i] == old(dst[i])
    ensures dst[..length] == Relu1Of(old(src[..length]))
  {
    for i := 0 to length
      invariant forall k :: 0 <= k < i ==> dst[k] == Relu1At(old(src[k]))
      invariant forall k :: i <= k < dst.Length ==> dst[k] == old(dst[k])
    {
      dst[i] := if src[i] > 0.0 then 1.0 else 0.0;
    }
  }

  /** The first loop of softmax: dst[i] = exp(src[i]) for i < length, and
      the sum of those values; works in place. */
  method ExpAndSum(dst: array<real>, src: array<real>, length: nat, exp: real -> real)
    returns (sum: real)
    requires length <= dst.Length && length <= src.Length
    modifies dst
    ensures dst[..length] == Exps(old(src[..length]), exp)
    ensures dst[length..] == old(dst[length..])
    ensures sum == Sum(Exps(old(src[..length]), exp))
  {
    ghost var e := Exps(src[..length], exp);
    sum := 0.0;
    for i := 0 to length
      invariant forall k :: 0 <= k < i ==> dst[k] == e[k]
      invariant forall k :: i <= k < length ==> src[k] == old(src[k])
      invariant forall k :: i <= k < dst.Length ==> dst[k] == old(dst[k])
      invariant sum == SumUpTo(e, i)
    {
      dst[i] := exp(src[i]);
      sum := sum + dst[i];
    }
    assert dst[..length] == e;
  }

  /** dst = softmax(src) over the first length elements; works in place. */
  method Softmax(dst: array<real>, src: array<real>, length: nat, exp: real -> real)
    requires length <= dst.Length && length <= src.Length
    requires forall x :: exp(x) > 0.0
    modifies dst
    ensures dst[..length] == SoftmaxOf(old(src[..length]), exp)
    ensures dst[length..] == old(dst[length..])
  {
    ghost var z := src[..length];
    var sum := ExpAndSum(dst, src, length, exp);
    if length > 0 {
      assert sum == SumOfExps(z, exp);
      ScaleArr(dst, length, 1.0 / sum);
    }
  }

  /** The second loop of softmax: dst[i] *= c for i < length. */
  method ScaleArr(dst: array<real>, length: nat, c: real)
    requires length <= dst.Length
    modifies dst
    ensures dst[..length] == Scale(old(dst[..length]), c)
    ensures dst[length..] == old(dst[length..])
  {
    ghost var e := dst[..length];
    for i := 0 to length
      invariant forall k :: 0 <= k < i ==> dst[k] == e[k] * c
      invariant forall k :: i <= k < dst.Length ==> dst[k] == old(dst[k])
    {
      dst[i] := dst[i] * c;
    }
    assert forall k :: 0 <= k < length ==> dst[..length][k] == Scale(e, c)[k];
  }

  /** dst[i] = Σ_j (s_i (1 - s_i) if i == j else -s_i s_j) with s = src, for
      i < length; refuses src == dst. */
  method Softmax1Opt(dst: array<real>, src: array<real>, length: nat) returns (r: Outcome)
    requires length <= dst.Length && length <= src.Length
    modifies dst
    ensures r == AliasingError <==> src == dst
    ensures r == AliasingError ==> dst[..] == old(dst[..])
    ensures r == Ok ==> dst[..length] == Softmax1OptOf(old(src[..length]))
    ensures r == Ok ==> dst[length..] == old(dst[length..])
  {
    if src == dst {
      return AliasingError;
    }
    ghost var s := src[..length];
    for i := 0 to length
      invariant src[..length] == s
      invariant forall k :: 0 <= k < i ==> dst[k] == JacobianRowSum(s, k, length)
      invariant forall k :: length <= k < dst.Length ==> dst[k] == old(dst[k])
    {
      JacobianRow(dst, src, length, i);
    }
    return Ok;
  }

  /** The body of softmax_1_opt's outer loop: dst[i] = Σ_j ∂s_i/∂z_j. */
  method JacobianRow(dst: array<real>, src: array<real>, length: nat, i: nat)
    requires i < length <= dst.Length && length <= src.Length && src != dst
    modifies dst
    ensures dst[i] == JacobianRowSum(src[..length], i, length)
    ensures forall k :: 0 <= k < dst.Length && k != i ==> dst[k] == old(dst[k])
  {
    ghost var s := src[..length];
    dst[i] := 0.0;
    for j := 0 to length
      invariant dst[i] == JacobianRowSum(s, i, j)
      invariant forall k :: 0 <= k < dst.Length && k != i ==> dst[k] == old(dst[k])
    {
      assert src[i] == s[i] && src[j] == s[j];
      dst[i] := dst[i] + (if i == j then src[i] * (1.0 - src[i]) else -src[i] * src[j]);
    }
  }

  /** Softmax derivative from raw inputs: softmax into a scratch buffer, then
      softmax_1_opt; src may be dst. */
  method Softmax1(dst: array<real>, src: array<real>, length: nat, exp: real -> real)
    requires length <= dst.Length && length <= src.Length
    requires forall x :: exp(x) > 0.0
    modifies dst
    ensures dst[..length] == Softmax1OptOf(SoftmaxOf(old(src[..length]), exp))
    ensures dst[length..] == old(dst[length..])
  {
    var tmp := new real[length];
    Softmax(tmp, src, length, exp);
    assert tmp[..length] == tmp[..];
    var r := Softmax1Opt(dst, tmp, length);
    assert r == Ok;
  }

  // ---------------------------------------------------------------------
  // Worked examples (the values of the kernel unit tests)
  // ---------------------------------------------------------------------

  method ElementwiseExamples()
  {
    var a := new real[] [5.0, 4.0, 3.0, 2.0, 1.0];
    var b := new real[] [1.0, 2.0, 3.0, 4.0, 5.0];
    ArrSum(a, a, b, 5);
    assert a[..] == [6.0, 6.0, 6.0, 6.0, 6.0];

    var c := new real[] [5.0, 4.0, 3.0, 2.0, 1.0];
    ArrMul(c, c, b, 5);
    assert c[..] == [5.0, 8.0, 9.0, 8.0, 5.0];
  }

  method MatArrMulExamples()
  {
    var mat := new real[] [1.0, 2.0, 3.0, 4.0];
    var vec := new real[] [1.0, 2.0];
    var r := MatArrMul(vec, mat, vec, 2, 2);
    assert r == AliasingError && vec[..] == [1.0, 2.0];
    var res := new real[2];
    assert mat[..] == [1.0, 2.0, 3.0, 4.0];
    r := MatArrMul(res, mat, vec, 2, 2);
    assert r == Ok;
    MatVecExample();
    assert res[..] == res[..2] == [5.0, 11.0];
  }

  method ReluExamples()
  {
    var z := new real[] [-2.0, -1.0, 0.0, 1.0, 2.0];
    ReluArr(z, z, 5);
    assert z[..] == [0.0, 0.0, 0.0, 1.0, 2.0];

    var d := new real[] [-2.0, -1.0, 0.0, 1.0, 2.0];
    Relu1(d, d, 5);
    assert d[..] == [0.0, 0.0, 0.0, 1.0, 1.0];

    var s := new real[] [-2.0, -1.0, 0.0, 1.0, 2.0];
    var r := Softmax1Opt(s, s, 5);
    assert r == AliasingError;
  }
}
