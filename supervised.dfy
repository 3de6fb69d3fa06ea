/** Linear regression trained by batch gradient descent on the squared error.
    The weight vector has one entry more than the input: index 0 is the intercept,
    index `j + 1` the coefficient of input feature `j`. */
module Supervised {
  import opened Util

  /** The step size `fit` uses. */
  const LearningRate: real := 0.001
  /** The number of batch updates `fit` performs. */
  const Iterations: nat := 100000

  // ---------------------------------------------------------------------------
  // Which samples take part in training

  /** A sample is used for training when it is labelled and its label has the
      model's output dimension. */
  predicate Keeps(p: DataPoint, outputDimensions: nat): (b: bool)
    ensures outputDimensions > 0 ==> (b <==> OutputDimension(p) == outputDimensions)
  {
    p.output.Some? && |p.output.value| == outputDimensions
  }

  /** The samples `fit` keeps, in their original order. */
  function ValidSamples(data: seq<DataPoint>, outputDimensions: nat): (valid: seq<DataPoint>)
    ensures |valid| <= |data|
    ensures forall i :: 0 <= i < |valid| ==> valid[i] in data && Keeps(valid[i], outputDimensions)
    decreases |data|
  {
    if data == [] then []
    else
      var last := data[|data| - 1];
      ValidSamples(data[..|data| - 1], outputDimensions) + (if Keeps(last, outputDimensions) then [last] else [])
  }

  /** No kept sample is dropped: every labelled sample of the right output dimension is in the valid set. */
  lemma {:induction false} ValidSamplesComplete(data: seq<DataPoint>, outputDimensions: nat, p: DataPoint)
    requires p in data && Keeps(p, outputDimensions)
    ensures p in ValidSamples(data, outputDimensions)
    decreases |data|
  {
    var last := data[|data| - 1];
    if p != last {
      assert p in data[..|data| - 1] by {
        var i :| 0 <= i < |data| && data[i] == p;
        assert i < |data| - 1;
        assert data[..|data| - 1][i] == p;
      }
      ValidSamplesComplete(data[..|data| - 1], outputDimensions, p);
    }
  }

  /** The filter keeps the original order: filtering a concatenation filters each part. */
  lemma {:induction false} ValidSamplesAppend(a: seq<DataPoint>, b: seq<DataPoint>, outputDimensions: nat)
    ensures ValidSamples(a + b, outputDimensions) == ValidSamples(a, outputDimensions) + ValidSamples(b, outputDimensions)
    decreases |b|
  {
    if b == [] {
      assert a + b == a;
    } else {
      var last := b[|b| - 1];
      assert (a + b)[..|a + b| - 1] == a + b[..|b| - 1];
      ValidSamplesAppend(a, b[..|b| - 1], outputDimensions);
    }
  }

  /** The filtering loop of `fit`: it pushes every kept sample onto `valid`. */
  method FilterValid(trainingData: seq<DataPoint>, outputDimensions: nat) returns (valid: seq<DataPoint>)
    ensures valid == ValidSamples(trainingData, outputDimensions)
  {
    valid := [];
    for i := 0 to |trainingData|
      invariant valid == ValidSamples(trainingData[..i], outputDimensions)
    {
      assert trainingData[..i + 1][..i] == trainingData[..i];
      var p := trainingData[i];
      if p.output.Some? {
        if |p.output.value| == outputDimensions {
          valid := valid + [p];
        }
      }
    }
    assert trainingData[..|trainingData|] == trainingData;
  }

  // ---------------------------------------------------------------------------
  // The design matrix and the target vector

  /** The first `m` samples each have a design row and a target: the input covers
      the model's input dimension and the label has a first element. */
  predicate UsableUpTo(ps: seq<DataPoint>, inputDimensions: nat, m: nat)
  {
    forall i :: 0 <= i < m && i < |ps| ==>
      |ps[i].input| >= inputDimensions && ps[i].output.Some? && |ps[i].output.value| >= 1
  }

  /** Design matrix: row `i` is a leading 1.0 for the intercept followed by the
      first `inputDimensions` features of sample `i`. */
  function Design(valid: seq<DataPoint>, inputDimensions: nat): (x: seq<seq<real>>)
    requires UsableUpTo(valid, inputDimensions, |valid|)
    ensures IsMatrix(x, |valid|, inputDimensions + 1)
    ensures forall i :: 0 <= i < |valid| ==> x[i][0] == 1.0
    ensures forall i, j :: 0 <= i < |valid| && 0 <= j < inputDimensions ==> x[i][j + 1] == valid[i].input[j]
  {
    seq(|valid|, i requires 0 <= i < |valid| => [1.0] + valid[i].input[..inputDimensions])
  }

  /** Target vector: the first element of each sample's label. */
  function Targets(valid: seq<DataPoint>): (y: seq<real>)
    requires UsableUpTo(valid, 0, |valid|)
    ensures |y| == |valid|
    ensures forall i :: 0 <= i < |valid| ==> y[i] == valid[i].output.value[0]
  {
    seq(|valid|, i requires 0 <= i < |valid| => valid[i].output.value[0])
  }

  /** Fills `x_matrix` and `y_vec` index by index. */
  method BuildDesign(valid: seq<DataPoint>, inputDimensions: nat) returns (x: seq<seq<real>>, y: seq<real>)
    requires UsableUpTo(valid, inputDimensions, |valid|)
    ensures IsMatrix(x, |valid|, inputDimensions + 1) && |y| == |valid|
    ensures forall i :: 0 <= i < |valid| ==> x[i][0] == 1.0
    ensures forall i, j :: 0 <= i < |valid| && 0 <= j < inputDimensions ==> x[i][j + 1] == valid[i].input[j]
    ensures forall i :: 0 <= i < |valid| ==> y[i] == valid[i].output.value[0]
    ensures x == Design(valid, inputDimensions) && y == Targets(valid)
  {
    var n := |valid|;
    x := seq(n, _ => Zeros(inputDimensions + 1));
    y := Zeros(n);
    for i := 0 to n
      invariant IsMatrix(x, n, inputDimensions + 1) && |y| == n
      invariant forall r :: 0 <= r < i ==> x[r] == [1.0] + valid[r].input[..inputDimensions]
      invariant forall r :: 0 <= r < i ==> y[r] == valid[r].output.value[0]
    {
      var row := x[i];
      row := row[0 := 1.0];
      var input := valid[i].input;
      for j := 0 to inputDimensions
        invariant |row| == inputDimensions + 1 && row[0] == 1.0
        invariant forall k :: 0 <= k < j ==> row[k + 1] == input[k]
      {
        row := row[j + 1 := input[j]];
      }
      assert row == [1.0] + input[..inputDimensions];
      x := x[i := row];
      y := y[i := valid[i].output.value[0]];
    }
  }

  // ---------------------------------------------------------------------------
  // One batch gradient-descent step

  /** The prediction residuals `X·w - y`. */
  function Residuals(x: seq<seq<real>>, y: seq<real>, w: seq<real>): (e: seq<real>)
    requires IsMatrix(x, |y|, |w|)
    ensures |e| == |y|
  {
    seq(|y|, i requires 0 <= i < |y| => DotUpTo(x[i], w, |w|) - y[i])
  }

  /** Sum over the first `m` rows of `e[i] * x[i][j]`, in row order. */
  function WeightedSum(e: seq<real>, x: seq<seq<real>>, j: nat, m: nat): (r: real)
    requires m <= |e| && m <= |x|
    requires forall i :: 0 <= i < m ==> j < |x[i]|
    ensures (forall i :: 0 <= i < m ==> x[i][j] == 0.0) ==> r == 0.0
  {
    if m == 0 then 0.0 else WeightedSum(e, x, j, m - 1) + e[m - 1] * x[m - 1][j]
  }

  /** The gradient of half the mean squared error:
      `g[j] = (1/n) * Σ_i (X[i]·w - y[i]) * X[i][j]`. */
  function Gradient(x: seq<seq<real>>, y: seq<real>, w: seq<real>): (g: seq<real>)
    requires |y| > 0 && IsMatrix(x, |y|, |w|)
    ensures |g| == |w|
    ensures (forall i :: 0 <= i < |y| ==> DotUpTo(x[i], w, |w|) == y[i]) ==> forall j :: 0 <= j < |w| ==> g[j] == 0.0
  {
    var e := Residuals(x, y, w);
    ZeroResidualSums(e, x, |w|, |x|);
    seq(|w|, j requires 0 <= j < |w| => (1.0 / (|x| as real)) * WeightedSum(e, x, j, |x|))
  }

  /** One simultaneous batch update: every weight moves against its gradient
      component, and all components come from the weights before the step. */
  function Step(x: seq<seq<real>>, y: seq<real>, w: seq<real>, lr: real): (r: seq<real>)
    requires |y| > 0 && IsMatrix(x, |y|, |w|)
    ensures |r| == |w|
    ensures (forall i :: 0 <= i < |y| ==> DotUpTo(x[i], w, |w|) == y[i]) ==> r == w
  {
    var g := Gradient(x, y, w);
    seq(|w|, j requires 0 <= j < |w| => w[j] - lr * g[j])
  }

  /** Moving every weight against its component of the gradient is one `Step`. */
  lemma UpdateIsStep(x: seq<seq<real>>, y: seq<real>, w: seq<real>, lr: real, gradient: seq<real>, r: seq<real>)
    requires |y| > 0 && IsMatrix(x, |y|, |w|)
    requires gradient == Gradient(x, y, w)
    requires |r| == |w| && forall k :: 0 <= k < |w| ==> r[k] == w[k] - lr * gradient[k]
    ensures r == Step(x, y, w, lr)
  {
    var s := Step(x, y, w, lr);
    assert forall k :: 0 <= k < |w| ==> r[k] == s[k];
  }

  /** The first of `iterations` updates, then the remaining ones. */
  lemma {:induction false} DescendOneStep(x: seq<seq<real>>, y: seq<real>, w: seq<real>, lr: real, iterations: nat, rest: nat)
    requires |y| > 0 && IsMatrix(x, |y|, |w|) && iterations == rest + 1
    ensures Descend(x, y, w, lr, iterations) == Descend(x, y, Step(x, y, w, lr), lr, rest)
  {
    assert iterations - 1 == rest;
  }

  /** `iterations` successive batch updates from `w`. */
  function Descend(x: seq<seq<real>>, y: seq<real>, w: seq<real>, lr: real, iterations: nat): (r: seq<real>)
    requires |y| > 0 && IsMatrix(x, |y|, |w|)
    ensures |r| == |w|
    decreases iterations
  {
    if iterations == 0 then w else Descend(x, y, Step(x, y, w, lr), lr, iterations - 1)
  }

  /** The inner prediction loop shared by `fit` and `eval`: `Σ_{k<m} a[k] * b[k]`. */
  method Dot(a: seq<real>, b: seq<real>, m: nat) returns (sum: real)
    requires m <= |a| && m <= |b|
    ensures sum == DotUpTo(a, b, m)
  {
    sum := 0.0;
    for k := 0 to m
      invariant sum == DotUpTo(a, b, k)
    {
      sum := sum + a[k] * b[k];
    }
  }

  /** The predictions loop of `fit`: `X·w`, row by row. */
  method Predictions(x: seq<seq<real>>, w: seq<real>) returns (predictions: seq<real>)
    requires IsMatrix(x, |x|, |w|)
    ensures |predictions| == |x|
    ensures forall i :: 0 <= i < |x| ==> predictions[i] == DotUpTo(x[i], w, |w|)
  {
    predictions := Zeros(|x|);
    for i := 0 to |x|
      invariant |predictions| == |x|
      invariant forall r :: 0 <= r < i ==> predictions[r] == DotUpTo(x[r], w, |w|)
    {
      var prediction := Dot(x[i], w, |w|);
      predictions := predictions[i := prediction];
    }
  }

  /** The errors loop of `fit`: predictions minus targets. */
  method Errors(predictions: seq<real>, y: seq<real>) returns (errors: seq<real>)
    requires |predictions| == |y|
    ensures |errors| == |y|
    ensures forall i :: 0 <= i < |y| ==> errors[i] == predictions[i] - y[i]
  {
    errors := Zeros(|y|);
    for i := 0 to |y|
      invariant |errors| == |y|
      invariant forall r :: 0 <= r < i ==> errors[r] == predictions[r] - y[r]
    {
      errors := errors[i := predictions[i] - y[i]];
    }
  }

  /** The gradient loop of `fit`: component `k` is `(1/n) * Σ_i errors[i] * X[i][k]`. */
  method GradientOf(x: seq<seq<real>>, errors: seq<real>, cols: nat) returns (gradient: seq<real>)
    requires |x| > 0 && |errors| == |x| && IsMatrix(x, |x|, cols)
    ensures |gradient| == cols
    ensures forall k :: 0 <= k < cols ==> gradient[k] == (1.0 / (|x| as real)) * WeightedSum(errors, x, k, |x|)
  {
    var n := |x|;
    gradient := Zeros(cols);
    for i := 0 to cols
      invariant |gradient| == cols
      invariant forall k :: 0 <= k < i ==> gradient[k] == (1.0 / (n as real)) * WeightedSum(errors, x, k, n)
    {
      var sum := 0.0;
      for j := 0 to n
        invariant sum == WeightedSum(errors, x, i, j)
      {
        sum := sum + errors[j] * x[j][i];
      }
      gradient := gradient[i := 1.0 / (n as real) * sum];
    }
  }

  /** The gradient one iteration of `fit` computes, from the weights before the update. */
  method BatchGradient(x: seq<seq<real>>, y: seq<real>, w: seq<real>) returns (gradient: seq<real>)
    requires |y| > 0 && IsMatrix(x, |y|, |w|)
    ensures gradient == Gradient(x, y, w)
  {
    var predictions := Predictions(x, w);
    var errors := Errors(predictions, y);
    ghost var e := Residuals(x, y, w);
    assert errors == e;
    gradient := GradientOf(x, errors, |w|);
    ghost var g := Gradient(x, y, w);
    assert |gradient| == |g|;
    forall k | 0 <= k < |w|
      ensures gradient[k] == g[k]
    {
    }
  }

  /** Zero residuals make every column's weighted residual sum vanish. */
  lemma {:induction false} ZeroResidualSums(e: seq<real>, x: seq<seq<real>>, cols: nat, m: nat)
    requires m <= |e| && m <= |x|
    requires forall i :: 0 <= i < m ==> cols <= |x[i]|
    ensures (forall i :: 0 <= i < m ==> e[i] == 0.0) ==> forall j :: 0 <= j < cols ==> WeightedSum(e, x, j, m) == 0.0
  {
    if forall i :: 0 <= i < m ==> e[i] == 0.0 {
      forall j | 0 <= j < cols
        ensures WeightedSum(e, x, j, m) == 0.0
      {
        WeightedSumOfZeroResiduals(e, x, j, m);
      }
    }
  }

  /** When the weights already reproduce every target, the weighted residual sums vanish. */
  lemma {:induction false} WeightedSumOfZeroResiduals(e: seq<real>, x: seq<seq<real>>, j: nat, m: nat)
    requires m <= |e| && m <= |x|
    requires forall i :: 0 <= i < m ==> j < |x[i]|
    requires forall i :: 0 <= i < m ==> e[i] == 0.0
    ensures WeightedSum(e, x, j, m) == 0.0
  {
    if m > 0 {
      WeightedSumOfZeroResiduals(e, x, j, m - 1);
    }
  }

  /** An exact fit is a fixed point of gradient descent: if `X·w == y` then any number
      of batch updates leaves `w` as it is. */
  lemma {:induction false} ExactFitIsFixedPoint(x: seq<seq<real>>, y: seq<real>, w: seq<real>, lr: real, iterations: nat)
    requires |y| > 0 && IsMatrix(x, |y|, |w|)
    requires forall i :: 0 <= i < |y| ==> DotUpTo(x[i], w, |w|) == y[i]
    ensures Step(x, y, w, lr) == w
    ensures Descend(x, y, w, lr, iterations) == w
    decreases iterations
  {
    var e := Residuals(x, y, w);
    forall j | 0 <= j < |w|
      ensures Step(x, y, w, lr)[j] == w[j]
    {
      WeightedSumOfZeroResiduals(e, x, j, |x|);
    }
    if iterations > 0 {
      ExactFitIsFixedPoint(x, y, w, lr, iterations - 1);
    }
  }

  // ---------------------------------------------------------------------------
  // Evaluation

  /** The model's prediction for an input: the intercept plus the weighted features. */
  function Predict(w: seq<real>, input: seq<real>): (r: real)
    requires |w| >= 1 && |input| >= |w| - 1
    ensures (forall j :: 0 <= j < |w| - 1 ==> input[j] == 0.0) ==> r == w[0]
  {
    w[0] + DotUpTo(input, w[1..], |w| - 1)
  }

  /** Sum of squared prediction errors over the first `m` points. */
  function SquaredErrorSum(w: seq<real>, points: seq<DataPoint>, m: nat): (s: real)
    requires |w| >= 1 && m <= |points|
    requires UsableUpTo(points, |w| - 1, m)
    ensures s >= 0.0
  {
    if m == 0 then 0.0
    else
      var diff := Predict(w, points[m - 1].input) - points[m - 1].output.value[0];
      SquaredErrorSum(w, points, m - 1) + diff * diff
  }

  /** A design row with its leading 1.0 dotted with the weights is the intercept plus the
      weighted features. */
  lemma {:induction false} DotWithLeadingOne(s: seq<real>, w: seq<real>, m: nat)
    requires m <= |s| && m + 1 <= |w|
    ensures DotUpTo([1.0] + s, w, m + 1) == w[0] + DotUpTo(s, w[1..], m)
  {
    if m > 0 {
      DotWithLeadingOne(s, w, m - 1);
      assert ([1.0] + s)[m] == s[m - 1];
      assert w[1..][m - 1] == w[m];
    }
  }

  /** Dot products over the first `m` entries only look at those entries. */
  lemma {:induction false} DotUpToAgree(a: seq<real>, a2: seq<real>, b: seq<real>, m: nat)
    requires m <= |a| && m <= |a2| && m <= |b|
    requires forall k :: 0 <= k < m ==> a[k] == a2[k]
    ensures DotUpTo(a, b, m) == DotUpTo(a2, b, m)
  {
    if m > 0 {
      DotUpToAgree(a, a2, b, m - 1);
    }
  }

  /** The prediction `fit` makes from design row `i` is the prediction `Predict` makes
      from sample `i`'s input. */
  lemma DesignRowPredicts(valid: seq<DataPoint>, inputDimensions: nat, w: seq<real>, i: nat)
    requires UsableUpTo(valid, inputDimensions, |valid|) && |w| == inputDimensions + 1
    requires i < |valid|
    ensures DotUpTo(Design(valid, inputDimensions)[i], w, |w|) == Predict(w, valid[i].input)
  {
    var input := valid[i].input;
    assert Design(valid, inputDimensions)[i] == [1.0] + input[..inputDimensions];
    DotWithLeadingOne(input[..inputDimensions], w, inputDimensions);
    DotUpToAgree(input[..inputDimensions], input, w[1..], inputDimensions);
  }

  /** The weights fit every kept sample exactly, the premise under which gradient descent
      stands still, if and only if the intended squared error on those samples is zero. */
  lemma ExactFitIffZeroError(valid: seq<DataPoint>, inputDimensions: nat, w: seq<real>)
    requires UsableUpTo(valid, inputDimensions, |valid|) && UsableUpTo(valid, 0, |valid|)
    requires |w| == inputDimensions + 1
    ensures (forall i :: 0 <= i < |valid| ==>
               DotUpTo(Design(valid, inputDimensions)[i], w, |w|) == Targets(valid)[i]) <==>
            SquaredErrorSum(w, valid, |valid|) == 0.0
  {
    forall i | 0 <= i < |valid|
      ensures DotUpTo(Design(valid, inputDimensions)[i], w, |w|) == Predict(w, valid[i].input)
    {
      DesignRowPredicts(valid, inputDimensions, w, i);
    }
    SquaredErrorSumZeroIff(w, valid, |valid|);
  }

  /** The squared error sum is zero exactly when the model predicts every label exactly. */
  lemma {:induction false} SquaredErrorSumZeroIff(w: seq<real>, points: seq<DataPoint>, m: nat)
    requires |w| >= 1 && m <= |points|
    requires UsableUpTo(points, |w| - 1, m)
    ensures SquaredErrorSum(w, points, m) == 0.0 <==>
            forall i :: 0 <= i < m ==> Predict(w, points[i].input) == points[i].output.value[0]
  {
    if m > 0 {
      SquaredErrorSumZeroIff(w, points, m - 1);
      var diff := Predict(w, points[m - 1].input) - points[m - 1].output.value[0];
      AddSquareZero(SquaredErrorSum(w, points, m - 1), diff);
    }
  }

  /** What `eval` computes as written: it visits only the first `inputDimensions` points and
      adds `w[inputDimensions - 1]` as the constant term, rather than the intercept `w[0]`. */
  function SquaredErrorSumAsWritten(w: seq<real>, inputDimensions: nat, points: seq<DataPoint>, m: nat): (s: real)
    requires |w| == inputDimensions + 1 && m <= inputDimensions && m <= |points|
    requires UsableUpTo(points, inputDimensions, m)
    ensures s >= 0.0
  {
    if m == 0 then 0.0
    else
      var p := points[m - 1];
      var diff := DotUpTo(p.input, w[1..], inputDimensions) + w[inputDimensions - 1] - p.output.value[0];
      SquaredErrorSumAsWritten(w, inputDimensions, points, m - 1) + diff * diff
  }

  /** With two features the as-written constant term is the first coefficient, not the intercept:
      a model that predicts both labels exactly is charged an error of 2. */
  lemma EvalConstantTermCounterexample()
    ensures SquaredErrorSumAsWritten([1.0, 0.0, 0.0], 2, ExampleTwoFeatures(), 2) == 2.0
    ensures SquaredErrorSum([1.0, 0.0, 0.0], ExampleTwoFeatures(), 2) == 0.0
  {
  }

  /** With one feature the as-written loop looks at the first point only, so the error of
      the second point is never counted. */
  lemma EvalPointRangeCounterexample()
    ensures SquaredErrorSumAsWritten([0.0, 0.0], 1, ExampleOneFeature(), 1) == 0.0
    ensures SquaredErrorSum([0.0, 0.0], ExampleOneFeature(), 2) == 1.0
  {
  }

  function ExampleTwoFeatures(): seq<DataPoint>
  {
    [DataPoint([0.0, 0.0], Some([1.0])), DataPoint([0.0, 0.0], Some([1.0]))]
  }

  function ExampleOneFeature(): seq<DataPoint>
  {
    [DataPoint([0.0], Some([0.0])), DataPoint([0.0], Some([1.0]))]
  }

  datatype EvalError = EmptyInput | MissingLabel

  datatype EvalResult = Ok(value: real) | Err(error: EvalError)

  // ---------------------------------------------------------------------------
  // The model

  class LinearRegression {
    var inputDimensions: nat
    var outputDimensions: nat
    var weights: seq<real>

    /** One weight per input feature plus the intercept. */
    ghost predicate Valid()
      reads this
    {
      |weights| == inputDimensions + 1
    }

    /** `new_from_dims`: records both dimensions and starts from all-zero weights. */
    constructor FromDims(inputDimensions: nat, outputDimensions: nat)
      ensures Valid()
      ensures this.inputDimensions == inputDimensions && this.outputDimensions == outputDimensions
      ensures weights == Zeros(inputDimensions + 1)
    {
      this.inputDimensions := inputDimensions;
      this.outputDimensions := outputDimensions;
      weights := Zeros(inputDimensions + 1);
    }

    /** `new_from_points`: takes both dimensions from a sample and starts from all-zero weights. */
    constructor FromPoint(p: DataPoint)
      ensures Valid()
      ensures inputDimensions == |p.input| && outputDimensions == OutputDimension(p)
      ensures weights == Zeros(|p.input| + 1)
    {
      inputDimensions := |p.input|;
      outputDimensions := OutputDimension(p);
      weights := Zeros(|p.input| + 1);
    }

    /** `fit`: keeps the labelled samples of the right output dimension; with none left it
        changes nothing, otherwise it runs `Iterations` batch updates at `LearningRate` on
        the design matrix and target vector of those samples. */
    method Fit(trainingData: seq<DataPoint>)
      requires Valid()
      requires forall p :: p in trainingData && Keeps(p, outputDimensions) ==>
                 |p.input| >= inputDimensions && outputDimensions >= 1
      modifies this`weights
      ensures Valid()
      ensures var valid := ValidSamples(trainingData, outputDimensions);
              if valid == [] then weights == old(weights)
              else weights == Descend(Design(valid, inputDimensions), Targets(valid), old(weights), LearningRate, Iterations)
    {
      var valid := FilterValid(trainingData, outputDimensions);
      var n := |valid|;
      if n == 0 {
        return;
      }
      var x, y := BuildDesign(valid, inputDimensions);
      ghost var w0 := weights;
      ghost var left: nat := Iterations;
      for iteration := 0 to Iterations
        invariant |weights| == inputDimensions + 1
        invariant left == Iterations - iteration
        invariant Descend(x, y, w0, LearningRate, Iterations) == Descend(x, y, weights, LearningRate, left)
      {
        var gradient := BatchGradient(x, y, weights);
        ghost var before, beforeLeft := weights, left;
        ApplyGradient(gradient);
        UpdateIsStep(x, y, before, LearningRate, gradient, weights);
        left := left - 1;
        DescendOneStep(x, y, before, LearningRate, beforeLeft, left);
      }
    }

    /** The update loop of `fit`: every weight moves against its gradient component, in place. */
    method ApplyGradient(gradient: seq<real>)
      requires |gradient| == |weights|
      modifies this`weights
      ensures |weights| == |old(weights)|
      ensures forall k :: 0 <= k < |weights| ==> weights[k] == old(weights)[k] - LearningRate * gradient[k]
    {
      ghost var before := weights;
      for i := 0 to |weights|
        invariant |weights| == |before|
        invariant forall k :: 0 <= k < i ==> weights[k] == before[k] - LearningRate * gradient[k]
        invariant forall k :: i <= k < |weights| ==> weights[k] == before[k]
      {
        weights := weights[i := weights[i] - LearningRate * gradient[i]];
      }
    }

    /** `eval` as written: the sum of squared errors over the first `inputDimensions`
        points, with `weights[inputDimensions - 1]` as the constant term. */
    method EvalAsWritten(points: seq<DataPoint>) returns (error: real)
      requires Valid()
      requires |points| >= inputDimensions
      requires UsableUpTo(points, inputDimensions, inputDimensions)
      ensures error >= 0.0
      ensures error == SquaredErrorSumAsWritten(weights, inputDimensions, points, inputDimensions)
    {
      var w, d := weights, inputDimensions;
      error := 0.0;
      for i := 0 to d
        invariant error == SquaredErrorSumAsWritten(w, d, points, i)
      {
        var input, target := points[i].input, points[i].output.value;
        var prediction := Dot(input, w[1..], d);
        prediction := prediction + w[d - 1];
        var diff := prediction - target[0];
        assert SquaredErrorSumAsWritten(w, d, points, i + 1) == error + diff * diff;
        error := error + diff * diff;
      }
    }

    /** `eval` corrected: the sum of squared errors over every point, with the intercept as
        the constant term; an empty input or an unlabelled point is an error. */
    method Eval(points: seq<DataPoint>) returns (r: EvalResult)
      requires Valid()
      requires forall i :: 0 <= i < |points| ==>
                 |points[i].input| >= inputDimensions && (points[i].output.Some? ==> |points[i].output.value| >= 1)
      ensures points == [] ==> r == Err(EmptyInput)
      ensures points != [] && (exists i :: 0 <= i < |points| && points[i].output.None?) ==> r == Err(MissingLabel)
      ensures points != [] && (forall i :: 0 <= i < |points| ==> points[i].output.Some?) ==>
                r == Ok(SquaredErrorSum(weights, points, |points|))
      ensures r.Ok? ==> r.value >= 0.0
    {
      if |points| == 0 {
        return Err(EmptyInput);
      }
      var w, d := weights, inputDimensions;
      var error := 0.0;
      for i := 0 to |points|
        invariant forall k :: 0 <= k < i ==> points[k].output.Some?
        invariant error == SquaredErrorSum(w, points, i)
      {
        if points[i].output.None? {
          return Err(MissingLabel);
        }
        var input, target := points[i].input, points[i].output.value;
        var weighted := Dot(input, w[1..], d);
        var prediction := w[0] + weighted;
        var diff := prediction - target[0];
        error := error + diff * diff;
      }
      r := Ok(error);
    }

    /** `get_coefficients`: the weights without the intercept, one per input feature. */
    function Coefficients(): (c: seq<real>)
      reads this
      requires Valid()
      ensures |c| == inputDimensions
      ensures forall j :: 0 <= j < inputDimensions ==> c[j] == weights[j + 1]
    {
      weights[1..]
    }

    /** `get_intercept`: together with the coefficients it makes up the whole weight vector. */
    function Intercept(): (b: real)
      reads this
      requires Valid()
      ensures [b] + Coefficients() == weights
    {
      weights[0]
    }

    /** `get_dimensions`: the configured dimensions; the input one fixes the weight count. */
    function Dimensions(): (d: (nat, nat))
      reads this
      requires Valid()
      ensures d.0 + 1 == |weights|
      ensures d == (inputDimensions, outputDimensions)
    {
      (inputDimensions, outputDimensions)
    }
  }
}
