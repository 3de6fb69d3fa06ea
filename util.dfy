/** The value types the two learners work on: a `Vector` is a `seq<real>`, a
    `Matrix` is a `seq<seq<real>>` of equal-length rows, and a `DataPoint` pairs an
    input vector with an optional label vector. Every `f64` is a `real`. */
module Util {

  datatype Option<T> = None | Some(value: T)

  /** One training sample: the input vector and, when the sample is labelled, its output vector. */
  datatype DataPoint = DataPoint(input: seq<real>, output: Option<seq<real>>)

  /** The output half of `DataPoint::get_dimension`; an unlabelled point has output dimension 0. */
  function OutputDimension(p: DataPoint): (n: nat)
    ensures n > 0 ==> p.output.Some?
  {
    if p.output.Some? then |p.output.value| else 0
  }

  /** `Vector::new_from_dims(n, 0.0)`. */
  function Zeros(n: nat): (v: seq<real>)
    ensures |v| == n
    ensures forall i :: 0 <= i < n ==> v[i] == 0.0
  {
    seq(n, _ => 0.0)
  }

  /** Elementwise sum of two vectors of the same dimension (`Vector + Vector`). */
  function Add(a: seq<real>, b: seq<real>): (s: seq<real>)
    requires |a| == |b|
    ensures |s| == |a|
    ensures a == Zeros(|a|) ==> s == b
  {
    seq(|a|, i requires 0 <= i < |a| => a[i] + b[i])
  }

  /** The rows of `x` are `cols` long and there are `rows` of them. */
  predicate IsMatrix(x: seq<seq<real>>, rows: nat, cols: nat)
  {
    |x| == rows && forall i :: 0 <= i < |x| ==> |x[i]| == cols
  }

  /** Every vector of `vs` has dimension `d`. */
  predicate AllOfDimension(vs: seq<seq<real>>, d: nat)
  {
    forall i :: 0 <= i < |vs| ==> |vs[i]| == d
  }

  /** Sum of `a[k] * b[k]` over the first `m` indices, added in increasing order of `k`. */
  function DotUpTo(a: seq<real>, b: seq<real>, m: nat): (r: real)
    requires m <= |a| && m <= |b|
    ensures (forall k :: 0 <= k < m ==> a[k] == 0.0) ==> r == 0.0
    ensures (forall k :: 0 <= k < m ==> b[k] == 0.0) ==> r == 0.0
  {
    if m == 0 then 0.0 else DotUpTo(a, b, m - 1) + a[m - 1] * b[m - 1]
  }

  /** The square of `vector_distance(a, b)`: the sum of squared coordinate differences.
      Comparing squares orders distances exactly as `sqrt` of them would. */
  function SqDist(a: seq<real>, b: seq<real>): (d: real)
    requires |a| == |b|
    ensures d >= 0.0
    decreases |a|
  {
    if |a| == 0 then 0.0
    else
      var diff := a[|a| - 1] - b[|a| - 1];
      SqDist(a[..|a| - 1], b[..|a| - 1]) + diff * diff
  }

  /** A vector is at distance zero from itself. */
  lemma {:induction false} SqDistSelf(a: seq<real>)
    ensures SqDist(a, a) == 0.0
    decreases |a|
  {
    if |a| > 0 {
      SqDistSelf(a[..|a| - 1]);
    }
  }

  /** Adding the square of a non-zero real to a non-negative real gives a positive real. */
  lemma AddSquarePositive(rest: real, d: real)
    requires rest >= 0.0 && d != 0.0
    ensures rest + d * d > 0.0
  {
    calc {
      rest + d * d;
    >=
      d * d;
    >
      0.0;
    }
  }

  /** Adding a square to a non-negative real gives zero only when both parts are zero. */
  lemma AddSquareZero(rest: real, d: real)
    requires rest >= 0.0
    ensures rest + d * d == 0.0 <==> rest == 0.0 && d == 0.0
  {
    if d != 0.0 {
      AddSquarePositive(rest, d);
    } else {
      calc {
        rest + d * d;
      ==
        rest + 0.0 * 0.0;
      ==
        rest;
      }
    }
  }

  /** The smaller of two reals: below both and equal to one of them. */
  function Min(a: real, b: real): (r: real)
    ensures r <= a && r <= b
    ensures r == a || r == b
  {
    if a <= b then a else b
  }
}
