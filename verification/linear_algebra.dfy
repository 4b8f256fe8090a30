/** Dense vectors and matrices over the reals, standing in for the fixed-size
    Eigen types (`VectorXd`, `MatrixXd`) the filter works with. Floating-point
    rounding is idealised away: every entry is an exact `real`. */
module LinearAlgebra {

  type Vector = seq<real>

  /** Row-major: `m[i][j]` is the entry in row `i`, column `j`. */
  type Matrix = seq<seq<real>>

  predicate IsMatrix(m: Matrix, rows: nat, cols: nat) {
    |m| == rows && forall i :: 0 <= i < rows ==> |m[i]| == cols
  }

  predicate IsSymmetric(m: Matrix, n: nat)
    requires IsMatrix(m, n, n)
  {
    forall i, j :: 0 <= i < n && 0 <= j < n ==> m[i][j] == m[j][i]
  }

  /** Every vector of `vs` has exactly `n` components. */
  predicate AllOfLength(vs: seq<Vector>, n: nat) {
    forall i :: 0 <= i < |vs| ==> |vs[i]| == n
  }

  /** Every vector of `vs` has at least `n` components. */
  predicate AllAtLeast(vs: seq<Vector>, n: nat) {
    forall i :: 0 <= i < |vs| ==> n <= |vs[i]|
  }

  function Sum(xs: seq<real>): real {
    if |xs| == 0 then 0.0 else xs[0] + Sum(xs[1..])
  }

  lemma {:induction false} SumAppend(a: seq<real>, b: seq<real>)
    ensures Sum(a + b) == Sum(a) + Sum(b)
  {
    if |a| == 0 {
      assert a + b == b;
    } else {
      assert (a + b)[1..] == a[1..] + b;
      SumAppend(a[1..], b);
    }
  }

  lemma {:induction false} SumOfZeros(xs: seq<real>)
    requires forall i :: 0 <= i < |xs| ==> xs[i] == 0.0
    ensures Sum(xs) == 0.0
  {
    if |xs| > 0 {
      SumOfZeros(xs[1..]);
    }
  }

  /** Sums of equal-length sequences add termwise. */
  lemma {:induction false} SumPointwise(p: seq<real>, q: seq<real>, r: seq<real>)
    requires |p| == |q| == |r|
    requires forall i :: 0 <= i < |p| ==> p[i] + q[i] == r[i]
    ensures Sum(p) + Sum(q) == Sum(r)
  {
    if |p| > 0 {
      SumPointwise(p[1..], q[1..], r[1..]);
    }
  }

  /** `n` copies of `c` sum to `n * c`. (The count is a separate parameter:
      the product of a sequence length with a real is costly for the solver.) */
  lemma {:induction false} SumOfConstant(xs: seq<real>, n: nat, c: real)
    requires |xs| == n
    requires forall i :: 0 <= i < n ==> xs[i] == c
    ensures Sum(xs) == n as real * c
  {
    if n > 0 {
      SumOfConstant(xs[1..], n - 1, c);
    }
  }

  /** Two sequences whose terms pair up to the same sum `pair` sum to `n * pair`. */
  lemma PairedSum(p: seq<real>, q: seq<real>, n: nat, pair: real)
    requires |p| == |q| == n
    requires forall i :: 0 <= i < n ==> p[i] + q[i] == pair
    ensures Sum(p) + Sum(q) == n as real * pair
  {
    var r := Constant(n, pair);
    SumPointwise(p, q, r);
    SumOfConstant(r, n, pair);
  }

  /** The sequence of `n` copies of `c`. */
  function Constant(n: nat, c: real): (r: seq<real>)
    ensures |r| == n && forall i :: 0 <= i < n ==> r[i] == c
  {
    seq(n, i => c)
  }

  function Zero(n: nat): (r: Vector)
    ensures |r| == n && forall i :: 0 <= i < n ==> r[i] == 0.0
  {
    seq(n, i => 0.0)
  }

  function Add(a: Vector, b: Vector): (r: Vector)
    requires |a| == |b|
    ensures |r| == |a| && forall i :: 0 <= i < |a| ==> r[i] == a[i] + b[i]
  {
    seq(|a|, i requires 0 <= i < |a| => a[i] + b[i])
  }

  function Sub(a: Vector, b: Vector): (r: Vector)
    requires |a| == |b|
    ensures |r| == |a| && forall i :: 0 <= i < |a| ==> r[i] == a[i] - b[i]
  {
    seq(|a|, i requires 0 <= i < |a| => a[i] - b[i])
  }

  function Scale(c: real, a: Vector): (r: Vector)
    ensures |r| == |a| && forall i :: 0 <= i < |a| ==> r[i] == c * a[i]
  {
    seq(|a|, i requires 0 <= i < |a| => c * a[i])
  }

  /** The termwise products `a[i] * b[i]`. */
  function Products(a: Vector, b: Vector): (r: seq<real>)
    requires |a| == |b|
    ensures |r| == |a| && forall i :: 0 <= i < |a| ==> r[i] == a[i] * b[i]
  {
    seq(|a|, i requires 0 <= i < |a| => a[i] * b[i])
  }

  function Dot(a: Vector, b: Vector): real
    requires |a| == |b|
  {
    Sum(Products(a, b))
  }

  /** Column `j` of `m`. */
  function Col(m: Matrix, j: nat): (r: Vector)
    requires forall i :: 0 <= i < |m| ==> j < |m[i]|
    ensures |r| == |m| && forall i :: 0 <= i < |m| ==> r[i] == m[i][j]
  {
    seq(|m|, i requires 0 <= i < |m| => m[i][j])
  }

  /** The `n`-by-`n` identity matrix. */
  function Identity(n: nat): (r: Matrix)
    ensures IsMatrix(r, n, n)
    ensures forall i, j :: 0 <= i < n && 0 <= j < n ==> r[i][j] == if i == j then 1.0 else 0.0
  {
    seq(n, i => seq(n, j => if i == j then 1.0 else 0.0))
  }

  /** The diagonal matrix with `d` on its diagonal. */
  function Diagonal(d: Vector): (r: Matrix)
    ensures IsMatrix(r, |d|, |d|) && IsSymmetric(r, |d|)
    ensures forall i, j :: 0 <= i < |d| && 0 <= j < |d| ==> r[i][j] == if i == j then d[i] else 0.0
  {
    seq(|d|, i requires 0 <= i < |d| => seq(|d|, j => if i == j then d[i] else 0.0))
  }

  function Transpose(m: Matrix, cols: nat): (r: Matrix)
    requires IsMatrix(m, |m|, cols)
    ensures IsMatrix(r, cols, |m|)
    ensures forall j :: 0 <= j < cols ==> r[j] == Col(m, j)
  {
    seq(cols, j requires 0 <= j < cols => Col(m, j))
  }

  function MatAdd(a: Matrix, b: Matrix, rows: nat, cols: nat): (r: Matrix)
    requires IsMatrix(a, rows, cols) && IsMatrix(b, rows, cols)
    ensures IsMatrix(r, rows, cols)
    ensures forall i, j :: 0 <= i < rows && 0 <= j < cols ==> r[i][j] == a[i][j] + b[i][j]
  {
    seq(rows, i requires 0 <= i < rows => Add(a[i], b[i]))
  }

  function MatSub(a: Matrix, b: Matrix, rows: nat, cols: nat): (r: Matrix)
    requires IsMatrix(a, rows, cols) && IsMatrix(b, rows, cols)
    ensures IsMatrix(r, rows, cols)
    ensures forall i, j :: 0 <= i < rows && 0 <= j < cols ==> r[i][j] == a[i][j] - b[i][j]
  {
    seq(rows, i requires 0 <= i < rows => Sub(a[i], b[i]))
  }

  /** Matrix-vector product `m * v`. */
  function MatVec(m: Matrix, v: Vector): (r: Vector)
    requires IsMatrix(m, |m|, |v|)
    ensures |r| == |m| && forall i :: 0 <= i < |m| ==> r[i] == Dot(m[i], v)
  {
    seq(|m|, i requires 0 <= i < |m| => Dot(m[i], v))
  }

  /** Matrix product `a * b`, where `b` has `cols` columns. */
  function MatMul(a: Matrix, b: Matrix, cols: nat): (r: Matrix)
    requires IsMatrix(a, |a|, |b|) && IsMatrix(b, |b|, cols)
    ensures IsMatrix(r, |a|, cols)
    ensures forall i, j :: 0 <= i < |a| && 0 <= j < cols ==> r[i][j] == Dot(a[i], Col(b, j))
  {
    seq(|a|, i requires 0 <= i < |a| =>
      seq(cols, j requires 0 <= j < cols => Dot(a[i], Col(b, j))))
  }

  /** The terms `ws[i] * vs[i][j]`. */
  function Terms(ws: seq<real>, vs: seq<Vector>, j: nat): (t: seq<real>)
    requires |ws| == |vs| && AllAtLeast(vs, j + 1)
    ensures |t| == |ws| && forall i :: 0 <= i < |ws| ==> t[i] == ws[i] * vs[i][j]
  {
    seq(|ws|, i requires 0 <= i < |ws| => ws[i] * vs[i][j])
  }

  /** Component `j` of the weighted sum `ws[0] * vs[0] + ws[1] * vs[1] + ...`. */
  function WeightedSum(ws: seq<real>, vs: seq<Vector>, j: nat): real
    requires |ws| == |vs| && AllAtLeast(vs, j + 1)
  {
    Sum(Terms(ws, vs, j))
  }

  /** The first `n` components of `ws[0] * vs[0] + ws[1] * vs[1] + ...`; with the
      vectors as the columns of a matrix this is the product `matrix * ws`. */
  function Combination(ws: seq<real>, vs: seq<Vector>, n: nat): (r: Vector)
    requires |ws| == |vs| && AllAtLeast(vs, n)
    ensures |r| == n && forall j :: 0 <= j < n ==> r[j] == WeightedSum(ws, vs, j)
  {
    seq(n, j requires 0 <= j < n => WeightedSum(ws, vs, j))
  }

  /** The `rows`-by-`cols` matrix `ws[0] * us[0] * vs[0]^T + ws[1] * us[1] * vs[1]^T + ...`. */
  function WeightedOuterSum(ws: seq<real>, us: seq<Vector>, vs: seq<Vector>, rows: nat, cols: nat): (r: Matrix)
    requires |ws| == |us| == |vs| && AllOfLength(us, rows) && AllOfLength(vs, cols)
    ensures IsMatrix(r, rows, cols)
    ensures forall a, b :: 0 <= a < rows && 0 <= b < cols ==> r[a][b] == Sum(OuterTerms(ws, us, vs, a, b))
  {
    seq(rows, a requires 0 <= a < rows =>
      seq(cols, b requires 0 <= b < cols => Sum(OuterTerms(ws, us, vs, a, b))))
  }

  /** The terms `ws[i] * us[i][a] * vs[i][b]` of entry `(a, b)` of a weighted outer-product sum. */
  function OuterTerms(ws: seq<real>, us: seq<Vector>, vs: seq<Vector>, a: nat, b: nat): (t: seq<real>)
    requires |ws| == |us| == |vs| && AllAtLeast(us, a + 1) && AllAtLeast(vs, b + 1)
    ensures |t| == |ws| && forall i :: 0 <= i < |ws| ==> t[i] == ws[i] * us[i][a] * vs[i][b]
  {
    seq(|ws|, i requires 0 <= i < |ws| => ws[i] * us[i][a] * vs[i][b])
  }

  /** Component `j` of a weighted sum only reads component `j` of each vector. */
  lemma WeightedSumLocal(ws: seq<real>, vs: seq<Vector>, us: seq<Vector>, j: nat)
    requires |ws| == |vs| == |us| && AllAtLeast(vs, j + 1) && AllAtLeast(us, j + 1)
    requires forall i :: 0 <= i < |vs| ==> vs[i][j] == us[i][j]
    ensures WeightedSum(ws, vs, j) == WeightedSum(ws, us, j)
  {
    var s, t := Terms(ws, vs, j), Terms(ws, us, j);
    forall i | 0 <= i < |ws|
      ensures s[i] == t[i]
    {
      assert vs[i][j] == us[i][j];
    }
    assert s == t;
  }

  /** Entry `(a, b)` of a weighted outer-product sum only reads components `a`
      and `b` of each vector. */
  lemma OuterTermsLocal(ws: seq<real>, ds: seq<Vector>, es: seq<Vector>, a: nat, b: nat)
    requires |ws| == |ds| == |es|
    requires AllAtLeast(ds, a + 1) && AllAtLeast(ds, b + 1) && AllAtLeast(es, a + 1) && AllAtLeast(es, b + 1)
    requires forall i :: 0 <= i < |ds| ==> ds[i][a] == es[i][a] && ds[i][b] == es[i][b]
    ensures Sum(OuterTerms(ws, ds, ds, a, b)) == Sum(OuterTerms(ws, es, es, a, b))
  {
    var s, t := OuterTerms(ws, ds, ds, a, b), OuterTerms(ws, es, es, a, b);
    forall i | 0 <= i < |ws|
      ensures s[i] == t[i]
    {
      assert ds[i][a] == es[i][a] && ds[i][b] == es[i][b];
    }
    assert s == t;
  }

  /** A weighted outer-product sum of a family with itself is symmetric. */
  lemma WeightedOuterSumSymmetric(ws: seq<real>, ds: seq<Vector>, n: nat)
    requires |ws| == |ds| && AllOfLength(ds, n)
    ensures IsSymmetric(WeightedOuterSum(ws, ds, ds, n, n), n)
  {
    var m := WeightedOuterSum(ws, ds, ds, n, n);
    forall a, b | 0 <= a < n && 0 <= b < n
      ensures m[a][b] == m[b][a]
    {
      var s, t := OuterTerms(ws, ds, ds, a, b), OuterTerms(ws, ds, ds, b, a);
      forall i | 0 <= i < |ws|
        ensures s[i] == t[i]
      {
        assert s[i] == ws[i] * ds[i][a] * ds[i][b];
      }
      assert s == t;
    }
  }

  /** Scaling distributes over a sum of two reals. */
  lemma Distributes(a: real, x: real, y: real)
    ensures a * x + a * y == a * (x + y)
  {
  }

  lemma DotWithZero(a: Vector, b: Vector)
    requires |a| == |b|
    requires forall i :: 0 <= i < |b| ==> b[i] == 0.0
    ensures Dot(a, b) == 0.0
  {
    SumOfZeros(Products(a, b));
  }

  lemma DotWithZeroLeft(a: Vector, b: Vector)
    requires |a| == |b|
    requires forall i :: 0 <= i < |a| ==> a[i] == 0.0
    ensures Dot(a, b) == 0.0
  {
    SumOfZeros(Products(a, b));
  }

  /** Multiplying by the zero vector gives the zero vector. */
  lemma MatVecZero(m: Matrix, v: Vector)
    requires IsMatrix(m, |m|, |v|)
    requires forall i :: 0 <= i < |v| ==> v[i] == 0.0
    ensures MatVec(m, v) == Zero(|m|)
  {
    forall i | 0 <= i < |m|
      ensures MatVec(m, v)[i] == 0.0
    {
      DotWithZero(m[i], v);
    }
  }
}
