/** The unscented transform's fixed weights (constructor, src/ukf.cpp:67-73) and
    `UKF::CreateSignmaPoints` (src/ukf.cpp:389-398). */
module SigmaPoints {
  import opened LinearAlgebra
  import opened Primitives

  /** `n_x_`: px, py, v, yaw, yaw rate. */
  const NX: nat := 5

  /** `n_aug_`: the state followed by the two process-noise terms. */
  const NAug: nat := 7

  /** `2 * n_aug_ + 1`: the number of sigma points. */
  const NSigma: nat := 2 * NAug + 1

  /** `lambda_ = 3 - n_x_`: the spreading parameter is taken from the plain state
      size even though the points are spread in the augmented space. */
  const Lambda: real := (3 - NX) as real

  /** The weights of a set of `2k + 1` sigma points: `w0` for the mean, `w` for
      every other point. */
  function UnscentedWeights(w0: real, w: real, k: nat): (ws: seq<real>)
    ensures |ws| == 2 * k + 1
  {
    seq(2 * k + 1, i => if i == 0 then w0 else w)
  }

  /** `weights_`: `lambda_ / (lambda_ + n_aug_)` first, then `0.5 / (n_aug_ + lambda_)`;
      with `lambda_ = -2` these are exactly -2/5 and 1/10. */
  function Weights(): (ws: seq<real>)
    ensures |ws| == NSigma
    ensures ws[0] == -2.0 / 5.0
    ensures forall i :: 1 <= i < NSigma ==> ws[i] == 1.0 / 10.0
  {
    UnscentedWeights(Lambda / (Lambda + NAug as real), 0.5 / (NAug as real + Lambda), NAug)
  }

  /** The weights sum to exactly one. */
  lemma WeightsSumToOne()
    ensures Sum(Weights()) == 1.0
  {
    var ws := Weights();
    assert Sum(ws) == ws[0] + Sum(ws[1..]);
    SumOfConstant(ws[1..], 2 * NAug, 1.0 / 10.0);
  }

  /** The points `state + c * L.col(i)` (`sign == 1.0`) or `state - c * L.col(i)`
      (`sign == -1.0`), one per column of `L`. */
  function SpreadPoints(state: Vector, L: Matrix, c: real, sign: real): (pts: seq<Vector>)
    requires IsMatrix(L, |state|, |state|)
    ensures |pts| == |state| && AllOfLength(pts, |state|)
    ensures forall i, j :: 0 <= i < |state| && 0 <= j < |state| ==> pts[i][j] - state[j] == sign * (c * L[j][i])
  {
    seq(|state|, i requires 0 <= i < |state| => Add(state, Scale(sign * c, Col(L, i))))
  }

  /** The sigma-point layout: the first point is the state, and the `i`-th
      mirrored pair is `state + c * L.col(i)`, `state - c * L.col(i)`, so the
      two points of a pair sit symmetrically about the state. */
  predicate MirroredAbout(sig: seq<Vector>, state: Vector, c: real, L: Matrix) {
    var k := |state|;
    && |sig| == 2 * k + 1 && AllOfLength(sig, k) && IsMatrix(L, k, k)
    && sig[0] == state
    && (var plus, minus := sig[1..k + 1], sig[k + 1..];
        forall i, j :: 0 <= i < k && 0 <= j < k ==>
          plus[i][j] - state[j] == c * L[j][i] && minus[i][j] - state[j] == -(c * L[j][i]))
  }

  /** `CreateSignmaPoints(state, P, k, 2k + 1)`: column 0 is the state, columns
      `1..k` are `state + c * L.col(i)` and columns `k+1..2k` are
      `state - c * L.col(i)`, where `L` is the Cholesky factor of `P` and
      `c = sqrt(lambda_ + k)`. */
  function CreateSigmaPoints(state: Vector, P: Matrix, lib: Library): (sig: seq<Vector>)
    requires IsMatrix(P, |state|, |state|)
    ensures |sig| == 2 * |state| + 1 && AllOfLength(sig, |state|)
    ensures MirroredAbout(sig, state, lib.sqrt(Lambda + |state| as real), Cholesky(lib, P, |state|))
  {
    var L := Cholesky(lib, P, |state|);
    var c := lib.sqrt(Lambda + |state| as real);
    var plus := SpreadPoints(state, L, c, 1.0);
    var minus := SpreadPoints(state, L, c, -1.0);
    SpreadMirrored(state, L, c);
    [state] + plus + minus
  }

  /** The state followed by the points spread forwards and the points spread
      backwards is laid out as `MirroredAbout` describes. */
  lemma SpreadMirrored(state: Vector, L: Matrix, c: real)
    requires IsMatrix(L, |state|, |state|)
    ensures MirroredAbout([state] + SpreadPoints(state, L, c, 1.0) + SpreadPoints(state, L, c, -1.0), state, c, L)
  {
    var k := |state|;
    var plus := SpreadPoints(state, L, c, 1.0);
    var minus := SpreadPoints(state, L, c, -1.0);
    var sig := [state] + plus + minus;
    assert sig[1..k + 1] == plus && sig[k + 1..] == minus;
    forall i, j | 0 <= i < k && 0 <= j < k
      ensures plus[i][j] - state[j] == c * L[j][i] && minus[i][j] - state[j] == -(c * L[j][i])
    {
      assert plus[i][j] - state[j] == 1.0 * (c * L[j][i]);
      assert minus[i][j] - state[j] == -1.0 * (c * L[j][i]);
    }
  }

  /** The deviations of the points from a centre. */
  function Deviations(sig: seq<Vector>, centre: Vector): (ds: seq<Vector>)
    requires AllOfLength(sig, |centre|)
    ensures |ds| == |sig| && AllOfLength(ds, |centre|)
    ensures forall i, j :: 0 <= i < |sig| && 0 <= j < |centre| ==> ds[i][j] == sig[i][j] - centre[j]
  {
    seq(|sig|, i requires 0 <= i < |sig| => Sub(sig[i], centre))
  }

  lemma SumOfThree(t: seq<real>, k: nat)
    requires |t| == 2 * k + 1
    ensures Sum(t) == t[0] + Sum(t[1..k + 1]) + Sum(t[k + 1..])
  {
    assert t[1..] == t[1..k + 1] + t[k + 1..];
    SumAppend(t[1..k + 1], t[k + 1..]);
  }

  lemma MeanArithmetic(w0: real, w: real, kr: real, s: real)
    requires w0 + 2.0 * kr * w == 1.0
    ensures w0 * s + kr * (2.0 * w * s) == s
  {
    calc {
      w0 * s + kr * (2.0 * w * s);
      (w0 + 2.0 * kr * w) * s;
    }
  }

  /** A sum of `2k + 1` terms whose terms after the first pair up, term `i`
      with term `k + i`, to the same value `pair`. */
  lemma MirroredSum(t: seq<real>, k: nat, pair: real)
    requires |t| == 2 * k + 1
    requires var p, q := t[1..k + 1], t[k + 1..];
      forall i :: 0 <= i < k ==> p[i] + q[i] == pair
    ensures Sum(t) == t[0] + k as real * pair
  {
    SumOfThree(t, k);
    PairedSum(t[1..k + 1], t[k + 1..], k, pair);
  }

  /** The weighted terms of one component of mirrored points pair up to
      `2 * w * centre`. */
  lemma MirroredTermPairs(ws: seq<real>, sig: seq<Vector>, k: nat, j: nat, centre: real, w0: real, w: real)
    requires ws == UnscentedWeights(w0, w, k)
    requires |sig| == 2 * k + 1 && AllAtLeast(sig, j + 1)
    requires var plus, minus := sig[1..k + 1], sig[k + 1..];
      forall i :: 0 <= i < k ==> plus[i][j] + minus[i][j] == 2.0 * centre
    ensures var t := Terms(ws, sig, j);
      var p, q := t[1..k + 1], t[k + 1..];
      forall i :: 0 <= i < k ==> p[i] + q[i] == 2.0 * w * centre
  {
    var t := Terms(ws, sig, j);
    var p, q := t[1..k + 1], t[k + 1..];
    var plus, minus := sig[1..k + 1], sig[k + 1..];
    forall i | 0 <= i < k
      ensures p[i] + q[i] == 2.0 * w * centre
    {
      assert p[i] == w * plus[i][j] && q[i] == w * minus[i][j];
      Distributes(w, plus[i][j], minus[i][j]);
    }
  }

  /** One component of the weighted mean of a set of points of which the first
      is the centre and the others come in pairs mirrored about it. */
  lemma SymmetricWeightedSum(ws: seq<real>, sig: seq<Vector>, k: nat, j: nat, centre: real, w0: real, w: real)
    requires ws == UnscentedWeights(w0, w, k)
    requires w0 + 2.0 * k as real * w == 1.0
    requires |sig| == 2 * k + 1 && AllAtLeast(sig, j + 1)
    requires sig[0][j] == centre
    requires var plus, minus := sig[1..k + 1], sig[k + 1..];
      forall i :: 0 <= i < k ==> plus[i][j] + minus[i][j] == 2.0 * centre
    ensures WeightedSum(ws, sig, j) == centre
  {
    var t := Terms(ws, sig, j);
    MirroredTermPairs(ws, sig, k, j, centre, w0, w);
    MirroredSum(t, k, 2.0 * w * centre);
    assert t[0] == w0 * centre;
    MeanArithmetic(w0, w, k as real, centre);
  }

  /** Component `j` of mirrored points: each pair adds up to twice the state. */
  lemma MirroredPairSums(sig: seq<Vector>, state: Vector, c: real, L: Matrix, j: nat)
    requires MirroredAbout(sig, state, c, L) && j < |state|
    ensures var k := |state|;
      var plus, minus := sig[1..k + 1], sig[k + 1..];
      forall i :: 0 <= i < k ==> plus[i][j] + minus[i][j] == 2.0 * state[j]
  {
  }

  /** Whenever the weights sum to one, the weighted mean of the sigma points is
      the state they were spread around, whatever the Cholesky factor and the
      spread constant are. */
  lemma SigmaPointsWeightedMean(state: Vector, P: Matrix, lib: Library, w0: real, w: real)
    requires IsMatrix(P, |state|, |state|)
    requires w0 + 2.0 * |state| as real * w == 1.0
    ensures Combination(UnscentedWeights(w0, w, |state|), CreateSigmaPoints(state, P, lib), |state|) == state
  {
    var k := |state|;
    var ws := UnscentedWeights(w0, w, k);
    var sig := CreateSigmaPoints(state, P, lib);
    var c, L := lib.sqrt(Lambda + k as real), Cholesky(lib, P, k);
    var mean := Combination(ws, sig, k);
    forall j | 0 <= j < k
      ensures mean[j] == state[j]
    {
      MirroredPairSums(sig, state, c, L, j);
      SymmetricWeightedSum(ws, sig, k, j, state[j], w0, w);
    }
  }

  /** With the filter's weights, the weighted mean of the 15 augmented sigma
      points is exactly the augmented state. */
  lemma WeightedMeanOfSigmaPoints(state: Vector, P: Matrix, lib: Library)
    requires |state| == NAug && IsMatrix(P, NAug, NAug)
    ensures Combination(Weights(), CreateSigmaPoints(state, P, lib), NAug) == state
  {
    SigmaPointsWeightedMean(state, P, lib, -2.0 / 5.0, 1.0 / 10.0);
  }

  lemma PairProduct(w: real, c: real, x: real, y: real)
    requires 2.0 * w * c * c == 1.0
    ensures w * (c * x) * (c * y) + w * -(c * x) * -(c * y) == x * y
  {
    calc {
      w * (c * x) * (c * y) + w * -(c * x) * -(c * y);
      2.0 * (w * (c * x) * (c * y));
      (2.0 * w * c * c) * (x * y);
    }
  }

  /** A sum of `2k + 1` terms whose first term is zero and whose terms `i` and
      `k + i` add up to `r[i]` is the sum of `r`. */
  lemma MirroredPairs(t: seq<real>, k: nat, r: seq<real>)
    requires |t| == 2 * k + 1 && |r| == k
    requires t[0] == 0.0
    requires var p, q := t[1..k + 1], t[k + 1..];
      forall i :: 0 <= i < k ==> p[i] + q[i] == r[i]
    ensures Sum(t) == Sum(r)
  {
    SumOfThree(t, k);
    SumPointwise(t[1..k + 1], t[k + 1..], r);
  }

  /** Mirrored deviations `c * x`, `-c * x` weighted by `w` contribute `x * y`
      to an entry of the covariance. */
  lemma MirroredOuterTerms(ws: seq<real>, ds: seq<Vector>, k: nat, a: nat, b: nat,
                           c: real, x: real, y: real, w0: real, w: real, i: nat)
    requires ws == UnscentedWeights(w0, w, k)
    requires 2.0 * w * c * c == 1.0
    requires |ds| == 2 * k + 1 && AllAtLeast(ds, a + 1) && AllAtLeast(ds, b + 1)
    requires i < k
    requires ds[1 + i][a] == c * x && ds[k + 1 + i][a] == -(c * x)
    requires ds[1 + i][b] == c * y && ds[k + 1 + i][b] == -(c * y)
    ensures
      var t := OuterTerms(ws, ds, ds, a, b);
      t[1 + i] + t[k + 1 + i] == x * y
  {
    PairProduct(w, c, x, y);
  }

  /** Deviations that vanish for the first point and are `c * L.col(i)` and
      `-c * L.col(i)` for the `i`-th mirrored pair. */
  predicate MirroredDeviations(ds: seq<Vector>, k: nat, c: real, L: Matrix) {
    && |ds| == 2 * k + 1 && AllOfLength(ds, k) && IsMatrix(L, k, k)
    && (forall x :: 0 <= x < k ==> ds[0][x] == 0.0)
    && (forall i, x :: 0 <= i < k && 0 <= x < k ==>
          ds[1 + i][x] == c * L[x][i] && ds[k + 1 + i][x] == -(c * L[x][i]))
  }

  /** The outer-product terms of mirrored deviations pair up to the products of
      rows `a` and `b` of `L`. */
  lemma MirroredOuterPairs(ws: seq<real>, ds: seq<Vector>, k: nat, c: real, L: Matrix,
                           w0: real, w: real, a: nat, b: nat)
    requires ws == UnscentedWeights(w0, w, k)
    requires 2.0 * w * c * c == 1.0
    requires MirroredDeviations(ds, k, c, L) && a < k && b < k
    ensures var t, r := OuterTerms(ws, ds, ds, a, b), Products(L[a], L[b]);
      var p, q := t[1..k + 1], t[k + 1..];
      forall i :: 0 <= i < k ==> p[i] + q[i] == r[i]
  {
    var t := OuterTerms(ws, ds, ds, a, b);
    var r := Products(L[a], L[b]);
    var p, q := t[1..k + 1], t[k + 1..];
    forall i | 0 <= i < k
      ensures p[i] + q[i] == r[i]
    {
      MirroredOuterTerms(ws, ds, k, a, b, c, L[a][i], L[b][i], w0, w, i);
    }
  }

  /** One entry of the weighted covariance of mirrored deviations is entry
      `(a, b)` of `L * L^T`. */
  lemma SymmetricOuterSum(ws: seq<real>, ds: seq<Vector>, k: nat, c: real, L: Matrix,
                          w0: real, w: real, a: nat, b: nat)
    requires ws == UnscentedWeights(w0, w, k)
    requires 2.0 * w * c * c == 1.0
    requires MirroredDeviations(ds, k, c, L) && a < k && b < k
    ensures Sum(OuterTerms(ws, ds, ds, a, b)) == Dot(L[a], L[b])
  {
    var t := OuterTerms(ws, ds, ds, a, b);
    MirroredOuterPairs(ws, ds, k, c, L, w0, w, a, b);
    assert t[0] == 0.0;
    MirroredPairs(t, k, Products(L[a], L[b]));
  }

  /** The deviations of mirrored points from their state: zero for the first
      point, `c * L.col(i)` and `-c * L.col(i)` for the `i`-th pair. */
  lemma DeviationsOfMirrored(sig: seq<Vector>, state: Vector, c: real, L: Matrix)
    requires MirroredAbout(sig, state, c, L)
    ensures MirroredDeviations(Deviations(sig, state), |state|, c, L)
  {
    var k := |state|;
    var ds := Deviations(sig, state);
    var plus, minus := sig[1..k + 1], sig[k + 1..];
    forall x | 0 <= x < k
      ensures ds[0][x] == 0.0
    {
      assert ds[0][x] == sig[0][x] - state[x];
    }
    forall i, x | 0 <= i < k && 0 <= x < k
      ensures ds[1 + i][x] == c * L[x][i] && ds[k + 1 + i][x] == -(c * L[x][i])
    {
      assert plus[i] == sig[1 + i] && minus[i] == sig[k + 1 + i];
      assert ds[1 + i][x] == plus[i][x] - state[x];
      assert ds[k + 1 + i][x] == minus[i][x] - state[x];
    }
  }

  /** The deviations of the sigma points from the state are mirrored. */
  lemma SigmaDeviations(state: Vector, P: Matrix, lib: Library)
    requires IsMatrix(P, |state|, |state|)
    ensures
      var k := |state|;
      MirroredDeviations(Deviations(CreateSigmaPoints(state, P, lib), state),
                         k, lib.sqrt(Lambda + k as real), Cholesky(lib, P, k))
  {
    var k := |state|;
    DeviationsOfMirrored(CreateSigmaPoints(state, P, lib), state, lib.sqrt(Lambda + k as real), Cholesky(lib, P, k));
  }

  /** Entry `(a, b)` of the weighted covariance of the sigma points is entry
      `(a, b)` of `L * L^T`. */
  lemma CovarianceEntry(state: Vector, P: Matrix, lib: Library, w0: real, w: real, a: nat, b: nat)
    requires IsMatrix(P, |state|, |state|)
    requires a < |state| && b < |state|
    requires 2.0 * w * lib.sqrt(Lambda + |state| as real) * lib.sqrt(Lambda + |state| as real) == 1.0
    ensures
      var k, ds := |state|, Deviations(CreateSigmaPoints(state, P, lib), state);
      var L := Cholesky(lib, P, k);
      Sum(OuterTerms(UnscentedWeights(w0, w, k), ds, ds, a, b)) == MatMul(L, Transpose(L, k), k)[a][b]
  {
    var k := |state|;
    var ds := Deviations(CreateSigmaPoints(state, P, lib), state);
    var L := Cholesky(lib, P, k);
    SigmaDeviations(state, P, lib);
    SymmetricOuterSum(UnscentedWeights(w0, w, k), ds, k, lib.sqrt(Lambda + k as real), L, w0, w, a, b);
    assert Col(Transpose(L, k), b) == L[b];
  }

  /** When `L * L^T == P` (what a Cholesky factor is) and the spread constant and
      the pair weight satisfy `2 * w * c^2 == 1`, the weighted covariance of the
      sigma points about the state is exactly `P`. */
  lemma SigmaPointsWeightedCovariance(state: Vector, P: Matrix, lib: Library, w0: real, w: real)
    requires IsMatrix(P, |state|, |state|)
    requires var L := Cholesky(lib, P, |state|); MatMul(L, Transpose(L, |state|), |state|) == P
    requires 2.0 * w * lib.sqrt(Lambda + |state| as real) * lib.sqrt(Lambda + |state| as real) == 1.0
    ensures
      var ds := Deviations(CreateSigmaPoints(state, P, lib), state);
      WeightedOuterSum(UnscentedWeights(w0, w, |state|), ds, ds, |state|, |state|) == P
  {
    var k := |state|;
    var ds := Deviations(CreateSigmaPoints(state, P, lib), state);
    var cov := WeightedOuterSum(UnscentedWeights(w0, w, k), ds, ds, k, k);
    forall a | 0 <= a < k
      ensures cov[a] == P[a]
    {
      forall b | 0 <= b < k
        ensures cov[a][b] == P[a][b]
      {
        CovarianceEntry(state, P, lib, w0, w, a, b);
      }
    }
  }

  /** With the filter's weights and spread constant `sqrt(lambda_ + n_aug_) =
      sqrt(5)`, the weighted covariance of the 15 augmented sigma points about
      the augmented state is the covariance they were built from, provided the
      library's square root and Cholesky factor are exact. */
  lemma WeightedCovarianceOfSigmaPoints(state: Vector, P: Matrix, lib: Library)
    requires |state| == NAug && IsMatrix(P, NAug, NAug)
    requires var L := Cholesky(lib, P, NAug); MatMul(L, Transpose(L, NAug), NAug) == P
    requires lib.sqrt(5.0) * lib.sqrt(5.0) == 5.0
    ensures
      var ds := Deviations(CreateSigmaPoints(state, P, lib), state);
      WeightedOuterSum(Weights(), ds, ds, NAug, NAug) == P
  {
    var c := lib.sqrt(Lambda + NAug as real);
    assert 2.0 * (1.0 / 10.0) * c * c == 1.0;
    SigmaPointsWeightedCovariance(state, P, lib, -2.0 / 5.0, 1.0 / 10.0);
  }
}
