/** The library calls the filter makes whose numeric content this model does not
    interpret: the `<cmath>` functions and two Eigen decompositions. They are
    passed around as a record of functions, so every property proved here holds
    whatever values they return. */
module Primitives {
  import opened LinearAlgebra

  datatype MathLibrary = MathLibrary(
    sin: real -> real,
    cos: real -> real,
    sqrt: real -> real,
    atan2: (real, real) -> real,
    /** `P.llt().matrixL()`: the lower Cholesky factor. */
    cholesky: Matrix -> Matrix,
    /** `S.inverse()`. */
    inverse: Matrix -> Matrix,
    /** What IEEE division of the given numerator by zero yields (an infinity or
        a NaN, neither of which is a real). */
    overZero: real -> real)

  /** Eigen returns a square matrix of the size it was given. */
  ghost predicate ShapePreserving(lib: MathLibrary) {
    forall m: Matrix, n: nat :: IsMatrix(m, n, n) ==>
      IsMatrix(lib.cholesky(m), n, n) && IsMatrix(lib.inverse(m), n, n)
  }

  type Library = lib: MathLibrary | ShapePreserving(lib)
    witness MathLibrary(x => x, x => x, x => x, (y, x) => 0.0, m => m, m => m, x => 0.0)

  /** The Cholesky factor of an `n`-by-`n` matrix is `n`-by-`n`. */
  function Cholesky(lib: Library, P: Matrix, n: nat): (L: Matrix)
    requires IsMatrix(P, n, n)
    ensures IsMatrix(L, n, n)
  {
    lib.cholesky(P)
  }

  /** The inverse of an `n`-by-`n` matrix is `n`-by-`n`. */
  function Inverse(lib: Library, S: Matrix, n: nat): (Si: Matrix)
    requires IsMatrix(S, n, n)
    ensures IsMatrix(Si, n, n)
  {
    lib.inverse(S)
  }

  /** Real division, except that a zero divisor yields the library's stand-in for
      the IEEE result. */
  function Quotient(lib: Library, a: real, b: real): (q: real)
    ensures b != 0.0 ==> q * b == a
  {
    if b != 0.0 then a / b else lib.overZero(a)
  }
}
