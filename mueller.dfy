/** The 4x4 real Mueller matrix that both realizability tests take as input. */
module MuellerMatrix {

  /** A Mueller matrix; field mij is the entry M[i, j] (row i, column j). */
  datatype Mueller = Mueller(
    m00: real, m01: real, m02: real, m03: real,
    m10: real, m11: real, m12: real, m13: real,
    m20: real, m21: real, m22: real, m23: real,
    m30: real, m31: real, m32: real, m33: real)

  /** The value currently held by a 4x4 array of reals (a numpy array M). */
  function FromArray(M: array2<real>): Mueller
    requires M.Length0 == 4 && M.Length1 == 4
    reads M
  {
    Mueller(M[0, 0], M[0, 1], M[0, 2], M[0, 3],
            M[1, 0], M[1, 1], M[1, 2], M[1, 3],
            M[2, 0], M[2, 1], M[2, 2], M[2, 3],
            M[3, 0], M[3, 1], M[3, 2], M[3, 3])
  }

  /** Entrywise sum M + N. */
  function Sum(M: Mueller, N: Mueller): Mueller {
    Mueller(M.m00 + N.m00, M.m01 + N.m01, M.m02 + N.m02, M.m03 + N.m03,
            M.m10 + N.m10, M.m11 + N.m11, M.m12 + N.m12, M.m13 + N.m13,
            M.m20 + N.m20, M.m21 + N.m21, M.m22 + N.m22, M.m23 + N.m23,
            M.m30 + N.m30, M.m31 + N.m31, M.m32 + N.m32, M.m33 + N.m33)
  }

  const ZeroMatrix: Mueller := Mueller(0.0, 0.0, 0.0, 0.0, 0.0, 0.0, 0.0, 0.0,
                                       0.0, 0.0, 0.0, 0.0, 0.0, 0.0, 0.0, 0.0)

  const IdentityMatrix: Mueller := Mueller(1.0, 0.0, 0.0, 0.0, 0.0, 1.0, 0.0, 0.0,
                                           0.0, 0.0, 1.0, 0.0, 0.0, 0.0, 0.0, 1.0)

  /** The sum of the squares of all sixteen entries. */
  function SumOfSquares(M: Mueller): real {
    M.m00 * M.m00 + M.m01 * M.m01 + M.m02 * M.m02 + M.m03 * M.m03 +
    M.m10 * M.m10 + M.m11 * M.m11 + M.m12 * M.m12 + M.m13 * M.m13 +
    M.m20 * M.m20 + M.m21 * M.m21 + M.m22 * M.m22 + M.m23 * M.m23 +
    M.m30 * M.m30 + M.m31 * M.m31 + M.m32 * M.m32 + M.m33 * M.m33
  }
}
