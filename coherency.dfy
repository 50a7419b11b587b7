/**
 * The coherency ("eigen") matrix H(M) of a Mueller matrix M: a complex 4x4
 * matrix whose entries are fixed linear combinations of the entries of M
 * (build_eigen_matrix in prtest/prtest.py).
 *
 * Homogeneous and its helpers write t·M out entry by entry, for the reason
 * given in the module comment of CharPoly.
 */
module CoherencyMatrix {
  import opened ComplexNumbers
  import opened MuellerMatrix

  /** A 4x4 matrix of complex numbers, as rows. */
  predicate IsMatrix4(H: seq<seq<Complex>>) {
    |H| == 4 && forall i :: 0 <= i < 4 ==> |H[i]| == 4
  }

  /**
   * H(M), entry by entry. The upper triangle and the diagonal are the
   * combinations the source writes; each entry below the diagonal is written
   * out as the conjugate of its mirror, which the source obtains by reading
   * the mirror back and applying np.conj.
   */
  function Coherency(M: Mueller): (H: seq<seq<Complex>>)
    ensures IsMatrix4(H)
  {
    [[Complex(M.m00 + M.m01 + M.m10 + M.m11, 0.0),
      Complex(M.m02 + M.m12, M.m03 + M.m13),
      Complex(M.m20 + M.m21, -(M.m30 + M.m31)),
      Complex(M.m22 + M.m33, M.m23 - M.m32)],
     [Complex(M.m02 + M.m12, -(M.m03 + M.m13)),
      Complex(M.m00 - M.m01 + M.m10 - M.m11, 0.0),
      Complex(M.m22 - M.m33, -(M.m23 + M.m32)),
      Complex(M.m20 - M.m21, -(M.m30 - M.m31))],
     [Complex(M.m20 + M.m21, M.m30 + M.m31),
      Complex(M.m22 - M.m33, M.m23 + M.m32),
      Complex(M.m00 + M.m01 - M.m10 - M.m11, 0.0),
      Complex(M.m02 - M.m12, M.m03 - M.m13)],
     [Complex(M.m22 + M.m33, -(M.m23 - M.m32)),
      Complex(M.m20 - M.m21, M.m30 - M.m31),
      Complex(M.m02 - M.m12, -(M.m03 - M.m13)),
      Complex(M.m00 - M.m01 - M.m10 + M.m11, 0.0)]]
  }

  /** H[j][i] is the conjugate of H[i][j] for every pair of indices. */
  predicate IsHermitian(H: seq<seq<Complex>>)
    requires IsMatrix4(H)
  {
    forall i, j :: 0 <= i < 4 && 0 <= j < 4 ==> H[j][i] == Conj(H[i][j])
  }

  /** The sum of the four diagonal entries. */
  function Trace(H: seq<seq<Complex>>): Complex
    requires IsMatrix4(H)
  {
    Add(Add(Add(H[0][0], H[1][1]), H[2][2]), H[3][3])
  }

  /** The sum of |H[i][j]|² over all sixteen entries (the squared Frobenius norm). */
  function FrobeniusSq(H: seq<seq<Complex>>): real
    requires IsMatrix4(H)
  {
    RowNormSq(H[0]) + RowNormSq(H[1]) + RowNormSq(H[2]) + RowNormSq(H[3])
  }

  function RowNormSq(row: seq<Complex>): real
    requires |row| == 4
  {
    NormSq(row[0]) + NormSq(row[1]) + NormSq(row[2]) + NormSq(row[3])
  }

  /** The first r rows of the array H hold the first r rows of H(m). */
  ghost predicate RowsMatch(H: array2<Complex>, m: Mueller, r: nat)
    requires H.Length0 == 4 && H.Length1 == 4 && r <= 4
    reads H
  {
    forall i, j :: 0 <= i < r && 0 <= j < 4 ==> H[i, j] == Coherency(m)[i][j]
  }

  /**
   * build_eigen_matrix: allocates a zero 4x4 complex array and assigns its
   * sixteen cells in the source's order, one row per step. M is only read
   * (nothing here may modify it).
   */
  method BuildEigenMatrix(M: array2<real>) returns (H: array2<Complex>)
    requires M.Length0 == 4 && M.Length1 == 4
    ensures fresh(H) && H.Length0 == 4 && H.Length1 == 4
    ensures forall i, j :: 0 <= i < 4 && 0 <= j < 4 ==> H[i, j] == Coherency(FromArray(M))[i][j]
    ensures forall i, j :: 0 <= i < 4 && 0 <= j < 4 ==> H[j, i] == Conj(H[i, j])
    ensures forall i :: 0 <= i < 4 ==> H[i, i].im == 0.0
  {
    H := new Complex[4, 4]((_, _) => Zero);
    AssignRow0(H, M);
    AssignRow1(H, M);
    AssignRow2(H, M);
    AssignRow3(H, M);
    assert RowsMatch(H, FromArray(M), 4);
    Hermitian(FromArray(M));
    DiagonalIsReal(FromArray(M));
  }

  /** Row 0: four combinations of the entries of M. */
  method AssignRow0(H: array2<Complex>, M: array2<real>)
    requires H.Length0 == 4 && H.Length1 == 4 && M.Length0 == 4 && M.Length1 == 4
    modifies H
    ensures RowsMatch(H, FromArray(M), 1)
    ensures forall i, j :: 0 < i < 4 && 0 <= j < 4 ==> H[i, j] == old(H[i, j])
  {
    H[0, 0] := Complex(M[0, 0] + M[0, 1] + M[1, 0] + M[1, 1], 0.0);
    H[0, 1] := Complex(M[0, 2] + M[1, 2], M[0, 3] + M[1, 3]);
    H[0, 2] := Complex(M[2, 0] + M[2, 1], -(M[3, 0] + M[3, 1]));
    H[0, 3] := Complex(M[2, 2] + M[3, 3], M[2, 3] - M[3, 2]);
  }

  /** Row 1: H[1, 0] is read back from H[0, 1] and conjugated. */
  method AssignRow1(H: array2<Complex>, M: array2<real>)
    requires H.Length0 == 4 && H.Length1 == 4 && M.Length0 == 4 && M.Length1 == 4
    requires RowsMatch(H, FromArray(M), 1)
    modifies H
    ensures RowsMatch(H, FromArray(M), 2)
    ensures forall i, j :: 1 < i < 4 && 0 <= j < 4 ==> H[i, j] == old(H[i, j])
  {
    H[1, 0] := Conj(H[0, 1]);
    H[1, 1] := Complex(M[0, 0] - M[0, 1] + M[1, 0] - M[1, 1], 0.0);
    H[1, 2] := Complex(M[2, 2] - M[3, 3], -(M[2, 3] + M[3, 2]));
    H[1, 3] := Complex(M[2, 0] - M[2, 1], -(M[3, 0] - M[3, 1]));
  }

  /** Row 2: H[2, 0] and H[2, 1] are conjugates of cells written before. */
  method AssignRow2(H: array2<Complex>, M: array2<real>)
    requires H.Length0 == 4 && H.Length1 == 4 && M.Length0 == 4 && M.Length1 == 4
    requires RowsMatch(H, FromArray(M), 2)
    modifies H
    ensures RowsMatch(H, FromArray(M), 3)
    ensures forall j :: 0 <= j < 4 ==> H[3, j] == old(H[3, j])
  {
    H[2, 0] := Conj(H[0, 2]);
    H[2, 1] := Conj(H[1, 2]);
    H[2, 2] := Complex(M[0, 0] + M[0, 1] - M[1, 0] - M[1, 1], 0.0);
    H[2, 3] := Complex(M[0, 2] - M[1, 2], M[0, 3] - M[1, 3]);
  }

  /** Row 3: every cell but the diagonal is the conjugate of a cell written before. */
  method AssignRow3(H: array2<Complex>, M: array2<real>)
    requires H.Length0 == 4 && H.Length1 == 4 && M.Length0 == 4 && M.Length1 == 4
    requires RowsMatch(H, FromArray(M), 3)
    modifies H
    ensures RowsMatch(H, FromArray(M), 4)
  {
    H[3, 0] := Conj(H[0, 3]);
    H[3, 1] := Conj(H[1, 3]);
    H[3, 2] := Conj(H[2, 3]);
    H[3, 3] := Complex(M[0, 0] - M[0, 1] - M[1, 0] + M[1, 1], 0.0);
  }

  /** H(M) is Hermitian. */
  lemma Hermitian(M: Mueller)
    ensures IsHermitian(Coherency(M))
  {
  }

  /** The diagonal of H(M) is real. */
  lemma DiagonalIsReal(M: Mueller)
    ensures forall i :: 0 <= i < 4 ==> Coherency(M)[i][i].im == 0.0
  {
  }

  /** The trace of H(M) is 4·M[0, 0]. */
  lemma TraceIsFourM00(M: Mueller)
    ensures Trace(Coherency(M)) == Complex(4.0 * M.m00, 0.0)
  {
  }

  /** H(M + N) = H(M) + H(N). */
  lemma Additive(M: Mueller, N: Mueller)
    ensures forall i, j :: 0 <= i < 4 && 0 <= j < 4 ==>
      Coherency(Sum(M, N))[i][j] == Add(Coherency(M)[i][j], Coherency(N)[i][j])
  {
  }

  /**
   * H(t·M) = t·H(M), where t·M is the matrix whose entries are t·M[i, j].
   * CoherencyOfScaledRow.. and ScaledRow.. bring both sides, row by row, to
   * the same combination of the products t·M[i, j].
   */
  lemma Homogeneous(t: real, M: Mueller)
    ensures forall i, j :: 0 <= i < 4 && 0 <= j < 4 ==>
      Coherency(Mueller(t * M.m00, t * M.m01, t * M.m02, t * M.m03,
                  t * M.m10, t * M.m11, t * M.m12, t * M.m13,
                  t * M.m20, t * M.m21, t * M.m22, t * M.m23,
                  t * M.m30, t * M.m31, t * M.m32, t * M.m33))[i][j] == Scale(t, Coherency(M)[i][j])
  {
    CoherencyOfScaledRow0(t, M);
    CoherencyOfScaledRow1(t, M);
    CoherencyOfScaledRow2(t, M);
    CoherencyOfScaledRow3(t, M);
    ScaledRow0(t, M);
    ScaledRow1(t, M);
    ScaledRow2(t, M);
    ScaledRow3(t, M);
  }

  lemma CoherencyOfScaledRow0(t: real, M: Mueller)
    ensures Coherency(Mueller(t * M.m00, t * M.m01, t * M.m02, t * M.m03, t * M.m10, t * M.m11, t * M.m12, t * M.m13, t * M.m20, t * M.m21, t * M.m22, t * M.m23, t * M.m30, t * M.m31, t * M.m32, t * M.m33))[0][0] == Complex(t * M.m00 + t * M.m01 + t * M.m10 + t * M.m11, 0.0)
    ensures Coherency(Mueller(t * M.m00, t * M.m01, t * M.m02, t * M.m03, t * M.m10, t * M.m11, t * M.m12, t * M.m13, t * M.m20, t * M.m21, t * M.m22, t * M.m23, t * M.m30, t * M.m31, t * M.m32, t * M.m33))[0][1] == Complex(t * M.m02 + t * M.m12, t * M.m03 + t * M.m13)
    ensures Coherency(Mueller(t * M.m00, t * M.m01, t * M.m02, t * M.m03, t * M.m10, t * M.m11, t * M.m12, t * M.m13, t * M.m20, t * M.m21, t * M.m22, t * M.m23, t * M.m30, t * M.m31, t * M.m32, t * M.m33))[0][2] == Complex(t * M.m20 + t * M.m21, -(t * M.m30 + t * M.m31))
    ensures Coherency(Mueller(t * M.m00, t * M.m01, t * M.m02, t * M.m03, t * M.m10, t * M.m11, t * M.m12, t * M.m13, t * M.m20, t * M.m21, t * M.m22, t * M.m23, t * M.m30, t * M.m31, t * M.m32, t * M.m33))[0][3] == Complex(t * M.m22 + t * M.m33, t * M.m23 - t * M.m32)
  {
  }

  lemma CoherencyOfScaledRow1(t: real, M: Mueller)
    ensures Coherency(Mueller(t * M.m00, t * M.m01, t * M.m02, t * M.m03, t * M.m10, t * M.m11, t * M.m12, t * M.m13, t * M.m20, t * M.m21, t * M.m22, t * M.m23, t * M.m30, t * M.m31, t * M.m32, t * M.m33))[1][0] == Complex(t * M.m02 + t * M.m12, -(t * M.m03 + t * M.m13))
    ensures Coherency(Mueller(t * M.m00, t * M.m01, t * M.m02, t * M.m03, t * M.m10, t * M.m11, t * M.m12, t * M.m13, t * M.m20, t * M.m21, t * M.m22, t * M.m23, t * M.m30, t * M.m31, t * M.m32, t * M.m33))[1][1] == Complex(t * M.m00 - t * M.m01 + t * M.m10 - t * M.m11, 0.0)
    ensures Coherency(Mueller(t * M.m00, t * M.m01, t * M.m02, t * M.m03, t * M.m10, t * M.m11, t * M.m12, t * M.m13, t * M.m20, t * M.m21, t * M.m22, t * M.m23, t * M.m30, t * M.m31, t * M.m32, t * M.m33))[1][2] == Complex(t * M.m22 - t * M.m33, -(t * M.m23 + t * M.m32))
    ensures Coherency(Mueller(t * M.m00, t * M.m01, t * M.m02, t * M.m03, t * M.m10, t * M.m11, t * M.m12, t * M.m13, t * M.m20, t * M.m21, t * M.m22, t * M.m23, t * M.m30, t * M.m31, t * M.m32, t * M.m33))[1][3] == Complex(t * M.m20 - t * M.m21, -(t * M.m30 - t * M.m31))
  {
  }

  lemma CoherencyOfScaledRow2(t: real, M: Mueller)
    ensures Coherency(Mueller(t * M.m00, t * M.m01, t * M.m02, t * M.m03, t * M.m10, t * M.m11, t * M.m12, t * M.m13, t * M.m20, t * M.m21, t * M.m22, t * M.m23, t * M.m30, t * M.m31, t * M.m32, t * M.m33))[2][0] == Complex(t * M.m20 + t * M.m21, t * M.m30 + t * M.m31)
    ensures Coherency(Mueller(t * M.m00, t * M.m01, t * M.m02, t * M.m03, t * M.m10, t * M.m11, t * M.m12, t * M.m13, t * M.m20, t * M.m21, t * M.m22, t * M.m23, t * M.m30, t * M.m31, t * M.m32, t * M.m33))[2][1] == Complex(t * M.m22 - t * M.m33, t * M.m23 + t * M.m32)
    ensures Coherency(Mueller(t * M.m00, t * M.m01, t * M.m02, t * M.m03, t * M.m10, t * M.m11, t * M.m12, t * M.m13, t * M.m20, t * M.m21, t * M.m22, t * M.m23, t * M.m30, t * M.m31, t * M.m32, t * M.m33))[2][2] == Complex(t * M.m00 + t * M.m01 - t * M.m10 - t * M.m11, 0.0)
    ensures Coherency(Mueller(t * M.m00, t * M.m01, t * M.m02, t * M.m03, t * M.m10, t * M.m11, t * M.m12, t * M.m13, t * M.m20, t * M.m21, t * M.m22, t * M.m23, t * M.m30, t * M.m31, t * M.m32, t * M.m33))[2][3] == Complex(t * M.m02 - t * M.m12, t * M.m03 - t * M.m13)
  {
  }

  lemma CoherencyOfScaledRow3(t: real, M: Mueller)
    ensures Coherency(Mueller(t * M.m00, t * M.m01, t * M.m02, t * M.m03, t * M.m10, t * M.m11, t * M.m12, t * M.m13, t * M.m20, t * M.m21, t * M.m22, t * M.m23, t * M.m30, t * M.m31, t * M.m32, t * M.m33))[3][0] == Complex(t * M.m22 + t * M.m33, -(t * M.m23 - t * M.m32))
    ensures Coherency(Mueller(t * M.m00, t * M.m01, t * M.m02, t * M.m03, t * M.m10, t * M.m11, t * M.m12, t * M.m13, t * M.m20, t * M.m21, t * M.m22, t * M.m23, t * M.m30, t * M.m31, t * M.m32, t * M.m33))[3][1] == Complex(t * M.m20 - t * M.m21, t * M.m30 - t * M.m31)
    ensures Coherency(Mueller(t * M.m00, t * M.m01, t * M.m02, t * M.m03, t * M.m10, t * M.m11, t * M.m12, t * M.m13, t * M.m20, t * M.m21, t * M.m22, t * M.m23, t * M.m30, t * M.m31, t * M.m32, t * M.m33))[3][2] == Complex(t * M.m02 - t * M.m12, -(t * M.m03 - t * M.m13))
    ensures Coherency(Mueller(t * M.m00, t * M.m01, t * M.m02, t * M.m03, t * M.m10, t * M.m11, t * M.m12, t * M.m13, t * M.m20, t * M.m21, t * M.m22, t * M.m23, t * M.m30, t * M.m31, t * M.m32, t * M.m33))[3][3] == Complex(t * M.m00 - t * M.m01 - t * M.m10 + t * M.m11, 0.0)
  {
  }

  lemma ScaledRow0(t: real, M: Mueller)
    ensures Scale(t, Coherency(M)[0][0]) == Complex(t * M.m00 + t * M.m01 + t * M.m10 + t * M.m11, 0.0)
    ensures Scale(t, Coherency(M)[0][1]) == Complex(t * M.m02 + t * M.m12, t * M.m03 + t * M.m13)
    ensures Scale(t, Coherency(M)[0][2]) == Complex(t * M.m20 + t * M.m21, -(t * M.m30 + t * M.m31))
    ensures Scale(t, Coherency(M)[0][3]) == Complex(t * M.m22 + t * M.m33, t * M.m23 - t * M.m32)
  {
  }

  lemma ScaledRow1(t: real, M: Mueller)
    ensures Scale(t, Coherency(M)[1][0]) == Complex(t * M.m02 + t * M.m12, -(t * M.m03 + t * M.m13))
    ensures Scale(t, Coherency(M)[1][1]) == Complex(t * M.m00 - t * M.m01 + t * M.m10 - t * M.m11, 0.0)
    ensures Scale(t, Coherency(M)[1][2]) == Complex(t * M.m22 - t * M.m33, -(t * M.m23 + t * M.m32))
    ensures Scale(t, Coherency(M)[1][3]) == Complex(t * M.m20 - t * M.m21, -(t * M.m30 - t * M.m31))
  {
  }

  lemma ScaledRow2(t: real, M: Mueller)
    ensures Scale(t, Coherency(M)[2][0]) == Complex(t * M.m20 + t * M.m21, t * M.m30 + t * M.m31)
    ensures Scale(t, Coherency(M)[2][1]) == Complex(t * M.m22 - t * M.m33, t * M.m23 + t * M.m32)
    ensures Scale(t, Coherency(M)[2][2]) == Complex(t * M.m00 + t * M.m01 - t * M.m10 - t * M.m11, 0.0)
    ensures Scale(t, Coherency(M)[2][3]) == Complex(t * M.m02 - t * M.m12, t * M.m03 - t * M.m13)
  {
  }

  lemma ScaledRow3(t: real, M: Mueller)
    ensures Scale(t, Coherency(M)[3][0]) == Complex(t * M.m22 + t * M.m33, -(t * M.m23 - t * M.m32))
    ensures Scale(t, Coherency(M)[3][1]) == Complex(t * M.m20 - t * M.m21, t * M.m30 - t * M.m31)
    ensures Scale(t, Coherency(M)[3][2]) == Complex(t * M.m02 - t * M.m12, -(t * M.m03 - t * M.m13))
    ensures Scale(t, Coherency(M)[3][3]) == Complex(t * M.m00 - t * M.m01 - t * M.m10 + t * M.m11, 0.0)
  {
  }

  /** The zero matrix maps to the zero matrix. */
  lemma ZeroImage()
    ensures forall i, j :: 0 <= i < 4 && 0 <= j < 4 ==> Coherency(ZeroMatrix)[i][j] == Zero
  {
  }

  /** The identity maps to 2 at [0][0], [0][3], [3][0] and [3][3], and 0 elsewhere. */
  lemma IdentityImage()
    ensures forall i, j :: 0 <= i < 4 && 0 <= j < 4 ==>
      Coherency(IdentityMatrix)[i][j] ==
        if (i == 0 || i == 3) && (j == 0 || j == 3) then Complex(2.0, 0.0) else Zero
  {
    forall i, j | 0 <= i < 4 && 0 <= j < 4
      ensures Coherency(IdentityMatrix)[i][j] ==
        if (i == 0 || i == 3) && (j == 0 || j == 3) then Complex(2.0, 0.0) else Zero
    {
      var H := Coherency(IdentityMatrix);
      assert H[0] == [Complex(2.0, 0.0), Zero, Zero, Complex(2.0, 0.0)];
      assert H[1] == [Zero, Zero, Zero, Zero];
      assert H[2] == [Zero, Zero, Zero, Zero];
      assert H[3] == [Complex(2.0, 0.0), Zero, Zero, Complex(2.0, 0.0)];
    }
  }

  /** The squared Frobenius norm of H(M) is four times the sum of squares of M. */
  lemma FrobeniusIsFourSumOfSquares(M: Mueller)
    ensures FrobeniusSq(Coherency(M)) == 4.0 * SumOfSquares(M)
  {
  }
}
