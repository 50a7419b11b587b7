/**
 * The C3 that the characteristic-polynomial test evidently intends, and what
 * the transcribed C3 does differently. In the factor of C3 that multiplies
 * M[0, 0], every squared entry carries -4 except M[1, 0]², M[2, 0]² and
 * M[3, 0]², which are written with a doubled minus sign and so carry +4
 * (prtest/prtest.py:68-70). On matrices whose only non-zero entries are
 * M[0, 0] = a and M[1, 0] = b the coherency matrix is diagonal with entries
 * a + b, a + b, a - b, a - b; the test with -4 accepts exactly when all four
 * are non-negative, the test as written accepts more.
 *
 * As in CharPoly, the scaling lemmas write t·M out entry by entry.
 */
module Findings {
  import opened ComplexNumbers
  import opened MuellerMatrix
  import opened CoherencyMatrix
  import opened CharPoly

  /** C3 with -4 on every squared entry of the factor multiplying m00. */
  function C3Intended(
      m00: real, m01: real, m02: real, m03: real,
      m10: real, m11: real, m12: real, m13: real,
      m20: real, m21: real, m22: real, m23: real,
      m30: real, m31: real, m32: real, m33: real): real
  {
    (4.0 * m00 * m00 * m00 +
      (-4.0 * m01 * m01 - 4.0 * m02 * m02 - 4.0 * m03 * m03 -
      4.0 * m10 * m10 - 4.0 * m11 * m11 - 4.0 * m12 * m12 - 4.0 * m13 * m13 -
      4.0 * m20 * m20 - 4.0 * m21 * m21 - 4.0 * m22 * m22 - 4.0 * m23 * m23 -
      4.0 * m30 * m30 - 4.0 * m31 * m31 - 4.0 * m32 * m32 - 4.0 * m33 * m33) * m00 +
      (8.0 * m10 * m11 + 8.0 * m20 * m21 + 8.0 * m30 * m31) * m01 +
      (8.0 * m10 * m12 + 8.0 * m20 * m22 + 8.0 * m30 * m32) * m02 +
      (8.0 * m10 * m13 + 8.0 * m20 * m23 + 8.0 * m30 * m33) * m03 +
      (8.0 * m22 * m33 - 8.0 * m23 * m32) * m11 +
      (-8.0 * m21 * m33 + 8.0 * m23 * m31) * m12 +
      8.0 * m13 * (m21 * m32 - m22 * m31))
  }

  /** The coefficients of the test with C3Intended in place of C3. */
  function CoeffsIntended(M: Mueller): Coefficients {
    Coefficients(
      M.m00,
      C2(M.m00, M.m01, M.m02, M.m03,
         M.m10, M.m11, M.m12, M.m13,
         M.m20, M.m21, M.m22, M.m23,
         M.m30, M.m31, M.m32, M.m33),
      C3Intended(M.m00, M.m01, M.m02, M.m03,
                 M.m10, M.m11, M.m12, M.m13,
                 M.m20, M.m21, M.m22, M.m23,
                 M.m30, M.m31, M.m32, M.m33),
      C4(M.m00, M.m01, M.m02, M.m03,
         M.m10, M.m11, M.m12, M.m13,
         M.m20, M.m21, M.m22, M.m23,
         M.m30, M.m31, M.m32, M.m33))
  }

  /** The test with C3Intended in place of C3. */
  predicate CharpolyIntended(M: Mueller, verbose: bool) {
    Verdict(CoeffsIntended(M))
  }

  /** The two versions of C3 differ by 8·m00·(m10² + m20² + m30²). */
  lemma C3Gap(m00: real, m01: real, m02: real, m03: real,
      m10: real, m11: real, m12: real, m13: real,
      m20: real, m21: real, m22: real, m23: real,
      m30: real, m31: real, m32: real, m33: real)
    ensures C3(m00, m01, m02, m03,
      m10, m11, m12, m13,
      m20, m21, m22, m23,
      m30, m31, m32, m33) -
      C3Intended(m00, m01, m02, m03,
      m10, m11, m12, m13,
      m20, m21, m22, m23,
      m30, m31, m32, m33) ==
      8.0 * m00 * (m10 * m10 + m20 * m20 + m30 * m30)
  {
  }

  /** The matrix whose only non-zero entries are M[0, 0] = a and M[1, 0] = b. */
  function FirstColumn(a: real, b: real): Mueller {
    Mueller(a, 0.0, 0.0, 0.0, b, 0.0, 0.0, 0.0, 0.0, 0.0, 0.0, 0.0, 0.0, 0.0, 0.0, 0.0)
  }

  /** H(FirstColumn(a, b)) is diagonal, with entries a + b, a + b, a - b and a - b. */
  lemma CoherencyOfFirstColumn(a: real, b: real)
    ensures forall i, j :: 0 <= i < 4 && 0 <= j < 4 ==>
      Coherency(FirstColumn(a, b))[i][j] ==
        if i != j then Zero else if i < 2 then Complex(a + b, 0.0) else Complex(a - b, 0.0)
  {
    var H := Coherency(FirstColumn(a, b));
    assert H[0] == [Complex(a + b, 0.0), Zero, Zero, Zero];
    assert H[1] == [Zero, Complex(a + b, 0.0), Zero, Zero];
    assert H[2] == [Zero, Zero, Complex(a - b, 0.0), Zero];
    assert H[3] == [Zero, Zero, Zero, Complex(a - b, 0.0)];
  }

  /** Both sets of coefficients on FirstColumn(a, b); only C3 differs. */
  lemma CoeffsOfFirstColumn(a: real, b: real)
    ensures Coeffs(FirstColumn(a, b)) ==
      Coefficients(a, 3.0 * a * a - b * b, 4.0 * a * (a * a + b * b), (a * a - b * b) * (a * a - b * b))
    ensures CoeffsIntended(FirstColumn(a, b)) ==
      Coefficients(a, 3.0 * a * a - b * b, 4.0 * a * (a * a - b * b), (a * a - b * b) * (a * a - b * b))
  {
  }

  /*
   * Sign facts about products, used by the lemmas on FirstColumn below; each
   * is stated on plain variables so the solver meets one product at a time.
   */

  lemma ProductNonNegative(x: real, y: real)
    requires x >= 0.0 && y >= 0.0
    ensures x * y >= 0.0
  {
  }

  lemma SquareNonNegative(x: real)
    ensures x * x >= 0.0
  {
  }

  /**
   * As written, FirstColumn(a, b) is accepted exactly when a >= 0 and
   * b² <= 3·a²: C3 and C4 are then non-negative whatever b is.
   */
  lemma AsWrittenOnFirstColumn(a: real, b: real, verbose: bool)
    ensures Charpoly(FirstColumn(a, b), verbose) <==> a >= 0.0 && b * b <= 3.0 * a * a
  {
    CoeffsOfFirstColumn(a, b);
    AsWrittenSigns(a, b);
  }

  /** The sign conditions of the test as written on FirstColumn(a, b). */
  lemma AsWrittenSigns(a: real, b: real)
    ensures (a >= 0.0 && 3.0 * a * a - b * b >= 0.0 && 4.0 * a * (a * a + b * b) >= 0.0 &&
             (a * a - b * b) * (a * a - b * b) >= 0.0) <==> (a >= 0.0 && b * b <= 3.0 * a * a)
  {
    SquareNonNegative(a);
    SquareNonNegative(b);
    SquareNonNegative(a * a - b * b);
    if a >= 0.0 {
      ProductNonNegative(4.0 * a, a * a + b * b);
    }
  }

  /**
   * With C3Intended, FirstColumn(a, b) is accepted exactly when the four
   * diagonal entries a + b and a - b of its coherency matrix are non-negative.
   */
  lemma IntendedOnFirstColumn(a: real, b: real, verbose: bool)
    ensures CharpolyIntended(FirstColumn(a, b), verbose) <==> a + b >= 0.0 && a - b >= 0.0
  {
    CoeffsOfFirstColumn(a, b);
    IntendedSigns(a, b);
  }

  /** The sign conditions of the corrected test on FirstColumn(a, b), both directions. */
  lemma IntendedSigns(a: real, b: real)
    ensures (a >= 0.0 && 3.0 * a * a - b * b >= 0.0 && 4.0 * a * (a * a - b * b) >= 0.0 &&
             (a * a - b * b) * (a * a - b * b) >= 0.0) <==> (a + b >= 0.0 && a - b >= 0.0)
  {
    if a + b >= 0.0 && a - b >= 0.0 {
      IntendedSignsIf(a, b);
    }
    if a >= 0.0 && 3.0 * a * a - b * b >= 0.0 && 4.0 * a * (a * a - b * b) >= 0.0 {
      IntendedSignsOnlyIf(a, b);
    }
  }

  lemma IntendedSignsIf(a: real, b: real)
    requires a + b >= 0.0 && a - b >= 0.0
    ensures a >= 0.0 && 3.0 * a * a - b * b >= 0.0 && 4.0 * a * (a * a - b * b) >= 0.0 &&
            (a * a - b * b) * (a * a - b * b) >= 0.0
  {
    ProductNonNegative(a + b, a - b);
    assert a * a - b * b == (a + b) * (a - b);
    ProductNonNegative(4.0 * a, a * a - b * b);
    SquareNonNegative(a * a - b * b);
    SquareNonNegative(a);
  }

  lemma IntendedSignsOnlyIf(a: real, b: real)
    requires a >= 0.0 && 3.0 * a * a - b * b >= 0.0 && 4.0 * a * (a * a - b * b) >= 0.0
    ensures a + b >= 0.0 && a - b >= 0.0
  {
    if a - b < 0.0 {
      SquaresOrdered(a, b);
      if a > 0.0 {
        NegativeTimesPositive(a, a * a - b * b);
      }
    }
    if a + b < 0.0 {
      SquaresOrdered(a, -b);
      if a > 0.0 {
        NegativeTimesPositive(a, a * a - b * b);
      }
    }
  }
  /** If b > a >= 0 then a² - b² < 0. */
  lemma SquaresOrdered(a: real, b: real)
    requires 0.0 <= a < b
    ensures a * a < b * b
  {
    ProductPositive(b - a, b + a);
    assert (b - a) * (b + a) == b * b - a * a;
  }

  lemma ProductPositive(x: real, y: real)
    requires x > 0.0 && y > 0.0
    ensures x * y > 0.0
  {
  }

  lemma NegativeTimesPositive(a: real, d: real)
    requires a > 0.0 && d < 0.0
    ensures 4.0 * a * d < 0.0
  {
  }

  /**
   * M[0, 0] = 3 and M[1, 0] = 5 (all else 0): charpoly as written accepts it,
   * although H(M)[2][2] = -2, so H(M) is not positive semidefinite.
   */
  lemma AcceptsNonRealizable(verbose: bool)
    ensures Charpoly(FirstColumn(3.0, 5.0), verbose)
    ensures Coherency(FirstColumn(3.0, 5.0))[2][2] == Complex(-2.0, 0.0)
  {
    AsWrittenOnFirstColumn(3.0, 5.0, verbose);
  }

  /** The intended test rejects the same matrix, since its C3 is -192. */
  lemma IntendedRejectsIt(verbose: bool)
    ensures CoeffsIntended(FirstColumn(3.0, 5.0)).c3 == -192.0
    ensures !CharpolyIntended(FirstColumn(3.0, 5.0), verbose)
  {
    CoeffsOfFirstColumn(3.0, 5.0);
  }

  /** Every matrix the intended test accepts is also accepted as written. */
  lemma IntendedIsStricter(M: Mueller, verbose: bool)
    ensures CharpolyIntended(M, verbose) ==> Charpoly(M, verbose)
  {
    C3GapOf(M);
    if M.m00 >= 0.0 {
      GapNonNegative(M);
    }
  }

  lemma GapNonNegative(M: Mueller)
    requires M.m00 >= 0.0
    ensures 8.0 * M.m00 * (M.m10 * M.m10 + M.m20 * M.m20 + M.m30 * M.m30) >= 0.0
  {
    SquareNonNegative(M.m10);
    SquareNonNegative(M.m20);
    SquareNonNegative(M.m30);
    ProductNonNegative(8.0 * M.m00, M.m10 * M.m10 + M.m20 * M.m20 + M.m30 * M.m30);
  }

  /**
   * The two tests agree on every M whose polarizance entries M[1, 0], M[2, 0]
   * and M[3, 0] are all 0.
   */
  lemma AgreeWithoutPolarizance(M: Mueller, verbose: bool)
    requires M.m10 == 0.0 && M.m20 == 0.0 && M.m30 == 0.0
    ensures CharpolyIntended(M, verbose) == Charpoly(M, verbose)
  {
    C3GapOf(M);
  }

  lemma C3GapOf(M: Mueller)
    ensures Coeffs(M).c3 - CoeffsIntended(M).c3 ==
      8.0 * M.m00 * (M.m10 * M.m10 + M.m20 * M.m20 + M.m30 * M.m30)
    ensures Coeffs(M).c1 == CoeffsIntended(M).c1 && Coeffs(M).c2 == CoeffsIntended(M).c2
    ensures Coeffs(M).c4 == CoeffsIntended(M).c4
  {
    C3Gap(M.m00, M.m01, M.m02, M.m03, M.m10, M.m11, M.m12, M.m13,
          M.m20, M.m21, M.m22, M.m23, M.m30, M.m31, M.m32, M.m33);
  }

  /** C3Intended is homogeneous of degree 3, like C3. */
  lemma C3IntendedScales(t: real, M: Mueller)
    ensures C3Intended(t * M.m00, t * M.m01, t * M.m02, t * M.m03,
        t * M.m10, t * M.m11, t * M.m12, t * M.m13,
        t * M.m20, t * M.m21, t * M.m22, t * M.m23,
        t * M.m30, t * M.m31, t * M.m32, t * M.m33) ==
      t * t * t * C3Intended(M.m00, M.m01, M.m02, M.m03,
        M.m10, M.m11, M.m12, M.m13,
        M.m20, M.m21, M.m22, M.m23,
        M.m30, M.m31, M.m32, M.m33)
  {
  }

  /** For t > 0, C3Intended of t·M has the sign of C3Intended of M. */
  lemma C3IntendedSignScales(t: real, M: Mueller)
    requires t > 0.0
    ensures C3Intended(t * M.m00, t * M.m01, t * M.m02, t * M.m03,
        t * M.m10, t * M.m11, t * M.m12, t * M.m13,
        t * M.m20, t * M.m21, t * M.m22, t * M.m23,
        t * M.m30, t * M.m31, t * M.m32, t * M.m33) >= 0.0 <==>
      C3Intended(M.m00, M.m01, M.m02, M.m03,
        M.m10, M.m11, M.m12, M.m13,
        M.m20, M.m21, M.m22, M.m23,
        M.m30, M.m31, M.m32, M.m33) >= 0.0
  {
    C3IntendedScales(t, M);
    Sign3(t, C3Intended(M.m00, M.m01, M.m02, M.m03,
        M.m10, M.m11, M.m12, M.m13,
        M.m20, M.m21, M.m22, M.m23,
        M.m30, M.m31, M.m32, M.m33));
  }

  /** Scaling M by any t > 0 does not change the verdict of the intended test either. */
  lemma IntendedScaleInvariant(t: real, M: Mueller, verbose: bool)
    requires t > 0.0
    ensures CharpolyIntended(Mueller(t * M.m00, t * M.m01, t * M.m02, t * M.m03,
                             t * M.m10, t * M.m11, t * M.m12, t * M.m13,
                             t * M.m20, t * M.m21, t * M.m22, t * M.m23,
                             t * M.m30, t * M.m31, t * M.m32, t * M.m33), verbose) ==
      CharpolyIntended(M, verbose)
  {
    Sign1(t, M.m00);
    C2SignScales(t, M);
    C3IntendedSignScales(t, M);
    C4SignScales(t, M);
  }

  /** The intended test also accepts the zero matrix and the identity. */
  lemma IntendedAcceptsZeroAndIdentity(verbose: bool)
    ensures CoeffsIntended(ZeroMatrix) == Coefficients(0.0, 0.0, 0.0, 0.0)
    ensures CoeffsIntended(IdentityMatrix) == Coefficients(1.0, 0.0, 0.0, 0.0)
    ensures CharpolyIntended(ZeroMatrix, verbose) && CharpolyIntended(IdentityMatrix, verbose)
  {
  }
}
