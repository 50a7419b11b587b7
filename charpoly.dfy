/**
 * The characteristic-polynomial test (charpoly in prtest/prtest.py): four
 * real coefficients C1..C4, each a fixed polynomial in the sixteen entries of
 * M, and the verdict that all four are non-negative. The polynomials are
 * transcribed term by term, including the three terms of C3 written with a
 * doubled minus sign, which therefore enter with a plus sign.
 *
 * C2, C3 and C4 take the sixteen entries as separate reals, and the lemmas
 * about scaling write t·M out entry by entry as Mueller(t * M.m00, ...,
 * t * M.m33) rather than through a helper function: the solver treats a
 * product of reals as an uninterpreted term, so two statements about t·M
 * connect only when they spell each product t * M.mij identically.
 */
module CharPoly {
  import opened MuellerMatrix
  import opened CoherencyMatrix

  /** The coefficient C2, of degree 2. */
  function C2(
      m00: real, m01: real, m02: real, m03: real,
      m10: real, m11: real, m12: real, m13: real,
      m20: real, m21: real, m22: real, m23: real,
      m30: real, m31: real, m32: real, m33: real): real
  {
    (3.0 * m00 * m00 - m01 * m01 - m02 * m02 - m03 * m03 -
      m10 * m10 - m11 * m11 - m12 * m12 - m13 * m13 -
      m20 * m20 - m21 * m21 - m22 * m22 - m23 * m23 -
      m30 * m30 - m31 * m31 - m32 * m32 - m33 * m33)
  }

  /**
   * The coefficient C3, of degree 3, as written: the terms in M[1, 0]², M[2, 0]² and
   * M[3, 0]² of the factor multiplying M[0, 0] carry +4.
   */
  function C3(
      m00: real, m01: real, m02: real, m03: real,
      m10: real, m11: real, m12: real, m13: real,
      m20: real, m21: real, m22: real, m23: real,
      m30: real, m31: real, m32: real, m33: real): real
  {
    (4.0 * m00 * m00 * m00 +
      (-4.0 * m01 * m01 - 4.0 * m02 * m02 - 4.0 * m03 * m03 -
      -4.0 * m10 * m10 - 4.0 * m11 * m11 - 4.0 * m12 * m12 - 4.0 * m13 * m13 -
      -4.0 * m20 * m20 - 4.0 * m21 * m21 - 4.0 * m22 * m22 - 4.0 * m23 * m23 -
      -4.0 * m30 * m30 - 4.0 * m31 * m31 - 4.0 * m32 * m32 - 4.0 * m33 * m33) * m00 +
      (8.0 * m10 * m11 + 8.0 * m20 * m21 + 8.0 * m30 * m31) * m01 +
      (8.0 * m10 * m12 + 8.0 * m20 * m22 + 8.0 * m30 * m32) * m02 +
      (8.0 * m10 * m13 + 8.0 * m20 * m23 + 8.0 * m30 * m33) * m03 +
      (8.0 * m22 * m33 - 8.0 * m23 * m32) * m11 +
      (-8.0 * m21 * m33 + 8.0 * m23 * m31) * m12 +
      8.0 * m13 * (m21 * m32 - m22 * m31))
  }

  /** The coefficient C4, of degree 4. */
  function C4(
      m00: real, m01: real, m02: real, m03: real,
      m10: real, m11: real, m12: real, m13: real,
      m20: real, m21: real, m22: real, m23: real,
      m30: real, m31: real, m32: real, m33: real): real
  {
    (m00 * m00 * m00 * m00 + m01 * m01 * m01 * m01 + m02 * m02 * m02 * m02 + m10 * m10 * m10 * m10 +
      m11 * m11 * m11 * m11 + m12 * m12 * m12 * m12 + m20 * m20 * m20 * m20 + m21 * m21 * m21 * m21 +
      m22 * m22 * m22 * m22 + m03 * m03 * m03 * m03 + m13 * m13 * m13 * m13 + m23 * m23 * m23 * m23 +
      8.0 * m22 * m23 * m32 * m33 -
      8.0 * m30 * (m21 * m31 + m22 * m32 + m23 * m33) * m20 +
      8.0 * m31 * (m22 * m32 + m23 * m33) * m21 +
      8.0 * m13 * (m22 * m23 + m32 * m33) * m12 +
      (m30 * m30 - m31 * m31 - m32 * m32 - m33 * m33) * (m30 * m30 - m31 * m31 - m32 * m32 - m33 * m33) +
      (2.0 * m30 * m30 - 2.0 * m31 * m31 - 2.0 * m32 * m32 + 2.0 * m33 * m33) * m23 * m23 +
      (2.0 * m23 * m23 + 2.0 * m30 * m30 - 2.0 * m31 * m31 + 2.0 * m32 * m32 - 2.0 * m33 * m33) * m22 * m22 +
      (2.0 * m22 * m22 + 2.0 * m23 * m23 + 2.0 * m30 * m30 + 2.0 * m31 * m31 - 2.0 * m32 * m32 - 2.0 * m33 * m33) * m21 * m21 +
      (-2.0 * m21 * m21 - 2.0 * m22 * m22 - 2.0 * m23 * m23 + 2.0 * m30 * m30 + 2.0 * m31 * m31 + 2.0 * m32 * m32 + 2.0 * m33 * m33) * m20 * m20 +
      (2.0 * m20 * m20 - 2.0 * m21 * m21 - 2.0 * m22 * m22 + 2.0 * m23 * m23 + 2.0 * m30 * m30 - 2.0 * m31 * m31 - 2.0 * m32 * m32 + 2.0 * m33 * m33) * m13 * m13 +
      (2.0 * m13 * m13 + 2.0 * m20 * m20 - 2.0 * m21 * m21 + 2.0 * m22 * m22 - 2.0 * m23 * m23 + 2.0 * m30 * m30 - 2.0 * m31 * m31 + 2.0 * m32 * m32 - 2.0 * m33 * m33) * m12 * m12 +
      ((8.0 * m21 * m22 + 8.0 * m31 * m32) * m12 +
      8.0 * m13 * (m21 * m23 + m31 * m33)) * m11 +
      (2.0 * m12 * m12 + 2.0 * m13 * m13 + 2.0 * m20 * m20 + 2.0 * m21 * m21 - 2.0 * m22 * m22 - 2.0 * m23 * m23 + 2.0 * m30 * m30 + 2.0 * m31 * m31 - 2.0 * m32 * m32 - 2.0 * m33 * m33) * m11 * m11 +
      ((-8.0 * m20 * m21 - 8.0 * m30 * m31) * m11 + (-8.0 * m20 * m22 - 8.0 * m30 * m32) * m12 -
      8.0 * m13 * (m20 * m23 + m30 * m33)) * m10 +
      (-2.0 * m11 * m11 - 2.0 * m12 * m12 - 2.0 * m13 * m13 + 2.0 * m20 * m20 + 2.0 * m21 * m21 + 2.0 * m22 * m22 + 2.0 * m23 * m23 + 2.0 * m30 * m30 + 2.0 * m31 * m31 + 2.0 * m32 * m32 + 2.0 * m33 * m33) * m10 * m10 +
      ((-8.0 * m21 * m32 + 8.0 * m22 * m31) * m10 +
      (8.0 * m20 * m32 - 8.0 * m22 * m30) * m11 +
      8.0 * m12 * (-m20 * m31 + m21 * m30)) * m03 +
      (-2.0 * m10 * m10 + 2.0 * m11 * m11 + 2.0 * m12 * m12 - 2.0 * m13 * m13 - 2.0 * m20 * m20 + 2.0 * m21 * m21 + 2.0 * m22 * m22 - 2.0 * m23 * m23 - 2.0 * m30 * m30 + 2.0 * m31 * m31 + 2.0 * m32 * m32 - 2.0 * m33 * m33) * m03 * m03 +
      ((-8.0 * m12 * m13 - 8.0 * m22 * m23 - 8.0 * m32 * m33) * m03 +
      (8.0 * m21 * m33 - 8.0 * m23 * m31) * m10 +
      (-8.0 * m20 * m33 + 8.0 * m23 * m30) * m11 -
      8.0 * m13 * (-m20 * m31 + m21 * m30)) * m02 +
      (2.0 * m03 * m03 - 2.0 * m10 * m10 + 2.0 * m11 * m11 - 2.0 * m12 * m12 + 2.0 * m13 * m13 - 2.0 * m20 * m20 + 2.0 * m21 * m21 - 2.0 * m22 * m22 + 2.0 * m23 * m23 - 2.0 * m30 * m30 + 2.0 * m31 * m31 - 2.0 * m32 * m32 + 2.0 * m33 * m33) * m02 * m02 +
      ((-8.0 * m11 * m12 - 8.0 * m21 * m22 - 8.0 * m31 * m32) * m02 +
      (-8.0 * m11 * m13 - 8.0 * m21 * m23 - 8.0 * m31 * m33) * m03 +
      (-8.0 * m22 * m33 + 8.0 * m23 * m32) * m10 +
      (8.0 * m20 * m33 - 8.0 * m23 * m30) * m12 +
      8.0 * m13 * (-m20 * m32 + m22 * m30)) * m01 +
      (2.0 * m02 * m02 + 2.0 * m03 * m03 - 2.0 * m10 * m10 - 2.0 * m11 * m11 + 2.0 * m12 * m12 + 2.0 * m13 * m13 - 2.0 * m20 * m20 - 2.0 * m21 * m21 + 2.0 * m22 * m22 + 2.0 * m23 * m23 - 2.0 * m30 * m30 - 2.0 * m31 * m31 + 2.0 * m32 * m32 + 2.0 * m33 * m33) * m01 * m01 +
      ((8.0 * m10 * m11 + 8.0 * m20 * m21 + 8.0 * m30 * m31) * m01 +
      (8.0 * m10 * m12 + 8.0 * m20 * m22 + 8.0 * m30 * m32) * m02 +
      (8.0 * m10 * m13 + 8.0 * m20 * m23 + 8.0 * m30 * m33) * m03 +
      (8.0 * m22 * m33 - 8.0 * m23 * m32) * m11 +
      (-8.0 * m21 * m33 + 8.0 * m23 * m31) * m12 +
      8.0 * m13 * (m21 * m32 - m22 * m31)) * m00 +
      (-2.0 * m01 * m01 - 2.0 * m02 * m02 - 2.0 * m03 * m03 - 2.0 * m10 * m10 -
      2.0 * m11 * m11 - 2.0 * m12 * m12 - 2.0 * m13 * m13 - 2.0 * m20 * m20 -
      2.0 * m21 * m21 - 2.0 * m22 * m22 - 2.0 * m23 * m23 - 2.0 * m30 * m30 -
      2.0 * m31 * m31 - 2.0 * m32 * m32 - 2.0 * m33 * m33) * m00 * m00)
  }

  /** The four coefficients C1..C4 of the test. */
  datatype Coefficients = Coefficients(c1: real, c2: real, c3: real, c4: real)

  /** C1..C4 for the matrix M; C1 is M[0, 0] itself. */
  function Coeffs(M: Mueller): Coefficients {
    Coefficients(
      M.m00,
      C2(M.m00, M.m01, M.m02, M.m03,
         M.m10, M.m11, M.m12, M.m13,
         M.m20, M.m21, M.m22, M.m23,
         M.m30, M.m31, M.m32, M.m33),
      C3(M.m00, M.m01, M.m02, M.m03,
         M.m10, M.m11, M.m12, M.m13,
         M.m20, M.m21, M.m22, M.m23,
         M.m30, M.m31, M.m32, M.m33),
      C4(M.m00, M.m01, M.m02, M.m03,
         M.m10, M.m11, M.m12, M.m13,
         M.m20, M.m21, M.m22, M.m23,
         M.m30, M.m31, M.m32, M.m33))
  }

  /** The sign test: all four coefficients are non-negative, compared with no tolerance. */
  predicate Verdict(c: Coefficients) {
    c.c1 >= 0.0 && c.c2 >= 0.0 && c.c3 >= 0.0 && c.c4 >= 0.0
  }

  /**
   * charpoly(M, verbose). verbose only selects the diagnostic printing of
   * C1..C4, which is not modelled, and takes no part in the verdict.
   */
  predicate Charpoly(M: Mueller, verbose: bool) {
    Verdict(Coeffs(M))
  }

  /** The verdict does not depend on verbose. */
  lemma VerboseIrrelevant(M: Mueller)
    ensures Charpoly(M, true) == Charpoly(M, false)
  {
  }

  /** A matrix with M[0, 0] < 0 is rejected, since C1 is M[0, 0]. */
  lemma RejectsNegativeM00(M: Mueller, verbose: bool)
    requires M.m00 < 0.0
    ensures !Charpoly(M, verbose)
  {
  }

  /** C2 is 4·m00² minus the sum of the squares of all sixteen arguments (the step behind C2Bound). */
  lemma C2AsSquares(m00: real, m01: real, m02: real, m03: real,
      m10: real, m11: real, m12: real, m13: real,
      m20: real, m21: real, m22: real, m23: real,
      m30: real, m31: real, m32: real, m33: real)
    ensures C2(m00, m01, m02, m03,
      m10, m11, m12, m13,
      m20, m21, m22, m23,
      m30, m31, m32, m33) ==
      4.0 * m00 * m00 - SumOfSquares(Mueller(m00, m01, m02, m03,
      m10, m11, m12, m13,
      m20, m21, m22, m23,
      m30, m31, m32, m33))
  {
  }

  /**
   * C2 is at most 3·m00², since it subtracts the squares of the other fifteen
   * arguments (the step behind C2AtMostThreeM00Squared).
   */
  lemma C2AtMost(m00: real, m01: real, m02: real, m03: real,
      m10: real, m11: real, m12: real, m13: real,
      m20: real, m21: real, m22: real, m23: real,
      m30: real, m31: real, m32: real, m33: real)
    ensures C2(m00, m01, m02, m03,
      m10, m11, m12, m13,
      m20, m21, m22, m23,
      m30, m31, m32, m33) <= 3.0 * m00 * m00
  {
  }

  /** C2 is 4·M[0, 0]² minus the sum of the squares of all sixteen entries. */
  lemma C2Bound(M: Mueller)
    ensures Coeffs(M).c2 == 4.0 * M.m00 * M.m00 - SumOfSquares(M)
  {
    C2AsSquares(M.m00, M.m01, M.m02, M.m03,
      M.m10, M.m11, M.m12, M.m13,
      M.m20, M.m21, M.m22, M.m23,
      M.m30, M.m31, M.m32, M.m33);
    assert Mueller(M.m00, M.m01, M.m02, M.m03,
      M.m10, M.m11, M.m12, M.m13,
      M.m20, M.m21, M.m22, M.m23,
      M.m30, M.m31, M.m32, M.m33) == M;
  }

  /** C2 is at most 3·M[0, 0]². */
  lemma C2AtMostThreeM00Squared(M: Mueller)
    ensures Coeffs(M).c2 <= 3.0 * M.m00 * M.m00
  {
    C2AtMost(M.m00, M.m01, M.m02, M.m03,
      M.m10, M.m11, M.m12, M.m13,
      M.m20, M.m21, M.m22, M.m23,
      M.m30, M.m31, M.m32, M.m33);
  }

  /** An accepted matrix has sum of squares at most 4·M[0, 0]². */
  lemma AcceptedIsBounded(M: Mueller, verbose: bool)
    requires Charpoly(M, verbose)
    ensures SumOfSquares(M) <= 4.0 * M.m00 * M.m00
  {
    C2Bound(M);
  }

  /** The trace of H(M) is 4·M[0, 0], so its square is 16·M[0, 0]². */
  lemma TraceSquared(M: Mueller)
    ensures Trace(Coherency(M)).re * Trace(Coherency(M)).re == 16.0 * M.m00 * M.m00
  {
    TraceIsFourM00(M);
  }

  /**
   * C1 is a quarter of the trace of H(M), and C2 a quarter of the square of
   * that trace minus the squared Frobenius norm of H(M).
   */
  lemma C1C2FromCoherency(M: Mueller)
    ensures Coeffs(M).c1 == Trace(Coherency(M)).re / 4.0
    ensures Coeffs(M).c2 ==
      (Trace(Coherency(M)).re * Trace(Coherency(M)).re - FrobeniusSq(Coherency(M))) / 4.0
  {
    TraceIsFourM00(M);
    TraceSquared(M);
    FrobeniusIsFourSumOfSquares(M);
    C2Bound(M);
  }

  /** For the zero matrix all four coefficients are 0, and it is accepted. */
  lemma ZeroAccepted(verbose: bool)
    ensures Coeffs(ZeroMatrix) == Coefficients(0.0, 0.0, 0.0, 0.0)
    ensures Charpoly(ZeroMatrix, verbose)
  {
  }

  /** For the identity C1 = 1 and C2 = C3 = C4 = 0, and it is accepted. */
  lemma IdentityAccepted(verbose: bool)
    ensures Coeffs(IdentityMatrix) == Coefficients(1.0, 0.0, 0.0, 0.0)
    ensures Charpoly(IdentityMatrix, verbose)
  {
  }

  /** C2 is homogeneous of degree 2: scaling every entry of M by t scales C2 by t^2. */
  lemma C2Scales(t: real, M: Mueller)
    ensures C2(t * M.m00, t * M.m01, t * M.m02, t * M.m03,
           t * M.m10, t * M.m11, t * M.m12, t * M.m13,
           t * M.m20, t * M.m21, t * M.m22, t * M.m23,
           t * M.m30, t * M.m31, t * M.m32, t * M.m33) ==
      t * t * C2(M.m00, M.m01, M.m02, M.m03,
           M.m10, M.m11, M.m12, M.m13,
           M.m20, M.m21, M.m22, M.m23,
           M.m30, M.m31, M.m32, M.m33)
  {
  }

  /** C3 is homogeneous of degree 3: scaling every entry of M by t scales C3 by t^3. */
  lemma C3Scales(t: real, M: Mueller)
    ensures C3(t * M.m00, t * M.m01, t * M.m02, t * M.m03,
           t * M.m10, t * M.m11, t * M.m12, t * M.m13,
           t * M.m20, t * M.m21, t * M.m22, t * M.m23,
           t * M.m30, t * M.m31, t * M.m32, t * M.m33) ==
      t * t * t * C3(M.m00, M.m01, M.m02, M.m03,
           M.m10, M.m11, M.m12, M.m13,
           M.m20, M.m21, M.m22, M.m23,
           M.m30, M.m31, M.m32, M.m33)
  {
  }

  /** C4 is homogeneous of degree 4: scaling every entry of M by t scales C4 by t^4. */
  lemma C4Scales(t: real, M: Mueller)
    ensures C4(t * M.m00, t * M.m01, t * M.m02, t * M.m03,
           t * M.m10, t * M.m11, t * M.m12, t * M.m13,
           t * M.m20, t * M.m21, t * M.m22, t * M.m23,
           t * M.m30, t * M.m31, t * M.m32, t * M.m33) ==
      t * t * t * t * C4(M.m00, M.m01, M.m02, M.m03,
           M.m10, M.m11, M.m12, M.m13,
           M.m20, M.m21, M.m22, M.m23,
           M.m30, M.m31, M.m32, M.m33)
  {
  }

  /*
   * Signs under scaling by t > 0, one power of t at a time; the sign lemmas of
   * the coefficients below use them so that no proof step needs nonlinear
   * reasoning about a whole polynomial.
   */

  lemma Sign1(t: real, x: real)
    requires t > 0.0
    ensures t * x >= 0.0 <==> x >= 0.0
  {
  }

  lemma Sign2(t: real, x: real)
    requires t > 0.0
    ensures t * t * x >= 0.0 <==> x >= 0.0
  {
    Sign1(t, x);
    Sign1(t, t * x);
  }

  lemma Sign3(t: real, x: real)
    requires t > 0.0
    ensures t * t * t * x >= 0.0 <==> x >= 0.0
  {
    Sign2(t, x);
    Sign1(t, t * t * x);
  }

  lemma Sign4(t: real, x: real)
    requires t > 0.0
    ensures t * t * t * t * x >= 0.0 <==> x >= 0.0
  {
    Sign3(t, x);
    Sign1(t, t * t * t * x);
  }

  /** For t > 0, C2 of t·M has the sign of C2 of M. */
  lemma C2SignScales(t: real, M: Mueller)
    requires t > 0.0
    ensures C2(t * M.m00, t * M.m01, t * M.m02, t * M.m03,
           t * M.m10, t * M.m11, t * M.m12, t * M.m13,
           t * M.m20, t * M.m21, t * M.m22, t * M.m23,
           t * M.m30, t * M.m31, t * M.m32, t * M.m33) >= 0.0 <==>
      C2(M.m00, M.m01, M.m02, M.m03,
           M.m10, M.m11, M.m12, M.m13,
           M.m20, M.m21, M.m22, M.m23,
           M.m30, M.m31, M.m32, M.m33) >= 0.0
  {
    C2Scales(t, M);
    Sign2(t, C2(M.m00, M.m01, M.m02, M.m03,
           M.m10, M.m11, M.m12, M.m13,
           M.m20, M.m21, M.m22, M.m23,
           M.m30, M.m31, M.m32, M.m33));
  }

  /** For t > 0, C3 of t·M has the sign of C3 of M. */
  lemma C3SignScales(t: real, M: Mueller)
    requires t > 0.0
    ensures C3(t * M.m00, t * M.m01, t * M.m02, t * M.m03,
           t * M.m10, t * M.m11, t * M.m12, t * M.m13,
           t * M.m20, t * M.m21, t * M.m22, t * M.m23,
           t * M.m30, t * M.m31, t * M.m32, t * M.m33) >= 0.0 <==>
      C3(M.m00, M.m01, M.m02, M.m03,
           M.m10, M.m11, M.m12, M.m13,
           M.m20, M.m21, M.m22, M.m23,
           M.m30, M.m31, M.m32, M.m33) >= 0.0
  {
    C3Scales(t, M);
    Sign3(t, C3(M.m00, M.m01, M.m02, M.m03,
           M.m10, M.m11, M.m12, M.m13,
           M.m20, M.m21, M.m22, M.m23,
           M.m30, M.m31, M.m32, M.m33));
  }

  /** For t > 0, C4 of t·M has the sign of C4 of M. */
  lemma C4SignScales(t: real, M: Mueller)
    requires t > 0.0
    ensures C4(t * M.m00, t * M.m01, t * M.m02, t * M.m03,
           t * M.m10, t * M.m11, t * M.m12, t * M.m13,
           t * M.m20, t * M.m21, t * M.m22, t * M.m23,
           t * M.m30, t * M.m31, t * M.m32, t * M.m33) >= 0.0 <==>
      C4(M.m00, M.m01, M.m02, M.m03,
           M.m10, M.m11, M.m12, M.m13,
           M.m20, M.m21, M.m22, M.m23,
           M.m30, M.m31, M.m32, M.m33) >= 0.0
  {
    C4Scales(t, M);
    Sign4(t, C4(M.m00, M.m01, M.m02, M.m03,
           M.m10, M.m11, M.m12, M.m13,
           M.m20, M.m21, M.m22, M.m23,
           M.m30, M.m31, M.m32, M.m33));
  }

  /** The coefficients of t·M, the matrix with entries t·M[i, j]. */
  lemma CoeffsOfScaled(t: real, M: Mueller)
    ensures Coeffs(Mueller(t * M.m00, t * M.m01, t * M.m02, t * M.m03,
              t * M.m10, t * M.m11, t * M.m12, t * M.m13,
              t * M.m20, t * M.m21, t * M.m22, t * M.m23,
              t * M.m30, t * M.m31, t * M.m32, t * M.m33)) ==
      Coefficients(
        t * M.m00,
        C2(t * M.m00, t * M.m01, t * M.m02, t * M.m03,
           t * M.m10, t * M.m11, t * M.m12, t * M.m13,
           t * M.m20, t * M.m21, t * M.m22, t * M.m23,
           t * M.m30, t * M.m31, t * M.m32, t * M.m33),
        C3(t * M.m00, t * M.m01, t * M.m02, t * M.m03,
           t * M.m10, t * M.m11, t * M.m12, t * M.m13,
           t * M.m20, t * M.m21, t * M.m22, t * M.m23,
           t * M.m30, t * M.m31, t * M.m32, t * M.m33),
        C4(t * M.m00, t * M.m01, t * M.m02, t * M.m03,
           t * M.m10, t * M.m11, t * M.m12, t * M.m13,
           t * M.m20, t * M.m21, t * M.m22, t * M.m23,
           t * M.m30, t * M.m31, t * M.m32, t * M.m33))
  {
  }

  /** For t > 0, the verdict on the coefficients of t·M is the verdict on those of M. */
  lemma VerdictScales(t: real, M: Mueller)
    requires t > 0.0
    ensures Verdict(Coefficients(
        t * M.m00,
        C2(t * M.m00, t * M.m01, t * M.m02, t * M.m03,
           t * M.m10, t * M.m11, t * M.m12, t * M.m13,
           t * M.m20, t * M.m21, t * M.m22, t * M.m23,
           t * M.m30, t * M.m31, t * M.m32, t * M.m33),
        C3(t * M.m00, t * M.m01, t * M.m02, t * M.m03,
           t * M.m10, t * M.m11, t * M.m12, t * M.m13,
           t * M.m20, t * M.m21, t * M.m22, t * M.m23,
           t * M.m30, t * M.m31, t * M.m32, t * M.m33),
        C4(t * M.m00, t * M.m01, t * M.m02, t * M.m03,
           t * M.m10, t * M.m11, t * M.m12, t * M.m13,
           t * M.m20, t * M.m21, t * M.m22, t * M.m23,
           t * M.m30, t * M.m31, t * M.m32, t * M.m33))) ==
      Verdict(Coeffs(M))
  {
    Sign1(t, M.m00);
    C2SignScales(t, M);
    C3SignScales(t, M);
    C4SignScales(t, M);
  }

  /** Scaling M by any t > 0 does not change the verdict. */
  lemma ScaleInvariant(t: real, M: Mueller, verbose: bool)
    requires t > 0.0
    ensures Charpoly(Mueller(t * M.m00, t * M.m01, t * M.m02, t * M.m03,
                     t * M.m10, t * M.m11, t * M.m12, t * M.m13,
                     t * M.m20, t * M.m21, t * M.m22, t * M.m23,
                     t * M.m30, t * M.m31, t * M.m32, t * M.m33), verbose) == Charpoly(M, verbose)
  {
    CoeffsOfScaled(t, M);
    VerdictScales(t, M);
  }
}
