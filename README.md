# PyMueller realizability tests, modelled in Dafny

PyMueller's `prtest` module decides whether a measured 4x4 Mueller matrix M
could come from a physical optical system. This project models two pieces of
that module:

- `build_eigen_matrix` builds the complex 4x4 coherency matrix H(M), each
  entry a fixed linear combination of the entries of M.
- `charpoly` computes four real coefficients C1..C4, each a polynomial in the
  entries of M, and accepts M when all four are non-negative.

The project has five modules:

- `ComplexNumbers` (complex.dfy): complex numbers over exact reals, with
  conjugate, sum, real scaling and squared modulus.
- `MuellerMatrix` (mueller.dfy):
  - the Mueller matrix as a value with sixteen real entries;
  - its reading from a 4x4 array;
  - entrywise sum, the zero and identity matrices, and the sum of squares.
- `CoherencyMatrix` (coherency.dfy):
  - H(M) as a pure function;
  - `BuildEigenMatrix`, an imperative method that allocates a 4x4 array and
    fills it row by row in the source's order. Cells below the diagonal are
    read back from earlier cells and conjugated, as the source does.
  - lemmas on H: Hermitian, real diagonal, trace, additivity, homogeneity,
    the images of the zero and identity matrices, and the Frobenius norm.
- `CharPoly` (charpoly.dfy):
  - C2, C3 and C4 transcribed term by term, and C1 = M[0, 0];
  - the sign verdict, with `verbose` as a parameter that has no effect;
  - lemmas: the verbose flag is irrelevant; M[0, 0] < 0 is rejected; C2 is
    4·M[0, 0]² minus the sum of squares; the zero and identity matrices are
    accepted; each Ck is homogeneous of degree k, so the verdict does not
    change when M is scaled by any t > 0.
- `Findings` (findings.dfy): the sign slip in C3 (see "## Findings"), the
  corrected C3, and lemmas that compare the two tests.

Numbers are exact reals, not IEEE doubles. The sign test `>= 0` is compared
exactly, with no tolerance, as in the source.

## Model

| member | source | states |
|---|---|---|
| CoherencyMatrix.Coherency | prtest/prtest.py:16-34 | H(M) has four rows of four entries; the entries are the source's combinations, which the lemmas below characterise |
| CoherencyMatrix.BuildEigenMatrix | prtest/prtest.py:3-38 | returns a freshly allocated 4x4 array; every cell equals H(M) built from the current contents of M; the array is Hermitian and its diagonal is real; M is not modified |
| CoherencyMatrix.AssignRow0 | prtest/prtest.py:16-19 | after the four assignments of row 0, row 0 holds H(M)'s row 0 and rows 1-3 are unchanged |
| CoherencyMatrix.AssignRow1 | prtest/prtest.py:21-24 | given row 0, writes row 1, including H[1, 0] as the conjugate of H[0, 1]; rows 2-3 are unchanged |
| CoherencyMatrix.AssignRow2 | prtest/prtest.py:26-29 | given rows 0-1, writes row 2, with H[2, 0] and H[2, 1] as conjugates of earlier cells; row 3 is unchanged |
| CoherencyMatrix.AssignRow3 | prtest/prtest.py:31-34 | given rows 0-2, writes row 3, with three cells conjugated from earlier cells; all four rows now match H(M) |
| CoherencyMatrix.Hermitian | prtest/prtest.py:16-34 | H(M)[j][i] is the conjugate of H(M)[i][j] for every i, j |
| CoherencyMatrix.DiagonalIsReal | prtest/prtest.py:16-34 | the four diagonal entries of H(M) have imaginary part 0 |
| CoherencyMatrix.TraceIsFourM00 | prtest/prtest.py:16-34 | the trace of H(M) is 4·M[0, 0] |
| CoherencyMatrix.Additive | prtest/prtest.py:16-34 | H(M + N) = H(M) + H(N), entry by entry |
| CoherencyMatrix.Homogeneous | prtest/prtest.py:16-34 | H(t·M) = t·H(M), entry by entry, for every real t |
| CoherencyMatrix.ZeroImage | prtest/prtest.py:16-34 | the zero Mueller matrix maps to the zero coherency matrix |
| CoherencyMatrix.IdentityImage | prtest/prtest.py:16-34 | the identity maps to 2 at [0][0], [0][3], [3][0] and [3][3], and to 0 elsewhere |
| CoherencyMatrix.FrobeniusIsFourSumOfSquares | prtest/prtest.py:16-34 | the sum of the squared moduli of H(M)'s entries is 4 times the sum of squares of M's entries |
| CharPoly.C2 | prtest/prtest.py:61-64 | the source's C2 term by term over the sixteen entries; what it means is stated by C2Bound, C2AtMostThreeM00Squared, C1C2FromCoherency and C2Scales |
| CharPoly.C3 | prtest/prtest.py:66-76 | the source's C3 term by term, doubled minus signs included; characterised by C3Scales, Findings.C3Gap and Findings.CoeffsOfFirstColumn |
| CharPoly.C4 | prtest/prtest.py:78-122 | the source's C4 term by term; characterised by C4Scales and Findings.CoeffsOfFirstColumn |
| CharPoly.Coeffs | prtest/prtest.py:58-122 | C1..C4 of M, with C1 = M[0, 0]; its values are pinned down by ZeroAccepted, IdentityAccepted, C2Bound and CoeffsOfScaled |
| CharPoly.Verdict | prtest/prtest.py:129 | true exactly when all four coefficients are >= 0; VerdictScales and RejectsNegativeM00 state what it keeps and rejects |
| CharPoly.Charpoly | prtest/prtest.py:58-129 | the verdict on Coeffs(M); VerboseIrrelevant, RejectsNegativeM00, AcceptedIsBounded, ScaleInvariant and Findings.AsWrittenOnFirstColumn characterise it |
| CharPoly.VerboseIrrelevant | prtest/prtest.py:123-129 | charpoly gives the same verdict with verbose true and false |
| CharPoly.RejectsNegativeM00 | prtest/prtest.py:58-59 | C1 is M[0, 0], so a matrix with M[0, 0] < 0 is rejected |
| CharPoly.C2Bound | prtest/prtest.py:61-64 | C2 of M is 4·M[0, 0]² minus the sum of squares of M |
| CharPoly.C2AtMostThreeM00Squared | prtest/prtest.py:61-64 | C2 of M is at most 3·M[0, 0]² |
| CharPoly.AcceptedIsBounded | prtest/prtest.py:58-129 | every accepted matrix has sum of squares at most 4·M[0, 0]² |
| CharPoly.C1C2FromCoherency | prtest/prtest.py:58-64 | C1 is a quarter of the trace of H(M), and C2 is a quarter of (squared trace minus squared Frobenius norm) of H(M) |
| CharPoly.ZeroAccepted | prtest/prtest.py:58-129 | the zero matrix has C1..C4 = 0, 0, 0, 0 and is accepted |
| CharPoly.IdentityAccepted | prtest/prtest.py:58-129 | the identity has C1..C4 = 1, 0, 0, 0 and is accepted |
| CharPoly.C2Scales | prtest/prtest.py:61-64 | C2 is homogeneous of degree 2: C2(t·M) = t²·C2(M) |
| CharPoly.C3Scales | prtest/prtest.py:66-76 | C3 is homogeneous of degree 3: C3(t·M) = t³·C3(M) |
| CharPoly.C4Scales | prtest/prtest.py:78-122 | C4 is homogeneous of degree 4: C4(t·M) = t⁴·C4(M) |
| CharPoly.C2SignScales | prtest/prtest.py:61-64 | for t > 0, C2(t·M) >= 0 exactly when C2(M) >= 0 |
| CharPoly.C3SignScales | prtest/prtest.py:66-76 | for t > 0, C3(t·M) >= 0 exactly when C3(M) >= 0 |
| CharPoly.C4SignScales | prtest/prtest.py:78-122 | for t > 0, C4(t·M) >= 0 exactly when C4(M) >= 0 |
| CharPoly.VerdictScales | prtest/prtest.py:129 | for t > 0, the four-sign test on the coefficients of t·M agrees with the test on those of M |
| CharPoly.ScaleInvariant | prtest/prtest.py:58-129 | for every t > 0, charpoly(t·M) = charpoly(M) |
| Findings.C3Intended | prtest/prtest.py:66-76 | C3 with -4 on M[1, 0]², M[2, 0]² and M[3, 0]²; related to the source's C3 by C3Gap and characterised on the first-column family by CoeffsOfFirstColumn |
| Findings.CoeffsIntended | prtest/prtest.py:58-122 | Coeffs(M) with C3Intended in place of C3; C3GapOf relates the two |
| Findings.CharpolyIntended | prtest/prtest.py:58-129 | the corrected test; characterised by IntendedOnFirstColumn, IntendedIsStricter, AgreeWithoutPolarizance and IntendedScaleInvariant |
| Findings.C3Gap | prtest/prtest.py:66-76 | C3 as written minus C3Intended is 8·m00·(m10² + m20² + m30²) |
| Findings.C3GapOf | prtest/prtest.py:66-76 | the two coefficient sets of M agree in C1, C2 and C4, and their C3 differ by 8·M[0, 0]·(M[1, 0]² + M[2, 0]² + M[3, 0]²) |
| Findings.CoherencyOfFirstColumn | prtest/prtest.py:16-34 | when only M[0, 0] = a and M[1, 0] = b are non-zero, H(M) is diagonal with entries a + b, a + b, a - b, a - b |
| Findings.CoeffsOfFirstColumn | prtest/prtest.py:58-122 | on that family, as written C1..C4 = a, 3a² - b², 4a(a² + b²), (a² - b²)²; with the intended C3 the third becomes 4a(a² - b²) |
| Findings.AsWrittenOnFirstColumn | prtest/prtest.py:58-129 | on that family, charpoly as written accepts exactly when a >= 0 and b² <= 3a² |
| Findings.AcceptsNonRealizable | prtest/prtest.py:66-76 | charpoly as written accepts M[0, 0] = 3, M[1, 0] = 5 (all else 0), although H(M)[2][2] = -2 |
| Findings.IntendedOnFirstColumn | prtest/prtest.py:66-76 | on that family, the corrected test accepts exactly when every diagonal entry of H(M) is non-negative, i.e. a + b >= 0 and a - b >= 0 |
| Findings.IntendedRejectsIt | prtest/prtest.py:66-76 | the corrected test rejects the matrix above, since its C3 is -192 |
| Findings.IntendedIsStricter | prtest/prtest.py:66-76 | every matrix the corrected test accepts is also accepted as written |
| Findings.AgreeWithoutPolarizance | prtest/prtest.py:66-76 | the two tests agree on every M with M[1, 0] = M[2, 0] = M[3, 0] = 0 |
| Findings.C3IntendedScales | prtest/prtest.py:66-76 | the corrected C3 is homogeneous of degree 3 |
| Findings.C3IntendedSignScales | prtest/prtest.py:66-76 | for t > 0, the corrected C3 of t·M has the sign of the corrected C3 of M |
| Findings.IntendedScaleInvariant | prtest/prtest.py:58-129 | for every t > 0, the corrected test gives the same verdict on t·M as on M |
| Findings.IntendedAcceptsZeroAndIdentity | prtest/prtest.py:58-129 | the corrected test has coefficients 0, 0, 0, 0 on the zero matrix and 1, 0, 0, 0 on the identity, and accepts both |

## Left out

- `choletsky` (prtest/prtest.py:40-56) is not modelled. Its verdict is whatever `np.linalg.cholesky` does on H(M), including that routine's numerical tolerance and its handling of semidefinite input. numpy is not part of this model.
- Floating point: all arithmetic is over exact reals. Rounding, overflow, NaN and the imprecise `>= 0` comparison of a double near 0 are not captured.
- The diagnostic printing of C1..C4 when `verbose` is true (prtest/prtest.py:123-127) is I/O and not modelled. `verbose` is kept as a parameter that does not affect the verdict.
- The initial contents of the new array: the source uses `np.zeros` (prtest/prtest.py:14). `BuildEigenMatrix` also starts from a zero array, but its contract speaks only of the final contents, since every cell is overwritten.
- Malformed input is not modelled: an array that is not 4x4, or complex or non-numeric entries. Both operations require a 4x4 array of reals, which is what the source indexes.
- The packaging files (setup.py) hold no behaviour and are not modelled.
- The claim that C1..C4 are, up to constant factors, the coefficients of the characteristic polynomial of H(M) is proved only for C1 and C2 (`CharPoly.C1C2FromCoherency`). For C4 and the corrected C3 (`Findings.C3Intended`) it is shown only on the family of matrices whose only non-zero entries are M[0, 0] and M[1, 0], by `Findings.CoherencyOfFirstColumn` and `Findings.CoeffsOfFirstColumn`; the as-written C3 differs there (see "## Findings"). The general identity for C3 and C4 is a degree-3 and degree-4 polynomial identity in sixteen variables, and it is not proved here.
- CharPoly.Charpoly: the model does not state, in general, that acceptance means H(M) is positive semidefinite. The source does not establish that either.

## Findings

| source | as written | input that shows it | evidently intended | confidence | as-written member | corrected member |
|---|---|---|---|---|---|---|
| prtest/prtest.py:68-70 | in the factor of `C3` that multiplies `M[0, 0]`, the terms in `M[1, 0]**2`, `M[2, 0]**2` and `M[3, 0]**2` are written `- -4 * …`, so they enter with +4 | M[0, 0] = 3, M[1, 0] = 5, every other entry 0: H(M) = diag(8, 8, -2, -2) is not positive semidefinite, yet C1..C4 = 3, 2, 408, 256 and charpoly returns True | `- 4 * …` like the other twelve squared terms. On this family C3 then equals the third elementary symmetric function of H's eigenvalues 8, 8, -2, -2, which is -192, and the matrix is rejected | high (not executed) | Findings.AcceptsNonRealizable | Findings.IntendedOnFirstColumn |

The rest of the model follows the code as written: `CharPoly.C3` keeps the
+4 terms. Every lemma in `CharPoly` therefore holds for charpoly exactly as
the source computes it. The corrected coefficient is `Findings.C3Intended`. These
lemmas relate it to the as-written one:

- `Findings.C3Gap`: the two coefficients differ by 8·M[0, 0]·(M[1, 0]² + M[2, 0]² + M[3, 0]²).
- `Findings.IntendedIsStricter`: every matrix the corrected test accepts is also accepted as written.
- `Findings.AgreeWithoutPolarizance`: the two tests agree whenever M[1, 0] = M[2, 0] = M[3, 0] = 0.
