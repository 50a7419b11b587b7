/** Complex numbers with exact real parts, as far as the coherency matrix needs them. */
module ComplexNumbers {

  /** re + i·im, the value of one numpy complex128 cell, over exact reals. */
  datatype Complex = Complex(re: real, im: real)

  const Zero: Complex := Complex(0.0, 0.0)

  /** Complex conjugate (numpy's np.conj). */
  function Conj(z: Complex): Complex {
    Complex(z.re, -z.im)
  }

  function Add(z: Complex, w: Complex): Complex {
    Complex(z.re + w.re, z.im + w.im)
  }

  /** Multiplication by a real scalar. */
  function Scale(t: real, z: Complex): Complex {
    Complex(t * z.re, t * z.im)
  }

  /** |z|², the squared modulus. */
  function NormSq(z: Complex): real {
    z.re * z.re + z.im * z.im
  }
}
