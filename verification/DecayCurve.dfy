/**
 The half-life curve exp(-ln2 * age / halfLife) over exact reals, known only through the laws it obeys for a
 positive half-life. Ages may be negative: an observation can carry a time after the query's.
 */
module DecayCurve {
  ghost predicate Multiplies(decay: int -> real, a: int, b: int) {
    decay(a + b) == decay(a) * decay(b)
  }

  ghost predicate Falls(decay: int -> real, a: int, b: int) {
    a <= b ==> decay(b) <= decay(a)
  }

  ghost predicate IsDecay(decay: int -> real) {
    && decay(0) == 1.0
    && (forall a :: decay(a) > 0.0)
    && (forall a, b {:trigger Falls(decay, a, b)} :: Falls(decay, a, b))
    && (forall a, b {:trigger Multiplies(decay, a, b)} :: Multiplies(decay, a, b))
  }
}
