/**
 * The Run 2 parameters of settings.h: the centre-of-mass energy and the
 * largest jet pT it allows, in GeV.
 */
module RunParameters {
  const SqrtS: real := 13000.0
  /** Largest possible jet pT: half the centre-of-mass energy. */
  const EMax: real := SqrtS / 2.0
}
