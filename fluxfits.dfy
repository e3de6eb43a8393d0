// Why a flux model could not be fitted (crates/fluxrs-core/src/flux/fluxfiterror.rs).
module FluxFits {

  datatype FluxFitError =
    | LengthMismatch(lenX: nat, lenY: nat)
    | NotEnoughPoints(len: nat, needed: nat)
    | NonPositiveY
    | DegenerateX
    | NonFiniteSigma
    | NonFiniteSE
    | NonFiniteTStat
    | StatError(msg: string)

  /** Every fitter needs at least this many samples. */
  const MinPoints: nat := 3
}
