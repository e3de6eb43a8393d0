// The choice of the flux model with the smallest AIC
// (crates/fluxrs-core/src/cycle/cycle.rs).
module BestFlux {
  import opened Wrappers
  import opened Floats
  import opened CycleTimings

  /** The flux models, in the order `FluxKind::all` lists them. */
  datatype FluxKind = Linear | Exponential | RobLin | Poly

  function AllKinds(): seq<FluxKind>
  {
    [Linear, Exponential, RobLin, Poly]
  }

  /** `FluxKind::all` lists every kind. */
  lemma {:induction false} AllKindsComplete(k: FluxKind)
    ensures k in AllKinds()
  {
    match k
    case Linear =>
    case Exponential =>
    case RobLin =>
    case Poly =>
  }

  /** What `best_flux_by_aic` reads of a fitted model: its AIC and flux. */
  datatype FitSummary = FitSummary(aic: Option<F64>, flux: Option<real>)

  type FluxTable = map<(GasKey, FluxKind), FitSummary>

  /** A model of the kind is fitted for the gas and reports an AIC. */
  predicate HasAic(fluxes: FluxTable, key: GasKey, kind: FluxKind)
  {
    (key, kind) in fluxes && fluxes[(key, kind)].aic.Some?
  }

  /** The `(aic, flux)` pairs of the two `filter_map`s, in the order of
      `kinds`. */
  function AicCandidates(fluxes: FluxTable, key: GasKey, kinds: seq<FluxKind>): (c: seq<(F64, Option<real>)>)
    ensures c == [] <==> forall k :: k in kinds ==> !HasAic(fluxes, key, k)
  {
    if kinds == [] then []
    else
      var rest := AicCandidates(fluxes, key, kinds[1..]);
      assert forall k :: k in kinds[1..] ==> k in kinds;
      if HasAic(fluxes, key, kinds[0]) then
        var fit := fluxes[(key, kinds[0])];
        [(fit.aic.value, fit.flux)] + rest
      else rest
  }

  /** `min_by` with `partial_cmp(..).unwrap_or(Equal)` over the first `hi`
      candidates: the fold keeps what it holds unless a later AIC is
      strictly smaller. */
  function FirstMinAic(c: seq<(F64, Option<real>)>, hi: nat): (r: nat)
    requires 0 < hi <= |c|
    ensures r < hi
  {
    if hi == 1 then 0
    else
      var acc := FirstMinAic(c, hi - 1);
      if Lt(c[hi - 1].0, c[acc].0) then hi - 1 else acc
  }

  /** Without NaN among the AICs the fold finds the first minimum. */
  lemma {:induction false} FirstMinAicIsFirstMinimum(c: seq<(F64, Option<real>)>, hi: nat)
    requires 0 < hi <= |c| && forall i :: 0 <= i < hi ==> !c[i].0.NaN?
    ensures var r := FirstMinAic(c, hi);
      (forall j :: 0 <= j < hi ==> Le(c[r].0, c[j].0)) && (forall j :: 0 <= j < r ==> Lt(c[r].0, c[j].0))
  {
    if hi > 1 {
      var acc := FirstMinAic(c, hi - 1);
      FirstMinAicIsFirstMinimum(c, hi - 1);
      var y := c[hi - 1].0;
      LeTotal(y, c[acc].0);
      if Lt(y, c[acc].0) {
        forall j | 0 <= j < hi ensures Le(y, c[j].0) {
          if j < hi - 1 {
            LeTransitive(y, c[acc].0, c[j].0);
          }
        }
        forall j | 0 <= j < hi - 1 ensures Lt(y, c[j].0) {
          LeTransitive(y, c[acc].0, c[j].0);
          if y == c[j].0 {
            LeAntisymmetric(y, c[acc].0);
          }
        }
      }
    }
  }

  /** Rust's message when `flux.unwrap()` meets a model without a flux. */
  const UnwrapNone: string := "called `Option::unwrap()` on a `None` value"

  /** `best_flux_by_aic`: the flux of the model the fold picks, None when no
      model of the gas has an AIC, and a panic when the picked model has
      no flux. */
  function BestFluxByAic(fluxes: FluxTable, key: GasKey): (r: Result<Option<real>, string>)
  {
    var c := AicCandidates(fluxes, key, AllKinds());
    if c == [] then Ok(None)
    else
      var best := c[FirstMinAic(c, |c|)];
      match best.1
      case Some(flux) => Ok(Some(flux))
      case None => Err(UnwrapNone)
  }

  /** The answer is None exactly when no model of the gas has an AIC;
      otherwise, without NaN AICs, it is the flux of a model whose AIC is
      not above any other's, the first such in `FluxKind::all` order. */
  lemma {:induction false} BestFluxByAicIsMinimum(fluxes: FluxTable, key: GasKey)
    ensures BestFluxByAic(fluxes, key) == Ok(None) <==> forall k :: !HasAic(fluxes, key, k)
    ensures var c := AicCandidates(fluxes, key, AllKinds());
      c != [] && (forall i :: 0 <= i < |c| ==> !c[i].0.NaN?) ==>
        var i := FirstMinAic(c, |c|);
        (forall j :: 0 <= j < |c| ==> Le(c[i].0, c[j].0)) &&
        (forall j :: 0 <= j < i ==> Lt(c[i].0, c[j].0)) &&
        BestFluxByAic(fluxes, key) == (if c[i].1.Some? then Ok(Some(c[i].1.value)) else Err(UnwrapNone))
  {
    var c := AicCandidates(fluxes, key, AllKinds());
    forall k ensures k in AllKinds() {
      AllKindsComplete(k);
    }
    if c != [] && (forall i :: 0 <= i < |c| ==> !c[i].0.NaN?) {
      FirstMinAicIsFirstMinimum(c, |c|);
    }
  }

  /** The values of the source's own test: AICs 100, 80 and 90 with
      fluxes 10, 20 and 15 give the flux 20. */
  lemma BestFluxByAicExample(key: GasKey)
    ensures BestFluxByAic(map[
      (key, Linear) := FitSummary(Some(Fin(100.0)), Some(10.0)),
      (key, Poly) := FitSummary(Some(Fin(80.0)), Some(20.0)),
      (key, RobLin) := FitSummary(Some(Fin(90.0)), Some(15.0))], key) == Ok(Some(20.0))
  {
    var fluxes := map[
      (key, Linear) := FitSummary(Some(Fin(100.0)), Some(10.0)),
      (key, Poly) := FitSummary(Some(Fin(80.0)), Some(20.0)),
      (key, RobLin) := FitSummary(Some(Fin(90.0)), Some(15.0))];
    assert !HasAic(fluxes, key, Exponential);
    assert AicCandidates(fluxes, key, [Poly]) == [(Fin(80.0), Some(20.0))];
    assert [RobLin, Poly][1..] == [Poly];
    assert AicCandidates(fluxes, key, [RobLin, Poly]) == [(Fin(90.0), Some(15.0)), (Fin(80.0), Some(20.0))];
    assert [Exponential, RobLin, Poly][1..] == [RobLin, Poly];
    assert AicCandidates(fluxes, key, [Exponential, RobLin, Poly]) == [(Fin(90.0), Some(15.0)), (Fin(80.0), Some(20.0))];
    assert AllKinds()[1..] == [Exponential, RobLin, Poly];
    var c := AicCandidates(fluxes, key, AllKinds());
    assert c == [(Fin(100.0), Some(10.0)), (Fin(90.0), Some(15.0)), (Fin(80.0), Some(20.0))];
    assert FirstMinAic(c, 2) == 1;
    assert FirstMinAic(c, 3) == 2;
  }
}
