// The chamber flux formula: ideal-gas scaling of a concentration slope
// (crates/fluxrs-core/src/flux/flux.rs).
module Flux {
  import opened Floats
  import opened Sums
  import opened Meteo
  import opened GasTypes
  import opened ConcentrationUnits
  import opened Chambers

  /** The gas constant R the source uses, Pa·m³/(mol·K). */
  const GasConstant: real := 8.314
  const KelvinOffset: real := 273.15

  /** `MeteoConditions`: the temperature and pressure a flux is computed with. */
  datatype MeteoConditions = MeteoConditions(temperature: MeteoPoint, pressure: MeteoPoint)

  function DefaultConditions(): MeteoConditions
  {
    MeteoConditions(DefaultPoint(), DefaultPoint())
  }

  /** Both readings carry a value: `flux_umol_m2_s` unwraps them. */
  predicate HasValues(mc: MeteoConditions)
  {
    mc.temperature.value.Some? && mc.pressure.value.Some?
  }

  /** `TimeRange`: the start and end of a fit window. */
  datatype TimeRange = TimeRange(start: real, end: real)

  /** A gas measured by an instrument in a given unit. */
  datatype GasChannel = GasChannel(gas: GasType, unit: ConcentrationUnit, instrumentId: string)

  /** `slope_ppm_per_s`: a slope in the channel's unit, in ppm/s. */
  function SlopePpmPerS(ch: GasChannel, slope: real): (r: real)
    ensures r == Prod(slope, ToPpmFactor(ch.unit))
    ensures ch.unit == Ppm ==> r == slope
  {
    Prod(slope, ToPpmFactor(ch.unit))
  }

  datatype XYSeries = XYSeries(y: seq<real>, x: seq<real>)

  /** `GasChannelData`: a channel with its time and concentration series. */
  datatype GasChannelData = GasChannelData(channel: GasChannel, data: XYSeries)
  {
    function XLen(): nat { |data.x| }
    function YLen(): nat { |data.y| }
    predicate EqualLen() { XLen() == YLen() }
  }

  /** Kelvin temperature of a reading in °C: 0 K at -273.15 °C. */
  function Kelvin(tC: real): (k: real)
    ensures k == 0.0 <==> tC == -273.15
    ensures k > 0.0 <==> tC > -273.15
  {
    tC + KelvinOffset
  }

  /** `flux_umol_m2_s_core`, in double arithmetic: the slope in mol/mol/s
      times the air density `p / (R T)` gives mol/m³/s; times the adjusted
      volume over the footprint area gives mol/m²/s; times 1e6, µmol/m²/s.
      A zero temperature in kelvin or a zero area gives a non-finite flux. */
  function FluxUmolCore(ch: GasChannel, slope: real, tC: real, pHpa: real, c: ChamberShape): F64
  {
    var molPerM3 := DivR(pHpa * 100.0, GasConstant * Kelvin(tC));
    var dmolPerM3PerS := Mul(Fin(SlopePpmPerS(ch, slope) * 0.000001), molPerM3);
    var fluxMol := Div(Mul(dmolPerM3PerS, Fin(AdjustedVolume(c))), Fin(AreaM2(c)));
    Mul(fluxMol, Fin(1000000.0))
  }

  /** Where the conversion is finite: a non-zero absolute temperature and area. */
  predicate FiniteConditions(tC: real, c: ChamberShape)
  {
    Kelvin(tC) != 0.0 && AreaM2(c) != 0.0
  }

  /** The flux per unit of instrument slope under the given conditions. */
  function Coefficient(ch: GasChannel, tC: real, pHpa: real, c: ChamberShape): real
    requires FiniteConditions(tC, c)
  {
    CoefficientOf(ToPpmFactor(ch.unit), (pHpa * 100.0) / (GasConstant * Kelvin(tC)), AdjustedVolume(c), AreaM2(c))
  }

  /** ppm factor · 1e-6 · air density · volume / area · 1e6. */
  function CoefficientOf(f: real, m: real, v: real, a: real): real
    requires a != 0.0
  {
    f * 0.000001 * m * v / a * 1000000.0
  }

  /** The value the double operations of the flux compute on finite operands. */
  function Chain(sp: real, m: real, v: real, a: real): real
    requires a != 0.0
  {
    (sp * 0.000001 * m * v) / a * 1000000.0
  }

  /** Rearranging the chain of products and quotients of the flux. */
  lemma {:induction false} Regroup(s: real, f: real, m: real, v: real, a: real)
    requires a != 0.0
    ensures Chain(Prod(s, f), m, v, a) == Prod(s, CoefficientOf(f, m, v, a))
  {
    var k := f * 0.000001 * m * v;
    assert Prod(s, f) * 0.000001 * m * v == s * k;
    assert (s * k) / a == s * (k / a);
    assert s * (k / a) * 1000000.0 == s * (k / a * 1000000.0);
  }

  /** The double operations of the flux on finite operands and a non-zero area. */
  lemma {:induction false} FiniteChain(sp: real, m: real, v: real, a: real)
    requires a != 0.0
    ensures Mul(Div(Mul(Mul(Fin(sp * 0.000001), Fin(m)), Fin(v)), Fin(a)), Fin(1000000.0)) == Fin(Chain(sp, m, v, a))
  {
  }

  /** Under finite conditions the flux is the slope times the coefficient:
      linear in the slope, with the formula
      slope_ppm · 1e-6 · 100 P / (R (T + 273.15)) · V_adj / A · 1e6. */
  lemma {:induction false} FluxIsLinear(ch: GasChannel, slope: real, tC: real, pHpa: real, c: ChamberShape)
    requires FiniteConditions(tC, c)
    ensures FluxUmolCore(ch, slope, tC, pHpa, c) == Fin(Prod(slope, Coefficient(ch, tC, pHpa, c)))
  {
    var m := (pHpa * 100.0) / (GasConstant * Kelvin(tC));
    var f, v, a := ToPpmFactor(ch.unit), AdjustedVolume(c), AreaM2(c);
    assert DivR(pHpa * 100.0, GasConstant * Kelvin(tC)) == Fin(m);
    FiniteChain(Prod(slope, f), m, v, a);
    Regroup(slope, f, m, v, a);
  }

  /** A zero slope gives a zero flux. */
  lemma {:induction false} ZeroSlopeZeroFlux(ch: GasChannel, tC: real, pHpa: real, c: ChamberShape)
    requires FiniteConditions(tC, c)
    ensures FluxUmolCore(ch, 0.0, tC, pHpa, c) == Fin(0.0)
  {
    FluxIsLinear(ch, 0.0, tC, pHpa, c);
  }

  /** For a physical chamber (positive pressure, temperature above absolute
      zero, positive footprint and internal volume) the flux has the sign
      of the slope. */
  lemma {:induction false} FluxHasSlopeSign(ch: GasChannel, slope: real, tC: real, pHpa: real, c: ChamberShape)
    requires pHpa > 0.0 && Kelvin(tC) > 0.0 && AreaM2(c) > 0.0 && AdjustedVolume(c) > 0.0
    ensures FluxUmolCore(ch, slope, tC, pHpa, c).Fin?
    ensures slope > 0.0 <==> FluxUmolCore(ch, slope, tC, pHpa, c).v > 0.0
    ensures slope < 0.0 <==> FluxUmolCore(ch, slope, tC, pHpa, c).v < 0.0
  {
    FluxIsLinear(ch, slope, tC, pHpa, c);
    var k := Coefficient(ch, tC, pHpa, c);
    var m := (pHpa * 100.0) / (GasConstant * Kelvin(tC));
    assert m > 0.0;
    var f := ToPpmFactor(ch.unit) * 0.000001 * m;
    assert f > 0.0;
    assert f * AdjustedVolume(c) > 0.0;
    assert k > 0.0;
  }

  /** A zero footprint area cannot give a finite flux. */
  lemma {:induction false} ZeroAreaNotFinite(ch: GasChannel, slope: real, tC: real, pHpa: real, c: ChamberShape)
    requires AreaM2(c) == 0.0
    ensures !FluxUmolCore(ch, slope, tC, pHpa, c).Fin?
  {
  }

  /** `flux_umol_m2_s`: the core formula on the two meteo values, which
      must both be present (the source unwraps them). */
  function FluxUmol(ch: GasChannel, slope: real, temperature: MeteoPoint, pressure: MeteoPoint, c: ChamberShape): (r: F64)
    requires temperature.value.Some? && pressure.value.Some?
    ensures FiniteConditions(temperature.value.value, c) ==>
      r == Fin(Prod(slope, Coefficient(ch, temperature.value.value, pressure.value.value, c)))
  {
    var tC, pHpa := temperature.value.value, pressure.value.value;
    assert FiniteConditions(tC, c) ==>
      FluxUmolCore(ch, slope, tC, pHpa, c) == Fin(Prod(slope, Coefficient(ch, tC, pHpa, c))) by {
      if FiniteConditions(tC, c) {
        FluxIsLinear(ch, slope, tC, pHpa, c);
      }
    }
    FluxUmolCore(ch, slope, tC, pHpa, c)
  }

  /** `flux_mg_m2_s`: the µmol flux times `mol_mass · 1e-3`. */
  function FluxMgS(ch: GasChannel, slope: real, tC: real, pHpa: real, c: ChamberShape): (r: F64)
    ensures r.Fin? <==> FluxUmolCore(ch, slope, tC, pHpa, c).Fin?
    ensures r.Fin? ==> r.v == Prod(FluxUmolCore(ch, slope, tC, pHpa, c).v, MolMass(ch.gas) * 0.001)
  {
    Mul(FluxUmolCore(ch, slope, tC, pHpa, c), Fin(MolMass(ch.gas) * 0.001))
  }

  /** `flux_mg_m2_h`: 3600 times the per-second mg flux. */
  function FluxMgH(ch: GasChannel, slope: real, tC: real, pHpa: real, c: ChamberShape): (r: F64)
    ensures r.Fin? <==> FluxMgS(ch, slope, tC, pHpa, c).Fin?
    ensures r.Fin? ==> r.v == 3600.0 * FluxMgS(ch, slope, tC, pHpa, c).v
  {
    Mul(FluxMgS(ch, slope, tC, pHpa, c), Fin(3600.0))
  }

  /** Under finite conditions the mg fluxes are fixed multiples of the slope too. */
  lemma {:induction false} MgFluxIsLinear(ch: GasChannel, slope: real, tC: real, pHpa: real, c: ChamberShape)
    requires FiniteConditions(tC, c)
    ensures FluxMgS(ch, slope, tC, pHpa, c) ==
      Fin(Prod(Prod(slope, Coefficient(ch, tC, pHpa, c)), MolMass(ch.gas) * 0.001))
    ensures FluxMgH(ch, slope, tC, pHpa, c) ==
      Fin(3600.0 * Prod(Prod(slope, Coefficient(ch, tC, pHpa, c)), MolMass(ch.gas) * 0.001))
  {
    FluxIsLinear(ch, slope, tC, pHpa, c);
  }
}
