// Output units for fluxes and the conversion out of µmol/m2/s
// (crates/fluxrs-core/src/flux/fluxunit.rs).
module FluxUnits {
  import opened Wrappers
  import opened Text
  import opened GasTypes

  datatype FluxUnit =
    | UmolM2S | UmolM2H | MmolM2S | MmolM2H | MgM2S | MgM2H | NmolM2S | NmolM2H

  /** `#[default]`: µmol/m2/s. */
  function DefaultUnit(): (u: FluxUnit)
    ensures Label(u) == "µmol/m2/s" && Suffix(u) == "umol_m2_s"
  {
    UmolM2S
  }

  /** `Display`: already ASCII lower case, the form `FromStr` compares against. */
  function Label(u: FluxUnit): (r: string)
    ensures Lower(r) == r
  {
    match u
    case UmolM2S => "µmol/m2/s"
    case UmolM2H => "µmol/m2/h"
    case MmolM2S => "mmol/m2/s"
    case MmolM2H => "mmol/m2/h"
    case MgM2S => "mg/m2/s"
    case MgM2H => "mg/m2/h"
    case NmolM2S => "nmol/m2/s"
    case NmolM2H => "nmol/m2/h"
  }

  /** `FromStr` on the ASCII-folded input; the error carries the folded input. */
  function Parse(s: string): (r: Result<FluxUnit, string>)
    ensures r.Ok? ==> Lower(s) == Label(r.value)
    ensures r.Err? ==> r.error == "Invalid unit: " + Lower(s)
  {
    var l := Lower(s);
    if l == "µmol/m2/s" then Ok(UmolM2S)
    else if l == "µmol/m2/h" then Ok(UmolM2H)
    else if l == "mmol/m2/s" then Ok(MmolM2S)
    else if l == "mmol/m2/h" then Ok(MmolM2H)
    else if l == "mg/m2/s" then Ok(MgM2S)
    else if l == "mg/m2/h" then Ok(MgM2H)
    else if l == "nmol/m2/s" then Ok(NmolM2S)
    else if l == "nmol/m2/h" then Ok(NmolM2H)
    else Err("Invalid unit: " + l)
  }

  /** Parsing the displayed label gives the unit back, for all eight units. */
  lemma {:induction false} ParseLabel(u: FluxUnit)
    ensures Parse(Label(u)) == Ok(u)
  {
    LowerNoUpper(Label(u));
    match u
    case UmolM2S =>
    case UmolM2H =>
    case MmolM2S =>
    case MmolM2H =>
    case MgM2S =>
    case MgM2H =>
    case NmolM2S =>
    case NmolM2H =>
  }

  /** `all()`. */
  function All(): (r: seq<FluxUnit>)
    ensures |r| == 8
    ensures forall i, j :: 0 <= i < j < |r| ==> r[i] != r[j]
  {
    [UmolM2S, UmolM2H, MmolM2S, MmolM2H, MgM2S, MgM2H, NmolM2S, NmolM2H]
  }

  /** `all()` lists every unit. */
  lemma {:induction false} AllComplete(u: FluxUnit)
    ensures u in All()
  {
    var a := All();
    match u
    case UmolM2S => assert a[0] == u;
    case UmolM2H => assert a[1] == u;
    case MmolM2S => assert a[2] == u;
    case MmolM2H => assert a[3] == u;
    case MgM2S => assert a[4] == u;
    case MgM2H => assert a[5] == u;
    case NmolM2S => assert a[6] == u;
    case NmolM2H => assert a[7] == u;
  }

  /** The per-second unit an hourly unit is derived from. */
  function PerSecond(u: FluxUnit): FluxUnit
  {
    match u
    case UmolM2H => UmolM2S
    case MmolM2H => MmolM2S
    case MgM2H => MgM2S
    case NmolM2H => NmolM2S
    case _ => u
  }

  predicate IsHourly(u: FluxUnit)
  {
    u.UmolM2H? || u.MmolM2H? || u.MgM2H? || u.NmolM2H?
  }

  /** `from_umol_m2_s`, evaluated in exact arithmetic as written. */
  function FromUmolM2S(u: FluxUnit, value: real, gas: GasType): real
  {
    match u
    case NmolM2S => value * 1000.0
    case NmolM2H => value * 1000.0 * 3600.0
    case UmolM2S => value
    case UmolM2H => value * 3600.0
    case MmolM2S => value / 1000.0
    case MmolM2H => value / 1000.0 * 3600.0
    case MgM2S => value * MolMass(gas) / 1000.0
    case MgM2H => value * MolMass(gas) / 1000.0 * 3600.0
  }

  /** The conversion multiplies by a positive constant that depends only on the unit and gas. */
  function Factor(u: FluxUnit, gas: GasType): (r: real)
    ensures r > 0.0
    ensures forall value :: FromUmolM2S(u, value, gas) == value * r
  {
    FromUmolM2S(u, 1.0, gas)
  }

  /** µmol/m2/s is the identity. */
  lemma {:induction false} BaseIsIdentity(value: real, gas: GasType)
    ensures FromUmolM2S(UmolM2S, value, gas) == value
  {
  }

  /** Every hourly unit is 3600 times its per-second counterpart. */
  lemma {:induction false} HourlyIs3600(u: FluxUnit, value: real, gas: GasType)
    requires IsHourly(u)
    ensures PerSecond(u) != u && !IsHourly(PerSecond(u))
    ensures FromUmolM2S(u, value, gas) == 3600.0 * FromUmolM2S(PerSecond(u), value, gas)
  {
  }

  /** Only the mg units depend on the gas, and there only through `mol_mass`. */
  lemma {:induction false} GasOnlyForMg(u: FluxUnit, value: real, g1: GasType, g2: GasType)
    ensures !(u.MgM2S? || u.MgM2H?) ==> FromUmolM2S(u, value, g1) == FromUmolM2S(u, value, g2)
    ensures MolMass(g1) == MolMass(g2) ==> FromUmolM2S(u, value, g1) == FromUmolM2S(u, value, g2)
  {
  }

  /** A label spelled for a column name: 'µ' as 'u' and '/' as '_'. */
  function ColumnSafe(s: string): (r: string)
    ensures |r| == |s|
  {
    seq(|s|, i requires 0 <= i < |s| => if s[i] == 'µ' then 'u' else if s[i] == '/' then '_' else s[i])
  }

  /** `suffix`: the column-name suffix of the unit, its label spelled for a column name. */
  function Suffix(u: FluxUnit): (r: string)
    ensures r == ColumnSafe(Label(u))
  {
    match u
    case UmolM2S => assert ColumnSafe("µmol/m2/s") == "umol_m2_s"; "umol_m2_s"
    case UmolM2H => assert ColumnSafe("µmol/m2/h") == "umol_m2_h"; "umol_m2_h"
    case MmolM2S => assert ColumnSafe("mmol/m2/s") == "mmol_m2_s"; "mmol_m2_s"
    case MmolM2H => assert ColumnSafe("mmol/m2/h") == "mmol_m2_h"; "mmol_m2_h"
    case MgM2S => assert ColumnSafe("mg/m2/s") == "mg_m2_s"; "mg_m2_s"
    case MgM2H => assert ColumnSafe("mg/m2/h") == "mg_m2_h"; "mg_m2_h"
    case NmolM2S => assert ColumnSafe("nmol/m2/s") == "nmol_m2_s"; "nmol_m2_s"
    case NmolM2H => assert ColumnSafe("nmol/m2/h") == "nmol_m2_h"; "nmol_m2_h"
  }

  /** Distinct units have distinct suffixes and labels. */
  lemma {:induction false} SuffixInjective(a: FluxUnit, b: FluxUnit)
    ensures Suffix(a) == Suffix(b) ==> a == b
    ensures Label(a) == Label(b) ==> a == b
  {
  }
}
