// The measured gases and their per-gas constants and column names (src/gastype.rs).
module GasTypes {
  import opened Wrappers
  import opened Text

  datatype GasType = CO2 | CH4 | H2O | N2O

  /** `#[default]`: the gas displayed as CO2 and stored as 0. */
  function DefaultGas(): (g: GasType)
    ensures Name(g) == "CO2" && AsInt(g) == 0
  {
    CO2
  }

  /** `Display`: a three-letter name that `FromStr` accepts. */
  function Name(g: GasType): (r: string)
    ensures |r| == 3 && Lower(r) in {"ch4", "co2", "h2o", "n2o"}
  {
    match g
    case CO2 => assert Lower("CO2") == "co2"; "CO2"
    case CH4 => assert Lower("CH4") == "ch4"; "CH4"
    case H2O => assert Lower("H2O") == "h2o"; "H2O"
    case N2O => assert Lower("N2O") == "n2o"; "N2O"
  }

  /** `FromStr`: case-insensitive; the error carries the folded input. */
  function Parse(s: string): (r: Result<GasType, string>)
    ensures r.Ok? <==> Lower(s) in {"ch4", "co2", "h2o", "n2o"}
    ensures r.Ok? ==> Lower(Name(r.value)) == Lower(s)
    ensures r.Err? ==> r.error == "Invalid gas: " + Lower(s)
  {
    var l := Lower(s);
    if l == "ch4" then Ok(CH4)
    else if l == "co2" then Ok(CO2)
    else if l == "h2o" then Ok(H2O)
    else if l == "n2o" then Ok(N2O)
    else Err("Invalid gas: " + l)
  }

  /** Parsing the displayed name, in any ASCII case, gives the gas back. */
  lemma {:induction false} ParseName(g: GasType, s: string)
    requires Lower(s) == Lower(Name(g))
    ensures Parse(s) == Ok(g)
  {
  }

  /** `column_name`. */
  function ColumnName(g: GasType): (r: string)
    ensures r == Name(g)
  {
    match g
    case CH4 => "CH4"
    case CO2 => "CO2"
    case H2O => "H2O"
    case N2O => "N2O"
  }

  /** `as_int`: the gas's position in the order CO2, CH4, H2O, N2O. */
  function AsInt(g: GasType): (i: nat)
    ensures i <= 3 && Name(g) == ["CO2", "CH4", "H2O", "N2O"][i]
  {
    match g
    case CO2 => 0
    case CH4 => 1
    case H2O => 2
    case N2O => 3
  }

  function FromInt(i: nat): (r: Option<GasType>)
    ensures r.Some? <==> i <= 3
    ensures r.Some? ==> AsInt(r.value) == i
  {
    match i
    case 0 => Some(CO2)
    case 1 => Some(CH4)
    case 2 => Some(H2O)
    case 3 => Some(N2O)
    case _ => None
  }

  lemma {:induction false} IntRoundTrip(g: GasType)
    ensures FromInt(AsInt(g)) == Some(g)
  {
  }

  /** `mol_mass` in g/mol. */
  function MolMass(g: GasType): (r: real)
    ensures r > 0.0
  {
    match g
    case CH4 => 16.0
    case CO2 => 44.0
    case H2O => 18.0
    case N2O => 44.0
  }

  /** `conv_factor`. */
  function ConvFactor(g: GasType): (r: real)
    ensures r == 1.0 || r == 1000.0
  {
    match g
    case CH4 => 1000.0
    case CO2 => 1.0
    case H2O => 1.0
    case N2O => 1000.0
  }

  /** `unit`. */
  function Unit(g: GasType): (r: string)
    ensures r == "ppm" || r == "ppb"
  {
    match g
    case CH4 => "ppb"
    case CO2 => "ppm"
    case H2O => "ppm"
    case N2O => "ppb"
  }

  /** The factor is 1000 exactly for the gases reported in ppb (CH4 and N2O). */
  lemma {:induction false} ConvFactorMatchesUnit(g: GasType)
    ensures ConvFactor(g) == 1000.0 <==> Unit(g) == "ppb"
    ensures Unit(g) == "ppb" <==> g == CH4 || g == N2O
  {
  }

  /** The eight per-gas database columns built by the `*_col` methods. */
  datatype Column =
    | Flux | R2 | MeasurementR2 | Intercept | Slope
    | CalcRangeStart | CalcRangeEnd | T0Concentration

  function ColumnSuffix(c: Column): string
  {
    match c
    case Flux => "_flux"
    case R2 => "_r2"
    case MeasurementR2 => "_measurement_r2"
    case Intercept => "_intercept"
    case Slope => "_slope"
    case CalcRangeStart => "_calc_range_start"
    case CalcRangeEnd => "_calc_range_end"
    case T0Concentration => "_t0_concentration"
  }

  /** `flux_col`, `r2_col`, ...: the lower-cased column name and a fixed suffix. */
  function ColumnFor(g: GasType, c: Column): (r: string)
    ensures |r| > 3 && r[..3] == Lower(ColumnName(g)) && r[3..] == ColumnSuffix(c)
  {
    Lower(ColumnName(g)) + ColumnSuffix(c)
  }

  /** Distinct (gas, column) pairs give distinct database columns. */
  lemma {:induction false} ColumnForInjective(g1: GasType, c1: Column, g2: GasType, c2: Column)
    requires ColumnFor(g1, c1) == ColumnFor(g2, c2)
    ensures g1 == g2 && c1 == c2
  {
    var r := ColumnFor(g1, c1);
    assert Lower(ColumnName(g1)) == r[..3] == Lower(ColumnName(g2));
    assert ColumnSuffix(c1) == r[3..] == ColumnSuffix(c2);
    assert Lower(ColumnName(g1))[0] == Lower(ColumnName(g2))[0];
    assert Lower(ColumnName(g1))[1] == Lower(ColumnName(g2))[1];
  }
}
