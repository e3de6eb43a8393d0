// The concentration unit an instrument reports in (src/concentrationunit.rs).
module ConcentrationUnits {

  datatype ConcentrationUnit = Ppm | Ppb

  /** `to_ppm_factor`: the multiplier that turns a reading into ppm. */
  function ToPpmFactor(u: ConcentrationUnit): (r: real)
    ensures r > 0.0
    ensures u == Ppm <==> r == 1.0
  {
    match u
    case Ppm => 1.0
    case Ppb => 1.0 / 1000.0
  }

  /** A ppb factor is smaller than the ppm one. */
  lemma {:induction false} PpbBelowPpm()
    ensures ToPpmFactor(Ppb) < ToPpmFactor(Ppm)
  {
  }

  /** A ppb reading times its factor is the same amount in ppm. */
  lemma {:induction false} PpbToPpm(value: real)
    ensures value * ToPpmFactor(Ppb) == value / 1000.0
    ensures value * ToPpmFactor(Ppm) == value
  {
  }

  function AsStr(u: ConcentrationUnit): (r: string)
    ensures |r| == 3 && r[0] == 'p' && r[1] == 'p'
  {
    match u
    case Ppm => "ppm"
    case Ppb => "ppb"
  }

  lemma {:induction false} AsStrInjective(a: ConcentrationUnit, b: ConcentrationUnit)
    ensures AsStr(a) == AsStr(b) ==> a == b
  {
  }
}
