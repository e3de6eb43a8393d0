// How the calculation window of a cycle is chosen (crates/fluxrs-core/src/mode.rs).
module Modes {
  import opened Wrappers
  import opened Text

  datatype Mode = AfterDeadband | BestPearsonsR

  newtype u8 = x: int | 0 <= x < 256

  /** `Mode::default()`: the mode labelled "Best Pearson's R", stored as 2. */
  function DefaultMode(): (m: Mode)
    ensures Label(m) == "Best Pearson's R" && AsInt(m) == 2
  {
    BestPearsonsR
  }

  /** `FromStr`: case-insensitive; the error carries the folded input. */
  function Parse(s: string): (r: Result<Mode, string>)
    ensures r == Ok(AfterDeadband) <==> Lower(s) == "deadband"
    ensures r == Ok(BestPearsonsR) <==> Lower(s) == "pearsons" || Lower(s) == "bestr"
    ensures r.Err? ==> r.error == "invalid mode: " + Lower(s)
  {
    var l := Lower(s);
    if l == "deadband" then Ok(AfterDeadband)
    else if l == "pearsons" then Ok(BestPearsonsR)
    else if l == "bestr" then Ok(BestPearsonsR)
    else Err("invalid mode: " + l)
  }

  /** Parsing ignores ASCII case. */
  lemma {:induction false} ParseIgnoresCase(s: string)
    ensures Parse(s) == Parse(Lower(s))
  {
    LowerIdempotent(s);
  }

  /** `as_int`: 1 for the mode labelled "After Deadband", 2 for "Best Pearson's R". */
  function AsInt(m: Mode): (i: u8)
    ensures 1 <= i <= 2 && Label(m) == ["After Deadband", "Best Pearson's R"][i as int - 1]
  {
    match m
    case AfterDeadband => 1
    case BestPearsonsR => 2
  }

  function FromInt(i: u8): (r: Option<Mode>)
    ensures r.Some? <==> i == 1 || i == 2
    ensures r.Some? ==> AsInt(r.value) == i
  {
    match i
    case 1 => Some(AfterDeadband)
    case 2 => Some(BestPearsonsR)
    case _ => None
  }

  lemma {:induction false} IntRoundTrip(m: Mode)
    ensures FromInt(AsInt(m)) == Some(m)
  {
  }

  /** The label shown by both `Display` and `Debug`. `FromStr` accepts
      neither label: the displayed text does not parse back. */
  function Label(m: Mode): (r: string)
    ensures Parse(r).Err?
  {
    match m
    case AfterDeadband => "After Deadband"
    case BestPearsonsR => "Best Pearson's R"
  }

  /** `Debug` prints the same label as `Display`; the labels are distinct. */
  function DebugLabel(m: Mode): (r: string)
    ensures r == Label(m)
  {
    match m
    case AfterDeadband => "After Deadband"
    case BestPearsonsR => "Best Pearson's R"
  }

  lemma {:induction false} LabelInjective(a: Mode, b: Mode)
    ensures Label(a) == Label(b) ==> a == b
  {
  }
}
