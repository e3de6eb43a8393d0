// The validity state of a measurement cycle: its error mask, the
// threshold verdict and the manual override
// (crates/fluxrs-core/src/cycle/cycle.rs).
module Validities {
  import opened Wrappers
  import opened ErrorCodes

  /** The validity state of a cycle: its error mask, whether it is valid,
      the manual override, and whether a person has touched it. */
  datatype Validity = Validity(errorCode: bv16, isValid: bool, overrideValid: Option<bool>,
                               manualValid: bool, manualAdjusted: bool)

  /** The mask with the code's bit cleared. */
  function Cleared(m: bv16, e: ErrorCode): (r: bv16)
    ensures !Has(r, e)
    ensures r & m == r
  {
    m & !ToMask(e)
  }

  /** Clearing one code keeps every other. */
  lemma {:induction false} ClearedOthers(m: bv16, e: ErrorCode, d: ErrorCode)
    requires d != e
    ensures Has(Cleared(m, e), d) <==> Has(m, d)
  {
    ToMaskDisjoint(d, e);
  }

  /** `add_error`: the code is set, no other code is lost, and the cycle is
      no longer valid. */
  function WithError(f: Validity, e: ErrorCode): (r: Validity)
    ensures Has(r.errorCode, e) && f.errorCode & r.errorCode == f.errorCode
    ensures !r.isValid
    ensures r.overrideValid == f.overrideValid && r.manualValid == f.manualValid && r.manualAdjusted == f.manualAdjusted
  {
    var m := WithCode(f.errorCode, e);
    f.(errorCode := m, isValid := if m != 0 then false else f.isValid)
  }

  /** `remove_error`: the code is cleared, no other code is touched, and
      the cycle becomes valid exactly when no code is left, otherwise it
      keeps its validity. */
  function WithoutError(f: Validity, e: ErrorCode): (r: Validity)
    ensures !Has(r.errorCode, e) && r.errorCode & f.errorCode == r.errorCode
    ensures r.errorCode == 0 ==> r.isValid
    ensures r.errorCode != 0 ==> r.isValid == f.isValid
    ensures r.overrideValid == f.overrideValid && r.manualValid == f.manualValid && r.manualAdjusted == f.manualAdjusted
  {
    var m := Cleared(f.errorCode, e);
    f.(errorCode := m, isValid := if m == 0 then true else f.isValid)
  }

  /** `toggle_manual_valid`: an override is set to the opposite of the
      current validity, or an existing one is cleared; validity flips; the
      `ManualInvalid` code follows a false override, a true override clears
      every code; and the cycle is marked adjusted when anything changed. */
  function ToggledValidity(f: Validity): (r: Validity)
    ensures r.overrideValid == if f.overrideValid.Some? then None else Some(!f.isValid)
    ensures r.manualValid <==> r.overrideValid.Some?
    ensures r.overrideValid == Some(false) ==> Has(r.errorCode, ManualInvalid) && !r.isValid
    ensures r.overrideValid == Some(true) ==> r.errorCode == 0 && r.isValid
    ensures r.overrideValid.None? ==> !Has(r.errorCode, ManualInvalid)
    ensures r.overrideValid != Some(true) ==>
      forall d :: d != ManualInvalid ==> (Has(r.errorCode, d) <==> Has(f.errorCode, d))
    ensures r.manualAdjusted <==>
      f.manualAdjusted || r.isValid != f.isValid || r.overrideValid != f.overrideValid || r.errorCode != f.errorCode
  {
    var o := if f.overrideValid.Some? then None else Some(!f.isValid);
    var t := f.(overrideValid := o, isValid := !f.isValid, manualValid := o.Some?);
    var u := if t.manualValid && o == Some(false) then WithError(t, ManualInvalid) else WithoutError(t, ManualInvalid);
    var w := if u.manualValid && o == Some(true) then u.(errorCode := 0) else u;
    assert o != Some(true) ==> forall d :: d != ManualInvalid ==> (Has(w.errorCode, d) <==> Has(f.errorCode, d)) by {
      forall d | d != ManualInvalid && o != Some(true)
        ensures Has(w.errorCode, d) <==> Has(f.errorCode, d)
      {
        if o == Some(false) {
          WithCodeOthers(f.errorCode, ManualInvalid, d);
        } else {
          ClearedOthers(f.errorCode, ManualInvalid, d);
        }
      }
    }
    var changed := w.isValid != f.isValid || w.overrideValid != f.overrideValid || w.errorCode != f.errorCode;
    w.(manualAdjusted := f.manualAdjusted || changed)
  }

  /** The override always changes, so every toggle marks the cycle as
      manually adjusted. */
  lemma {:induction false} ToggleMarksAdjusted(f: Validity)
    ensures ToggledValidity(f).manualAdjusted
  {
  }

  /** Toggling a valid cycle twice restores it: no override, valid, and the
      same codes when `ManualInvalid` was not among them. */
  lemma {:induction false} ToggleTwiceRestoresValid(f: Validity)
    requires f.overrideValid.None? && f.isValid && !Has(f.errorCode, ManualInvalid)
    ensures var r := ToggledValidity(ToggledValidity(f));
      r.overrideValid.None? && !r.manualValid && r.isValid && r.errorCode == f.errorCode
  {
  }

  /** Toggling an invalid cycle twice does not restore it: the true
      override in between cleared every code, so it ends valid with none. */
  lemma {:induction false} ToggleTwiceValidatesInvalid(f: Validity)
    requires f.overrideValid.None? && !f.isValid
    ensures var r := ToggledValidity(ToggledValidity(f));
      r.overrideValid.None? && !r.manualValid && r.isValid && r.errorCode == 0
  {
  }
}
