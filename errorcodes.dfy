// The per-cycle quality-control error codes and the 16-bit mask that holds
// them (src/errorcode.rs).
module ErrorCodes {

  /** Error codes, in declaration order. */
  datatype ErrorCode =
    | ErrorsInMeasurement
    | LowR
    | TooManyMeasurements
    | TooFewMeasurements
    | FewUnique
    | ManualInvalid
    | TooManyDiagErrors
    | BadOpenClose

  /** The order in which `from_mask` visits the codes: by increasing bit. */
  function MaskOrder(): seq<ErrorCode>
  {
    [ErrorsInMeasurement, LowR, FewUnique, TooManyMeasurements,
     TooFewMeasurements, ManualInvalid, TooManyDiagErrors, BadOpenClose]
  }

  /** The single bit of a code; the constants DIAG_ERROR_IN_MEASUREMENT .. BAD_OPEN_CLOSE. */
  function ToMask(e: ErrorCode): (b: bv16)
    ensures b != 0
  {
    match e
    case ErrorsInMeasurement => 1 << 0
    case LowR => 1 << 1
    case FewUnique => 1 << 2
    case TooManyMeasurements => 1 << 3
    case TooFewMeasurements => 1 << 4
    case ManualInvalid => 1 << 5
    case TooManyDiagErrors => 1 << 6
    case BadOpenClose => 1 << 7
  }

  /** Each mask is one bit among the low eight. */
  lemma {:induction false} ToMaskSingleBit(e: ErrorCode)
    ensures ToMask(e) != 0 && ToMask(e) & (ToMask(e) - 1) == 0
    ensures ToMask(e) < 256
  {
  }

  /** The eight possible mask values; proofs about a symbolic code split on them. */
  lemma {:induction false} MaskValues(e: ErrorCode)
    ensures ToMask(e) == 1 || ToMask(e) == 2 || ToMask(e) == 4 || ToMask(e) == 8 ||
            ToMask(e) == 16 || ToMask(e) == 32 || ToMask(e) == 64 || ToMask(e) == 128
  {
  }

  /** Distinct codes have disjoint masks, so `to_mask` is injective. */
  lemma {:induction false} ToMaskDisjoint(a: ErrorCode, b: ErrorCode)
    ensures (ToMask(a) & ToMask(b) != 0) <==> a == b
  {
  }

  /** The bit of `e` is set in `m` (`mask & e.to_mask() != 0`). */
  predicate Has(m: bv16, e: ErrorCode)
  {
    m & ToMask(e) != 0
  }

  /** The codes of `codes` whose bit is set in `m`, keeping their order. */
  function Selected(m: bv16, codes: seq<ErrorCode>): (r: seq<ErrorCode>)
    ensures |r| <= |codes|
  {
    if codes == [] then []
    else (if Has(m, codes[0]) then [codes[0]] else []) + Selected(m, codes[1..])
  }

  /** A code is selected iff it is listed and its bit is set. */
  lemma {:induction false} SelectedMember(m: bv16, codes: seq<ErrorCode>, e: ErrorCode)
    ensures e in Selected(m, codes) <==> e in codes && Has(m, e)
  {
    if codes != [] {
      SelectedMember(m, codes[1..], e);
      assert codes == [codes[0]] + codes[1..];
    }
  }

  /** Every code occurs in `MaskOrder()`. */
  lemma {:induction false} MaskOrderComplete(e: ErrorCode)
    ensures e in MaskOrder()
  {
    assert MaskOrder()[Bit(e)] == e;
  }

  /** The position of a code's bit: `ToMask(e) == 1 << Bit(e)`. */
  function Bit(e: ErrorCode): (n: nat)
    ensures n < 8
    ensures ToMask(e) == 1 << n
  {
    match e
    case ErrorsInMeasurement => 0
    case LowR => 1
    case FewUnique => 2
    case TooManyMeasurements => 3
    case TooFewMeasurements => 4
    case ManualInvalid => 5
    case TooManyDiagErrors => 6
    case BadOpenClose => 7
  }

  /** `MaskOrder()` lists the codes by bit position: the i-th has bit i. */
  lemma {:induction false} MaskOrderBits()
    ensures forall i :: 0 <= i < |MaskOrder()| ==> Bit(MaskOrder()[i]) == i
  {
  }

  /** A higher bit position is a larger mask. */
  lemma {:induction false} MaskMonotone(a: ErrorCode, b: ErrorCode)
    ensures Bit(a) < Bit(b) <==> ToMask(a) < ToMask(b)
  {
    match a
    case ErrorsInMeasurement =>
    case LowR =>
    case FewUnique =>
    case TooManyMeasurements =>
    case TooFewMeasurements =>
    case ManualInvalid =>
    case TooManyDiagErrors =>
    case BadOpenClose =>
  }

  /** One step of `Selected` at position `i`. */
  lemma {:induction false} SelectedStep(m: bv16, codes: seq<ErrorCode>, i: nat)
    requires i < |codes|
    ensures Selected(m, codes[i..]) ==
      (if Has(m, codes[i]) then [codes[i]] else []) + Selected(m, codes[i + 1..])
  {
    assert codes[i..][1..] == codes[i + 1..];
  }

  /** `from_mask`: the codes whose bits are set, in increasing bit order. */
  method FromMask(mask: bv16) returns (errors: seq<ErrorCode>)
    ensures errors == Selected(mask, MaskOrder())
    ensures forall e :: e in errors <==> Has(mask, e)
  {
    errors := SelectFrom(mask, MaskOrder());
    SelectedAll(mask);
  }

  /** The loop of `from_mask`: walk `codes`, keeping those whose bit is set. */
  method SelectFrom(mask: bv16, codes: seq<ErrorCode>) returns (errors: seq<ErrorCode>)
    ensures errors == Selected(mask, codes)
  {
    errors := [];
    var i := 0;
    while i < |codes|
      invariant 0 <= i <= |codes|
      invariant errors + Selected(mask, codes[i..]) == Selected(mask, codes)
    {
      var e := codes[i];
      SelectedStep(mask, codes, i);
      if Has(mask, e) {
        errors := errors + [e];
      }
      i := i + 1;
    }
  }

  /** Selecting from `MaskOrder()` keeps exactly the codes whose bit is set. */
  lemma {:induction false} SelectedAll(m: bv16)
    ensures forall e :: e in Selected(m, MaskOrder()) <==> Has(m, e)
  {
    forall e ensures e in Selected(m, MaskOrder()) <==> Has(m, e) {
      MaskOrderComplete(e);
      SelectedMember(m, MaskOrder(), e);
    }
  }

  /** Selecting from a list in strictly increasing bit order keeps that order. */
  lemma {:induction false} SelectedOrdered(m: bv16, codes: seq<ErrorCode>)
    requires forall i, j :: 0 <= i < j < |codes| ==> Bit(codes[i]) < Bit(codes[j])
    ensures forall i, j :: 0 <= i < j < |Selected(m, codes)| ==>
      Bit(Selected(m, codes)[i]) < Bit(Selected(m, codes)[j])
  {
    SelectedOrderedBy(m, codes, Bit);
  }

  /** Selection keeps codes increasing under any key, the bit position among them. */
  lemma {:induction false} SelectedOrderedBy(m: bv16, codes: seq<ErrorCode>, key: ErrorCode -> nat)
    requires forall i, j :: 0 <= i < j < |codes| ==> key(codes[i]) < key(codes[j])
    ensures forall i, j :: 0 <= i < j < |Selected(m, codes)| ==>
      key(Selected(m, codes)[i]) < key(Selected(m, codes)[j])
  {
    if codes != [] {
      var tail := codes[1..];
      SelectedOrderedBy(m, tail, key);
      var rest := Selected(m, tail);
      if Has(m, codes[0]) {
        var r := Selected(m, codes);
        assert r == [codes[0]] + rest;
        forall i, j | 0 <= i < j < |r| ensures key(r[i]) < key(r[j]) {
          if i == 0 {
            var e := rest[j - 1];
            SelectedMember(m, tail, e);
            var k :| 0 <= k < |tail| && tail[k] == e;
            assert codes[k + 1] == e;
          } else {
            assert r[i] == rest[i - 1] && r[j] == rest[j - 1];
          }
        }
      }
    }
  }

  /** `from_mask` lists the codes by strictly increasing mask value. */
  lemma {:induction false} FromMaskOrdered(m: bv16)
    ensures forall i, j :: 0 <= i < j < |Selected(m, MaskOrder())| ==>
      ToMask(Selected(m, MaskOrder())[i]) < ToMask(Selected(m, MaskOrder())[j])
  {
    MaskOrderBits();
    SelectedOrdered(m, MaskOrder());
    var r := Selected(m, MaskOrder());
    forall i, j | 0 <= i < j < |r| ensures ToMask(r[i]) < ToMask(r[j]) {
      MaskMonotone(r[i], r[j]);
    }
  }

  /** Selecting with the mask of one code picks that code out of a list without repeats. */
  lemma {:induction false} SelectedOfOne(e: ErrorCode, codes: seq<ErrorCode>)
    requires forall i, j :: 0 <= i < j < |codes| ==> codes[i] != codes[j]
    ensures Selected(ToMask(e), codes) == if e in codes then [e] else []
  {
    if codes != [] {
      var tail := codes[1..];
      SelectedOfOne(e, tail);
      assert Has(ToMask(e), codes[0]) <==> codes[0] == e by {
        ToMaskDisjoint(e, codes[0]);
      }
      assert codes == [codes[0]] + tail;
      if codes[0] == e {
        assert e !in tail;
      }
    }
  }

  /** `from_mask(e.to_mask()) == [e]`. */
  lemma {:induction false} FromMaskOfOne(e: ErrorCode)
    ensures Selected(ToMask(e), MaskOrder()) == [e]
  {
    MaskOrderComplete(e);
    SelectedOfOne(e, MaskOrder());
  }

  /** The mask of `a | b` holds exactly the two codes. */
  function Or(a: ErrorCode, b: ErrorCode): (r: bv16)
    ensures Has(r, a) && Has(r, b)
    ensures r == ToMask(a) ^ ToMask(b) || a == b
  {
    ToMask(a) | ToMask(b)
  }

  /** A code outside `a | b` is not in it. */
  lemma {:induction false} OrExact(a: ErrorCode, b: ErrorCode, d: ErrorCode)
    ensures Has(Or(a, b), d) <==> d == a || d == b
  {
    ToMaskDisjoint(a, d);
    ToMaskDisjoint(b, d);
  }

  /** `mask |= code`: sets the bit and clears none. */
  function WithCode(m: bv16, c: ErrorCode): (r: bv16)
    ensures Has(r, c)
    ensures m & r == m
  {
    MaskValues(c);
    m | ToMask(c)
  }

  /** `|= code` leaves the other codes as they were. */
  lemma {:induction false} WithCodeOthers(m: bv16, c: ErrorCode, d: ErrorCode)
    requires d != c
    ensures Has(WithCode(m, c), d) <==> Has(m, d)
  {
    ToMaskDisjoint(c, d);
  }

  /** `toggle`: clears the bit when set, sets it otherwise; no other bit moves. */
  function Toggled(m: bv16, c: ErrorCode): (r: bv16)
    ensures Has(r, c) <==> !Has(m, c)
  {
    if Has(m, c) then m & !ToMask(c) else m | ToMask(c)
  }

  /** Toggling leaves the other codes as they were. */
  lemma {:induction false} ToggledOthers(m: bv16, c: ErrorCode, d: ErrorCode)
    requires d != c
    ensures Has(Toggled(m, c), d) <==> Has(m, d)
  {
    ToMaskDisjoint(c, d);
  }

  /** Clearing a set bit or setting a clear one is an exclusive-or with the
      code's mask. */
  lemma {:induction false} ToggledIsXor(m: bv16, c: ErrorCode)
    ensures Toggled(m, c) == m ^ ToMask(c)
  {
    ToggledUnfolded(m, c);
    ToMaskSingleBit(c);
    BitToggleIsXor(m, ToMask(c));
  }

  /** `toggle` spelled out on the mask itself. */
  lemma {:induction false} ToggledUnfolded(m: bv16, c: ErrorCode)
    ensures Toggled(m, c) == if m & ToMask(c) != 0 then m & !ToMask(c) else m | ToMask(c)
  {
  }

  /** For a single-bit mask, clear-if-set-else-set is an exclusive-or. */
  lemma {:induction false} BitToggleIsXor(m: bv16, b: bv16)
    requires b != 0 && b & (b - 1) == 0
    ensures (if m & b != 0 then m & !b else m | b) == m ^ b
  {
    if m & b != 0 {
      assert m & b == b;
    }
  }

  /** Toggling twice is the identity. */
  lemma {:induction false} ToggleTwice(m: bv16, c: ErrorCode)
    ensures Toggled(Toggled(m, c), c) == m
  {
    ToggledIsXor(m, c);
    ToggledIsXor(Toggled(m, c), c);
    assert (m ^ ToMask(c)) ^ ToMask(c) == m;
  }

  /** `|= ErrorMask`: a code is in the union iff it is in either operand. */
  lemma {:induction false} UnionHas(a: bv16, b: bv16, d: ErrorCode)
    ensures Has(a | b, d) <==> Has(a, d) || Has(b, d)
  {
    MaskValues(d);
  }

  /** The user-facing message of each code: a phrase starting with a capital. */
  function Message(e: ErrorCode): (r: string)
    ensures |r| > 0 && 'A' <= r[0] <= 'Z'
  {
    match e
    case ErrorsInMeasurement => "Instrument diagnostic errors in measurement"
    case LowR => "Low r value"
    case FewUnique => "Too few unique values"
    case TooManyMeasurements => "Too many values"
    case TooFewMeasurements => "Too few values"
    case ManualInvalid => "Manual invalid"
    case TooManyDiagErrors => "Too many instrument diagnostic errors"
    case BadOpenClose => "Bad opening and/or closing of chamber"
  }

  /** No two codes share a message. */
  lemma {:induction false} MessageInjective(a: ErrorCode, b: ErrorCode)
    ensures Message(a) == Message(b) ==> a == b
  {
  }

  /** `ErrorMask(u16)`, the mutable wrapper a cycle owns. */
  class ErrorMask {
    var bits: bv16

    constructor FromU16(value: bv16)
      ensures bits == value
    {
      bits := value;
    }

    /** `contains`: agrees with membership in `from_mask`. */
    function Contains(code: ErrorCode): (r: bool)
      reads this
      ensures r <==> code in Selected(bits, MaskOrder())
    {
      MaskOrderComplete(code);
      SelectedMember(bits, MaskOrder(), code);
      bits & ToMask(code) != 0
    }

    /** `toggle` flips exactly the one bit. */
    method Toggle(code: ErrorCode)
      modifies this
      ensures bits == Toggled(old(bits), code)
    {
      MaskValues(code);
      var mask := ToMask(code);
      if bits & mask != 0 {
        bits := bits & !mask;
      } else {
        bits := bits | mask;
      }
    }

    /** `|= ErrorCode`: sets the bit and clears none. */
    method OrCode(code: ErrorCode)
      modifies this
      ensures bits == WithCode(old(bits), code)
      ensures old(bits) & bits == old(bits)
    {
      bits := bits | ToMask(code);
    }

    /** `|= ErrorMask`: the union of the two masks. */
    method OrMask(other: bv16)
      modifies this
      ensures bits == old(bits) | other
    {
      bits := bits | other;
    }
  }
}
