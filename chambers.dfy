// Chamber geometry, `crates/fluxrs-core/src/data_formats/chamberdata.rs`.
module Chambers {
  import opened Wrappers
  import opened Text

  datatype ChamberShapeType = BoxType | CylinderType

  /** `as_int`: 0 for the type parsed from "box", 1 for "cylinder". */
  function ShapeTypeAsInt(t: ChamberShapeType): (i: nat)
    ensures i <= 1 && ParseShapeType(["box", "cylinder"][i]) == Some(t)
  {
    match t
    case BoxType => 0
    case CylinderType => 1
  }

  function ShapeTypeFromInt(i: nat): (r: Option<ChamberShapeType>)
    ensures r.Some? <==> i <= 1
    ensures r.Some? ==> ShapeTypeAsInt(r.value) == i
  {
    if i == 0 then Some(BoxType) else if i == 1 then Some(CylinderType) else None
  }

  lemma {:induction false} ShapeTypeIntRoundTrip(t: ChamberShapeType)
    ensures ShapeTypeFromInt(ShapeTypeAsInt(t)) == Some(t)
  {
  }

  /** `FromStr`: case-insensitive "box" or "cylinder"; the error carries nothing. */
  function ParseShapeType(s: string): (r: Option<ChamberShapeType>)
    ensures r == Some(BoxType) <==> Lower(s) == "box"
    ensures r == Some(CylinderType) <==> Lower(s) == "cylinder"
  {
    var l := Lower(s);
    if l == "box" then Some(BoxType)
    else if l == "cylinder" then Some(CylinderType)
    else None
  }

  lemma {:induction false} ParseShapeTypeIgnoresCase(s: string)
    ensures ParseShapeType(s) == ParseShapeType(Lower(s))
  {
    LowerIdempotent(s);
  }

  /** `std::f64::consts::PI`, as its shortest decimal. */
  const Pi: real := 3.141592653589793

  datatype ChamberShape =
    | Cylinder(diameterM: real, heightM: real, snowHeightM: real)
    | Box(widthM: real, lengthM: real, heightM: real, snowHeightM: real)

  /** `ChamberShape::default()`: a box of 1 m² footprint, 1 m high and free of snow. */
  function DefaultShape(): (s: ChamberShape)
    ensures s.Box? && s.widthM * s.lengthM == 1.0 && InternalHeight(s) == 1.0
  {
    Box(1.0, 1.0, 1.0, 0.0)
  }

  function VolumeM3(s: ChamberShape): real
  {
    match s
    case Cylinder(d, h, snow) => Pi * (d / 2.0) * (d / 2.0) * (h - snow)
    case Box(w, l, h, snow) => w * l * (h - snow)
  }

  function AreaM2(s: ChamberShape): real
  {
    match s
    case Cylinder(d, _, _) => Pi * (d / 2.0) * (d / 2.0)
    case Box(w, l, _, _) => w * l
  }

  /** `max(height - snow, 0)`. */
  function InternalHeight(s: ChamberShape): (r: real)
    ensures r >= 0.0 && r >= s.heightM - s.snowHeightM
    ensures r == 0.0 || r == s.heightM - s.snowHeightM
  {
    if s.heightM - s.snowHeightM >= 0.0 then s.heightM - s.snowHeightM else 0.0
  }

  function AdjustedVolume(s: ChamberShape): real
  {
    match s
    case Cylinder(d, _, _) => Pi * (d / 2.0) * (d / 2.0) * InternalHeight(s)
    case Box(w, l, _, _) => w * l * InternalHeight(s)
  }

  function Kind(s: ChamberShape): ChamberShapeType
  {
    match s
    case Box(_, _, _, _) => BoxType
    case Cylinder(_, _, _) => CylinderType
  }

  predicate NonNegativeDimensions(s: ChamberShape)
  {
    match s
    case Cylinder(d, h, snow) => d >= 0.0 && h >= 0.0 && snow >= 0.0
    case Box(w, l, h, snow) => w >= 0.0 && l >= 0.0 && h >= 0.0 && snow >= 0.0
  }

  /** The volume is the footprint area times the height above the snow. */
  lemma {:induction false} VolumeIsAreaTimesHeight(s: ChamberShape)
    ensures VolumeM3(s) == AreaM2(s) * (s.heightM - s.snowHeightM)
    ensures AdjustedVolume(s) == AreaM2(s) * InternalHeight(s)
  {
  }

  /** A cylinder's area is π(d/2)², a box's w·l; neither is negative for
      non-negative dimensions (a cylinder's never is). */
  lemma {:induction false} AreaFormula(s: ChamberShape)
    ensures s.Cylinder? ==> AreaM2(s) == Pi * ((s.diameterM / 2.0) * (s.diameterM / 2.0)) && AreaM2(s) >= 0.0
    ensures s.Box? ==> AreaM2(s) == s.widthM * s.lengthM
    ensures NonNegativeDimensions(s) ==> AreaM2(s) >= 0.0
  {
    if s.Cylinder? {
      var r := s.diameterM / 2.0;
      assert r * r >= 0.0;
    }
  }

  /** The adjusted volume is never negative for non-negative dimensions,
      and equals the plain volume when the snow is below the chamber top. */
  lemma {:induction false} AdjustedVolumeBounds(s: ChamberShape)
    ensures NonNegativeDimensions(s) ==> AdjustedVolume(s) >= 0.0
    ensures s.snowHeightM <= s.heightM ==> AdjustedVolume(s) == VolumeM3(s)
    ensures s.heightM <= s.snowHeightM ==> AdjustedVolume(s) == 0.0
  {
    VolumeIsAreaTimesHeight(s);
    AreaFormula(s);
    var a, h := AreaM2(s), InternalHeight(s);
    if NonNegativeDimensions(s) {
      assert a * h >= 0.0;
    }
  }

  function WithHeight(s: ChamberShape, h: real): (r: ChamberShape)
    ensures r.heightM == h && Kind(r) == Kind(s) && r.snowHeightM == s.snowHeightM
    ensures r.Cylinder? ==> r.diameterM == s.diameterM
    ensures r.Box? ==> r.widthM == s.widthM && r.lengthM == s.lengthM
  {
    s.(heightM := h)
  }

  function WithSnowHeight(s: ChamberShape, snow: real): (r: ChamberShape)
    ensures r.snowHeightM == snow && Kind(r) == Kind(s) && r.heightM == s.heightM
    ensures r.Cylinder? ==> r.diameterM == s.diameterM
    ensures r.Box? ==> r.widthM == s.widthM && r.lengthM == s.lengthM
  {
    s.(snowHeightM := snow)
  }

  /** Height and snow height are independent fields. */
  lemma {:induction false} SettersCommute(s: ChamberShape, h: real, snow: real)
    ensures WithSnowHeight(WithHeight(s, h), snow) == WithHeight(WithSnowHeight(s, snow), h)
    ensures WithHeight(WithHeight(s, h), s.heightM) == s
  {
  }

  datatype ChamberOrigin = DefaultOrigin | Raw

  /** `Chamber`: a shape that `set_height`/`set_snow_height` update in place. */
  class Chamber {
    var shape: ChamberShape
    const origin: ChamberOrigin

    /** `Chamber::default()`. */
    constructor Default()
      ensures shape == DefaultShape() && origin == DefaultOrigin
    {
      shape := DefaultShape();
      origin := DefaultOrigin;
    }

    constructor FromShape(s: ChamberShape, o: ChamberOrigin)
      ensures shape == s && origin == o
    {
      shape := s;
      origin := o;
    }

    predicate IsDefault()
      reads this
    {
      origin == DefaultOrigin
    }

    predicate IsRaw()
      reads this
    {
      origin == Raw
    }

    method SetHeight(h: real)
      modifies this
      ensures shape == WithHeight(old(shape), h)
    {
      shape := WithHeight(shape, h);
    }

    method SetSnowHeight(snow: real)
      modifies this
      ensures shape == WithSnowHeight(old(shape), snow)
    {
      shape := WithSnowHeight(shape, snow);
    }
  }
}
