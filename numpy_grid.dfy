/** `NumpyGrid`, the grid that wraps an in-memory array: the checks its
    constructor makes on its arguments, the defaults it fills in, the shape it
    derives through the physical dimension order, and the lazy property
    values it starts with. */
module NumpyGrid {
  import opened Wrappers
  import opened PyDict

  /** A constructor argument or lazy property value. Spatial references and
      scaling functions are opaque objects, told apart by an identity. */
  datatype Value =
    | VNone
    | VBool(b: bool)
    | VInt(i: int)
    | VFloat(f: real)
    | VStr(s: string)
    | VTuple(items: seq<Value>)
    | VObject(id: nat)

  datatype GridError =
    | WrongDimensionCount
    | DimensionsLengthMismatch
    | NoDataNotInt(dtype: string)
    | NoDataNotFloat(dtype: string)
    | NoTIncrementUnit
    | NoTCornerCoordType
    | PhysicalDimensionsLengthMismatch
    | PhysicalDimensionsCharacterMismatch
    | PartialScaling
    /** `str.index` found no position for this dimension in the physical order. */
    | DimensionNotInPhysical(dim: char)

  const IntTypes: seq<string> := ["int8", "uint8", "int16", "uint16", "int32", "uint32"]
  const FloatTypes: seq<string> := ["float32", "float64"]

  /** The constructor's arguments. `shape` and `dtype` describe the array. */
  datatype GridArgs = GridArgs(
    shape: seq<nat>, dtype: string, displayName: string, spatialReference: Value,
    dimensions: string, coordIncrements: Value, cornerCoords: Value, unscaledNoDataValue: Value,
    tIncrementUnit: Value, tSemiRegularity: Value, tCountPerSemiRegularPeriod: Value,
    tCornerCoordType: Value, tOffsetFromParsedTime: Value, coordDependencies: Value,
    physicalDimensions: Option<string>, physicalDimensionsFlipped: Value,
    scaledDataType: Value, scaledNoDataValue: Value, scalingFunction: Value, unscalingFunction: Value,
    lazyPropertyValues: Option<Dict<string, Value>>)

  /** `isinstance(v, int)`, which a bool also passes. */
  predicate IsPyInt(v: Value) { v.VInt? || v.VBool? }

  predicate ScalingAllSet(a: GridArgs) {
    !a.scaledDataType.VNone? && !a.scaledNoDataValue.VNone? && !a.scalingFunction.VNone? && !a.unscalingFunction.VNone?
  }

  predicate ScalingAllUnset(a: GridArgs) {
    a.scaledDataType.VNone? && a.scaledNoDataValue.VNone? && a.scalingFunction.VNone? && a.unscalingFunction.VNone?
  }

  /** The additional validation of `__init__`, in the order it raises. */
  function Validate(a: GridArgs): Option<GridError> {
    if |a.shape| !in {2, 3, 4} then Some(WrongDimensionCount)
    else if |a.dimensions| != |a.shape| then Some(DimensionsLengthMismatch)
    else if !a.unscaledNoDataValue.VNone? && a.dtype in IntTypes && !IsPyInt(a.unscaledNoDataValue) then Some(NoDataNotInt(a.dtype))
    else if !a.unscaledNoDataValue.VNone? && a.dtype in FloatTypes && !a.unscaledNoDataValue.VFloat? then Some(NoDataNotFloat(a.dtype))
    else if 't' in a.dimensions && a.tIncrementUnit.VNone? then Some(NoTIncrementUnit)
    else if 't' in a.dimensions && a.tCornerCoordType.VNone? then Some(NoTCornerCoordType)
    else if a.physicalDimensions.Some? && |a.physicalDimensions.value| != |a.dimensions| then Some(PhysicalDimensionsLengthMismatch)
    else if a.physicalDimensions.Some? && exists i :: 0 <= i < |a.physicalDimensions.value| && a.physicalDimensions.value[i] !in a.dimensions then
      Some(PhysicalDimensionsCharacterMismatch)
    else if !ScalingAllSet(a) && !ScalingAllUnset(a) then Some(PartialScaling)
    else None
  }

  /** The no-data value agrees with the array's type: an int for integer
      types, a float for float types, anything for the rest. */
  predicate NoDataMatchesType(a: GridArgs) {
    a.unscaledNoDataValue.VNone? ||
    ((a.dtype in IntTypes ==> IsPyInt(a.unscaledNoDataValue)) && (a.dtype in FloatTypes ==> a.unscaledNoDataValue.VFloat?))
  }

  predicate PhysicalDimensionsOk(a: GridArgs) {
    a.physicalDimensions.None? ||
    (|a.physicalDimensions.value| == |a.dimensions| && forall c :: c in a.physicalDimensions.value ==> c in a.dimensions)
  }

  /** The arguments pass exactly when every rule holds. */
  lemma ValidateAccepts(a: GridArgs)
    ensures Validate(a).None? <==>
      |a.shape| in {2, 3, 4} && |a.dimensions| == |a.shape| && NoDataMatchesType(a) &&
      ('t' in a.dimensions ==> !a.tIncrementUnit.VNone? && !a.tCornerCoordType.VNone?) &&
      PhysicalDimensionsOk(a) && (ScalingAllSet(a) || ScalingAllUnset(a))
  {
    if a.physicalDimensions.Some? && |a.physicalDimensions.value| == |a.dimensions| {
      var p := a.physicalDimensions.value;
      assert (forall c :: c in p ==> c in a.dimensions) <==> (forall i :: 0 <= i < |p| ==> p[i] in a.dimensions);
    }
  }

  /** `s.index(c)`: the first position of `c`. */
  function Index(s: string, c: char): (r: Option<nat>)
    ensures r.Some? <==> c in s
    ensures r.Some? ==> r.value < |s| && s[r.value] == c && forall k :: 0 <= k < r.value ==> s[k] != c
  {
    if s == [] then None
    else if s[0] == c then Some(0)
    else var r := Index(s[1..], c); if r.Some? then Some(r.value + 1) else None
  }

  /** The position of the first dimension missing from the physical order. */
  function FirstNotIn(dimensions: string, physical: string): (r: Option<nat>)
    ensures r.None? <==> forall i :: 0 <= i < |dimensions| ==> dimensions[i] in physical
    ensures r.Some? ==>
      r.value < |dimensions| && dimensions[r.value] !in physical && forall k :: 0 <= k < r.value ==> dimensions[k] in physical
  {
    if dimensions == [] then None
    else if dimensions[0] !in physical then Some(0)
    else
      match FirstNotIn(dimensions[1..], physical)
      case None => None
      case Some(k) => Some(k + 1)
  }

  /** `Shape`: for each dimension, the array's extent at that dimension's
      position in the physical order; the first dimension with no position
      makes `str.index` raise. */
  function ShapeSpec(arrayShape: seq<nat>, dimensions: string, physical: string): Result<seq<nat>, GridError>
    requires |physical| == |arrayShape|
  {
    match FirstNotIn(dimensions, physical)
    case Some(k) => Err(DimensionNotInPhysical(dimensions[k]))
    case None => Ok(seq(|dimensions|, i requires 0 <= i < |dimensions| => arrayShape[Index(physical, dimensions[i]).value]))
  }

  /** The loop that builds `Shape`: for each dimension, the array's extent at
      that dimension's position in the physical order. */
  method DeriveShape(arrayShape: seq<nat>, dimensions: string, physical: string) returns (r: Result<seq<nat>, GridError>)
    requires |physical| == |arrayShape|
    ensures r == ShapeSpec(arrayShape, dimensions, physical)
    ensures r.Ok? <==> forall i :: 0 <= i < |dimensions| ==> dimensions[i] in physical
    ensures r.Ok? ==> (|r.value| == |dimensions| &&
      forall i :: 0 <= i < |dimensions| ==> r.value[i] == arrayShape[Index(physical, dimensions[i]).value])
    ensures r.Err? ==> r.error == DimensionNotInPhysical(dimensions[FirstNotIn(dimensions, physical).value])
  {
    var shape: seq<nat> := [];
    for i := 0 to |dimensions|
      invariant |shape| == i
      invariant forall k :: 0 <= k < i ==> dimensions[k] in physical && shape[k] == arrayShape[Index(physical, dimensions[k]).value]
    {
      var j := Index(physical, dimensions[i]);
      if j.None? {
        assert FirstNotIn(dimensions, physical) == Some(i);
        return Err(DimensionNotInPhysical(dimensions[i]));
      }
      shape := shape + [arrayShape[j.value]];
    }
    assert FirstNotIn(dimensions, physical).None?;
    assert shape == seq(|dimensions|, i requires 0 <= i < |dimensions| => arrayShape[Index(physical, dimensions[i]).value]);
    r := Ok(shape);
  }

  predicate Distinct(s: string) {
    forall i, j :: 0 <= i < j < |s| ==> s[i] != s[j]
  }

  lemma IndexOfDistinct(s: string, i: nat)
    requires Distinct(s) && i < |s|
    ensures Index(s, s[i]) == Some(i)
  {
  }

  /** When the physical order is a rearrangement of the dimensions, each
      extent is taken from the position that dimension holds physically. */
  lemma DerivedShapeFollowsPhysicalOrder(arrayShape: seq<nat>, dimensions: string, physical: string, i: nat, j: nat)
    requires |physical| == |arrayShape| && Distinct(physical)
    requires i < |dimensions| && j < |physical| && physical[j] == dimensions[i]
    ensures Index(physical, dimensions[i]) == Some(j)
  {
    IndexOfDistinct(physical, j);
  }

  /** `len(dimensions)` copies of a value, as the defaults are built. */
  function Repeat(v: Value, n: nat): (r: seq<Value>)
    ensures |r| == n && forall i :: 0 <= i < n ==> r[i] == v
  {
    seq(n, _ => v)
  }

  /** What the five time parameters become: themselves with a 't' dimension,
      None without. */
  function TimeParam(a: GridArgs, v: Value): Value {
    if 't' in a.dimensions then v else VNone
  }

  /** The lazy property values computed from the arguments, in the order the
      dictionary literal lists them. */
  function ComputedLazyValues(a: GridArgs, shape: seq<nat>): Dict<string, Value> {
    var physical := if a.physicalDimensions.Some? then a.physicalDimensions.value else a.dimensions;
    [("SpatialReference", a.spatialReference),
     ("Dimensions", VStr(a.dimensions)),
     ("Shape", VTuple(seq(|shape|, i requires 0 <= i < |shape| => VInt(shape[i])))),
     ("CoordDependencies", if a.coordDependencies.VNone? then VTuple(Repeat(VNone, |a.dimensions|)) else a.coordDependencies),
     ("CoordIncrements", a.coordIncrements),
     ("TIncrementUnit", TimeParam(a, a.tIncrementUnit)),
     ("TSemiRegularity", TimeParam(a, a.tSemiRegularity)),
     ("TCountPerSemiRegularPeriod", TimeParam(a, a.tCountPerSemiRegularPeriod)),
     ("TCornerCoordType", TimeParam(a, a.tCornerCoordType)),
     ("TOffsetFromParsedTime", TimeParam(a, a.tOffsetFromParsedTime)),
     ("CornerCoords", a.cornerCoords),
     ("PhysicalDimensions", VStr(physical)),
     ("PhysicalDimensionsFlipped", if a.physicalDimensionsFlipped.VNone? then VTuple(Repeat(VBool(false), |a.dimensions|)) else a.physicalDimensionsFlipped),
     ("UnscaledDataType", VStr(a.dtype)),
     ("UnscaledNoDataValue", a.unscaledNoDataValue),
     ("ScaledDataType", a.scaledDataType),
     ("ScaledNoDataValue", a.scaledNoDataValue),
     ("ScalingFunction", a.scalingFunction),
     ("UnscalingFunction", a.unscalingFunction)]
  }

  /** The computed names are distinct, so each entry is what `get` finds
      under its name. */
  lemma ComputedEntries(a: GridArgs, shape: seq<nat>)
    ensures var lpv := ComputedLazyValues(a, shape);
      forall j :: 0 <= j < |lpv| ==> Get(lpv, lpv[j].0) == Some(lpv[j].1)
  {
    var lpv := ComputedLazyValues(a, shape);
    assert UniqueKeys(lpv);
    forall j | 0 <= j < |lpv|
      ensures Get(lpv, lpv[j].0) == Some(lpv[j].1)
    {
      GetAt(lpv, j, lpv[j].0);
    }
  }

  /** The defaults: without a 't' dimension the five time properties are
      None; coordinate dependencies and flips default to one entry per
      dimension, the physical order to the dimensions; the dimensions and the
      array's type are recorded as given. With ComputedEntries, these are
      the values `get` finds under those names. */
  lemma ComputedDefaults(a: GridArgs, shape: seq<nat>)
    ensures var lpv := ComputedLazyValues(a, shape);
      't' !in a.dimensions ==>
        lpv[5] == ("TIncrementUnit", VNone) && lpv[6] == ("TSemiRegularity", VNone) &&
        lpv[7] == ("TCountPerSemiRegularPeriod", VNone) && lpv[8] == ("TCornerCoordType", VNone) &&
        lpv[9] == ("TOffsetFromParsedTime", VNone)
    ensures var lpv := ComputedLazyValues(a, shape);
      (a.coordDependencies.VNone? ==> lpv[3] == ("CoordDependencies", VTuple(Repeat(VNone, |a.dimensions|)))) &&
      (a.physicalDimensions.None? ==> lpv[11] == ("PhysicalDimensions", VStr(a.dimensions))) &&
      (a.physicalDimensionsFlipped.VNone? ==> lpv[12] == ("PhysicalDimensionsFlipped", VTuple(Repeat(VBool(false), |a.dimensions|))))
    ensures var lpv := ComputedLazyValues(a, shape);
      lpv[1] == ("Dimensions", VStr(a.dimensions)) && lpv[13] == ("UnscaledDataType", VStr(a.dtype))
  {
  }

  /** The loop that applies the caller's `lazyPropertyValues`, one by one. */
  method ApplyOverrides(lpv: Dict<string, Value>, overrides: Dict<string, Value>) returns (r: Dict<string, Value>)
    ensures r == Update(lpv, overrides)
  {
    r := lpv;
    for k := 0 to |overrides|
      invariant r == Update(lpv, overrides[..k])
    {
      assert overrides[..k + 1][..k] == overrides[..k];
      var (name, value) := overrides[k];
      r := Set(r, name, value);
    }
    assert overrides[..|overrides|] == overrides;
  }

  /** A property the caller overrides takes the caller's value; every other
      property keeps its computed value. */
  lemma OverridesWin(lpv: Dict<string, Value>, overrides: Dict<string, Value>, name: string)
    ensures LastValue(overrides, name).Some? ==> Get(Update(lpv, overrides), name) == LastValue(overrides, name)
    ensures LastValue(overrides, name).None? ==> Get(Update(lpv, overrides), name) == Get(lpv, name)
  {
    UpdateGet(lpv, overrides, name);
  }

  /** `_TestCapability`: only setting the spatial reference is supported. */
  function TestCapability(capability: string): (r: Option<string>)
    ensures r.None? <==> capability == "setspatialreference"
  {
    if capability == "setspatialreference" then None else Some(capability)
  }

  class NumpyGridObject {
    const displayName: string
    const arrayShape: seq<nat>
    var lazyPropertyValues: Dict<string, Value>

    constructor(displayName: string, arrayShape: seq<nat>, lpv: Dict<string, Value>)
      ensures this.displayName == displayName && this.arrayShape == arrayShape && lazyPropertyValues == lpv
    {
      this.displayName := displayName;
      this.arrayShape := arrayShape;
      lazyPropertyValues := lpv;
    }

    /** `_SetSpatialReference`, the one capability the grid supports. */
    method SetSpatialReference(sr: Value)
      modifies this
      ensures lazyPropertyValues == Set(old(lazyPropertyValues), "SpatialReference", sr)
      ensures Get(lazyPropertyValues, "SpatialReference") == Some(sr)
    {
      lazyPropertyValues := Set(lazyPropertyValues, "SpatialReference", sr);
      SetGet(old(lazyPropertyValues), "SpatialReference", sr);
    }
  }

  /** `NumpyGrid(...)`: the checks, then the shape, the computed lazy values
      and the caller's overrides. */
  method Create(a: GridArgs) returns (r: Result<NumpyGridObject, GridError>)
    ensures Validate(a).Some? ==> r.Err? && r.error == Validate(a).value
    ensures Validate(a).None? ==> |PhysicalOf(a)| == |a.shape|
    ensures Validate(a).None? && ShapeSpec(a.shape, a.dimensions, PhysicalOf(a)).Err? ==>
      r.Err? && r.error == ShapeSpec(a.shape, a.dimensions, PhysicalOf(a)).error
    ensures Validate(a).None? && ShapeSpec(a.shape, a.dimensions, PhysicalOf(a)).Ok? ==>
      r.Ok? && fresh(r.value) && r.value.arrayShape == a.shape && r.value.displayName == a.displayName &&
      r.value.lazyPropertyValues == Update(ComputedLazyValues(a, ShapeSpec(a.shape, a.dimensions, PhysicalOf(a)).value), OverridesOf(a))
  {
    var invalid := Validate(a);
    if invalid.Some? {
      return Err(invalid.value);
    }
    var physical := PhysicalOf(a);
    var shape := DeriveShape(a.shape, a.dimensions, physical);
    if shape.Err? {
      return Err(shape.error);
    }
    var lpv := ComputedLazyValues(a, shape.value);
    if a.lazyPropertyValues.Some? {
      lpv := ApplyOverrides(lpv, a.lazyPropertyValues.value);
    } else {
      assert lpv == Update(lpv, []);
    }
    var grid := new NumpyGridObject(a.displayName, a.shape, lpv);
    r := Ok(grid);
  }

  /** The physical order: the one given, else the dimension order. */
  function PhysicalOf(a: GridArgs): string {
    if a.physicalDimensions.Some? then a.physicalDimensions.value else a.dimensions
  }

  /** The caller's `lazyPropertyValues`, none when not given. */
  function OverridesOf(a: GridArgs): Dict<string, Value> {
    if a.lazyPropertyValues.Some? then a.lazyPropertyValues.value else []
  }

  /** With the default physical order (the dimension order itself) and
      distinct letters, `Shape` is the array's shape. */
  lemma IdentityOrderKeepsShape(a: GridArgs)
    requires a.physicalDimensions.None? && |a.dimensions| == |a.shape| && Distinct(a.dimensions)
    ensures ShapeSpec(a.shape, a.dimensions, PhysicalOf(a)) == Ok(a.shape)
  {
    assert PhysicalOf(a) == a.dimensions;
    forall i | 0 <= i < |a.dimensions| ensures Index(a.dimensions, a.dimensions[i]) == Some(i) {
      IndexOfDistinct(a.dimensions, i);
    }
    assert FirstNotIn(a.dimensions, a.dimensions).None?;
    var shape := ShapeSpec(a.shape, a.dimensions, a.dimensions).value;
    assert forall i :: 0 <= i < |a.shape| ==> shape[i] == a.shape[i];
    assert shape == a.shape;
  }
}
