/**
 The type tag of an item, the twelve-variant tagged value, the conversions
 that build a value from a primitive payload, and the projections that take
 a payload back out of a value of exactly one variant.
 */
module Values {
  import opened Primitives

  /** The declared element type of an item. */
  datatype ItemType = U64 | I64 | F64 | F32 | Bool | String

  /** A value: six vector variants and six scalar variants, in source order. */
  datatype Value =
    | U64(u64s: seq<uint64>)
    | I64(i64s: seq<int64>)
    | F64(f64s: seq<float64>)
    | F32(f32s: seq<float32>)
    | Bool(bools: seq<bool>)
    | ScalarString(text: string)
    | ScalarU64(u64: uint64)
    | ScalarI64(i64: int64)
    | ScalarF64(f64: float64)
    | ScalarF32(f32: float32)
    | ScalarBool(b: bool)
    | Strings(texts: seq<string>)

  /** The kind of a value: its element type and whether it is a vector.
      The twelve variants are exactly the twelve kinds. */
  datatype Kind = Kind(element: ItemType, vector: bool)

  /** Reference classification of a value by its variant. An item declared
      with type `t` is expected to yield only values of element type `t`. */
  function KindOf(v: Value): Kind {
    match v
    case U64(_) => Kind(ItemType.U64, true)
    case I64(_) => Kind(ItemType.I64, true)
    case F64(_) => Kind(ItemType.F64, true)
    case F32(_) => Kind(ItemType.F32, true)
    case Bool(_) => Kind(ItemType.Bool, true)
    case Strings(_) => Kind(ItemType.String, true)
    case ScalarString(_) => Kind(ItemType.String, false)
    case ScalarU64(_) => Kind(ItemType.U64, false)
    case ScalarI64(_) => Kind(ItemType.I64, false)
    case ScalarF64(_) => Kind(ItemType.F64, false)
    case ScalarF32(_) => Kind(ItemType.F32, false)
    case ScalarBool(_) => Kind(ItemType.Bool, false)
  }

  /** `o` is a present value of kind `k`. */
  predicate HoldsKind(o: Option<Value>, k: Kind) {
    o.Some? && KindOf(o.value) == k
  }

  // ---------------------------------------------------------------------------
  // Conversions (`From` impls). Each lands in the variant of its own kind.
  // ---------------------------------------------------------------------------

  function FromVecU64(xs: seq<uint64>): (r: Value)
    ensures KindOf(r) == Kind(ItemType.U64, true)
  {
    Value.U64(xs)
  }

  function FromVecI64(xs: seq<int64>): (r: Value)
    ensures KindOf(r) == Kind(ItemType.I64, true)
  {
    Value.I64(xs)
  }

  function FromVecF64(xs: seq<float64>): (r: Value)
    ensures KindOf(r) == Kind(ItemType.F64, true)
  {
    Value.F64(xs)
  }

  function FromVecF32(xs: seq<float32>): (r: Value)
    ensures KindOf(r) == Kind(ItemType.F32, true)
  {
    Value.F32(xs)
  }

  function FromVecBool(xs: seq<bool>): (r: Value)
    ensures KindOf(r) == Kind(ItemType.Bool, true)
  {
    Value.Bool(xs)
  }

  function FromU64(x: uint64): (r: Value)
    ensures KindOf(r) == Kind(ItemType.U64, false)
  {
    Value.ScalarU64(x)
  }

  function FromI64(x: int64): (r: Value)
    ensures KindOf(r) == Kind(ItemType.I64, false)
  {
    Value.ScalarI64(x)
  }

  function FromF64(x: float64): (r: Value)
    ensures KindOf(r) == Kind(ItemType.F64, false)
  {
    Value.ScalarF64(x)
  }

  function FromF32(x: float32): (r: Value)
    ensures KindOf(r) == Kind(ItemType.F32, false)
  {
    Value.ScalarF32(x)
  }

  function FromBool(x: bool): (r: Value)
    ensures KindOf(r) == Kind(ItemType.Bool, false)
  {
    Value.ScalarBool(x)
  }

  // ---------------------------------------------------------------------------
  // Projections: the `match value { Some(Value::X(v)) => Some(v), _ => None }`
  // step of each typed accessor. Each accepts exactly one kind and inverts
  // the conversion of that kind.
  // ---------------------------------------------------------------------------

  function AsVecU64(o: Option<Value>): (r: Option<seq<uint64>>)
    ensures r.Some? <==> HoldsKind(o, Kind(ItemType.U64, true))
    ensures r.Some? ==> o == Some(FromVecU64(r.value))
  {
    match o
    case Some(U64(xs)) => Some(xs)
    case _ => None
  }

  function AsVecI64(o: Option<Value>): (r: Option<seq<int64>>)
    ensures r.Some? <==> HoldsKind(o, Kind(ItemType.I64, true))
    ensures r.Some? ==> o == Some(FromVecI64(r.value))
  {
    match o
    case Some(I64(xs)) => Some(xs)
    case _ => None
  }

  function AsVecF64(o: Option<Value>): (r: Option<seq<float64>>)
    ensures r.Some? <==> HoldsKind(o, Kind(ItemType.F64, true))
    ensures r.Some? ==> o == Some(FromVecF64(r.value))
  {
    match o
    case Some(F64(xs)) => Some(xs)
    case _ => None
  }

  function AsVecF32(o: Option<Value>): (r: Option<seq<float32>>)
    ensures r.Some? <==> HoldsKind(o, Kind(ItemType.F32, true))
    ensures r.Some? ==> o == Some(FromVecF32(r.value))
  {
    match o
    case Some(F32(xs)) => Some(xs)
    case _ => None
  }

  function AsVecBool(o: Option<Value>): (r: Option<seq<bool>>)
    ensures r.Some? <==> HoldsKind(o, Kind(ItemType.Bool, true))
    ensures r.Some? ==> o == Some(FromVecBool(r.value))
  {
    match o
    case Some(Bool(xs)) => Some(xs)
    case _ => None
  }

  function AsU64(o: Option<Value>): (r: Option<uint64>)
    ensures r.Some? <==> HoldsKind(o, Kind(ItemType.U64, false))
    ensures r.Some? ==> o == Some(FromU64(r.value))
  {
    match o
    case Some(ScalarU64(x)) => Some(x)
    case _ => None
  }

  function AsI64(o: Option<Value>): (r: Option<int64>)
    ensures r.Some? <==> HoldsKind(o, Kind(ItemType.I64, false))
    ensures r.Some? ==> o == Some(FromI64(r.value))
  {
    match o
    case Some(ScalarI64(x)) => Some(x)
    case _ => None
  }

  function AsF64(o: Option<Value>): (r: Option<float64>)
    ensures r.Some? <==> HoldsKind(o, Kind(ItemType.F64, false))
    ensures r.Some? ==> o == Some(FromF64(r.value))
  {
    match o
    case Some(ScalarF64(x)) => Some(x)
    case _ => None
  }

  function AsF32(o: Option<Value>): (r: Option<float32>)
    ensures r.Some? <==> HoldsKind(o, Kind(ItemType.F32, false))
    ensures r.Some? ==> o == Some(FromF32(r.value))
  {
    match o
    case Some(ScalarF32(x)) => Some(x)
    case _ => None
  }

  function AsBool(o: Option<Value>): (r: Option<bool>)
    ensures r.Some? <==> HoldsKind(o, Kind(ItemType.Bool, false))
    ensures r.Some? ==> o == Some(FromBool(r.value))
  {
    match o
    case Some(ScalarBool(x)) => Some(x)
    case _ => None
  }

  // ---------------------------------------------------------------------------
  // Lemmas
  // ---------------------------------------------------------------------------

  /** Converting a payload and projecting it back with the projection of the
      same kind returns the payload unchanged, for all ten conversions. */
  lemma ConversionRoundTrip(
    vu: seq<uint64>, vi: seq<int64>, vf: seq<float64>, vg: seq<float32>, vb: seq<bool>,
    u: uint64, i: int64, f: float64, g: float32, b: bool)
    ensures AsVecU64(Some(FromVecU64(vu))) == Some(vu)
    ensures AsVecI64(Some(FromVecI64(vi))) == Some(vi)
    ensures AsVecF64(Some(FromVecF64(vf))) == Some(vf)
    ensures AsVecF32(Some(FromVecF32(vg))) == Some(vg)
    ensures AsVecBool(Some(FromVecBool(vb))) == Some(vb)
    ensures AsU64(Some(FromU64(u))) == Some(u)
    ensures AsI64(Some(FromI64(i))) == Some(i)
    ensures AsF64(Some(FromF64(f))) == Some(f)
    ensures AsF32(Some(FromF32(g))) == Some(g)
    ensures AsBool(Some(FromBool(b))) == Some(b)
  {
  }

  /** Two values of the same kind that the same projection maps to the same
      payload are the same value: projections lose nothing. */
  lemma ProjectionsInjective(o1: Option<Value>, o2: Option<Value>)
    ensures AsVecU64(o1).Some? && AsVecU64(o1) == AsVecU64(o2) ==> o1 == o2
    ensures AsVecI64(o1).Some? && AsVecI64(o1) == AsVecI64(o2) ==> o1 == o2
    ensures AsVecF64(o1).Some? && AsVecF64(o1) == AsVecF64(o2) ==> o1 == o2
    ensures AsVecF32(o1).Some? && AsVecF32(o1) == AsVecF32(o2) ==> o1 == o2
    ensures AsVecBool(o1).Some? && AsVecBool(o1) == AsVecBool(o2) ==> o1 == o2
    ensures AsU64(o1).Some? && AsU64(o1) == AsU64(o2) ==> o1 == o2
    ensures AsI64(o1).Some? && AsI64(o1) == AsI64(o2) ==> o1 == o2
    ensures AsF64(o1).Some? && AsF64(o1) == AsF64(o2) ==> o1 == o2
    ensures AsF32(o1).Some? && AsF32(o1) == AsF32(o2) ==> o1 == o2
    ensures AsBool(o1).Some? && AsBool(o1) == AsBool(o2) ==> o1 == o2
  {
  }
}
