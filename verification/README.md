# nuts-storable: the storable-value contract, in Dafny

This project models the layer of `nuts-storable` that lets storage backends
pull named, typed values out of producer objects (per-draw sampler state,
diagnostics) without knowing their concrete types:

- `ItemType`, the closed type tag of an item (`Values.ItemType`);
- `Value`, the twelve-variant tagged union of five vector kinds, a vector of
  strings, five scalar kinds and a scalar string (`Values.Value`), with the ten
  `From` conversions (`Values.FromVecU64` … `Values.FromBool`);
- `HasDims`, the parent capability: required `dim_sizes`, and `coords`, which
  defaults to an empty map (`HasDims.Parent`, `HasDims.Coords`);
- `Storable<P>`: the metadata queries `names`, `item_type`, `dims`, the bulk
  primitive `get_all` (a sequence of `(name, Option<Value>)` pairs, here
  `seq<Storable.Entry>`), and the ten typed accessors derived from it;
- the two shipped producers: a `Vec<f64>` (`VecF64Storable`) and `()`
  (`UnitStorable`).

Every accessor in the source runs `get_all`, finds the first pair with the
requested name, and keeps the payload only when the value is present and of
exactly the accessor's variant. The model writes that once, as `Storable.Get`
(first-match `Storable.Find`, then a variant projection such as `Values.AsF64`),
and defines the ten accessors as its instances. Each accessor takes the bulk
extraction result instead of the producer and parent: the source's accessors
use the pair only to call `get_all`, so `GetF64(GetAll(self, parent), name)` is
the source's `self.get_f64(parent, name)`.

The accessor contracts are stated against an independent, declarative
description of lookup: `Storable.FirstWith(entries, name, i)` says position `i`
holds the earliest pair named `name`. Each accessor returns a payload exactly
when that earliest pair holds a present value of the accessor's kind
(`Values.KindOf`), and the payload is the one that value was built from.
`Storable.Fetch` indexes all ten accessors by kind, so that the no-coercion and
absence properties are stated once for all of them.

`Storable.Consistent` states the usage contract a producer owes its backends:
`get_all` reports each enumerated name once, every enumerated name has a type
and dimensions, and every present value has the declared element type and is
a vector exactly when the item has dimensions. Both shipped producers are
proved to keep it.

Modelling choices:

- `u64` and `i64` are integer subset types of their ranges. The file performs
  no arithmetic on them, so no wrap-around arises.
- `f64` and `f32` are carried as their IEEE 754 bit patterns (`bv64`, `bv32`).
  Payloads are moved, never computed with, so "no precision loss" means
  bit-identity.
- A metadata query that panics returns the distinct outcome
  `Storable.Outcome.Panicked` with the source's message. It is not modelled as
  an unsatisfiable precondition. A query nobody may call would leave nothing to
  state about the unit producer. The explicit outcome lets the model prove that
  the unit producer's queries panic for every name, and that this is harmless
  because it enumerates no names.
- The parent type `P: HasDims` is one datatype, `HasDims.Parent`. It holds the
  map `dim_sizes` returns and an optional `coords` override. `None` stands for
  the trait's default implementation.

`lib.rs` has `From` impls for five vector kinds (`u64`,
`i64`, `f64`, `f32`, `bool`) and five scalar kinds only. No `From` and no
accessor exists for `ScalarString` or `Strings`. In the model those two
variants exist, `Fetch` finds nothing for their kinds, and no conversion
produces them.

## Model

| member | source | states |
|---|---|---|
| Values.FromVecU64 | nuts-storable/src/lib.rs:29-33 | `From<Vec<u64>>` builds a vector value of element type U64, never another kind |
| Values.FromVecI64 | nuts-storable/src/lib.rs:34-38 | `From<Vec<i64>>` builds a vector value of element type I64 |
| Values.FromVecF64 | nuts-storable/src/lib.rs:39-43 | `From<Vec<f64>>` builds a vector value of element type F64 |
| Values.FromVecF32 | nuts-storable/src/lib.rs:44-48 | `From<Vec<f32>>` builds a vector value of element type F32, not F64 |
| Values.FromVecBool | nuts-storable/src/lib.rs:49-53 | `From<Vec<bool>>` builds a vector value of element type Bool |
| Values.FromU64 | nuts-storable/src/lib.rs:54-58 | `From<u64>` builds a scalar value of element type U64 |
| Values.FromI64 | nuts-storable/src/lib.rs:59-63 | `From<i64>` builds a scalar value of element type I64 |
| Values.FromF64 | nuts-storable/src/lib.rs:64-68 | `From<f64>` builds a scalar value of element type F64 |
| Values.FromF32 | nuts-storable/src/lib.rs:69-73 | `From<f32>` builds a scalar value of element type F32 |
| Values.FromBool | nuts-storable/src/lib.rs:74-78 | `From<bool>` builds a scalar value of element type Bool |
| Values.AsF64 | nuts-storable/src/lib.rs:98-101 | the variant match of `get_f64` yields a payload iff the value is present and a scalar F64, and the value is then `From` of that payload |
| Values.AsF32 | nuts-storable/src/lib.rs:108-111 | same for `get_f32` and scalar F32 |
| Values.AsU64 | nuts-storable/src/lib.rs:118-121 | same for `get_u64` and scalar U64 |
| Values.AsI64 | nuts-storable/src/lib.rs:128-131 | same for `get_i64` and scalar I64 |
| Values.AsBool | nuts-storable/src/lib.rs:138-141 | same for `get_bool` and scalar Bool |
| Values.AsVecF64 | nuts-storable/src/lib.rs:148-151 | same for `get_vec_f64` and vector F64 |
| Values.AsVecF32 | nuts-storable/src/lib.rs:158-161 | same for `get_vec_f32` and vector F32 |
| Values.AsVecU64 | nuts-storable/src/lib.rs:168-171 | same for `get_vec_u64` and vector U64 |
| Values.AsVecI64 | nuts-storable/src/lib.rs:178-181 | same for `get_vec_i64` and vector I64 |
| Values.AsVecBool | nuts-storable/src/lib.rs:188-191 | same for `get_vec_bool` and vector Bool |
| Values.ConversionRoundTrip | nuts-storable/src/lib.rs:29-78 | each of the ten conversions is undone exactly by the projection of its own kind |
| Values.ProjectionsInjective | nuts-storable/src/lib.rs:94-192 | two values a projection maps to the same payload are equal: a projection loses nothing |
| HasDims.DimSizes | nuts-storable/src/lib.rs:81 | `dim_sizes` reports a size for a dimension exactly when a dims list naming it resolves in the parent, and that size is the parent's |
| HasDims.Coords | nuts-storable/src/lib.rs:80-85 | `coords` is empty unless the parent type overrides it, in which case it is the override |
| Storable.FindFrom | nuts-storable/src/lib.rs:95-97 | the find scan returns nothing iff no pair has the name, and otherwise the earliest pair with the name |
| Storable.Find | nuts-storable/src/lib.rs:95-97 | `find` over the bulk extraction returns the earliest pair with the requested name, or nothing when the name is absent |
| Storable.Get | nuts-storable/src/lib.rs:94-101 | find-then-`and_then` gives nothing for an absent name and otherwise the variant match applied to the earliest pair's value |
| Storable.GetF64 | nuts-storable/src/lib.rs:94-102 | `get_f64` returns `Some(v)` iff the earliest pair named `name` holds `Some(ScalarF64(v))`, `None` otherwise |
| Storable.GetF32 | nuts-storable/src/lib.rs:104-112 | same for `get_f32` and `ScalarF32` |
| Storable.GetU64 | nuts-storable/src/lib.rs:114-122 | same for `get_u64` and `ScalarU64` |
| Storable.GetI64 | nuts-storable/src/lib.rs:124-132 | same for `get_i64` and `ScalarI64` |
| Storable.GetBool | nuts-storable/src/lib.rs:134-142 | same for `get_bool` and `ScalarBool` |
| Storable.GetVecF64 | nuts-storable/src/lib.rs:144-152 | `get_vec_f64` returns `Some(xs)` iff the earliest pair named `name` holds `Some(F64(xs))` |
| Storable.GetVecF32 | nuts-storable/src/lib.rs:154-162 | same for `get_vec_f32` and `F32` |
| Storable.GetVecU64 | nuts-storable/src/lib.rs:164-172 | same for `get_vec_u64` and `U64` |
| Storable.GetVecI64 | nuts-storable/src/lib.rs:174-182 | same for `get_vec_i64` and `I64` |
| Storable.GetVecBool | nuts-storable/src/lib.rs:184-192 | same for `get_vec_bool` and `Bool` |
| Storable.Fetch | nuts-storable/src/lib.rs:94-192 | the accessor of kind `k` finds a value iff `k` has an accessor and the earliest pair with the name holds a present value of kind `k`; the value found is that pair's |
| Storable.LaterEntriesIgnored | nuts-storable/src/lib.rs:95-97 | once a name occurs, appended pairs change no accessor's answer, even pairs with the same name and the right variant |
| Storable.FirstEntryDecides | nuts-storable/src/lib.rs:95-101 | with no earlier pair of that name, a pair's value alone decides each accessor's answer |
| Storable.AccessorRoundTrips | nuts-storable/src/lib.rs:29-192 | a payload converted with `From` and extracted as the earliest pair of its name is returned unchanged by the matching accessor, for all ten kinds |
| Storable.NoCoercion | nuts-storable/src/lib.rs:94-192 | at most one accessor kind finds anything under a given name: no widening between F32 and F64, U64 and I64, or scalar and vector |
| Storable.MismatchLooksMissing | nuts-storable/src/lib.rs:97-101 | a missing name, a first pair holding `None`, and a first pair of another variant all give the same answer, nothing |
| Storable.EnumeratedNameExtracted | nuts-storable/src/lib.rs:88-92 | when bulk extraction reports the enumerated names, each enumerated name has an earliest pair |
| Storable.DeclaredKindFinds | nuts-storable/src/lib.rs:87-192 | for a producer keeping the usage contract, the accessor of a name's declared kind finds it iff its value is available; accessors of other kinds never do |
| VecF64Storable.Names | nuts-storable/src/lib.rs:196-198 | a vector of `f64` enumerates exactly one item, `"value"`, for every parent |
| VecF64Storable.ItemTypeOf | nuts-storable/src/lib.rs:200-202 | `F64` for every item, named or not, for every parent; the element type of every value its extraction can hold |
| VecF64Storable.DimsOf | nuts-storable/src/lib.rs:204-206 | `["dim"]` for every item, named or not, for every parent; it resolves exactly in a parent that reports a size for `"dim"` |
| VecF64Storable.GetAll | nuts-storable/src/lib.rs:208-210 | a vector of `f64` extracts one pair under the enumerated name `"value"`, from which `get_vec_f64` returns the contents unchanged |
| VecF64Storable.IsConsistent | nuts-storable/src/lib.rs:195-211 | `names == ["value"]`, type F64 and dims `["dim"]` keep the usage contract with the extraction, for every parent |
| VecF64Storable.Accessors | nuts-storable/src/lib.rs:195-211 | on a vector of `f64`, only `get_vec_f64("value")` finds anything, and it returns the contents |
| VecF64Storable.IndependentOfParent | nuts-storable/src/lib.rs:195-211 | names, type, dims and extraction of a vector of `f64` do not depend on the parent |
| VecF64Storable.ThreeElementExample | nuts-storable/src/lib.rs:195-211 | [1.0, 2.0, 3.0] with parent dims {"dim": 3}: one F64 item "value" over "dim", `get_vec_f64` returns the vector, `get_f64` returns nothing |
| UnitStorable.Names | nuts-storable/src/lib.rs:214-216 | the unit producer enumerates no items, exactly the (empty) names its extraction reports |
| UnitStorable.ItemTypeOf | nuts-storable/src/lib.rs:218-220 | the unit producer's `item_type` panics for every name |
| UnitStorable.DimsOf | nuts-storable/src/lib.rs:222-224 | the unit producer's `dims` panics for every name |
| UnitStorable.GetAll | nuts-storable/src/lib.rs:226-228 | the unit producer's extraction is empty, so every accessor returns nothing for every name |
| UnitStorable.IsConsistent | nuts-storable/src/lib.rs:213-229 | the unit producer enumerates no names, so its panicking queries never break the usage contract |

## Left out

- `src/storage/mod.rs` only declares and re-exports the CSV, hash-map,
  ndarray and zarr backends. Those backends do I/O and are not part of this
  model.
- The `HashMap` behind `dim_sizes` and `coords` is a Dafny `map`. Hashing and
  iteration order are not modelled.
- Floating-point semantics are not modelled. No arithmetic happens in the
  file. Rust's `==` on floats (NaN, signed zero) is not modelled either.
  Payload identity is bit-identity.
- The `Send + Sync` bounds, lifetimes and `?Sized` are about threads and
  borrowing, not behaviour.
- Panics of the unit producer are an explicit `Panicked` outcome. Unwinding
  is not modelled.
- The unit producer's `self` is `()` and carries nothing, so its `GetAll`
  takes only the parent.
- The generic parent type is one concrete datatype. Producers never inspect
  it, so nothing depends on which `HasDims` implementation it is.
- The source calls `get_all` again for every accessor call. Accessors here
  take the extraction result instead. The work each call repeats is a cost,
  not behaviour.
- The usage contract `Storable.Consistent` asks for the same multiset of names, not the same order.
  Both shipped producers report them in order anyway. Whether a producer's
  dimension names resolve in its parent (`HasDims.DimsResolve`) is the
  backend's obligation and is not part of it. The `Vec<f64>` producer
  resolves only against a parent that has a `"dim"` dimension.
