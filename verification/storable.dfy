/**
 The storable contract: a producer reports its item names, each item's type
 and dimensions, and a bulk extraction of `(name, optional value)` pairs.
 The ten typed accessors are derived from the bulk extraction: they find the
 first pair with the requested name and keep its payload only when the value
 is present and of exactly the accessor's variant.
 */
module Storable {
  import opened Primitives
  import opened Values

  /** One pair of a bulk extraction: an item name and its value, or `None`
      when the item is not available in this call. */
  type Entry = (string, Option<Value>)

  /** Result of a metadata query. A panic is a distinct outcome, so that a
      query that can never succeed is still a query one can state facts about. */
  datatype Outcome<+T> = Returned(value: T) | Panicked(message: string)

  // ---------------------------------------------------------------------------
  // First-match lookup
  // ---------------------------------------------------------------------------

  /** No pair is named `name`. */
  predicate Absent(entries: seq<Entry>, name: string) {
    forall i | 0 <= i < |entries| :: entries[i].0 != name
  }

  /** Position `i` holds the earliest pair named `name`. */
  ghost predicate FirstWith(entries: seq<Entry>, name: string, i: int) {
    && 0 <= i < |entries|
    && entries[i].0 == name
    && forall j | 0 <= j < i :: entries[j].0 != name
  }

  /** The earliest pair named `name` carries `o`. */
  ghost predicate FirstIs(entries: seq<Entry>, name: string, o: Option<Value>) {
    exists i :: FirstWith(entries, name, i) && entries[i].1 == o
  }

  /** The earliest pair named `name` carries a present value. */
  ghost predicate FirstIsPresent(entries: seq<Entry>, name: string) {
    exists i :: FirstWith(entries, name, i) && entries[i].1.Some?
  }

  /** The earliest pair named `name` carries a present value of kind `k`. */
  ghost predicate FirstIsKind(entries: seq<Entry>, name: string, k: Kind) {
    exists i :: FirstWith(entries, name, i) && HoldsKind(entries[i].1, k)
  }

  /** The scan of `Iterator::find`, resumed at position `k` once the pairs
      before `k` are known not to match. */
  function FindFrom(entries: seq<Entry>, name: string, k: nat): (r: Option<Entry>)
    requires k <= |entries|
    requires forall j | 0 <= j < k :: entries[j].0 != name
    ensures r.None? <==> Absent(entries, name)
    ensures r.Some? ==> exists i :: FirstWith(entries, name, i) && r.value == entries[i]
    ensures forall i | FirstWith(entries, name, i) :: r == Some(entries[i])
    decreases |entries| - k
  {
    if k == |entries| then None
    else if entries[k].0 == name then
      assert FirstWith(entries, name, k);
      Some(entries[k])
    else FindFrom(entries, name, k + 1)
  }

  /** `find(|(item_name, _)| *item_name == name)` over a bulk extraction. */
  function Find(entries: seq<Entry>, name: string): (r: Option<Entry>)
    ensures r.None? <==> Absent(entries, name)
    ensures r.Some? ==> exists i :: FirstWith(entries, name, i) && r.value == entries[i]
    ensures forall i | FirstWith(entries, name, i) :: r == Some(entries[i])
  {
    FindFrom(entries, name, 0)
  }

  /** The shape every typed accessor shares: find the first pair named
      `name`, then `and_then` the variant match `pick` on its value. */
  function Get<T>(entries: seq<Entry>, name: string, pick: Option<Value> -> Option<T>): (r: Option<T>)
    ensures Absent(entries, name) ==> r.None?
    ensures r.Some? ==> exists i :: FirstWith(entries, name, i) && r == pick(entries[i].1)
    ensures forall i | FirstWith(entries, name, i) :: r == pick(entries[i].1)
  {
    match Find(entries, name)
    case None => None
    case Some(e) => pick(e.1)
  }

  // ---------------------------------------------------------------------------
  // The ten typed accessors. Each returns a payload exactly when the earliest
  // pair named `name` holds a present value of the accessor's own kind, and
  // that payload is the one the value was built from.
  // ---------------------------------------------------------------------------

  function GetF64(entries: seq<Entry>, name: string): (r: Option<float64>)
    ensures r.Some? <==> FirstIsKind(entries, name, Kind(ItemType.F64, false))
    ensures r.Some? ==> FirstIs(entries, name, Some(FromF64(r.value)))
  {
    Get(entries, name, AsF64)
  }

  function GetF32(entries: seq<Entry>, name: string): (r: Option<float32>)
    ensures r.Some? <==> FirstIsKind(entries, name, Kind(ItemType.F32, false))
    ensures r.Some? ==> FirstIs(entries, name, Some(FromF32(r.value)))
  {
    Get(entries, name, AsF32)
  }

  function GetU64(entries: seq<Entry>, name: string): (r: Option<uint64>)
    ensures r.Some? <==> FirstIsKind(entries, name, Kind(ItemType.U64, false))
    ensures r.Some? ==> FirstIs(entries, name, Some(FromU64(r.value)))
  {
    Get(entries, name, AsU64)
  }

  function GetI64(entries: seq<Entry>, name: string): (r: Option<int64>)
    ensures r.Some? <==> FirstIsKind(entries, name, Kind(ItemType.I64, false))
    ensures r.Some? ==> FirstIs(entries, name, Some(FromI64(r.value)))
  {
    Get(entries, name, AsI64)
  }

  function GetBool(entries: seq<Entry>, name: string): (r: Option<bool>)
    ensures r.Some? <==> FirstIsKind(entries, name, Kind(ItemType.Bool, false))
    ensures r.Some? ==> FirstIs(entries, name, Some(FromBool(r.value)))
  {
    Get(entries, name, AsBool)
  }

  function GetVecF64(entries: seq<Entry>, name: string): (r: Option<seq<float64>>)
    ensures r.Some? <==> FirstIsKind(entries, name, Kind(ItemType.F64, true))
    ensures r.Some? ==> FirstIs(entries, name, Some(FromVecF64(r.value)))
  {
    Get(entries, name, AsVecF64)
  }

  function GetVecF32(entries: seq<Entry>, name: string): (r: Option<seq<float32>>)
    ensures r.Some? <==> FirstIsKind(entries, name, Kind(ItemType.F32, true))
    ensures r.Some? ==> FirstIs(entries, name, Some(FromVecF32(r.value)))
  {
    Get(entries, name, AsVecF32)
  }

  function GetVecU64(entries: seq<Entry>, name: string): (r: Option<seq<uint64>>)
    ensures r.Some? <==> FirstIsKind(entries, name, Kind(ItemType.U64, true))
    ensures r.Some? ==> FirstIs(entries, name, Some(FromVecU64(r.value)))
  {
    Get(entries, name, AsVecU64)
  }

  function GetVecI64(entries: seq<Entry>, name: string): (r: Option<seq<int64>>)
    ensures r.Some? <==> FirstIsKind(entries, name, Kind(ItemType.I64, true))
    ensures r.Some? ==> FirstIs(entries, name, Some(FromVecI64(r.value)))
  {
    Get(entries, name, AsVecI64)
  }

  function GetVecBool(entries: seq<Entry>, name: string): (r: Option<seq<bool>>)
    ensures r.Some? <==> FirstIsKind(entries, name, Kind(ItemType.Bool, true))
    ensures r.Some? ==> FirstIs(entries, name, Some(FromVecBool(r.value)))
  {
    Get(entries, name, AsVecBool)
  }

  /** Wraps a payload an accessor returned back into a value. */
  function Rewrap<T>(o: Option<T>, from: T -> Value): Option<Value> {
    match o
    case None => None
    case Some(x) => Some(from(x))
  }

  /** All ten accessors behind one kind-indexed view: the accessor for kind
      `k` applied to `name`, its payload converted back into a value. Text
      kinds have no accessor and find nothing. */
  function Fetch(k: Kind, entries: seq<Entry>, name: string): (r: Option<Value>)
    ensures r.Some? <==> k.element != ItemType.String && FirstIsKind(entries, name, k)
    ensures r.Some? ==> FirstIs(entries, name, r)
  {
    match k
    case Kind(U64, true) => Rewrap(GetVecU64(entries, name), FromVecU64)
    case Kind(I64, true) => Rewrap(GetVecI64(entries, name), FromVecI64)
    case Kind(F64, true) => Rewrap(GetVecF64(entries, name), FromVecF64)
    case Kind(F32, true) => Rewrap(GetVecF32(entries, name), FromVecF32)
    case Kind(Bool, true) => Rewrap(GetVecBool(entries, name), FromVecBool)
    case Kind(U64, false) => Rewrap(GetU64(entries, name), FromU64)
    case Kind(I64, false) => Rewrap(GetI64(entries, name), FromI64)
    case Kind(F64, false) => Rewrap(GetF64(entries, name), FromF64)
    case Kind(F32, false) => Rewrap(GetF32(entries, name), FromF32)
    case Kind(Bool, false) => Rewrap(GetBool(entries, name), FromBool)
    case Kind(String, _) => None
  }

  // ---------------------------------------------------------------------------
  // Lemmas about lookup
  // ---------------------------------------------------------------------------

  /** There is at most one earliest pair with a given name. */
  lemma FirstWithUnique(entries: seq<Entry>, name: string, i: int, j: int)
    requires FirstWith(entries, name, i) && FirstWith(entries, name, j)
    ensures i == j
  {
  }

  /** Once `name` occurs in `entries`, pairs appended after them, including
      further pairs with the same name and the right variant, change no
      accessor's answer. */
  lemma LaterEntriesIgnored<T>(entries: seq<Entry>, suffix: seq<Entry>, name: string,
                               pick: Option<Value> -> Option<T>)
    requires !Absent(entries, name)
    ensures Get(entries + suffix, name, pick) == Get(entries, name, pick)
  {
    assert Find(entries, name).Some?;
    var i :| FirstWith(entries, name, i) && Find(entries, name).value == entries[i];
    assert FirstWith(entries + suffix, name, i);
  }

  /** The first pair named `name` alone decides every accessor's answer. */
  lemma FirstEntryDecides<T>(prefix: seq<Entry>, name: string, o: Option<Value>,
                             suffix: seq<Entry>, pick: Option<Value> -> Option<T>)
    requires Absent(prefix, name)
    ensures Get(prefix + [(name, o)] + suffix, name, pick) == pick(o)
  {
    assert FirstWith(prefix + [(name, o)] + suffix, name, |prefix|);
  }

  /** A value built by a conversion and extracted as the earliest pair of its
      name comes back unchanged through the accessor of the same kind. */
  lemma AccessorRoundTrips(
    prefix: seq<Entry>, name: string, suffix: seq<Entry>,
    vu: seq<uint64>, vi: seq<int64>, vf: seq<float64>, vg: seq<float32>, vb: seq<bool>,
    u: uint64, i: int64, f: float64, g: float32, b: bool)
    requires Absent(prefix, name)
    ensures GetVecU64(prefix + [(name, Some(FromVecU64(vu)))] + suffix, name) == Some(vu)
    ensures GetVecI64(prefix + [(name, Some(FromVecI64(vi)))] + suffix, name) == Some(vi)
    ensures GetVecF64(prefix + [(name, Some(FromVecF64(vf)))] + suffix, name) == Some(vf)
    ensures GetVecF32(prefix + [(name, Some(FromVecF32(vg)))] + suffix, name) == Some(vg)
    ensures GetVecBool(prefix + [(name, Some(FromVecBool(vb)))] + suffix, name) == Some(vb)
    ensures GetU64(prefix + [(name, Some(FromU64(u)))] + suffix, name) == Some(u)
    ensures GetI64(prefix + [(name, Some(FromI64(i)))] + suffix, name) == Some(i)
    ensures GetF64(prefix + [(name, Some(FromF64(f)))] + suffix, name) == Some(f)
    ensures GetF32(prefix + [(name, Some(FromF32(g)))] + suffix, name) == Some(g)
    ensures GetBool(prefix + [(name, Some(FromBool(b)))] + suffix, name) == Some(b)
  {
    FirstEntryDecides(prefix, name, Some(FromVecU64(vu)), suffix, AsVecU64);
    FirstEntryDecides(prefix, name, Some(FromVecI64(vi)), suffix, AsVecI64);
    FirstEntryDecides(prefix, name, Some(FromVecF64(vf)), suffix, AsVecF64);
    FirstEntryDecides(prefix, name, Some(FromVecF32(vg)), suffix, AsVecF32);
    FirstEntryDecides(prefix, name, Some(FromVecBool(vb)), suffix, AsVecBool);
    FirstEntryDecides(prefix, name, Some(FromU64(u)), suffix, AsU64);
    FirstEntryDecides(prefix, name, Some(FromI64(i)), suffix, AsI64);
    FirstEntryDecides(prefix, name, Some(FromF64(f)), suffix, AsF64);
    FirstEntryDecides(prefix, name, Some(FromF32(g)), suffix, AsF32);
    FirstEntryDecides(prefix, name, Some(FromBool(b)), suffix, AsBool);
  }

  /** No coercion: at most one accessor finds anything under a given name. */
  lemma NoCoercion(k1: Kind, k2: Kind, entries: seq<Entry>, name: string)
    requires Fetch(k1, entries, name).Some? && Fetch(k2, entries, name).Some?
    ensures k1 == k2
  {
    var i1 :| FirstWith(entries, name, i1) && HoldsKind(entries[i1].1, k1);
    var i2 :| FirstWith(entries, name, i2) && HoldsKind(entries[i2].1, k2);
    FirstWithUnique(entries, name, i1, i2);
  }

  /** A missing name, a first pair without a value, and a first pair of the
      wrong variant all give the same answer: nothing. */
  lemma MismatchLooksMissing(k: Kind, prefix: seq<Entry>, name: string, o: Option<Value>,
                             suffix: seq<Entry>)
    requires Absent(prefix, name)
    requires !HoldsKind(o, k)
    ensures Fetch(k, prefix + [(name, o)] + suffix, name) == None
    ensures Fetch(k, prefix, name) == None
  {
    var entries := prefix + [(name, o)] + suffix;
    assert FirstWith(entries, name, |prefix|);
  }

  // ---------------------------------------------------------------------------
  // Consistency between metadata and bulk extraction
  // ---------------------------------------------------------------------------

  /** The names a bulk extraction reports, in order. */
  function EntryNames(entries: seq<Entry>): seq<string> {
    seq(|entries|, i requires 0 <= i < |entries| => entries[i].0)
  }

  /** The usage contract a producer keeps towards every backend: bulk
      extraction reports each enumerated name once; each enumerated name has
      a type and dimensions; and each present value has the declared element
      type, and is a vector exactly when the item has dimensions. */
  ghost predicate Consistent(names: seq<string>, itemType: string -> Outcome<ItemType>,
                             dims: string -> Outcome<seq<string>>, entries: seq<Entry>)
  {
    && multiset(EntryNames(entries)) == multiset(names)
    && (forall n | n in names :: itemType(n).Returned? && dims(n).Returned?)
    && (forall i | 0 <= i < |entries| && entries[i].1.Some? ::
          && itemType(entries[i].0) == Returned(KindOf(entries[i].1.value).element)
          && dims(entries[i].0).Returned?
          && (|dims(entries[i].0).value| > 0) == KindOf(entries[i].1.value).vector)
  }

  /** An enumerated name of a consistent producer has a pair in its bulk
      extraction, hence an earliest one. */
  lemma EnumeratedNameExtracted(names: seq<string>, entries: seq<Entry>, name: string)
    returns (i: nat)
    requires multiset(EntryNames(entries)) == multiset(names)
    requires name in names
    ensures FirstWith(entries, name, i)
  {
    assert name in multiset(EntryNames(entries));
    assert name in EntryNames(entries);
    assert !Absent(entries, name);
    assert Find(entries, name).Some?;
    i :| FirstWith(entries, name, i) && Find(entries, name).value == entries[i];
  }

  /** For a consistent producer, the accessor of an item's declared kind finds
      the item exactly when its value is available, and an accessor of any
      other kind never finds it. */
  lemma DeclaredKindFinds(names: seq<string>, itemType: string -> Outcome<ItemType>,
                          dims: string -> Outcome<seq<string>>, entries: seq<Entry>,
                          name: string, k: Kind)
    requires Consistent(names, itemType, dims, entries)
    requires name in names
    requires k.element != ItemType.String
    ensures Fetch(k, entries, name).Some? <==>
              && FirstIsPresent(entries, name)
              && itemType(name) == Returned(k.element)
              && (|dims(name).value| > 0) == k.vector
  {
    var i := EnumeratedNameExtracted(names, entries, name);
    assert FirstIsPresent(entries, name) <==> entries[i].1.Some? by {
      forall i' | FirstWith(entries, name, i') {
        FirstWithUnique(entries, name, i, i');
      }
    }
    assert FirstIsKind(entries, name, k) <==> HoldsKind(entries[i].1, k) by {
      forall i' | FirstWith(entries, name, i') {
        FirstWithUnique(entries, name, i, i');
      }
    }
  }
}
