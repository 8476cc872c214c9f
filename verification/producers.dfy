/**
 The two producers the library ships: a plain vector of `f64` that stores
 itself as one item, and the unit producer that has no items at all.
 Neither looks at its parent.
 */
module VecF64Storable {
  import opened Primitives
  import opened Values
  import opened Storable
  import opened HasDims

  /** The one item a vector of `f64` exposes. */
  const ItemName: string := "value"

  /** The one dimension that item is indexed by. */
  const DimName: string := "dim"

  /** One item, "value", whatever the parent. */
  function Names(parent: Parent): (r: seq<string>)
    ensures r == ["value"]
  {
    [ItemName]
  }

  /** `F64` for any item, named or not: `item_type` of `Vec<f64>` ignores
      `item`. It is the element type of the value `GetAll` extracts. */
  function ItemTypeOf(parent: Parent, item: string): (r: Outcome<ItemType>)
    ensures r == Returned(ItemType.F64)
    ensures forall xs: seq<float64> :: r.value == KindOf(FromVecF64(xs)).element
  {
    Returned(ItemType.F64)
  }

  /** `["dim"]` for any item, named or not; it resolves exactly in parents
      that report a size for "dim". */
  function DimsOf(parent: Parent, item: string): (r: Outcome<seq<string>>)
    ensures r == Returned(["dim"])
    ensures DimsResolve(parent, r.value) <==> "dim" in DimSizes(parent)
  {
    Returned([DimName])
  }

  /** Bulk extraction: the vector's contents, copied, under its one name. */
  function GetAll(self: seq<float64>, parent: Parent): (r: seq<Entry>)
    ensures EntryNames(r) == Names(parent)
    ensures GetVecF64(r, ItemName) == Some(self)
  {
    [(ItemName, Some(FromVecF64(self)))]
  }

  /** The producer keeps the storable usage contract for every parent. */
  lemma IsConsistent(self: seq<float64>, parent: Parent)
    ensures Consistent(Names(parent), n => ItemTypeOf(parent, n), n => DimsOf(parent, n),
                       GetAll(self, parent))
  {
    assert EntryNames(GetAll(self, parent)) == Names(parent);
  }

  /** What every accessor answers: the vector-of-`f64` accessor returns the
      contents under the item's name, and everything else finds nothing. */
  lemma Accessors(self: seq<float64>, parent: Parent, name: string, k: Kind)
    ensures GetVecF64(GetAll(self, parent), name) == if name == ItemName then Some(self) else None
    ensures Fetch(k, GetAll(self, parent), name)
            == if name == ItemName && k == Kind(ItemType.F64, true) then Some(FromVecF64(self)) else None
  {
    var entries := GetAll(self, parent);
    assert FirstWith(entries, ItemName, 0);
    if name != ItemName {
      assert Absent(entries, name);
    } else if Fetch(k, entries, name).Some? {
      var i :| FirstWith(entries, name, i) && HoldsKind(entries[i].1, k);
      FirstWithUnique(entries, name, i, 0);
    }
  }

  /** Metadata and extraction do not depend on the parent. */
  lemma IndependentOfParent(self: seq<float64>, p: Parent, q: Parent, item: string)
    ensures Names(p) == Names(q)
    ensures ItemTypeOf(p, item) == ItemTypeOf(q, item)
    ensures DimsOf(p, item) == DimsOf(q, item)
    ensures GetAll(self, p) == GetAll(self, q)
  {
  }

  /** The vector [1.0, 2.0, 3.0] against a parent with one dimension "dim" of
      size 3: one item "value" of type F64 indexed by "dim", which resolves in
      the parent; its vector accessor returns the contents and its scalar
      accessor nothing. */
  lemma ThreeElementExample()
    ensures var self: seq<float64> := [0x3FF0_0000_0000_0000, 0x4000_0000_0000_0000, 0x4008_0000_0000_0000];
            var parent := Parent(map[DimName := 3], None);
            && Names(parent) == ["value"]
            && ItemTypeOf(parent, "value") == Returned(ItemType.F64)
            && DimsOf(parent, "value") == Returned(["dim"])
            && DimsResolve(parent, DimsOf(parent, "value").value)
            && GetAll(self, parent) == [("value", Some(Value.F64(self)))]
            && GetVecF64(GetAll(self, parent), "value") == Some(self)
            && GetF64(GetAll(self, parent), "value") == None
  {
    var self: seq<float64> := [0x3FF0_0000_0000_0000, 0x4000_0000_0000_0000, 0x4008_0000_0000_0000];
    var parent := Parent(map[DimName := 3], None);
    Accessors(self, parent, "value", Kind(ItemType.F64, false));
  }
}

module UnitStorable {
  import opened Primitives
  import opened Values
  import opened Storable
  import opened HasDims

  /** What the unit producer's metadata queries panic with. */
  const NoItems: string := "No items in unit type"

  /** No items, and exactly the names bulk extraction reports. */
  function Names(parent: Parent): (r: seq<string>)
    ensures r == []
    ensures r == EntryNames(GetAll(parent))
  {
    []
  }

  /** Panics for every item: there is no item to describe. */
  function ItemTypeOf(parent: Parent, item: string): (r: Outcome<ItemType>)
    ensures r.Panicked? && r.message == NoItems
  {
    Panicked(NoItems)
  }

  /** Panics for every item: there is no item to describe. */
  function DimsOf(parent: Parent, item: string): (r: Outcome<seq<string>>)
    ensures r.Panicked? && r.message == NoItems
  {
    Panicked(NoItems)
  }

  /** Bulk extraction yields nothing, so every accessor finds nothing. */
  function GetAll(parent: Parent): (r: seq<Entry>)
    ensures forall k: Kind, name: string :: Fetch(k, r, name).None?
  {
    []
  }

  /** Although every metadata query panics, the producer keeps the storable
      usage contract: it enumerates no name, so no query is ever due. */
  lemma IsConsistent(parent: Parent)
    ensures Names(parent) == []
    ensures Consistent(Names(parent), n => ItemTypeOf(parent, n), n => DimsOf(parent, n),
                       GetAll(parent))
  {
  }
}
