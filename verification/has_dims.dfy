/**
 The dimension capability of a parent object: named dimension sizes, and
 optional coordinate labels that default to none.
 */
module HasDims {
  import opened Primitives
  import opened Values

  /** A parent as a storable producer sees it. `sizes` is what the required
      `dim_sizes` reports; `coordsOverride` is `Some(m)` when the parent's type
      overrides `coords` to report `m`, and `None` when it keeps the default. */
  datatype Parent = Parent(sizes: map<string, uint64>, coordsOverride: Option<map<string, Value>>)

  /** Sizes of every dimension the parent knows: a size is reported for a
      dimension exactly when a dims list naming it resolves in this parent. */
  function DimSizes(p: Parent): (r: map<string, uint64>)
    ensures forall d :: d in r <==> DimsResolve(p, [d])
    ensures forall d | d in r :: d in p.sizes && r[d] == p.sizes[d]
  {
    assert forall d :: DimsResolve(p, [d]) <==> d in p.sizes by {
      forall d ensures DimsResolve(p, [d]) <==> d in p.sizes {
        assert [d][0] == d;
      }
    }
    p.sizes
  }

  /** Coordinate labels per dimension: empty unless overridden. */
  function Coords(p: Parent): (r: map<string, Value>)
    ensures p.coordsOverride.None? ==> |r| == 0
    ensures p.coordsOverride.Some? ==> r == p.coordsOverride.value
  {
    match p.coordsOverride
    case None => map[]
    case Some(m) => m
  }

  /** Every dimension name in `dims` is one the parent has a size for: the
      obligation a backend relies on when it shapes an item from its dims. */
  predicate DimsResolve(p: Parent, dims: seq<string>) {
    forall i | 0 <= i < |dims| :: dims[i] in p.sizes
  }
}
