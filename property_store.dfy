/**
 * The in-memory property table behind `addProperty`: a map from id to property
 * object, seeded from a fixture. A new property gets the id "number of keys + 1",
 * is stamped with it and is stored under it.
 */
module PropertyStore {

  /** The listing fields of a property; `addProperty` stores them untouched. */
  datatype PropertyDetails = PropertyDetails(
    ownerId: int,
    title: string,
    thumbnailPhotoUrl: string,
    city: string,
    costPerNight: int,
    numberOfBedrooms: int,
    numberOfBathrooms: int,
    parkingSpaces: int)

  /** A property object: the caller's record, whose `id` field `addProperty` overwrites. */
  class Property {
    var id: int
    var details: PropertyDetails

    constructor(id: int, details: PropertyDetails)
      ensures this.id == id && this.details == details
    {
      this.id := id;
      this.details := details;
    }
  }

  /** The ids are 1, ..., n for a table of n entries, as in a fixture numbered from 1. */
  ghost predicate DenseKeys<V>(m: map<int, V>) {
    forall k :: k in m ==> 1 <= k <= |m|
  }

  /** The numbers 1, ..., n as a set. */
  ghost function UpTo(n: nat): (s: set<int>)
    ensures |s| == n
    ensures forall k :: k in s <==> 1 <= k <= n
  {
    if n == 0 then {} else UpTo(n - 1) + {n}
  }

  /** In a dense table every id from 1 to n is taken: the keys are exactly 1, ..., n. */
  lemma DenseKeysAreUpTo<V>(m: map<int, V>)
    requires DenseKeys(m)
    ensures m.Keys == UpTo(|m|)
  {
    var r := UpTo(|m|);
    assert m.Keys <= r;
    assert m.Keys * r == m.Keys;
    assert |r - m.Keys| == 0;
    assert r - m.Keys == {};
  }

  /** A table is dense exactly when its keys are 1, ..., n. */
  lemma DenseIffUpTo<V>(m: map<int, V>)
    ensures DenseKeys(m) <==> m.Keys == UpTo(|m|)
  {
    if DenseKeys(m) {
      DenseKeysAreUpTo(m);
    }
  }

  /** In a dense table the id `addProperty` picks is free, and storing under it keeps the table dense. */
  lemma InsertKeepsDense<V>(m: map<int, V>, v: V)
    requires DenseKeys(m)
    ensures |m| + 1 !in m
    ensures |m[|m| + 1 := v]| == |m| + 1
    ensures DenseKeys(m[|m| + 1 := v])
  {
  }

  /** When the ids are not 1, ..., n the new id can already be taken, and the stored entry is replaced. */
  lemma SparseKeysCollide<V>(a: V, b: V, c: V)
    ensures var m := map[1 := a, 3 := b];
      |m| + 1 == 3 && 3 in m && m[|m| + 1 := c] == map[1 := a, 3 := c]
  {
    var m := map[1 := a, 3 := b];
    assert m.Keys == {1, 3};
    assert |m| == 2;
  }

  /** The property table of the module. */
  class Store {
    var properties: map<int, Property>

    /**
     * The table holds the fixture's entries. Density is not required of the fixture:
     * it holds afterwards exactly when the fixture is numbered 1, ..., n.
     */
    constructor(initial: map<int, Property>)
      ensures properties == initial
      ensures DenseKeys(initial) ==> Valid()
    {
      properties := initial;
    }

    /** The ids in the table are 1, ..., n: then `AddProperty` never overwrites an entry. */
    ghost predicate Valid()
      reads this
    {
      DenseKeys(properties)
    }

    /**
     * Stamps `property` with the id "number of keys + 1", stores it under that id and
     * returns the same object. A dense table stays dense and grows by one entry.
     */
    method AddProperty(property: Property) returns (r: Property)
      modifies this, property
      ensures r == property
      ensures property.id == |old(properties)| + 1
      ensures property.details == old(property.details)
      ensures properties == old(properties)[property.id := property]
      ensures old(Valid()) ==> Valid() && property.id !in old(properties) && |properties| == |old(properties)| + 1
    {
      var propertyId := |properties| + 1;
      property.id := propertyId;
      properties := properties[propertyId := property];
      if DenseKeys(old(properties)) {
        InsertKeepsDense(old(properties), property);
      }
      r := property;
    }
  }
}
