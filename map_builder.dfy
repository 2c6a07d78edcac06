/**
 * A builder that fills one backing hash map in place and hands it out,
 * either as it is or as a read-only view.
 */
module Collections {
  import opened Results

  /** A `java.util.HashMap`: its entries, changed in place. */
  class HashMap<K(==), V> {
    var entries: map<K, V>

    /** `Maps.newHashMap()`: an empty map. */
    constructor ()
      ensures entries == map[]
    {
      entries := map[];
    }

    /** `get(k)`: the value under `k`, or null. */
    function Get(k: K): (r: Option<V>)
      reads this
      ensures r.Some? <==> k in entries
      ensures r.Some? ==> entries[k] == r.value
    {
      if k in entries then Some(entries[k]) else None
    }

    /** `put(k, v)`: maps `k` to `v` and answers what `k` held before. */
    method Put(k: K, v: V) returns (previous: Option<V>)
      modifies this
      ensures entries == old(entries)[k := v]
      ensures previous == old(Get(k))
    {
      previous := Get(k);
      entries := entries[k := v];
    }
  }

  /** `Collections.unmodifiableMap(m)`: reads go to `m`, writes are refused. */
  class UnmodifiableMap<K(==), V> {
    const backing: HashMap<K, V>

    constructor (m: HashMap<K, V>)
      ensures backing == m
    {
      backing := m;
    }

    /** `get(k)`: what the backing map holds now. */
    function Get(k: K): (r: Option<V>)
      reads this, backing
      ensures r.Some? <==> k in backing.entries
      ensures r.Some? ==> backing.entries[k] == r.value
    {
      backing.Get(k)
    }

    /** `put(k, v)`: an UnsupportedOperationException, and nothing changes. */
    method Put(k: K, v: V) returns (r: Result<Option<V>>)
      ensures r == Err(UnsupportedOperation)
    {
      r := Err(UnsupportedOperation);
    }
  }

  class MapBuilder<K(==), V> {
    /** The backing map. */
    const backing: HashMap<K, V>

    constructor ()
      ensures fresh(backing) && backing.entries == map[]
    {
      backing := new HashMap();
    }

    /** `builder(keyType, valueType)`: a new builder over a new, empty map. */
    static method Builder() returns (b: MapBuilder<K, V>)
      ensures fresh(b) && fresh(b.backing) && b.backing.entries == map[]
    {
      b := new MapBuilder();
    }

    /** `add(k, v)`: puts the entry into the backing map and returns this builder. */
    method Add(k: K, v: V) returns (self: MapBuilder<K, V>)
      modifies backing
      ensures self == this
      ensures backing.entries == old(backing.entries)[k := v]
    {
      var _ := backing.Put(k, v);
      self := this;
    }

    /** `regular()`: the backing map itself. */
    method Regular() returns (m: HashMap<K, V>)
      ensures m == backing
    {
      m := backing;
    }

    /** `unmodifiable()`: a new read-only view of the backing map. */
    method Unmodifiable() returns (view: UnmodifiableMap<K, V>)
      ensures fresh(view) && view.backing == backing
    {
      view := new UnmodifiableMap(backing);
    }
  }

  /**
   * A chain of adds on one builder: each key ends up with the value written
   * last, and both the map handed out before and the view see every add.
   */
  method BuildChain() returns (m: HashMap<int, string>, view: UnmodifiableMap<int, string>)
    ensures m.entries == map[1 := "c", 2 := "b", 3 := "d"]
    ensures view.backing == m
    ensures view.Get(3) == Some("d")
  {
    var b := MapBuilder<int, string>.Builder();
    m := b.Regular();
    view := b.Unmodifiable();
    var chained := b.Add(1, "a");
    chained := chained.Add(2, "b");
    chained := chained.Add(1, "c");
    chained := chained.Add(3, "d");
    var refused := view.Put(4, "e");
    assert refused.Err?;
    assert m.entries == map[1 := "c", 2 := "b", 3 := "d"];
  }
}
