/** The insertion-ordered Map object the pricing engine mutates and shares. */
module JsMaps {
  import opened Common

  class JsMap<V> {
    var order: seq<int>
    var entries: map<int, V>

    /** Every key is listed, and listed once. */
    ghost predicate Valid() reads this {
      Elements(order) == entries.Keys && |order| == |entries|
    }

    constructor ()
      ensures Valid() && order == [] && entries == map[]
    {
      order, entries := [], map[];
    }

    /** `new Map(other)`: a separate object with the same entries. */
    constructor Copy(other: JsMap<V>)
      requires other.Valid()
      ensures Valid() && order == other.order && entries == other.entries
    {
      order, entries := other.order, other.entries;
    }

    /** A present key keeps its place, a new one goes last. */
    method Set(k: int, v: V)
      requires Valid()
      modifies this
      ensures Valid() && entries == old(entries)[k := v]
      ensures order == if k in old(entries) then old(order) else old(order) + [k]
    {
      if k !in entries { order := order + [k]; }
      entries := entries[k := v];
      assert entries.Keys == old(entries).Keys + {k};
    }
  }
}
