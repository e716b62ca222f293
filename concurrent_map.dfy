/** A memo table shared between handles: each key's value is computed at
    most once, by the first `Set` for that key, and is never removed or
    replaced. Only the sequential behaviour is modelled; the locks that
    make it safe across threads are not. */
module ConcurrentMap {
  import opened Wrappers

  /** The counts after one more computation of `key`'s value. */
  ghost function Counted<K>(counts: map<K, nat>, key: K): (r: map<K, nat>)
    ensures r.Keys == counts.Keys + {key}
    ensures r[key] == (if key in counts then counts[key] else 0) + 1
    ensures forall k :: k in counts && k != key ==> r[k] == counts[k]
  {
    counts[key := (if key in counts then counts[key] else 0) + 1]
  }

  /** The table every handle points to, with a ghost count of how many
      times each key's value has been computed. */
  class Table<K(==), V> {
    var entries: map<K, V>
    ghost var computations: map<K, nat>

    ghost predicate Valid()
      reads this
    {
      && computations.Keys == entries.Keys
      && forall k :: k in computations ==> computations[k] == 1
    }

    constructor ()
      ensures Valid()
      ensures entries == map[] && computations == map[]
    {
      entries := map[];
      computations := map[];
    }
  }

  class ConcurrentMap<K(==), V> {
    const table: Table<K, V>

    ghost predicate Valid()
      reads this, table
    {
      table.Valid()
    }

    /** A new, empty table behind a new handle. */
    constructor ()
      ensures Valid() && fresh(table)
      ensures table.entries == map[]
    {
      table := new Table();
    }

    /** A further handle on an existing table. */
    constructor Share(t: Table<K, V>)
      requires t.Valid()
      ensures Valid() && table == t
    {
      table := t;
    }

    /** The value computed for a key, if there is one. */
    function Get(key: K): (r: Option<V>)
      reads this, table
      ensures r.Some? <==> key in table.entries
      ensures r.Some? ==> r.value == table.entries[key]
    {
      if key in table.entries then Some(table.entries[key]) else None
    }

    /** The stored value when the key has one, without computing anything;
        otherwise the value is computed once, stored and returned. */
    method Set(key: K, compute: () -> V) returns (r: Option<V>)
      requires Valid()
      modifies table
      ensures Valid()
      ensures old(key in table.entries) ==>
        && r == Some(old(table.entries[key]))
        && table.entries == old(table.entries)
        && table.computations == old(table.computations)
      ensures old(key !in table.entries) ==>
        && r == Some(compute())
        && table.entries == old(table.entries)[key := compute()]
        && table.computations == Counted(old(table.computations), key)
        && table.computations[key] == 1
    {
      if key in table.entries {
        return Some(table.entries[key]);
      }
      var res := compute();
      table.entries := table.entries[key := res];
      table.computations := Counted(table.computations, key);
      return Some(res);
    }

    /** A lookup first, then `Set`: the same outcome as `Set`. */
    method SetIfNotExists(key: K, compute: () -> V) returns (r: Option<V>)
      requires Valid()
      modifies table
      ensures Valid()
      ensures old(key in table.entries) ==>
        && r == Some(old(table.entries[key]))
        && table.entries == old(table.entries)
        && table.computations == old(table.computations)
      ensures old(key !in table.entries) ==>
        && r == Some(compute())
        && table.entries == old(table.entries)[key := compute()]
        && table.computations == old(table.computations)[key := 1]
    {
      r := Get(key);
      if r.Some? {
        return;
      }
      r := Set(key, compute);
    }

    /** A new handle on the same table. */
    method Clone() returns (c: ConcurrentMap<K, V>)
      requires Valid()
      ensures fresh(c) && c.table == table && c.Valid()
    {
      c := new ConcurrentMap.Share(table);
    }
  }

  /** Two handles on one table: a value stored through one is seen through
      the other, a second request with another computation gets the first
      value back, and the key's value was computed exactly once. */
  method SharedMemo<K(==), V>(key: K, first: () -> V, second: () -> V) returns (seen: Option<V>, again: Option<V>)
    ensures seen == Some(first()) && again == Some(first())
  {
    var m := new ConcurrentMap<K, V>();
    var c := m.Clone();
    assert m.Get(key) == None;
    var stored := m.SetIfNotExists(key, first);
    seen := c.Get(key);
    again := c.SetIfNotExists(key, second);
    assert c.table.computations[key] == 1;
  }
}
