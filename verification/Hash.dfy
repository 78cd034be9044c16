/** A JavaScript object used as a table, with a length kept by hand. */
module Hashes {
  import opened Wrappers

  datatype Entry<K, V> = Entry(key: K, value: V)

  /** The properties in insertion order, which is the order `forEach` visits them in. */
  datatype Table<K, V> = Table(entries: seq<Entry<K, V>>, length: int)

  function Items<K, V>(entries: seq<Entry<K, V>>): (r: seq<V>)
    ensures |r| == |entries|
  {
    seq(|entries|, i requires 0 <= i < |entries| => entries[i].value)
  }

  predicate HasKey<K(==), V>(entries: seq<Entry<K, V>>, key: K) {
    exists i :: 0 <= i < |entries| && entries[i].key == key
  }

  function Get<K(==), V>(entries: seq<Entry<K, V>>, key: K): (r: Option<V>)
    ensures r.Some? <==> HasKey(entries, key)
    ensures r.Some? ==> Entry(key, r.value) in entries
  {
    if entries == [] then None
    else if entries[|entries| - 1].key == key then Some(entries[|entries| - 1].value)
    else Get(entries[..|entries| - 1], key)
  }

  /** Assigning to a property: in place when it exists, at the end when it does not. */
  function Assigned<K(==), V>(entries: seq<Entry<K, V>>, key: K, value: V): seq<Entry<K, V>> {
    if HasKey(entries, key) then
      seq(|entries|, i requires 0 <= i < |entries| => if entries[i].key == key then Entry(key, value) else entries[i])
    else entries + [Entry(key, value)]
  }

  function Deleted<K(==), V>(entries: seq<Entry<K, V>>, key: K): seq<Entry<K, V>> {
    if entries == [] then []
    else
      var front, last := Deleted(entries[..|entries| - 1], key), entries[|entries| - 1];
      if last.key == key then front else front + [last]
  }

  function Added<K(==), V>(t: Table<K, V>, key: K, value: V): Table<K, V> {
    Table(Assigned(t.entries, key, value), t.length + 1)
  }

  function Removed<K(==), V>(t: Table<K, V>, key: K): Table<K, V> {
    Table(Deleted(t.entries, key), t.length - 1)
  }

  ghost predicate UniqueKeys<K(!new), V>(entries: seq<Entry<K, V>>) {
    forall i, j :: 0 <= i < j < |entries| ==> entries[i].key != entries[j].key
  }

  /** The hand-kept length is the number of properties. */
  ghost predicate Consistent<K(!new), V>(t: Table<K, V>) {
    UniqueKeys(t.entries) && t.length == |t.entries|
  }

  /** Deletion keeps exactly the entries of the other keys. */
  lemma {:induction false} DeletedMembers<K(!new), V>(entries: seq<Entry<K, V>>, key: K)
    ensures forall e :: e in Deleted(entries, key) <==> e in entries && e.key != key
    ensures |Deleted(entries, key)| <= |entries|
  {
    if entries != [] {
      DeletedMembers(entries[..|entries| - 1], key);
      assert entries == entries[..|entries| - 1] + [entries[|entries| - 1]];
    }
  }

  lemma {:induction false} DeletedAbsent<K(!new), V>(entries: seq<Entry<K, V>>, key: K)
    requires !HasKey(entries, key)
    ensures Deleted(entries, key) == entries
  {
    if entries != [] {
      DeletedAbsent(entries[..|entries| - 1], key);
    }
  }

  lemma {:induction false} DeletedUnique<K(!new), V>(entries: seq<Entry<K, V>>, key: K)
    requires UniqueKeys(entries)
    ensures UniqueKeys(Deleted(entries, key))
    ensures |Deleted(entries, key)| == |entries| - if HasKey(entries, key) then 1 else 0
  {
    if HasKey(entries, key) {
      var front, last := entries[..|entries| - 1], entries[|entries| - 1];
      if last.key == key {
        DeletedAbsent(front, key);
      } else {
        var k := KeyIndex(entries, key);
        assert front[k].key == key;
        DeletedUnique(front, key);
        DeletedFresh(front, key, last.key);
      }
    } else {
      DeletedAbsent(entries, key);
    }
  }

  lemma {:induction false} DeletedFresh<K(!new), V>(entries: seq<Entry<K, V>>, key: K, other: K)
    requires forall i :: 0 <= i < |entries| ==> entries[i].key != other
    ensures forall i :: 0 <= i < |Deleted(entries, key)| ==> Deleted(entries, key)[i].key != other
  {
    if entries != [] {
      DeletedFresh(entries[..|entries| - 1], key, other);
    }
  }

  /** `add` keeps the length right exactly for a key that is not in use. */
  lemma AddExact<K(!new), V>(t: Table<K, V>, key: K, value: V)
    requires Consistent(t)
    ensures Consistent(Added(t, key, value)) <==> !HasKey(t.entries, key)
    ensures UniqueKeys(Added(t, key, value).entries)
  {
  }

  /** `remove` keeps the length right exactly for a key that is in use. */
  lemma RemoveExact<K(!new), V>(t: Table<K, V>, key: K)
    requires Consistent(t)
    ensures Consistent(Removed(t, key)) <==> HasKey(t.entries, key)
  {
    DeletedUnique(t.entries, key);
  }

  /** After `add` the key finds its value, and every other key what it found before. */
  lemma GetAfterAdd<K(!new), V>(t: Table<K, V>, key: K, value: V, other: K)
    requires UniqueKeys(t.entries)
    ensures Get(Added(t, key, value).entries, other) == if other == key then Some(value) else Get(t.entries, other)
  {
    var a := Added(t, key, value).entries;
    AssignedUnique(t.entries, key, value);
    GetUnique(t.entries, other);
    GetUnique(a, other);
    if other == key {
      var i := if HasKey(t.entries, key) then KeyIndex(t.entries, key) else |t.entries|;
      assert a[i] == Entry(key, value);
    } else if HasKey(t.entries, other) {
      var i := KeyIndex(t.entries, other);
      assert a[i] == t.entries[i];
    } else {
      assert forall i :: 0 <= i < |a| ==> a[i].key == key || a[i] == t.entries[i];
    }
  }

  /** After `remove` the key finds nothing, and every other key what it found before. */
  lemma GetAfterRemove<K(!new), V>(t: Table<K, V>, key: K, other: K)
    requires UniqueKeys(t.entries)
    ensures Get(Removed(t, key).entries, other) == if other == key then None else Get(t.entries, other)
  {
    var d := Deleted(t.entries, key);
    DeletedMembers(t.entries, key);
    DeletedUnique(t.entries, key);
    GetUnique(t.entries, other);
    GetUnique(d, other);
    if HasKey(d, other) {
      var i := KeyIndex(d, other);
      assert d[i] in d;
    } else if HasKey(t.entries, other) {
      var i := KeyIndex(t.entries, other);
      assert t.entries[i] in t.entries;
    }
  }

  lemma AssignedUnique<K(!new), V>(entries: seq<Entry<K, V>>, key: K, value: V)
    requires UniqueKeys(entries)
    ensures UniqueKeys(Assigned(entries, key, value))
  {
  }

  ghost function KeyIndex<K(!new), V>(entries: seq<Entry<K, V>>, key: K): (i: nat)
    requires HasKey(entries, key)
    ensures i < |entries| && entries[i].key == key
  {
    var i :| 0 <= i < |entries| && entries[i].key == key;
    i
  }

  lemma {:induction false} GetUnique<K(!new), V>(entries: seq<Entry<K, V>>, key: K)
    requires UniqueKeys(entries)
    ensures forall i :: 0 <= i < |entries| && entries[i].key == key ==> Get(entries, key) == Some(entries[i].value)
  {
    if entries != [] {
      GetUnique(entries[..|entries| - 1], key);
    }
  }

  class Hash<K(==, !new), V> {
    var entries: seq<Entry<K, V>>
    var length: int

    /** One value for each key; whether the length is right depends on how the table is used. */
    ghost predicate Valid()
      reads this
    {
      UniqueKeys(entries)
    }

    ghost function State(): Table<K, V>
      reads this
    {
      Table(entries, length)
    }

    constructor ()
      ensures Valid() && State() == Table([], 0)
    {
      entries, length := [], 0;
    }

    /** The key finds the value afterwards and no other key is affected; the length stays right for a new key only. */
    method Add(key: K, value: V)
      modifies this
      ensures State() == Added(old(State()), key, value)
      ensures old(Valid()) ==>
                Valid() && forall k :: Get(entries, k) == if k == key then Some(value) else old(Get(entries, k))
      ensures old(Consistent(State())) ==> (Consistent(State()) <==> !old(HasKey(entries, key)))
    {
      hide Get, HasKey;
      if Valid() {
        AssignedUnique(entries, key, value);
        forall k
          ensures Get(Added(State(), key, value).entries, k) == if k == key then Some(value) else Get(entries, k)
        {
          GetAfterAdd(State(), key, value, k);
        }
      }
      if Consistent(State()) {
        AddExact(State(), key, value);
      }
      entries := Assigned(entries, key, value);
      length := length + 1;
    }

    method Clear()
      modifies this
      ensures Valid() && State() == Table([], 0)
    {
      entries, length := [], 0;
    }

    /** The key finds nothing afterwards and no other key is affected; the length stays right for a key in use only. */
    method Remove(key: K)
      modifies this
      ensures State() == Removed(old(State()), key)
      ensures old(Valid()) ==>
                Valid() && forall k :: Get(entries, k) == if k == key then None else old(Get(entries, k))
      ensures old(Consistent(State())) ==> (Consistent(State()) <==> old(HasKey(entries, key)))
    {
      hide Get, HasKey;
      if Valid() {
        DeletedUnique(entries, key);
        forall k
          ensures Get(Removed(State(), key).entries, k) == if k == key then None else Get(entries, k)
        {
          GetAfterRemove(State(), key, k);
        }
      }
      if Consistent(State()) {
        RemoveExact(State(), key);
      }
      entries := Deleted(entries, key);
      length := length - 1;
    }
  }
}
