/**
 One partition of a record store: rows in sequence order, at most one per key. A put replaces
 the row in place or appends it; a removal closes the gap.
 */
module Tables {
  import opened Options

  datatype Row<K, V> = Row(key: K, value: V)
  type Table<K, V> = seq<Row<K, V>>

  /** No key has two rows. */
  ghost predicate Distinct<K, V>(t: Table<K, V>) {
    t == [] || ((forall r | r in t[1..] :: r.key != t[0].key) && Distinct(t[1..]))
  }

  function Get<K(==), V>(t: Table<K, V>, key: K): Option<V> {
    if t == [] then None
    else if t[0].key == key then Some(t[0].value)
    else Get(t[1..], key)
  }

  predicate Has<K(==), V>(t: Table<K, V>, key: K) { Get(t, key).Some? }

  function Put<K(==), V>(t: Table<K, V>, key: K, value: V): Table<K, V> {
    if t == [] then [Row(key, value)]
    else if t[0].key == key then [Row(key, value)] + t[1..]
    else [t[0]] + Put(t[1..], key, value)
  }

  function Remove<K(==), V>(t: Table<K, V>, key: K): Table<K, V> {
    if t == [] then []
    else if t[0].key == key then Remove(t[1..], key)
    else [t[0]] + Remove(t[1..], key)
  }

  lemma FirstIsRow<K, V>(t: Table<K, V>)
    ensures t != [] ==> t[0] in t
  {
  }

  lemma {:induction false} GetIn<K, V>(t: Table<K, V>, key: K)
    ensures Get(t, key).Some? ==> Row(key, Get(t, key).value) in t
    ensures Get(t, key).None? ==> forall r | r in t :: r.key != key
  {
    if t != [] {
      assert t == [t[0]] + t[1..];
      GetIn(t[1..], key);
    }
  }

  lemma {:induction false} InGet<K, V>(t: Table<K, V>, r: Row<K, V>)
    requires Distinct(t) && r in t
    ensures Get(t, r.key) == Some(r.value)
  {
    if r != t[0] {
      assert t == [t[0]] + t[1..];
      InGet(t[1..], r);
    }
  }

  lemma {:induction false} PutGet<K, V>(t: Table<K, V>, key: K, value: V, other: K)
    ensures Get(Put(t, key, value), other) == if other == key then Some(value) else Get(t, other)
  {
    if t != [] && t[0].key != key {
      PutGet(t[1..], key, value, other);
    }
  }

  lemma {:induction false} PutMember<K, V>(t: Table<K, V>, key: K, value: V, r: Row<K, V>)
    requires Distinct(t)
    ensures r in Put(t, key, value) <==> r == Row(key, value) || (r in t && r.key != key)
  {
    if t != [] {
      assert t == [t[0]] + t[1..];
      if t[0].key != key { PutMember(t[1..], key, value, r); }
    }
  }

  lemma {:induction false} PutFrom<K, V>(t: Table<K, V>, key: K, value: V, r: Row<K, V>)
    requires r in Put(t, key, value)
    ensures r == Row(key, value) || r in t
  {
    assert t != [] ==> t == [t[0]] + t[1..];
    if t != [] && t[0].key != key && r != t[0] { PutFrom(t[1..], key, value, r); }
  }

  lemma {:induction false} PutStaysDistinct<K, V>(t: Table<K, V>, key: K, value: V)
    requires Distinct(t)
    ensures Distinct(Put(t, key, value))
  {
    if t != [] {
      if t[0].key != key {
        PutStaysDistinct(t[1..], key, value);
        var rest := Put(t[1..], key, value);
        forall r | r in rest ensures r.key != t[0].key { PutMember(t[1..], key, value, r); }
        assert Put(t, key, value)[1..] == rest;
      } else {
        assert Put(t, key, value)[1..] == t[1..];
      }
    }
  }

  lemma {:induction false} RemoveMember<K, V>(t: Table<K, V>, key: K, r: Row<K, V>)
    ensures r in Remove(t, key) <==> r in t && r.key != key
  {
    if t != [] {
      assert t == [t[0]] + t[1..];
      RemoveMember(t[1..], key, r);
    }
  }

  lemma {:induction false} RemoveStaysDistinct<K, V>(t: Table<K, V>, key: K)
    requires Distinct(t)
    ensures Distinct(Remove(t, key))
  {
    if t != [] {
      RemoveStaysDistinct(t[1..], key);
      var rest := Remove(t[1..], key);
      forall r | r in rest ensures r.key != t[0].key { RemoveMember(t[1..], key, r); }
      if t[0].key != key { assert Remove(t, key)[1..] == rest; }
    }
  }

  lemma {:induction false} RemoveGet<K, V>(t: Table<K, V>, key: K, other: K)
    ensures Get(Remove(t, key), other) == if other == key then None else Get(t, other)
  {
    if t != [] {
      RemoveGet(t[1..], key, other);
    }
  }

  /** A new key goes last, so rows stay in the order they were first put. */
  lemma {:induction false} PutNewAppends<K, V>(t: Table<K, V>, key: K, value: V)
    requires Get(t, key).None?
    ensures Put(t, key, value) == t + [Row(key, value)]
  {
    if t != [] {
      PutNewAppends(t[1..], key, value);
    }
  }
}
