/**
 * java.util.LinkedHashMap<String, V> as the binding engine uses it: `put`
 * keeps the position of a key that is already present and appends a new
 * key at the end; iteration follows insertion order.
 *
 * `LinkedMap` is the map as a value; `Table` is the object that the field
 * mapper fills in place.
 */
module FieldTable {
  import opened Wrappers

  datatype LinkedMap<V> = LinkedMap(keys: seq<string>, values: map<string, V>)

  /** Keys are listed once each, and exactly the keys that have a value. */
  ghost predicate WellFormed<V>(m: LinkedMap<V>)
  {
    (forall k :: k in m.values <==> k in m.keys) &&
    (forall i, j :: 0 <= i < j < |m.keys| ==> m.keys[i] != m.keys[j])
  }

  function Empty<V>(): (m: LinkedMap<V>)
    ensures WellFormed(m)
  {
    LinkedMap([], map[])
  }

  /** `map.get(k)`, with `None` for a missing key. */
  function Get<V>(m: LinkedMap<V>, k: string): Option<V>
  {
    if k in m.values then Some(m.values[k]) else None
  }

  /** `map.put(k, v)` on the map as a value. */
  function Insert<V>(m: LinkedMap<V>, k: string, v: V): (r: LinkedMap<V>)
    requires WellFormed(m)
    ensures WellFormed(r)
    ensures Get(r, k) == Some(v)
    ensures forall k' :: k' != k ==> Get(r, k') == Get(m, k')
    ensures k in m.values ==> r.keys == m.keys
    ensures k !in m.values ==> r.keys == m.keys + [k]
  {
    LinkedMap(if k in m.values then m.keys else m.keys + [k], m.values[k := v])
  }

  /** A sequence of `put` calls, in order. */
  function InsertAll<V>(m: LinkedMap<V>, es: seq<(string, V)>): (r: LinkedMap<V>)
    requires WellFormed(m)
    ensures WellFormed(r)
    decreases |es|
  {
    if es == [] then m else Insert(InsertAll(m, es[..|es| - 1]), es[|es| - 1].0, es[|es| - 1].1)
  }

  /** The map that a fresh LinkedHashMap holds after the `put` calls `es`. */
  function FromEntries<V>(es: seq<(string, V)>): LinkedMap<V>
  {
    InsertAll(Empty(), es)
  }

  /** The value of the last entry of `es` with key `k`. */
  function LastValue<V>(es: seq<(string, V)>, k: string): Option<V>
    decreases |es|
  {
    if es == [] then None
    else if es[|es| - 1].0 == k then Some(es[|es| - 1].1)
    else LastValue(es[..|es| - 1], k)
  }

  /** The last entry for `k` is an entry of `es`; there is one exactly when `k` is a key of `es`. */
  lemma {:induction false} LastValueIsEntry<V>(es: seq<(string, V)>, k: string)
    ensures LastValue(es, k).Some? <==> exists i :: 0 <= i < |es| && es[i].0 == k
    ensures LastValue(es, k).Some? ==> exists i :: 0 <= i < |es| && es[i] == (k, LastValue(es, k).value)
  {
    if es != [] && es[|es| - 1].0 != k {
      var init := es[..|es| - 1];
      LastValueIsEntry(init, k);
      if LastValue(es, k).Some? {
        var i :| 0 <= i < |init| && init[i] == (k, LastValue(es, k).value);
        assert es[i] == init[i];
      }
      if exists i :: 0 <= i < |es| && es[i].0 == k {
        var i :| 0 <= i < |es| && es[i].0 == k;
        assert init[i] == es[i];
      }
    }
  }

  /** A later entry for `k` hides the earlier ones. */
  lemma {:induction false} LastValueAppend<V>(a: seq<(string, V)>, b: seq<(string, V)>, k: string)
    ensures LastValue(a + b, k) == if LastValue(b, k).Some? then LastValue(b, k) else LastValue(a, k)
    decreases |b|
  {
    if b == [] {
      assert a + b == a;
    } else {
      assert (a + b)[..|a + b| - 1] == a + b[..|b| - 1];
      LastValueAppend(a, b[..|b| - 1], k);
    }
  }

  /** After a series of puts, a key holds the value of its last put, or its old value if never put. */
  lemma {:induction false} GetInsertAll<V>(m: LinkedMap<V>, es: seq<(string, V)>, k: string)
    requires WellFormed(m)
    ensures Get(InsertAll(m, es), k) == if LastValue(es, k).Some? then LastValue(es, k) else Get(m, k)
    decreases |es|
  {
    if es != [] {
      GetInsertAll(m, es[..|es| - 1], k);
    }
  }

  /** Applying two series of puts one after the other. */
  lemma {:induction false} InsertAllAppend<V>(m: LinkedMap<V>, a: seq<(string, V)>, b: seq<(string, V)>)
    requires WellFormed(m)
    ensures InsertAll(m, a + b) == InsertAll(InsertAll(m, a), b)
    decreases |b|
  {
    if b == [] {
      assert a + b == a;
    } else {
      assert (a + b)[..|a + b| - 1] == a + b[..|b| - 1];
      InsertAllAppend(m, a, b[..|b| - 1]);
    }
  }

  /** The entry at index `i` is the last one for its key, so its value is what the map holds. */
  lemma {:induction false} LastValueAt<V>(es: seq<(string, V)>, i: int)
    requires 0 <= i < |es|
    requires forall j :: i < j < |es| ==> es[j].0 != es[i].0
    ensures LastValue(es, es[i].0) == Some(es[i].1)
    decreases |es|
  {
    if i < |es| - 1 {
      var init := es[..|es| - 1];
      assert init[i] == es[i];
      forall j | i < j < |init| ensures init[j].0 != init[i].0 {
        assert init[j] == es[j];
      }
      LastValueAt(init, i);
    }
  }

  /** A fresh map after the puts `es` holds, for the key of entry `i`, that entry's value when no later entry has the same key. */
  lemma GetFromEntries<V>(es: seq<(string, V)>, i: int)
    requires 0 <= i < |es|
    requires forall j :: i < j < |es| ==> es[j].0 != es[i].0
    ensures Get(FromEntries(es), es[i].0) == Some(es[i].1)
  {
    LastValueAt(es, i);
    GetInsertAll(Empty(), es, es[i].0);
  }

  /** A key that no entry mentions is missing from the map. */
  lemma GetFromEntriesAbsent<V>(es: seq<(string, V)>, k: string)
    requires forall j :: 0 <= j < |es| ==> es[j].0 != k
    ensures Get(FromEntries(es), k) == None
  {
    LastValueIsEntry(es, k);
    GetInsertAll(Empty(), es, k);
  }

  /** One more `put` on a fresh map. */
  lemma FromEntriesSnoc<V>(es: seq<(string, V)>, e: (string, V))
    ensures FromEntries(es + [e]) == Insert(FromEntries(es), e.0, e.1)
  {
    assert (es + [e])[..|es|] == es;
  }

  lemma InsertAllOne<V>(m: LinkedMap<V>, e: (string, V))
    requires WellFormed(m)
    ensures InsertAll(m, [e]) == Insert(m, e.0, e.1)
  {
    assert [e][..0] == [];
  }

  lemma InsertAllThree<V>(m: LinkedMap<V>, a: (string, V), b: (string, V), c: (string, V))
    requires WellFormed(m)
    ensures InsertAll(m, [a, b, c]) == Insert(Insert(Insert(m, a.0, a.1), b.0, b.1), c.0, c.1)
  {
    var es := [a, b, c];
    assert es[..2] == [a, b];
    assert InsertAll(m, es) == Insert(InsertAll(m, [a, b]), c.0, c.1);
    InsertAllTwo(m, a, b);
  }

  lemma InsertAllTwo<V>(m: LinkedMap<V>, a: (string, V), b: (string, V))
    requires WellFormed(m)
    ensures InsertAll(m, [a, b]) == Insert(Insert(m, a.0, a.1), b.0, b.1)
  {
    assert [a, b][..1] == [a];
    InsertAllOne(m, a);
  }

  /** The keys of a list of entries, in order. */
  function KeysOf<V>(es: seq<(string, V)>): (ks: seq<string>)
    ensures |ks| == |es| && forall i :: 0 <= i < |es| ==> ks[i] == es[i].0
  {
    seq(|es|, i requires 0 <= i < |es| => es[i].0)
  }

  /** The keys of a series of puts with fresh, pairwise different keys are the old keys followed by the new ones, in put order. */
  lemma {:induction false} InsertAllFreshKeys<V>(m: LinkedMap<V>, es: seq<(string, V)>)
    requires WellFormed(m)
    requires forall i :: 0 <= i < |es| ==> es[i].0 !in m.values
    requires forall i, j :: 0 <= i < j < |es| ==> es[i].0 != es[j].0
    ensures InsertAll(m, es).keys == m.keys + KeysOf(es)
    decreases |es|
  {
    if es != [] {
      var init := es[..|es| - 1];
      var last := es[|es| - 1];
      FreshPrefix(m, es, init);
      InsertAllFreshKeys(m, init);
      InsertFreshKey(InsertAll(m, init), last.0, last.1);
      KeysOfSnoc(es);
      AppendAssocKeys(m.keys, KeysOf(init), last.0);
    }
  }

  /** The prefix of a series of fresh, pairwise different keys is one too, and the last key is not among the earlier ones. */
  lemma FreshPrefix<V>(m: LinkedMap<V>, es: seq<(string, V)>, init: seq<(string, V)>)
    requires WellFormed(m) && es != [] && init == es[..|es| - 1]
    requires forall i :: 0 <= i < |es| ==> es[i].0 !in m.values
    requires forall i, j :: 0 <= i < j < |es| ==> es[i].0 != es[j].0
    ensures forall i :: 0 <= i < |init| ==> init[i].0 !in m.values
    ensures forall i, j :: 0 <= i < j < |init| ==> init[i].0 != init[j].0
    ensures es[|es| - 1].0 !in m.keys + KeysOf(init)
  {
  }

  /** A put of a key that is not yet present appends it to the key order. */
  lemma InsertFreshKey<V>(m: LinkedMap<V>, k: string, v: V)
    requires WellFormed(m) && k !in m.keys
    ensures Insert(m, k, v).keys == m.keys + [k]
  {
  }

  lemma AppendAssocKeys(a: seq<string>, b: seq<string>, k: string)
    ensures (a + b) + [k] == a + (b + [k])
  {
  }

  lemma KeysOfSnoc<V>(es: seq<(string, V)>)
    requires es != []
    ensures KeysOf(es) == KeysOf(es[..|es| - 1]) + [es[|es| - 1].0]
  {
  }

  /** The object that a method fills in place. */
  class Table<V> {
    var keys: seq<string>
    var values: map<string, V>

    function Model(): LinkedMap<V>
      reads this
    {
      LinkedMap(keys, values)
    }

    ghost predicate Valid()
      reads this
    {
      WellFormed(Model())
    }

    /** `new LinkedHashMap<>()`. */
    constructor ()
      ensures Valid() && Model() == Empty()
    {
      keys, values := [], map[];
    }

    /** `put(k, v)`. */
    method Put(k: string, v: V)
      requires Valid()
      modifies this
      ensures Valid()
      ensures Model() == Insert(old(Model()), k, v)
    {
      if k !in values {
        keys := keys + [k];
      }
      values := values[k := v];
    }

    /** `put` of each entry of `es`, in order. */
    method PutAll(es: seq<(string, V)>)
      requires Valid()
      modifies this
      ensures Valid()
      ensures Model() == InsertAll(old(Model()), es)
    {
      var i := 0;
      while i < |es|
        invariant 0 <= i <= |es|
        invariant Valid()
        invariant Model() == InsertAll(old(Model()), es[..i])
      {
        assert es[..i + 1][..i] == es[..i];
        Put(es[i].0, es[i].1);
        i := i + 1;
      }
      assert es[..i] == es;
    }
  }
}
