/**
 * A JavaScript `Map` with string keys: its entries, and the order in which its
 * keys were inserted, which is the order `entries()` visits them in. Setting a
 * key that is present keeps its place; deleting a key and setting it again
 * moves it to the end.
 */
module OrderedMaps {
  import opened Wrappers

  datatype OrderedMap<V> = OrderedMap(keys: seq<string>, entries: map<string, V>)
  {
    /** Every key appears once in the order and the order holds exactly the keys. */
    ghost predicate Valid() {
      && Distinct(keys)
      && (forall k :: k in entries <==> k in keys)
    }
  }

  /** No key occurs twice. */
  ghost predicate Distinct(ks: seq<string>) {
    forall i, j :: 0 <= i < j < |ks| ==> ks[i] != ks[j]
  }

  lemma ConsDistinct(x: string, ks: seq<string>)
    requires Distinct(ks) && x !in ks
    ensures Distinct([x] + ks)
  {
    var r := [x] + ks;
    forall i, j | 0 <= i < j < |r| ensures r[i] != r[j] {
      assert r[j] == ks[j - 1];
      if i > 0 { assert r[i] == ks[i - 1]; }
    }
  }

  lemma TailDistinct(ks: seq<string>)
    requires |ks| > 0 && Distinct(ks)
    ensures Distinct(ks[1..]) && ks[0] !in ks[1..]
  {
    var t := ks[1..];
    forall i, j | 0 <= i < j < |t| ensures t[i] != t[j] {
      assert t[i] == ks[i + 1] && t[j] == ks[j + 1];
    }
    assert forall j :: 0 <= j < |t| ==> t[j] == ks[j + 1];
  }

  function Empty<V>(): (m: OrderedMap<V>)
    ensures m.Valid() && m.keys == [] && m.entries == map[]
  {
    OrderedMap([], map[])
  }

  /** `map.get(k)`. */
  function Get<V>(m: OrderedMap<V>, k: string): (r: Option<V>)
    ensures r.Some? <==> k in m.entries
    ensures r.Some? ==> r.value == m.entries[k]
  {
    if k in m.entries then Some(m.entries[k]) else None
  }

  /** `map.set(k, v)`: a new key goes to the end, a present key keeps its place. */
  function Set<V>(m: OrderedMap<V>, k: string, v: V): (r: OrderedMap<V>)
    requires m.Valid()
    ensures r.Valid()
    ensures r.entries == m.entries[k := v]
    ensures k in m.entries ==> r.keys == m.keys
    ensures k !in m.entries ==> r.keys == m.keys + [k]
  {
    if k in m.entries then m.(entries := m.entries[k := v])
    else OrderedMap(m.keys + [k], m.entries[k := v])
  }

  /** The keys of `ks` other than `k`, in their order. */
  function Without(ks: seq<string>, k: string): seq<string> {
    if |ks| == 0 then []
    else if ks[0] == k then Without(ks[1..], k)
    else [ks[0]] + Without(ks[1..], k)
  }

  /** Deleting `k` keeps every other key and only those. */
  lemma {:induction false} WithoutMembers(ks: seq<string>, k: string)
    ensures forall x :: x in Without(ks, k) <==> x in ks && x != k
  {
    if |ks| > 0 {
      WithoutMembers(ks[1..], k);
      assert forall x :: x in ks <==> x == ks[0] || x in ks[1..];
    }
  }

  /** A key absent from a sequence is removed from it by leaving it as it is. */
  lemma {:induction false} WithoutAbsent(ks: seq<string>, k: string)
    requires k !in ks
    ensures Without(ks, k) == ks
  {
    if |ks| > 0 {
      assert ks == [ks[0]] + ks[1..];
      WithoutAbsent(ks[1..], k);
    }
  }

  lemma {:induction false} WithoutDistinct(ks: seq<string>, k: string)
    requires Distinct(ks)
    ensures Distinct(Without(ks, k))
  {
    if |ks| > 0 {
      TailDistinct(ks);
      WithoutDistinct(ks[1..], k);
      WithoutMembers(ks[1..], k);
      if ks[0] != k {
        ConsDistinct(ks[0], Without(ks[1..], k));
      }
    }
  }

  /** `map.delete(k)`: the other keys keep their order. */
  function Delete<V>(m: OrderedMap<V>, k: string): (r: OrderedMap<V>)
    requires m.Valid()
    ensures r.Valid()
    ensures r.entries == m.entries - {k}
    ensures r.keys == Without(m.keys, k)
  {
    WithoutDistinct(m.keys, k);
    WithoutMembers(m.keys, k);
    OrderedMap(Without(m.keys, k), m.entries - {k})
  }

  /** Deleting a key that is not there changes nothing. */
  lemma DeleteAbsent<V>(m: OrderedMap<V>, k: string)
    requires m.Valid() && k !in m.entries
    ensures Delete(m, k) == m
  {
    WithoutAbsent(m.keys, k);
  }

  /** The keys of `ks` that `p` accepts, in their order. */
  function Filter(ks: seq<string>, p: string -> bool): seq<string> {
    if |ks| == 0 then []
    else if p(ks[0]) then [ks[0]] + Filter(ks[1..], p)
    else Filter(ks[1..], p)
  }

  /** Filtering keeps exactly the keys `p` accepts. */
  lemma {:induction false} FilterMembers(ks: seq<string>, p: string -> bool)
    ensures forall x :: x in Filter(ks, p) <==> x in ks && p(x)
  {
    if |ks| > 0 {
      FilterMembers(ks[1..], p);
      assert forall x :: x in ks <==> x == ks[0] || x in ks[1..];
    }
  }

  /** Filtering keeps the keys' order and the keys distinct. */
  lemma {:induction false} FilterDistinct(ks: seq<string>, p: string -> bool)
    requires Distinct(ks)
    ensures Distinct(Filter(ks, p))
  {
    if |ks| > 0 {
      TailDistinct(ks);
      FilterDistinct(ks[1..], p);
      FilterMembers(ks[1..], p);
      if p(ks[0]) {
        ConsDistinct(ks[0], Filter(ks[1..], p));
      }
    }
  }

  /** Filtering a sequence whose keys `p` all accept leaves it as it is. */
  lemma {:induction false} FilterAll(ks: seq<string>, p: string -> bool)
    requires forall x :: x in ks ==> p(x)
    ensures Filter(ks, p) == ks
  {
    if |ks| > 0 {
      assert ks == [ks[0]] + ks[1..];
      FilterAll(ks[1..], p);
    }
  }

  /** Filtering over a sequence built up key by key. */
  lemma {:induction false} FilterAppend(ks: seq<string>, k: string, p: string -> bool)
    ensures Filter(ks + [k], p) == Filter(ks, p) + (if p(k) then [k] else [])
  {
    if |ks| == 0 {
      assert ks + [k] == [k];
    } else {
      assert (ks + [k])[1..] == ks[1..] + [k];
      FilterAppend(ks[1..], k, p);
    }
  }

  /** Deleting a key and then keeping the keys `p` accepts is keeping the keys
      accepted by `p` that are not that key. */
  lemma {:induction false} FilterWithout(ks: seq<string>, k: string, p: string -> bool)
    ensures Filter(Without(ks, k), p) == Filter(ks, (x: string) => p(x) && x != k)
  {
    if |ks| > 0 {
      FilterWithout(ks[1..], k, p);
    }
  }

  /** The part of the map whose keys `p` accepts, in the same order. */
  function Restrict<V>(m: OrderedMap<V>, p: string -> bool): (r: OrderedMap<V>)
    requires m.Valid()
    ensures r.Valid()
    ensures r.keys == Filter(m.keys, p)
    ensures forall k :: k in r.entries <==> k in m.entries && p(k)
    ensures forall k :: k in r.entries ==> r.entries[k] == m.entries[k]
  {
    FilterDistinct(m.keys, p);
    FilterMembers(m.keys, p);
    OrderedMap(Filter(m.keys, p), map k | k in m.entries && p(k) :: m.entries[k])
  }
}
