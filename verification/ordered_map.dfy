/** Python's `dict` with string keys, as a value: the keys in insertion order
    and the key-to-value mapping. Assigning to a key that is already present
    keeps its position; a new key goes to the end. Every name-keyed table of
    the registry is one of these, because load and unload walk them in
    insertion order. */
module OrderedMaps {
  import opened Common

  ghost predicate Distinct(ks: seq<string>) {
    forall i, j :: 0 <= i < j < |ks| ==> ks[i] != ks[j]
  }

  datatype OrderedMap<V> = OrderedMap(keys: seq<string>, values: map<string, V>) {

    /** Each key once, and exactly the keys of the mapping. */
    ghost predicate Valid() {
      Distinct(keys) && forall k :: k in values <==> k in keys
    }

    /** `d.get(k)` */
    function Get(k: string): Option<V> {
      if k in values then Some(values[k]) else None
    }

    /** `d.get(k, default)` */
    function GetOr(k: string, default: V): V {
      Get(k).GetOr(default)
    }

    /** `d[k] = v` */
    function Put(k: string, v: V): (r: OrderedMap<V>)
      ensures Valid() ==> r.Valid()
      ensures r.Get(k) == Some(v)
      ensures forall k' :: k' != k ==> r.Get(k') == Get(k')
      ensures k in values ==> r.keys == keys
      ensures k !in values ==> r.keys == keys + [k]
    {
      if k in values then OrderedMap(keys, values[k := v]) else OrderedMap(keys + [k], values[k := v])
    }

    /** `d.update(other)`: other's entries in other's order, each replacing
        a same-named entry in place. */
    function Update(other: OrderedMap<V>): OrderedMap<V>
      requires other.Valid()
    {
      PutEach(this, other.keys, other.values, Replace, |other.keys|)
    }
  }

  function Empty<V>(): (r: OrderedMap<V>)
    ensures r.Valid() && r.keys == [] && forall k :: r.Get(k) == None
  {
    OrderedMap([], map[])
  }

  /** The value that `d[k] = v` leaves, whatever was there. */
  function Replace<V>(previous: Option<V>, v: V): V {
    v
  }

  /** The value that `d.setdefault(k, []).extend(v)` leaves. */
  function Concat<X>(previous: Option<seq<X>>, v: seq<X>): seq<X> {
    previous.GetOr([]) + v
  }

  /** Visits ks[0], ..., ks[n-1] in order and stores under each key k the
      combination of the value currently under k with vals[k]. */
  function PutEach<V>(m: OrderedMap<V>, ks: seq<string>, vals: map<string, V>,
                      combine: (Option<V>, V) -> V, n: nat): OrderedMap<V>
    requires n <= |ks|
    requires forall k :: k in ks ==> k in vals
  {
    if n == 0 then m
    else
      var previous := PutEach(m, ks, vals, combine, n - 1);
      var k := ks[n - 1];
      previous.Put(k, combine(previous.Get(k), vals[k]))
  }

  /** The keys among ks[..n] that m does not have yet, in the order of ks. */
  function NewKeys<V>(m: map<string, V>, ks: seq<string>, n: nat): seq<string>
    requires n <= |ks|
  {
    if n == 0 then []
    else NewKeys(m, ks, n - 1) + (if ks[n - 1] in m then [] else [ks[n - 1]])
  }

  lemma {:induction false} NewKeysMembership<V>(m: map<string, V>, ks: seq<string>, n: nat, k: string)
    requires n <= |ks|
    ensures k in NewKeys(m, ks, n) <==> k !in m && k in ks[..n]
  {
    if n > 0 {
      NewKeysMembership(m, ks, n - 1, k);
      assert ks[..n] == ks[..n - 1] + [ks[n - 1]];
    }
  }

  /** Folding keys in preserves the dict invariant. */
  lemma {:induction false} PutEachValid<V>(m: OrderedMap<V>, ks: seq<string>, vals: map<string, V>,
                                           combine: (Option<V>, V) -> V, n: nat)
    requires m.Valid() && n <= |ks|
    requires forall k :: k in ks ==> k in vals
    ensures PutEach(m, ks, vals, combine, n).Valid()
  {
    if n > 0 {
      PutEachValid(m, ks, vals, combine, n - 1);
    }
  }

  /** The keys after folding are the original ones followed by the new ones
      in visiting order. */
  lemma {:induction false} PutEachKeys<V>(m: OrderedMap<V>, ks: seq<string>, vals: map<string, V>,
                                          combine: (Option<V>, V) -> V, n: nat)
    requires m.Valid() && Distinct(ks) && n <= |ks|
    requires forall k :: k in ks ==> k in vals
    ensures PutEach(m, ks, vals, combine, n).keys == m.keys + NewKeys(m.values, ks, n)
  {
    if n > 0 {
      PutEachKeys(m, ks, vals, combine, n - 1);
      PutEachValid(m, ks, vals, combine, n - 1);
      var previous := PutEach(m, ks, vals, combine, n - 1);
      var k := ks[n - 1];
      assert k !in ks[..n - 1] by {
        forall i | 0 <= i < n - 1 ensures ks[i] != k { }
      }
      assert k in previous.values <==> k in m.values by {
        NewKeysMembership(m.values, ks, n - 1, k);
        assert k in previous.values <==> k in previous.keys;
      }
    }
  }

  /** After folding in the first n keys, a key k holds the combination of
      its original value with vals[k] when k is among them, and its original
      value otherwise. */
  lemma {:induction false} PutEachGet<V>(m: OrderedMap<V>, ks: seq<string>, vals: map<string, V>,
                                         combine: (Option<V>, V) -> V, n: nat, k: string)
    requires Distinct(ks) && n <= |ks|
    requires forall k :: k in ks ==> k in vals
    ensures PutEach(m, ks, vals, combine, n).Get(k) ==
            if k in ks[..n] then Some(combine(m.Get(k), vals[k])) else m.Get(k)
  {
    if n > 0 {
      PutEachGet(m, ks, vals, combine, n - 1, k);
      var last := ks[n - 1];
      assert ks[..n] == ks[..n - 1] + [last];
      if k == last {
        assert k !in ks[..n - 1] by {
          forall i | 0 <= i < n - 1 ensures ks[i] != k { }
        }
      }
    }
  }

  /** `a.update(b)` keeps a's keys in place, appends b's new keys in b's order,
      and maps each key to b's value when b has it and to a's otherwise. */
  lemma UpdateSpec<V>(a: OrderedMap<V>, b: OrderedMap<V>)
    requires a.Valid() && b.Valid()
    ensures a.Update(b).Valid()
    ensures a.Update(b).keys == a.keys + NewKeys(a.values, b.keys, |b.keys|)
    ensures forall k :: a.Update(b).Get(k) == if k in b.values then b.Get(k) else a.Get(k)
  {
    PutEachValid(a, b.keys, b.values, Replace, |b.keys|);
    PutEachKeys(a, b.keys, b.values, Replace, |b.keys|);
    assert b.keys[..|b.keys|] == b.keys;
    forall k ensures a.Update(b).Get(k) == if k in b.values then b.Get(k) else a.Get(k) {
      PutEachGet(a, b.keys, b.values, Replace, |b.keys|, k);
    }
  }

  /** Extending a's lists with b's, event by event: every key ends with a's
      list followed by b's, and a key only b has is appended at the end. */
  lemma ConcatEachSpec<X>(a: OrderedMap<seq<X>>, b: OrderedMap<seq<X>>)
    requires a.Valid() && b.Valid()
    ensures PutEach(a, b.keys, b.values, Concat, |b.keys|).Valid()
    ensures PutEach(a, b.keys, b.values, Concat, |b.keys|).keys == a.keys + NewKeys(a.values, b.keys, |b.keys|)
    ensures forall k :: PutEach(a, b.keys, b.values, Concat, |b.keys|).GetOr(k, []) == a.GetOr(k, []) + b.GetOr(k, [])
  {
    var r := PutEach(a, b.keys, b.values, Concat, |b.keys|);
    PutEachValid(a, b.keys, b.values, Concat, |b.keys|);
    PutEachKeys(a, b.keys, b.values, Concat, |b.keys|);
    assert b.keys[..|b.keys|] == b.keys;
    forall k ensures r.GetOr(k, []) == a.GetOr(k, []) + b.GetOr(k, []) {
      PutEachGet(a, b.keys, b.values, Concat, |b.keys|, k);
    }
  }
}
