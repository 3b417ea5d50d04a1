/** Python's insertion-ordered `dict` with string keys: the order the keys were first
    inserted in, and the value each key currently has. Assigning to a present key keeps its
    position; `del` removes it. */
module OrderedDicts {

  datatype DictRep<V> = DictRep(keys: seq<string>, values: map<string, V>)

  predicate Distinct(s: seq<string>) {
    forall i, j :: 0 <= i < j < |s| ==> s[i] != s[j]
  }

  predicate WellFormed<V>(d: DictRep<V>) {
    Distinct(d.keys) && d.values.Keys == set k | k in d.keys
  }

  type PyDict<V> = d: DictRep<V> | WellFormed(d) witness DictRep([], map[])

  function Empty<V>(): PyDict<V> {
    DictRep([], map[])
  }

  predicate Has<V>(d: PyDict<V>, k: string) {
    k in d.values
  }

  function Get<V>(d: PyDict<V>, k: string): V
    requires Has(d, k)
  {
    d.values[k]
  }

  /** `d[k] = v`. */
  function Put<V>(d: PyDict<V>, k: string, v: V): (r: PyDict<V>)
    ensures Has(r, k) && Get(r, k) == v
    ensures forall k' :: k' != k ==> (Has(r, k') <==> Has(d, k'))
    ensures forall k' :: k' != k && Has(d, k') ==> Get(r, k') == Get(d, k')
    ensures r.keys == if Has(d, k) then d.keys else d.keys + [k]
  {
    DictRep(if k in d.values then d.keys else d.keys + [k], d.values[k := v])
  }

  function Without(s: seq<string>, k: string): (r: seq<string>)
    ensures forall x :: x in r <==> x in s && x != k
    ensures Distinct(s) ==> Distinct(r)
  {
    if s == [] then []
    else if s[0] == k then Without(s[1..], k)
    else
      var r := Without(s[1..], k);
      assert Distinct(s) ==> s[0] !in s[1..];
      DistinctCons(s[0], r);
      [s[0]] + r
  }

  lemma DistinctCons(x: string, s: seq<string>)
    ensures Distinct([x] + s) <==> x !in s && Distinct(s)
  {
    var t := [x] + s;
    if x !in s && Distinct(s) {
      forall i, j | 0 <= i < j < |t| ensures t[i] != t[j] {
        if i > 0 {
          assert t[i] == s[i - 1] && t[j] == s[j - 1];
        } else {
          assert t[j] == s[j - 1];
        }
      }
    }
    if Distinct(t) {
      forall i, j | 0 <= i < j < |s| ensures s[i] != s[j] {
        assert t[i + 1] == s[i] && t[j + 1] == s[j];
      }
      forall i | 0 <= i < |s| ensures s[i] != x {
        assert t[0] != t[i + 1];
      }
    }
  }

  /** `del d[k]`: the remaining keys keep their order. */
  function Remove<V>(d: PyDict<V>, k: string): (r: PyDict<V>)
    ensures !Has(r, k)
    ensures forall k' :: k' != k ==> (Has(r, k') <==> Has(d, k'))
    ensures forall k' :: k' != k && Has(d, k') ==> Get(r, k') == Get(d, k')
    ensures r.keys == Without(d.keys, k)
  {
    DictRep(Without(d.keys, k), d.values - {k})
  }

  /** `d.items()`, in order. */
  function Items<V>(d: PyDict<V>): (r: seq<(string, V)>)
    ensures |r| == |d.keys|
    ensures forall i :: 0 <= i < |r| ==> r[i].0 == d.keys[i] && Has(d, r[i].0) && r[i].1 == Get(d, r[i].0)
  {
    seq(|d.keys|, i requires 0 <= i < |d.keys| => (d.keys[i], d.values[d.keys[i]]))
  }

  function KeysOf<V>(items: seq<(string, V)>): (r: seq<string>)
    ensures |r| == |items|
    ensures forall i :: 0 <= i < |items| ==> r[i] == items[i].0
  {
    if items == [] then [] else KeysOf(items[..|items| - 1]) + [items[|items| - 1].0]
  }

  /** The value each key has last among `items`. */
  function ToMap<V>(items: seq<(string, V)>): map<string, V> {
    if items == [] then map[]
    else ToMap(items[..|items| - 1])[items[|items| - 1].0 := items[|items| - 1].1]
  }

  /** The elements of `s` at their first occurrence. */
  function Dedup(s: seq<string>): seq<string> {
    if s == [] then []
    else
      var p := Dedup(s[..|s| - 1]);
      if s[|s| - 1] in s[..|s| - 1] then p else p + [s[|s| - 1]]
  }

  /** Assigning every pair of `items` in turn: `for k, v in items: d[k] = v`. */
  function PutAll<V>(d: PyDict<V>, items: seq<(string, V)>): PyDict<V> {
    if items == [] then d
    else Put(PutAll(d, items[..|items| - 1]), items[|items| - 1].0, items[|items| - 1].1)
  }

  /** `d.update(e)`. */
  function Update<V>(d: PyDict<V>, e: PyDict<V>): PyDict<V> {
    PutAll(d, Items(e))
  }

  /** `dict(items)`. */
  function FromItems<V>(items: seq<(string, V)>): PyDict<V> {
    PutAll(Empty(), items)
  }

  /** Building from items is building from all but the last, then putting the last. */
  lemma FromItemsSnoc<V>(items: seq<(string, V)>)
    requires items != []
    ensures FromItems(items) == Put(FromItems(items[..|items| - 1]), items[|items| - 1].0, items[|items| - 1].1)
  {
  }

  lemma {:induction false} DedupMembers(s: seq<string>)
    ensures forall x :: x in Dedup(s) <==> x in s
    ensures Distinct(Dedup(s))
  {
    if s != [] {
      DedupMembers(s[..|s| - 1]);
      assert s == s[..|s| - 1] + [s[|s| - 1]];
    }
  }

  lemma {:induction false} DedupOfDistinct(s: seq<string>)
    requires Distinct(s)
    ensures Dedup(s) == s
  {
    if s != [] {
      DedupOfDistinct(s[..|s| - 1]);
      assert s[|s| - 1] !in s[..|s| - 1];
      assert s == s[..|s| - 1] + [s[|s| - 1]];
    }
  }

  /** Removing repeats from a suffix first changes nothing. */
  lemma {:induction false} DedupAbsorb(a: seq<string>, b: seq<string>)
    ensures Dedup(a + Dedup(b)) == Dedup(a + b)
    decreases |b|
  {
    if b == [] {
      assert a + Dedup(b) == a == a + b;
    } else {
      var b', x := b[..|b| - 1], b[|b| - 1];
      DedupAbsorb(a, b');
      DedupMembers(b');
      assert (a + b)[..|a + b| - 1] == a + b';
      assert (a + b)[|a + b| - 1] == x;
      if x in b' {
        assert Dedup(b) == Dedup(b');
      } else {
        assert Dedup(b) == Dedup(b') + [x];
        var c := a + Dedup(b');
        assert a + Dedup(b) == c + [x];
        assert (c + [x])[..|c + [x]| - 1] == c;
        assert (x in c) <==> (x in a + b');
      }
    }
  }

  lemma {:induction false} PutAllKeys<V>(d: PyDict<V>, items: seq<(string, V)>)
    ensures PutAll(d, items).keys == Dedup(d.keys + KeysOf(items))
    ensures forall k :: Has(PutAll(d, items), k) <==> k in d.keys + KeysOf(items)
  {
    if items == [] {
      DedupOfDistinct(d.keys);
      assert d.keys + KeysOf(items) == d.keys;
    } else {
      PutAllKeys(d, items[..|items| - 1]);
      PutAllKeysStep(d, items);
    }
  }

  lemma PutAllKeysStep<V>(d: PyDict<V>, items: seq<(string, V)>)
    requires items != []
    requires var prev := PutAll(d, items[..|items| - 1]);
      && prev.keys == Dedup(d.keys + KeysOf(items[..|items| - 1]))
      && forall k :: Has(prev, k) <==> k in d.keys + KeysOf(items[..|items| - 1])
    ensures PutAll(d, items).keys == Dedup(d.keys + KeysOf(items))
    ensures forall k :: Has(PutAll(d, items), k) <==> k in d.keys + KeysOf(items)
  {
    var init, last := items[..|items| - 1], items[|items| - 1];
    var prev := PutAll(d, init);
    var t := d.keys + KeysOf(init);
    KeysOfSnoc(d.keys, items);
    assert PutAll(d, items) == Put(prev, last.0, last.1);
    DedupSnoc(t, last.0);
    forall k ensures Has(PutAll(d, items), k) <==> k in t + [last.0] {
      InSnoc(t, last.0, k);
    }
  }

  lemma KeysOfSnoc<V>(head: seq<string>, items: seq<(string, V)>)
    requires items != []
    ensures head + KeysOf(items) == (head + KeysOf(items[..|items| - 1])) + [items[|items| - 1].0]
  {
    var a, x := KeysOf(items[..|items| - 1]), items[|items| - 1].0;
    var b := KeysOf(items);
    assert |b| == |a| + 1;
    forall i | 0 <= i < |b| ensures b[i] == (a + [x])[i] {
      if i < |a| {
        assert items[..|items| - 1][i] == items[i];
      }
    }
    assert b == a + [x];
    KeysAppendAssoc(head, a, [x]);
  }

  lemma KeysAppendAssoc(a: seq<string>, b: seq<string>, c: seq<string>)
    ensures a + (b + c) == (a + b) + c
  {
  }

  lemma DedupSnoc(t: seq<string>, x: string)
    ensures Dedup(t + [x]) == if x in t then Dedup(t) else Dedup(t) + [x]
  {
    var s := t + [x];
    assert s[..|s| - 1] == t && s[|s| - 1] == x;
  }

  lemma InSnoc(t: seq<string>, x: string, k: string)
    ensures k in t + [x] <==> k in t || k == x
  {
  }

  lemma {:induction false} PutAllValues<V>(d: PyDict<V>, items: seq<(string, V)>)
    ensures PutAll(d, items).values == d.values + ToMap(items)
  {
    if items != [] {
      PutAllValues(d, items[..|items| - 1]);
    }
  }

  lemma {:induction false} ItemsKeysAndMap<V>(d: PyDict<V>)
    ensures KeysOf(Items(d)) == d.keys
    ensures ToMap(Items(d)) == d.values
  {
    var it := Items(d);
    ItemsPrefixMap(d, |it|);
    assert it[..|it|] == it;
    assert (set k | k in d.keys[..|it|]) == d.values.Keys by {
      assert d.keys[..|it|] == d.keys;
    }
  }

  lemma {:induction false} ItemsPrefixMap<V>(d: PyDict<V>, n: nat)
    requires n <= |d.keys|
    ensures ToMap(Items(d)[..n]) == map k | k in d.keys[..n] :: d.values[k]
    decreases n
  {
    var it := Items(d);
    if n > 0 {
      ItemsPrefixMap(d, n - 1);
      assert it[..n][..n - 1] == it[..n - 1];
      assert d.keys[..n] == d.keys[..n - 1] + [d.keys[n - 1]];
    }
  }

  /** `d.update(dict(items))` is assigning the pairs of `items` one by one. */
  lemma {:induction false} UpdateFromItems<V>(d: PyDict<V>, items: seq<(string, V)>)
    ensures Update(d, FromItems(items)) == PutAll(d, items)
  {
    UpdateFromItemsKeys(d, items);
    UpdateFromItemsValues(d, items);
  }

  lemma {:induction false} UpdateFromItemsKeys<V>(d: PyDict<V>, items: seq<(string, V)>)
    ensures Update(d, FromItems(items)).keys == PutAll(d, items).keys
  {
    var e := FromItems(items);
    ItemsKeysAndMap(e);
    PutAllKeys(d, Items(e));
    PutAllKeys(Empty(), items);
    PutAllKeys(d, items);
    assert [] + KeysOf(items) == KeysOf(items);
    DedupAbsorb(d.keys, KeysOf(items));
  }

  lemma {:induction false} UpdateFromItemsValues<V>(d: PyDict<V>, items: seq<(string, V)>)
    ensures Update(d, FromItems(items)).values == PutAll(d, items).values
  {
    FromItemsValues(items);
    UpdateValues(d, FromItems(items));
    PutAllValues(d, items);
  }

  lemma {:induction false} FromItemsValues<V>(items: seq<(string, V)>)
    ensures FromItems(items).values == ToMap(items)
  {
    PutAllValues(Empty<V>(), items);
    assert map[] + ToMap(items) == ToMap(items);
  }

  lemma {:induction false} UpdateValues<V>(d: PyDict<V>, e: PyDict<V>)
    ensures Update(d, e).values == d.values + e.values
  {
    ItemsKeysAndMap(e);
    PutAllValues(d, Items(e));
  }

  /** A key absent from every later pair keeps the value its last pair gave it. */
  lemma {:induction false} ToMapLast<V>(items: seq<(string, V)>, i: nat)
    requires i < |items|
    requires forall j :: i < j < |items| ==> items[j].0 != items[i].0
    ensures items[i].0 in ToMap(items) && ToMap(items)[items[i].0] == items[i].1
  {
    if i < |items| - 1 {
      ToMapLast(items[..|items| - 1], i);
    }
  }

  lemma {:induction false} ToMapKeys<V>(items: seq<(string, V)>)
    ensures forall k :: k in ToMap(items) <==> exists i :: 0 <= i < |items| && items[i].0 == k
  {
    if items != [] {
      var init := items[..|items| - 1];
      ToMapKeys(init);
      forall k | k in ToMap(items) ensures exists i :: 0 <= i < |items| && items[i].0 == k {
        if k != items[|items| - 1].0 {
          assert k in ToMap(init);
          var i :| 0 <= i < |init| && init[i].0 == k;
          assert items[i].0 == k;
        }
      }
      forall k | exists i :: 0 <= i < |items| && items[i].0 == k ensures k in ToMap(items) {
        var i :| 0 <= i < |items| && items[i].0 == k;
        if i < |init| {
          assert init[i].0 == k;
        }
      }
    }
  }
  /** Assigning the pairs of `a` and then those of `b` is assigning those of `a + b`. */
  lemma {:induction false} PutAllConcat<V>(d: PyDict<V>, a: seq<(string, V)>, b: seq<(string, V)>)
    ensures PutAll(d, a + b) == PutAll(PutAll(d, a), b)
    decreases |b|
  {
    if b == [] {
      assert a + b == a;
    } else {
      var b' := b[..|b| - 1];
      assert (a + b)[..|a + b| - 1] == a + b';
      assert (a + b)[|a + b| - 1] == b[|b| - 1];
      PutAllConcat(d, a, b');
    }
  }

  /** `dict(d.items())` is `d`. */
  lemma FromItemsOfItems<V>(d: PyDict<V>)
    ensures FromItems(Items(d)) == d
  {
    var e := FromItems(Items(d));
    ItemsKeysAndMap(d);
    PutAllKeys(Empty(), Items(d));
    var empty: PyDict<V> := Empty();
    assert empty.keys + KeysOf(Items(d)) == d.keys;
    DedupOfDistinct(d.keys);
    assert e.keys == d.keys;
    FromItemsValues(Items(d));
    assert e.values == d.values;
  }

  /** The value `ToMap` gives a key comes from a pair of the list. */
  lemma {:induction false} ToMapValueFrom<V>(items: seq<(string, V)>, k: string)
    requires k in ToMap(items)
    ensures (k, ToMap(items)[k]) in items
  {
    var last := items[|items| - 1];
    if k != last.0 {
      ToMapValueFrom(items[..|items| - 1], k);
    }
  }
}
