/**
 * Insertion-ordered dictionaries (Python `dict` and `OrderedDict`) as
 * sequences of key/value pairs with unique keys, oldest first: assigning to
 * a present key keeps its place, a new key goes last, and deletion keeps the
 * order of the rest.
 */
module OrderedMaps {
  import opened Wrappers

  predicate UniqueKeys<K(==), V>(items: seq<(K, V)>)
  {
    forall i, j :: 0 <= i < j < |items| ==> items[i].0 != items[j].0
  }

  predicate HasKey<K(==), V>(items: seq<(K, V)>, k: K)
  {
    exists i :: 0 <= i < |items| && items[i].0 == k
  }

  /** `d.get(k)`. */
  function Lookup<K(==), V(==)>(items: seq<(K, V)>, k: K): (r: Option<V>)
    ensures r.Some? <==> HasKey(items, k)
    ensures r.Some? ==> exists i :: 0 <= i < |items| && items[i] == (k, r.value)
  {
    if items == [] then None
    else if items[0].0 == k then Some(items[0].1)
    else
      var r := Lookup(items[1..], k);
      assert HasKey(items[1..], k) ==> HasKey(items, k) by {
        if HasKey(items[1..], k) {
          var i :| 0 <= i < |items[1..]| && items[1..][i].0 == k;
          assert items[i + 1].0 == k;
        }
      }
      assert HasKey(items, k) && items[0].0 != k ==> HasKey(items[1..], k) by {
        if HasKey(items, k) && items[0].0 != k {
          var i :| 0 <= i < |items| && items[i].0 == k;
          assert items[1..][i - 1].0 == k;
        }
      }
      if r.Some? then
        var i :| 0 <= i < |items[1..]| && items[1..][i] == (k, r.value);
        assert items[i + 1] == (k, r.value);
        r
      else r
  }

  /** `del d[k]` when `k` is present; nothing changes otherwise. */
  function Remove<K(==), V(==)>(items: seq<(K, V)>, k: K): (r: seq<(K, V)>)
    ensures |r| <= |items|
    ensures forall i :: 0 <= i < |r| ==> r[i] in items && r[i].0 != k
  {
    if items == [] then []
    else (if items[0].0 == k then [] else [items[0]]) + Remove(items[1..], k)
  }

  /** `d[k] = v`: replaced in place when present, appended when new. */
  function Put<K(==), V>(items: seq<(K, V)>, k: K, v: V): (r: seq<(K, V)>)
    ensures |r| == |items| + (if HasKey(items, k) then 0 else 1)
  {
    if items == [] then [(k, v)]
    else if items[0].0 == k then [(k, v)] + items[1..]
    else
      assert HasKey(items[1..], k) <==> HasKey(items, k) by {
        if HasKey(items[1..], k) {
          var i :| 0 <= i < |items[1..]| && items[1..][i].0 == k;
          assert items[i + 1].0 == k;
        }
        if HasKey(items, k) {
          var i :| 0 <= i < |items| && items[i].0 == k;
          assert items[1..][i - 1].0 == k;
        }
      }
      [items[0]] + Put(items[1..], k, v)
  }

  function Keys<K(==), V>(items: seq<(K, V)>): (r: seq<K>)
    ensures |r| == |items|
    ensures forall i :: 0 <= i < |items| ==> r[i] == items[i].0
  {
    if items == [] then [] else [items[0].0] + Keys(items[1..])
  }

  function Values<K, V>(items: seq<(K, V)>): (r: seq<V>)
    ensures |r| == |items|
    ensures forall i :: 0 <= i < |items| ==> r[i] == items[i].1
  {
    if items == [] then [] else [items[0].1] + Values(items[1..])
  }

  /** A key is in a non-empty dictionary when it is the first key or a key of the rest. */
  lemma HasKeyCons<K, V>(items: seq<(K, V)>, k: K)
    requires items != []
    ensures HasKey(items, k) <==> items[0].0 == k || HasKey(items[1..], k)
  {
    if HasKey(items, k) && items[0].0 != k {
      var i :| 0 <= i < |items| && items[i].0 == k;
      assert items[1..][i - 1].0 == k;
    }
    if HasKey(items[1..], k) {
      var i :| 0 <= i < |items[1..]| && items[1..][i].0 == k;
      assert items[i + 1].0 == k;
    }
  }

  /** With unique keys, the first key does not recur and the rest has unique keys. */
  lemma UniqueTail<K, V>(items: seq<(K, V)>)
    requires items != [] && UniqueKeys(items)
    ensures UniqueKeys(items[1..]) && !HasKey(items[1..], items[0].0)
  {
  }

  /** Prepending an entry whose key the rest lacks keeps keys unique. */
  lemma UniqueCons<K, V>(p: (K, V), rest: seq<(K, V)>)
    requires UniqueKeys(rest) && !HasKey(rest, p.0)
    ensures UniqueKeys([p] + rest)
  {
    var r := [p] + rest;
    forall i, j | 0 <= i < j < |r| ensures r[i].0 != r[j].0 {
      if i == 0 {
        assert rest[j - 1].0 == r[j].0;
      } else {
        assert r[i] == rest[i - 1] && r[j] == rest[j - 1];
      }
    }
  }

  /** The keys left after removing `k` are keys of the original other than `k`. */
  lemma {:induction false} RemoveHasKey<K, V>(items: seq<(K, V)>, k: K, x: K)
    ensures HasKey(Remove(items, k), x) <==> HasKey(items, x) && x != k
  {
    if items != [] {
      RemoveHasKey(items[1..], k, x);
      HasKeyCons(items, x);
      var rest := Remove(items[1..], k);
      if items[0].0 == k {
        assert Remove(items, k) == rest;
      } else {
        assert Remove(items, k) == [items[0]] + rest;
        HasKeyCons([items[0]] + rest, x);
        assert ([items[0]] + rest)[1..] == rest;
      }
    }
  }

  /** Removing a key keeps the keys unique and drops one entry exactly when the key was present. */
  lemma {:induction false} RemoveKeys<K, V>(items: seq<(K, V)>, k: K)
    requires UniqueKeys(items)
    ensures UniqueKeys(Remove(items, k))
    ensures |Remove(items, k)| == |items| - (if HasKey(items, k) then 1 else 0)
  {
    if items != [] {
      UniqueTail(items);
      RemoveKeys(items[1..], k);
      HasKeyCons(items, k);
      var rest := Remove(items[1..], k);
      if items[0].0 == k {
        assert Remove(items, k) == rest;
      } else {
        assert Remove(items, k) == [items[0]] + rest;
        RemoveHasKey(items[1..], k, items[0].0);
        UniqueCons(items[0], rest);
      }
    }
  }

  /** Removing a key: it is gone and every other key keeps its value. */
  lemma {:induction false} RemoveLookup<K, V>(items: seq<(K, V)>, k: K)
    ensures Lookup(Remove(items, k), k).None?
    ensures forall x :: x != k ==> Lookup(Remove(items, k), x) == Lookup(items, x)
  {
    if items != [] {
      RemoveLookup(items[1..], k);
      var rest := Remove(items[1..], k);
      if items[0].0 != k {
        assert Remove(items, k) == [items[0]] + rest;
        assert ([items[0]] + rest)[1..] == rest;
      } else {
        assert Remove(items, k) == [] + rest == rest;
      }
    }
  }

  /** Assigning a key keeps the keys unique and only appends a key that was absent. */
  lemma {:induction false} PutKeys<K, V>(items: seq<(K, V)>, k: K, v: V)
    requires UniqueKeys(items)
    ensures UniqueKeys(Put(items, k, v))
    ensures Keys(Put(items, k, v)) == (if HasKey(items, k) then Keys(items) else Keys(items) + [k])
  {
    if items != [] {
      var r := Put(items, k, v);
      UniqueTail(items);
      HasKeyCons(items, k);
      assert Keys(items) == [items[0].0] + Keys(items[1..]);
      if items[0].0 == k {
        assert r == [(k, v)] + items[1..];
        UniqueCons((k, v), items[1..]);
        assert Keys(r) == [k] + Keys(items[1..]);
      } else {
        var rest := Put(items[1..], k, v);
        PutKeys(items[1..], k, v);
        PutHasKey(items[1..], k, v, items[0].0);
        assert r == [items[0]] + rest;
        UniqueCons(items[0], rest);
        assert Keys(r) == [items[0].0] + Keys(rest);
      }
    }
  }

  /** After `d[k] = v` the keys present are the old ones and `k`. */
  lemma {:induction false} PutHasKey<K, V>(items: seq<(K, V)>, k: K, v: V, x: K)
    ensures HasKey(Put(items, k, v), x) <==> x == k || HasKey(items, x)
  {
    var r := Put(items, k, v);
    HasKeyCons(r, x);
    if items == [] {
      assert r == [(k, v)] && r[1..] == [];
    } else {
      HasKeyCons(items, x);
      if items[0].0 == k {
        assert r == [(k, v)] + items[1..] && r[1..] == items[1..];
      } else {
        PutHasKey(items[1..], k, v, x);
        assert r == [items[0]] + Put(items[1..], k, v) && r[1..] == Put(items[1..], k, v);
      }
    }
  }


  /** Assigning a key: it maps to the new value and every other key keeps its value. */
  lemma {:induction false} PutLookup<K, V>(items: seq<(K, V)>, k: K, v: V)
    ensures Lookup(Put(items, k, v), k) == Some(v)
    ensures forall x :: x != k ==> Lookup(Put(items, k, v), x) == Lookup(items, x)
  {
    if items != [] {
      var r := Put(items, k, v);
      if items[0].0 == k {
        assert r == [(k, v)] + items[1..];
        forall x | x != k ensures Lookup(r, x) == Lookup(items, x) {
          assert r[1..] == items[1..];
        }
      } else {
        PutLookup(items[1..], k, v);
        assert r[1..] == Put(items[1..], k, v);
      }
    }
  }

  /** Removing an absent key changes nothing. */
  lemma {:induction false} RemoveAbsent<K, V>(items: seq<(K, V)>, k: K)
    requires !HasKey(items, k)
    ensures Remove(items, k) == items
  {
    if items != [] {
      HasKeyCons(items, k);
      RemoveAbsent(items[1..], k);
      assert [items[0]] + items[1..] == items;
    }
  }

  /** A property every entry has survives assigning an entry that has it too. */
  lemma {:induction false} PutKeepsAll<K, V>(items: seq<(K, V)>, k: K, v: V, P: ((K, V)) -> bool)
    requires forall i :: 0 <= i < |items| ==> P(items[i])
    requires P((k, v))
    ensures forall i :: 0 <= i < |Put(items, k, v)| ==> P(Put(items, k, v)[i])
  {
    if items != [] && items[0].0 != k {
      PutKeepsAll(items[1..], k, v, P);
      var r := Put(items, k, v);
      assert r == [items[0]] + Put(items[1..], k, v);
      forall i | 0 < i < |r| ensures P(r[i]) {
        assert r[i] == Put(items[1..], k, v)[i - 1];
      }
    }
  }

  /** A property every entry has survives removing a key. */
  lemma {:induction false} RemoveKeepsAll<K, V>(items: seq<(K, V)>, k: K, P: ((K, V)) -> bool)
    requires forall i :: 0 <= i < |items| ==> P(items[i])
    ensures forall i :: 0 <= i < |Remove(items, k)| ==> P(Remove(items, k)[i])
  {
    if items != [] {
      RemoveKeepsAll(items[1..], k, P);
      var rest := Remove(items[1..], k);
      if items[0].0 != k {
        var r := Remove(items, k);
        assert r == [items[0]] + rest;
        forall i | 0 < i < |r| ensures P(r[i]) {
          assert r[i] == rest[i - 1];
        }
      } else {
        assert Remove(items, k) == rest;
      }
    }
  }

  /** Appending an entry under a new key: it is found last, and every earlier key keeps its value. */
  lemma {:induction false} SnocSpec<K, V>(items: seq<(K, V)>, k: K, v: V)
    requires UniqueKeys(items) && !HasKey(items, k)
    ensures UniqueKeys(items + [(k, v)])
    ensures Lookup(items + [(k, v)], k) == Some(v)
    ensures forall x :: x != k ==> Lookup(items + [(k, v)], x) == Lookup(items, x)
  {
    var r := items + [(k, v)];
    forall i, j | 0 <= i < j < |r| ensures r[i].0 != r[j].0 {
      if j == |items| {
        assert r[i] == items[i];
      }
    }
    if items != [] {
      UniqueTail(items);
      HasKeyCons(items, k);
      SnocSpec(items[1..], k, v);
      assert r[1..] == items[1..] + [(k, v)];
    }
  }

  /** Dropping the oldest entry: its key is gone and every other key keeps its value. */
  lemma DropOldest<K, V>(items: seq<(K, V)>)
    requires items != [] && UniqueKeys(items)
    ensures UniqueKeys(items[1..])
    ensures Lookup(items[1..], items[0].0).None?
    ensures forall x :: x != items[0].0 ==> Lookup(items[1..], x) == Lookup(items, x)
  {
    UniqueTail(items);
  }
}
