/**
 * A Python `dict` keyed by strings: insertion-ordered, with unique keys.
 * Iteration order matters in the modelled code (it decides which error is
 * raised first), so a dict is a sequence of entries rather than a `map`.
 */
module OrderedDict {
  import opened Wrappers

  datatype Entry<V> = Entry(key: string, value: V)

  type Dict<V> = seq<Entry<V>>

  function Keys<V>(d: Dict<V>): (ks: set<string>)
    ensures forall i :: 0 <= i < |d| ==> d[i].key in ks
  {
    if d == [] then {} else {d[0].key} + Keys(d[1..])
  }

  /** The dict invariant: no key occurs twice. */
  predicate UniqueKeys<V>(d: Dict<V>)
  {
    forall i, j :: 0 <= i < j < |d| ==> d[i].key != d[j].key
  }

  /** `d.get(k)`: the value stored under `k`, if any. */
  function Get<V>(d: Dict<V>, k: string): (r: Option<V>)
    ensures r.Some? <==> k in Keys(d)
  {
    if d == [] then None
    else if d[0].key == k then Some(d[0].value)
    else Get(d[1..], k)
  }

  /** `d[k] = v`: overwrites the entry of `k` where it stands, or appends a new one. */
  function Put<V>(d: Dict<V>, k: string, v: V): (r: Dict<V>)
    ensures Get(r, k) == Some(v)
    ensures forall k' :: k' != k ==> Get(r, k') == Get(d, k')
    ensures Keys(r) == Keys(d) + {k}
    ensures k !in Keys(d) ==> r == d + [Entry(k, v)]
    ensures UniqueKeys(d) ==> UniqueKeys(r)
  {
    if d == [] then [Entry(k, v)]
    else if d[0].key == k then
      var r := [Entry(k, v)] + d[1..];
      assert r[1..] == d[1..];
      r
    else
      var rest := Put(d[1..], k, v);
      var r := [d[0]] + rest;
      assert r[1..] == rest;
      assert UniqueKeys(d) ==> UniqueKeys(r) by {
        if UniqueKeys(d) {
          assert d[0].key !in Keys(d[1..]) by { KeysIndex(d[1..], d[0].key); }
          KeysIndex(rest, d[0].key);
        }
      }
      r
  }

  /** The position of the first entry carrying `k`. */
  function IndexOf<V>(d: Dict<V>, k: string): (i: nat)
    requires k in Keys(d)
    ensures i < |d| && d[i].key == k
    ensures forall j :: 0 <= j < i ==> d[j].key != k
  {
    if d[0].key == k then 0 else 1 + IndexOf(d[1..], k)
  }

  /** Assigning to a key already present overwrites its entry where it stands: the order is kept. */
  lemma {:induction false} PutInPlace<V>(d: Dict<V>, k: string, v: V)
    requires k in Keys(d)
    ensures Put(d, k, v) == d[IndexOf(d, k) := Entry(k, v)]
  {
    if d[0].key != k {
      PutInPlace(d[1..], k, v);
      var i := IndexOf(d[1..], k);
      assert IndexOf(d, k) == i + 1;
      assert d == [d[0]] + d[1..];
      ConsUpdate(d[0], d[1..], i, Entry(k, v));
    }
  }

  lemma ConsUpdate<V>(x: Entry<V>, t: Dict<V>, i: nat, e: Entry<V>)
    requires i < |t|
    ensures ([x] + t)[i + 1 := e] == [x] + t[i := e]
  {
  }

  /** A key is in `Keys(d)` exactly when some entry carries it. */
  lemma {:induction false} KeysIndex<V>(d: Dict<V>, k: string)
    ensures k in Keys(d) <==> exists i :: 0 <= i < |d| && d[i].key == k
  {
    if d != [] {
      KeysIndex(d[1..], k);
      if k in Keys(d[1..]) {
        var i :| 0 <= i < |d[1..]| && d[1..][i].key == k;
        assert d[i + 1].key == k;
      }
      if exists i :: 0 <= i < |d| && d[i].key == k {
        var i :| 0 <= i < |d| && d[i].key == k;
        if i > 0 { assert d[1..][i - 1].key == k; }
      }
    }
  }

  /** `d.update(e)`: puts the entries of `e` into `d`, in `e`'s order. */
  function Update<V>(d: Dict<V>, e: Dict<V>): (r: Dict<V>)
    ensures Keys(r) == Keys(d) + Keys(e)
    ensures UniqueKeys(d) ==> UniqueKeys(r)
    ensures UniqueKeys(e) ==> forall k :: Get(r, k) == if k in Keys(e) then Get(e, k) else Get(d, k)
  {
    if e == [] then d
    else
      var init := e[..|e| - 1];
      var last := e[|e| - 1];
      var u := Update(d, init);
      var r := Put(u, last.key, last.value);
      assert Keys(e) == Keys(init) + {last.key} by { KeysAppend(init, last); assert e == init + [last]; }
      assert UniqueKeys(e) ==> forall k :: Get(r, k) == if k in Keys(e) then Get(e, k) else Get(d, k) by {
        if UniqueKeys(e) {
          assert e == init + [last];
          assert UniqueKeys(init);
          assert last.key !in Keys(init) by { KeysIndex(init, last.key); }
          forall k ensures Get(r, k) == if k in Keys(e) then Get(e, k) else Get(d, k) {
            GetAppend(init, last, k);
          }
        }
      }
      r
  }

  /** The entries of `e` whose keys `d` lacks, in `e`'s order. */
  function NewEntries<V>(d: Dict<V>, e: Dict<V>): Dict<V>
  {
    if e == [] then []
    else NewEntries(d, e[..|e| - 1]) + (if e[|e| - 1].key in Keys(d) then [] else [e[|e| - 1]])
  }

  /**
   * `d.update(e)` keeps `d`'s keys in their places and appends the keys only
   * `e` has, in `e`'s order.
   */
  lemma {:induction false} UpdateOrder<V>(d: Dict<V>, e: Dict<V>)
    requires UniqueKeys(e)
    ensures |Update(d, e)| == |d| + |NewEntries(d, e)|
    ensures forall i :: 0 <= i < |d| ==> Update(d, e)[i].key == d[i].key
    ensures Update(d, e)[|d|..] == NewEntries(d, e)
  {
    if e != [] {
      var init, last := e[..|e| - 1], e[|e| - 1];
      assert e == init + [last];
      assert UniqueKeys(init);
      assert last.key !in Keys(init) by { KeysIndex(init, last.key); }
      UpdateOrder(d, init);
      var u := Update(d, init);
      assert Update(d, e) == Put(u, last.key, last.value);
      if last.key in Keys(d) {
        assert NewEntries(d, e) == NewEntries(d, init) + [];
        PutKeepsPrefix(d, u, last.key, last.value);
      } else {
        assert NewEntries(d, e) == NewEntries(d, init) + [last];
        assert last.key !in Keys(u);
        SliceAppend(u, last, |d|);
      }
    }
  }

  lemma SliceAppend<V>(u: Dict<V>, x: Entry<V>, n: nat)
    requires n <= |u|
    ensures (u + [x])[n..] == u[n..] + [x]
  {
  }

  /** Assigning to a key of `d` inside a dict that starts with `d`'s keys changes no key and no later entry. */
  lemma PutKeepsPrefix<V>(d: Dict<V>, u: Dict<V>, k: string, v: V)
    requires |d| <= |u| && forall i :: 0 <= i < |d| ==> u[i].key == d[i].key
    requires k in Keys(d)
    ensures |Put(u, k, v)| == |u|
    ensures forall i :: 0 <= i < |u| ==> Put(u, k, v)[i].key == u[i].key
    ensures Put(u, k, v)[|d|..] == u[|d|..]
  {
    KeysIndex(d, k);
    var j :| 0 <= j < |d| && d[j].key == k;
    assert u[j].key == k;
    PutInPlace(u, k, v);
    var i := IndexOf(u, k);
    assert i <= j;
    EntryReplaced(u, i, Entry(k, v), |d|);
  }

  /** Replacing entry `i < n` by one with the same key changes no key and nothing from `n` on. */
  lemma EntryReplaced<V>(u: Dict<V>, i: nat, x: Entry<V>, n: nat)
    requires i < n <= |u| && x.key == u[i].key
    ensures |u[i := x]| == |u|
    ensures forall l :: 0 <= l < |u| ==> u[i := x][l].key == u[l].key
    ensures u[i := x][n..] == u[n..]
  {
  }

  lemma {:induction false} KeysAppend<V>(init: Dict<V>, last: Entry<V>)
    ensures Keys(init + [last]) == Keys(init) + {last.key}
  {
    if init == [] {
      assert init + [last] == [last];
    } else {
      assert (init + [last])[1..] == init[1..] + [last];
      KeysAppend(init[1..], last);
    }
  }

  /** Looking a key up in `init + [last]`, where `last` brings a new key. */
  lemma {:induction false} GetAppend<V>(init: Dict<V>, last: Entry<V>, k: string)
    requires last.key !in Keys(init)
    ensures Get(init + [last], k) == if k == last.key then Some(last.value) else Get(init, k)
  {
    if init == [] {
      assert init + [last] == [last];
    } else {
      assert (init + [last])[1..] == init[1..] + [last];
      GetAppend(init[1..], last, k);
    }
  }
}
