/** Python's dict as the core uses it: an insertion-ordered collection of items with distinct keys.
    Assigning to a key that is present replaces its value in place (the key keeps its position);
    assigning to a new key appends it. */
module PyDicts {
  import opened Wrappers
  import opened PyLists

  type PyDict<K, V> = seq<(K, V)>

  function Keys<K, V>(d: PyDict<K, V>): seq<K> {
    seq(|d|, i requires 0 <= i < |d| => d[i].0)
  }

  function Values<K, V>(d: PyDict<K, V>): seq<V> {
    seq(|d|, i requires 0 <= i < |d| => d[i].1)
  }

  /** The keys are distinct, as in every Python dict. */
  predicate Valid<K(==), V>(d: PyDict<K, V>) {
    NoDuplicates(Keys(d))
  }

  /** `d.get(k)`: the value of the first item with key `k`. */
  function Get<K(==), V>(d: PyDict<K, V>, k: K): (r: Option<V>)
    ensures r.None? <==> k !in Keys(d)
  {
    if d == [] then None
    else if d[0].0 == k then
      assert Keys(d)[0] == k;
      Some(d[0].1)
    else
      assert Keys(d) == [d[0].0] + Keys(d[1..]);
      Get(d[1..], k)
  }

  /** What `Get` finds is stored in the dict. */
  lemma {:induction false} GetStored<K, V>(d: PyDict<K, V>, k: K)
    requires k in Keys(d)
    ensures exists i :: 0 <= i < |d| && d[i] == (k, Get(d, k).value)
  {
    if d[0].0 != k {
      assert Keys(d) == [d[0].0] + Keys(d[1..]);
      GetStored(d[1..], k);
      var i :| 0 <= i < |d[1..]| && d[1..][i] == (k, Get(d, k).value);
      assert d[i + 1] == d[1..][i];
    }
  }

  /** In a valid dict, `Get` returns the value stored next to the key wherever it is. */
  lemma {:induction false} GetAt<K, V>(d: PyDict<K, V>, i: nat)
    requires Valid(d) && i < |d|
    ensures Get(d, d[i].0) == Some(d[i].1)
  {
    if i > 0 {
      assert Keys(d)[0] != Keys(d)[i];
      assert Keys(d[1..]) == Keys(d)[1..];
      GetAt(d[1..], i - 1);
    }
  }

  /** `d[k] = v` */
  function Put<K(==), V>(d: PyDict<K, V>, k: K, v: V): (r: PyDict<K, V>)
    ensures k in Keys(d) ==> Keys(r) == Keys(d)
    ensures k !in Keys(d) ==> Keys(r) == Keys(d) + [k]
    ensures Get(r, k) == Some(v)
    ensures forall i :: 0 <= i < |r| ==> r[i] == (k, v) || r[i] in d
  {
    if d == [] then [(k, v)]
    else if d[0].0 == k then
      assert Keys(d)[0] == k;
      assert Keys([(k, v)] + d[1..]) == Keys(d);
      [(k, v)] + d[1..]
    else
      var rest := Put(d[1..], k, v);
      assert forall x :: x in d[1..] ==> x in d;
      assert Keys([d[0]] + rest) == [d[0].0] + Keys(rest);
      assert Keys(d) == [d[0].0] + Keys(d[1..]);
      [d[0]] + rest
  }

  lemma {:induction false} PutOther<K, V>(d: PyDict<K, V>, k: K, v: V, k': K)
    requires k' != k
    ensures Get(Put(d, k, v), k') == Get(d, k')
  {
    if d != [] && d[0].0 != k {
      PutOther(d[1..], k, v, k');
    }
  }

  lemma PutValid<K, V>(d: PyDict<K, V>, k: K, v: V)
    requires Valid(d)
    ensures Valid(Put(d, k, v))
  {
    if k !in Keys(d) {
      var ks := Keys(Put(d, k, v));
      assert ks == Keys(d) + [k];
      forall i, j | 0 <= i < j < |ks| ensures ks[i] != ks[j] {
        if j == |ks| - 1 {
          assert ks[i] in Keys(d);
        }
      }
    }
  }

  /** Where a key that is present sits, `Put` replaces its value and leaves every other item alone. */
  lemma {:induction false} PutAt<K, V>(d: PyDict<K, V>, i: nat, v: V)
    requires Valid(d) && i < |d|
    ensures Put(d, d[i].0, v) == d[i := (d[i].0, v)]
  {
    var k := d[i].0;
    if i > 0 {
      assert Keys(d)[0] != Keys(d)[i];
      assert Keys(d[1..]) == Keys(d)[1..];
      assert Put(d, k, v) == [d[0]] + Put(d[1..], k, v);
      assert d[1..][i - 1] == d[i];
      PutAt(d[1..], i - 1, v);
      assert [d[0]] + d[1..][i - 1 := (k, v)] == d[i := (k, v)];
    } else {
      assert Put(d, k, v) == [(k, v)] + d[1..];
    }
  }

  /** For a new key, `Put` appends the item. */
  lemma {:induction false} PutNew<K, V>(d: PyDict<K, V>, k: K, v: V)
    requires k !in Keys(d)
    ensures Put(d, k, v) == d + [(k, v)]
  {
    if d != [] {
      assert Keys(d) == [d[0].0] + Keys(d[1..]);
      assert d[0].0 != k;
      assert Put(d, k, v) == [d[0]] + Put(d[1..], k, v);
      PutNew(d[1..], k, v);
      assert [d[0]] + (d[1..] + [(k, v)]) == d + [(k, v)];
    }
  }

  /** A value found by `Get` is among the dict's values. */
  lemma {:induction false} GetInValues<K, V>(d: PyDict<K, V>, k: K)
    requires Get(d, k).Some?
    ensures Get(d, k).value in Values(d)
  {
    GetStored(d, k);
    var i :| 0 <= i < |d| && d[i] == (k, Get(d, k).value);
    assert Values(d)[i] == Get(d, k).value;
  }

  /** After `d[k] = v` each value is `v` or was already a value of `d`. */
  lemma {:induction false} PutValues<K, V>(d: PyDict<K, V>, k: K, v: V)
    ensures forall x :: x in Values(Put(d, k, v)) ==> x == v || x in Values(d)
  {
    var r := Put(d, k, v);
    forall x | x in Values(r) ensures x == v || x in Values(d) {
      var p :| 0 <= p < |r| && Values(r)[p] == x;
      if r[p] != (k, v) {
        var q :| 0 <= q < |d| && d[q] == r[p];
        assert Values(d)[q] == x;
      }
    }
  }

  /** `{v: k for k, v in d.items()}`: later items win when two keys share a value. */
  function Invert<K(==), V(==)>(d: PyDict<K, V>): (r: PyDict<V, K>)
    ensures Valid(r)
  {
    if d == [] then []
    else
      var init := Invert(d[..|d| - 1]);
      PutValid(init, d[|d| - 1].1, d[|d| - 1].0);
      Put(init, d[|d| - 1].1, d[|d| - 1].0)
  }

  /** Dropping the last item changes `Get` only for the last item's key. */
  lemma {:induction false} GetPrefix<K, V>(d: PyDict<K, V>, k: K)
    requires d != [] && d[|d| - 1].0 != k
    ensures Get(d[..|d| - 1], k) == Get(d, k)
  {
    if |d| > 1 && d[0].0 != k {
      assert d[1..][..|d[1..]| - 1] == d[..|d| - 1][1..];
      GetPrefix(d[1..], k);
    }
  }

  /** When the values are distinct too, the inverted dict maps each value back to its key. */
  lemma {:induction false} InvertIsInverse<K, V>(d: PyDict<K, V>, k: K, v: V)
    requires Valid(d) && NoDuplicates(Values(d))
    ensures Get(Invert(d), v) == Some(k) <==> Get(d, k) == Some(v)
  {
    if d != [] {
      var n := |d| - 1;
      var init := d[..n];
      assert Keys(init) == Keys(d)[..n];
      assert Values(init) == Values(d)[..n];
      InvertIsInverse(init, k, v);
      var last := d[n];
      if last.1 == v {
        GetAt(d, n);
        if Get(d, k) == Some(v) {
          GetStored(d, k);
          var i :| 0 <= i < |d| && d[i] == (k, v);
          assert Values(d)[i] == Values(d)[n];
        }
      } else {
        PutOther(Invert(init), last.1, last.0, v);
        if last.0 == k {
          GetAt(d, n);
          assert k !in Keys(init) by {
            forall i | 0 <= i < n ensures Keys(init)[i] != k {
              assert Keys(d)[i] != Keys(d)[n];
            }
          }
        } else {
          GetPrefix(d, k);
        }
      }
    }
  }

  /** `{**a, **b}`: the items of `a`, updated by the items of `b` in order. */
  function Merge<K(==), V>(a: PyDict<K, V>, b: PyDict<K, V>): (r: PyDict<K, V>)
    ensures forall k :: k in Keys(a) ==> k in Keys(r)
  {
    if b == [] then a
    else Put(Merge(a, b[..|b| - 1]), b[|b| - 1].0, b[|b| - 1].1)
  }

  /** Merging one more item is one more `Put`. */
  lemma MergeStep<K, V>(a: PyDict<K, V>, b: PyDict<K, V>, m: nat)
    requires m < |b|
    ensures Merge(a, b[..m + 1]) == Put(Merge(a, b[..m]), b[m].0, b[m].1)
  {
    assert b[..m + 1][..m] == b[..m];
  }

  lemma {:induction false} MergeValid<K, V>(a: PyDict<K, V>, b: PyDict<K, V>)
    requires Valid(a)
    ensures Valid(Merge(a, b))
  {
    if b != [] {
      MergeValid(a, b[..|b| - 1]);
      PutValid(Merge(a, b[..|b| - 1]), b[|b| - 1].0, b[|b| - 1].1);
    }
  }

  /** A key of `b` takes its value from `b`; any other key keeps its value from `a`. */
  lemma {:induction false} MergeGet<K, V>(a: PyDict<K, V>, b: PyDict<K, V>, k: K)
    requires Valid(b)
    ensures Get(Merge(a, b), k) == if k in Keys(b) then Get(b, k) else Get(a, k)
  {
    if b != [] {
      var n := |b| - 1;
      var init := b[..n];
      assert Keys(init) == Keys(b)[..n];
      assert Keys(b) == Keys(init) + [b[n].0];
      if k == b[n].0 {
        GetAt(b, n);
      } else {
        PutOther(Merge(a, init), b[n].0, b[n].1, k);
        MergeGet(a, init, k);
        GetPrefix(b, k);
      }
    }
  }

  /** `{f(k): v for k, v in d.items()}`: later items win when two keys are renamed alike. */
  function RenameKeys<K(==), V>(d: PyDict<K, V>, f: K -> K): (r: PyDict<K, V>)
    ensures Valid(r)
  {
    if d == [] then []
    else
      var init := RenameKeys(d[..|d| - 1], f);
      PutValid(init, f(d[|d| - 1].0), d[|d| - 1].1);
      Put(init, f(d[|d| - 1].0), d[|d| - 1].1)
  }

  /** When no two keys are renamed alike, each value is found under its key's new name. */
  lemma {:induction false} RenameKeysGet<K, V>(d: PyDict<K, V>, f: K -> K, k: K)
    requires Valid(d) && k in Keys(d)
    requires forall x, y :: x in Keys(d) && y in Keys(d) && f(x) == f(y) ==> x == y
    ensures Get(RenameKeys(d, f), f(k)) == Get(d, k)
  {
    var n := |d| - 1;
    var init := d[..n];
    assert Keys(init) == Keys(d)[..n];
    assert Keys(d) == Keys(init) + [d[n].0];
    if k == d[n].0 {
      GetAt(d, n);
    } else {
      assert f(k) != f(d[n].0);
      PutOther(RenameKeys(init, f), f(d[n].0), d[n].1, f(k));
      RenameKeysGet(init, f, k);
      GetPrefix(d, k);
    }
  }

  /** A name that no key is renamed to is absent. */
  lemma {:induction false} RenameKeysMissing<K, V>(d: PyDict<K, V>, f: K -> K, k': K)
    requires forall x :: x in Keys(d) ==> f(x) != k'
    ensures Get(RenameKeys(d, f), k') == None
  {
    if d != [] {
      var n := |d| - 1;
      assert Keys(d[..n]) == Keys(d)[..n];
      assert Keys(d)[n] == d[n].0;
      forall x | x in Keys(d[..n]) ensures f(x) != k' {
        var i :| 0 <= i < n && Keys(d[..n])[i] == x;
        assert Keys(d)[i] == x;
      }
      PutOther(RenameKeys(d[..n], f), f(d[n].0), d[n].1, k');
      RenameKeysMissing(d[..n], f, k');
    }
  }

  /** Merging items whose keys are new and distinct appends them. */
  lemma {:induction false} MergeFresh<K, V>(a: PyDict<K, V>, b: PyDict<K, V>)
    requires Valid(a + b)
    ensures Merge(a, b) == a + b
  {
    if b != [] {
      var n := |b| - 1;
      var ab := a + b[..n];
      assert a + b == ab + [b[n]];
      assert Keys(a + b) == Keys(ab) + [b[n].0];
      assert Keys(ab) == Keys(a + b)[..|ab|];
      assert Valid(ab);
      MergeFresh(a, b[..n]);
      assert b[n].0 !in Keys(ab) by {
        forall i | 0 <= i < |ab| ensures Keys(ab)[i] != b[n].0 {
          assert Keys(a + b)[i] != Keys(a + b)[|ab|];
        }
      }
      PutNew(ab, b[n].0, b[n].1);
    }
  }

  /** The items a counter loop assigns: each key in turn with the next id, counting from 1. */
  function Numbered<K>(keys: seq<K>): (r: PyDict<K, int>)
    ensures Keys(r) == keys
  {
    var r := seq(|keys|, i requires 0 <= i < |keys| => (keys[i], i + 1));
    assert Keys(r) == keys;
    r
  }

  /** A fresh vocabulary: `d[first] = 0` on an empty dict, then the numbered keys. Its ids are the
      positions 0, 1, 2, ... */
  lemma {:induction false} NumberedFresh<K>(first: K, keys: seq<K>)
    requires NoDuplicates(keys) && first !in keys
    ensures Merge(Put([], first, 0), Numbered(keys)) == [(first, 0)] + Numbered(keys)
    ensures Valid([(first, 0)] + Numbered(keys))
    ensures forall i :: 0 <= i < |keys| + 1 ==> ([(first, 0)] + Numbered(keys))[i].1 == i
  {
    var items := Numbered(keys);
    var v := [(first, 0)] + items;
    assert Put([], first, 0) == [(first, 0)];
    assert Keys(v) == [first] + keys;
    assert Valid(v);
    MergeFresh([(first, 0)], items);
  }

  /** In a fresh vocabulary the ids are exactly 0..n for n numbered keys, and `Invert` gives each id
      back its key. */
  lemma {:induction false} NumberedInverse<K>(first: K, keys: seq<K>)
    requires NoDuplicates(keys) && first !in keys
    ensures var v := [(first, 0)] + Numbered(keys);
            (forall k, id :: Get(Invert(v), id) == Some(k) <==> Get(v, k) == Some(id)) &&
            (forall id :: Get(Invert(v), id).Some? <==> 0 <= id <= |keys|)
  {
    NumberedFresh(first, keys);
    var v := [(first, 0)] + Numbered(keys);
    assert forall i :: 0 <= i < |v| ==> Values(v)[i] == i;
    assert NoDuplicates(Values(v));
    forall k, id ensures Get(Invert(v), id) == Some(k) <==> Get(v, k) == Some(id) {
      InvertIsInverse(v, k, id);
    }
    forall id ensures Get(Invert(v), id).Some? <==> 0 <= id <= |keys| {
      if 0 <= id <= |keys| {
        GetAt(v, id);
        InvertIsInverse(v, v[id].0, id);
      }
      if Get(Invert(v), id).Some? {
        var k := Get(Invert(v), id).value;
        InvertIsInverse(v, k, id);
        GetStored(v, k);
      }
    }
  }

  /** The `i`-th numbered key gets the id i+1. */
  lemma NumberedGet<K>(keys: seq<K>, i: nat)
    requires NoDuplicates(keys) && i < |keys|
    ensures Valid(Numbered(keys)) && Get(Numbered(keys), keys[i]) == Some(i + 1)
  {
    GetAt(Numbered(keys), i);
  }

  /** The counter loop of a `prepare`: `d[key] = current_id; current_id += 1` for each key in turn,
      counting from 1. */
  method NumberKeys<K(==)>(init: PyDict<K, int>, keys: seq<K>) returns (d: PyDict<K, int>)
    ensures d == Merge(init, Numbered(keys))
  {
    d := init;
    var items := Numbered(keys);
    var currentId := 1;
    for i := 0 to |keys|
      invariant currentId == i + 1
      invariant d == Merge(init, items[..i])
    {
      NumberedStep(init, keys, i);
      d := Put(d, keys[i], currentId);
      currentId := currentId + 1;
    }
    assert items[..|keys|] == items;
  }

  /** Numbering one more key is one more `Put`, with the id after the `i` before it. */
  lemma NumberedStep<K>(init: PyDict<K, int>, keys: seq<K>, i: nat)
    requires i < |keys|
    ensures Merge(init, Numbered(keys)[..i + 1]) == Put(Merge(init, Numbered(keys)[..i]), keys[i], i + 1)
  {
    MergeStep(init, Numbered(keys), i);
    assert Numbered(keys)[i] == (keys[i], i + 1);
  }

  /** Assignments to other keys leave a key's value alone. */
  lemma {:induction false} MergeAbsent<K, V>(a: PyDict<K, V>, b: PyDict<K, V>, k: K)
    requires k !in Keys(b)
    ensures Get(Merge(a, b), k) == Get(a, k)
    decreases |b|
  {
    if b != [] {
      var n := |b| - 1;
      assert Keys(b) == Keys(b[..n]) + [b[n].0];
      MergeAbsent(a, b[..n], k);
      PutOther(Merge(a, b[..n]), b[n].0, b[n].1, k);
    }
  }

  /** No item after the `i`-th assigns `k`. */
  predicate LastAssigned<K(==), V>(b: PyDict<K, V>, i: nat, k: K) {
    i < |b| && b[i].0 == k && forall j :: i < j < |b| ==> b[j].0 != k
  }

  /** With assignments in turn, the key of item `p` takes the value of the last item `i` that
      assigns it. */
  lemma {:induction false} MergeLast<K, V>(a: PyDict<K, V>, b: PyDict<K, V>, p: nat) returns (i: nat)
    requires p < |b|
    ensures p <= i && LastAssigned(b, i, b[p].0) && Get(Merge(a, b), b[p].0) == Some(b[i].1)
    decreases |b|
  {
    var n := |b| - 1;
    var k := b[p].0;
    if b[n].0 == k {
      i := n;
    } else {
      var c := b[..n];
      assert c[p] == b[p];
      i := MergeLast(a, c, p);
      PutOther(Merge(a, c), b[n].0, b[n].1, k);
      assert LastAssigned(b, i, k) by {
        forall j | i < j < |b| ensures b[j].0 != k {
          if j < n {
            assert c[j] == b[j] && i < j < |c|;
            assert c[j].0 != k;
          } else {
            assert j == n;
          }
        }
      }
    }
  }

  /** `d[k]` on a dict with string keys: a missing key is a KeyError. */
  function Lookup<V>(d: PyDict<string, V>, k: string): (r: Result<V>)
    ensures r.Failure? <==> k !in Keys(d)
    ensures r.Failure? ==> r.error == KeyError(k)
    ensures r.Success? ==> Get(d, k) == Some(r.value)
  {
    match Get(d, k)
    case Some(v) => Success(v)
    case None => Failure(KeyError(k))
  }
}
