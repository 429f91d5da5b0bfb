/**
 * Python's `dict` with its insertion order, as a sequence of key/value
 * pairs.  Assigning to a present key keeps its position; a new key goes to
 * the end; `{**a, **b}` is `a` followed by assigning every pair of `b`.
 */
module OrderedDict {
  import opened Python

  type Dict<V> = seq<(string, V)>

  function Keys<V>(d: Dict<V>): (ks: seq<string>)
    ensures |ks| == |d|
    ensures forall i :: 0 <= i < |d| ==> ks[i] == d[i].0
  {
    if d == [] then [] else [d[0].0] + Keys(d[1..])
  }

  predicate HasKey<V>(d: Dict<V>, k: string)
  {
    exists i :: 0 <= i < |d| && d[i].0 == k
  }

  /** No key occurs twice. */
  predicate Unique<V>(d: Dict<V>)
  {
    forall i, j :: 0 <= i < j < |d| ==> d[i].0 != d[j].0
  }

  /** `d.get(k)`. */
  function Get<V>(d: Dict<V>, k: string): (r: Option<V>)
    ensures r.Some? <==> HasKey(d, k)
    ensures r.Some? ==> exists i :: 0 <= i < |d| && d[i] == (k, r.value)
  {
    if d == [] then None
    else if d[0].0 == k then Some(d[0].1)
    else
      var r := Get(d[1..], k);
      assert r.Some? ==> exists i :: 0 <= i < |d| && d[i] == (k, r.value) by {
        if r.Some? { var i :| 0 <= i < |d[1..]| && d[1..][i] == (k, r.value); assert d[i + 1] == (k, r.value); }
      }
      HasKeyTail(d, k);
      r
  }

  /** `d[k] = v`. */
  function Set<V>(d: Dict<V>, k: string, v: V): (r: Dict<V>)
    ensures HasKey(d, k) ==> |r| == |d| && Keys(r) == Keys(d)
    ensures !HasKey(d, k) ==> r == d + [(k, v)]
  {
    if d == [] then [(k, v)]
    else if d[0].0 == k then [(k, v)] + d[1..]
    else
      HasKeyTail(d, k);
      var rest := Set(d[1..], k, v);
      assert HasKey(d, k) ==> Keys([d[0]] + rest) == Keys(d) by {
        if HasKey(d, k) { assert Keys([d[0]] + rest) == [d[0].0] + Keys(rest); }
      }
      [d[0]] + rest
  }

  /** `{**a, **b}`. */
  function Merge<V>(a: Dict<V>, b: Dict<V>): Dict<V>
    decreases |b|
  {
    if b == [] then a else Merge(Set(a, b[0].0, b[0].1), b[1..])
  }

  /** `del d[k]`, or `None` when `k` is absent (a `KeyError`). */
  function Remove<V>(d: Dict<V>, k: string): (r: Option<Dict<V>>)
    ensures r.Some? <==> HasKey(d, k)
  {
    if d == [] then None
    else if d[0].0 == k then Some(d[1..])
    else
      HasKeyTail(d, k);
      match Remove(d[1..], k)
      case None => None
      case Some(rest) => Some([d[0]] + rest)
  }

  /** Past a head with another key, `k` is present iff it is present in the tail. */
  lemma HasKeyTail<V>(d: Dict<V>, k: string)
    requires d != [] && d[0].0 != k
    ensures HasKey(d, k) <==> HasKey(d[1..], k)
  {
    if HasKey(d, k) {
      var i :| 0 <= i < |d| && d[i].0 == k;
      assert d[1..][i - 1].0 == k;
    }
    if HasKey(d[1..], k) {
      var i :| 0 <= i < |d[1..]| && d[1..][i].0 == k;
      assert d[i + 1].0 == k;
    }
  }

  /** With unique keys the head's key does not occur again. */
  lemma UniqueHead<V>(d: Dict<V>)
    requires Unique(d) && d != []
    ensures !HasKey(d[1..], d[0].0)
    ensures Unique(d[1..])
  {
    forall i | 0 <= i < |d[1..]|
      ensures d[1..][i].0 != d[0].0
    {
      assert d[1..][i] == d[i + 1];
    }
  }

  // ---- properties ------------------------------------------------------

  /** After `d[k] = v`, `k` maps to `v` and every other key keeps its value. */
  lemma {:induction false} GetSet<V>(d: Dict<V>, k: string, v: V, j: string)
    ensures Get(Set(d, k, v), j) == if j == k then Some(v) else Get(d, j)
    decreases |d|
  {
    if d != [] && d[0].0 != k {
      GetSet(d[1..], k, v, j);
      assert (Set(d, k, v))[1..] == Set(d[1..], k, v);
    }
  }

  /** Assignment keeps keys unique. */
  lemma {:induction false} SetUnique<V>(d: Dict<V>, k: string, v: V)
    requires Unique(d)
    ensures Unique(Set(d, k, v))
    decreases |d|
  {
    if d != [] && d[0].0 != k {
      SetUnique(d[1..], k, v);
      var r := Set(d, k, v);
      assert r == [d[0]] + Set(d[1..], k, v);
      if HasKey(d[1..], k) {
        assert Keys(r) == [d[0].0] + Keys(Set(d[1..], k, v));
        assert Keys(Set(d[1..], k, v)) == Keys(d[1..]);
        forall i, j | 0 <= i < j < |r| ensures r[i].0 != r[j].0 {
          assert Keys(r)[i] == r[i].0 && Keys(r)[j] == r[j].0;
          assert Keys(r) == Keys(d);
        }
      } else {
        assert r == d + [(k, v)];
      }
    }
  }

  /** `{**a, **b}[k]` comes from `b` when `b` has `k`, and from `a` otherwise. */
  lemma {:induction false} GetMerge<V>(a: Dict<V>, b: Dict<V>, k: string)
    requires Unique(b)
    ensures Get(Merge(a, b), k) == if HasKey(b, k) then Get(b, k) else Get(a, k)
    decreases |b|
  {
    if b != [] {
      var a' := Set(a, b[0].0, b[0].1);
      assert Unique(b[1..]);
      GetMerge(a', b[1..], k);
      GetSet(a, b[0].0, b[0].1, k);
      if b[0].0 == k {
        UniqueHead(b);
      } else {
        HasKeyTail(b, k);
      }
    }
  }

  /** `{**a, **b}` keeps the keys of `a` in front, in their order. */
  lemma {:induction false} MergeKeepsOrder<V>(a: Dict<V>, b: Dict<V>)
    ensures |Merge(a, b)| >= |a|
    ensures Keys(Merge(a, b))[..|a|] == Keys(a)
    decreases |b|
  {
    if b != [] {
      var a' := Set(a, b[0].0, b[0].1);
      MergeKeepsOrder(a', b[1..]);
      if HasKey(a, b[0].0) {
        assert Keys(a') == Keys(a);
      } else {
        assert a' == a + [b[0]];
        assert Keys(a')[..|a|] == Keys(a);
      }
    }
  }

  /** Merging keeps keys unique. */
  lemma {:induction false} MergeUnique<V>(a: Dict<V>, b: Dict<V>)
    requires Unique(a)
    ensures Unique(Merge(a, b))
    decreases |b|
  {
    if b != [] {
      SetUnique(a, b[0].0, b[0].1);
      MergeUnique(Set(a, b[0].0, b[0].1), b[1..]);
    }
  }

  /** After `del d[k]`, `k` is gone and every other key keeps its value. */
  lemma {:induction false} GetRemove<V>(d: Dict<V>, k: string, j: string)
    requires Unique(d) && HasKey(d, k)
    ensures Get(Remove(d, k).value, j) == if j == k then None else Get(d, j)
    decreases |d|
  {
    if d[0].0 == k {
      UniqueHead(d);
    } else {
      HasKeyTail(d, k);
      GetRemove(d[1..], k, j);
    }
  }

  /** Deleting a key keeps keys unique. */
  lemma {:induction false} RemoveUnique<V>(d: Dict<V>, k: string)
    requires Unique(d) && HasKey(d, k)
    ensures Unique(Remove(d, k).value)
    decreases |d|
  {
    if d[0].0 != k {
      HasKeyTail(d, k);
      UniqueHead(d);
      RemoveUnique(d[1..], k);
      var rest := Remove(d[1..], k).value;
      GetRemove(d[1..], k, d[0].0);
      assert !HasKey(rest, d[0].0);
      var r := [d[0]] + rest;
      assert Remove(d, k).value == r;
      forall i, j | 0 <= i < j < |r|
        ensures r[i].0 != r[j].0
      {
        if i > 0 {
          assert r[i] == rest[i - 1] && r[j] == rest[j - 1];
        } else {
          assert r[j] == rest[j - 1];
        }
      }
    } else {
      UniqueHead(d);
    }
  }
}
