/**
 * Collection helpers shared by the dashboard, the time-entry page and the
 * import scripts: an optional value (TypeScript's `T | null | undefined`),
 * order-preserving filtering (`Array.prototype.filter`) and an
 * insertion-ordered map (a JavaScript `Map`, or a plain object whose keys
 * are not array indices, iterated by `Object.values`).
 */
module Collections {

  datatype Option<+T> = None | Some(value: T)

  /** `s.filter(p)`: the elements of `s` that satisfy `p`, in their order. */
  function Filter<T(!new)>(s: seq<T>, p: T -> bool): (r: seq<T>)
    ensures |r| <= |s|
  {
    if s == [] then []
    else if p(s[0]) then [s[0]] + Filter(s[1..], p)
    else Filter(s[1..], p)
  }

  /** An element is kept exactly when it occurs in the input and satisfies the predicate. */
  lemma {:induction false} FilterMembership<T(!new)>(s: seq<T>, p: T -> bool)
    ensures forall x :: x in Filter(s, p) <==> x in s && p(x)
  {
    if s != [] {
      FilterMembership(s[1..], p);
      assert s == [s[0]] + s[1..];
    }
  }

  /**
   * Filtering distributes over concatenation. Together with the
   * singleton case this pins `Filter` down completely, and in particular
   * says that kept elements stay in their relative order.
   */
  lemma {:induction false} FilterAppend<T(!new)>(a: seq<T>, b: seq<T>, p: T -> bool)
    ensures Filter(a + b, p) == Filter(a, p) + Filter(b, p)
  {
    if a == [] {
      assert a + b == b;
    } else {
      assert (a + b)[1..] == a[1..] + b;
      FilterAppend(a[1..], b, p);
    }
  }

  /** A filter whose predicate holds everywhere returns its input. */
  lemma {:induction false} FilterKeepsAll<T(!new)>(s: seq<T>, p: T -> bool)
    requires forall i :: 0 <= i < |s| ==> p(s[i])
    ensures Filter(s, p) == s
  {
    if s != [] {
      FilterKeepsAll(s[1..], p);
    }
  }

  /** Filtering with `p` and then with `q` is filtering with both. */
  lemma {:induction false} FilterFilter<T(!new)>(s: seq<T>, p: T -> bool, q: T -> bool, pq: T -> bool)
    requires forall x :: pq(x) == (p(x) && q(x))
    ensures Filter(Filter(s, p), q) == Filter(s, pq)
  {
    if s != [] {
      FilterFilter(s[1..], p, q, pq);
    }
  }

  /** The number of elements of `s` that satisfy `p`. */
  function Count<T(!new)>(s: seq<T>, p: T -> bool): nat
  {
    |Filter(s, p)|
  }

  /**
   * A JavaScript `Map` (or an object used as a dictionary): the keys in
   * the order they were first set, and the current value of each key.
   */
  datatype OrderedMap<K(!new), V> = OrderedMap(keys: seq<K>, values: map<K, V>)
  {
    ghost predicate Valid()
    {
      && (forall i, j :: 0 <= i < j < |keys| ==> keys[i] != keys[j])
      && (forall k :: k in values <==> k in keys)
    }

    /** `m.set(k, v)`: a new key goes to the end, an existing key keeps its place. */
    function Set(k: K, v: V): (m: OrderedMap<K, V>)
      requires Valid()
      ensures m.Valid()
      ensures m.values == values[k := v]
      ensures k in values ==> m.keys == keys
      ensures k !in values ==> m.keys == keys + [k]
    {
      if k in values then OrderedMap(keys, values[k := v])
      else OrderedMap(keys + [k], values[k := v])
    }

    /** `Object.values(m)` / `m.values()`: the values in key order. */
    function Values(): (vs: seq<V>)
      requires Valid()
      ensures |vs| == |keys|
      ensures forall i :: 0 <= i < |keys| ==> vs[i] == values[keys[i]]
    {
      seq(|keys|, i requires 0 <= i < |keys| => values[keys[i]])
    }
  }

  /** Setting an existing key replaces its value in place; setting a new key appends its value. */
  lemma SetValues<K(!new), V>(m: OrderedMap<K, V>, k: K, v: V)
    requires m.Valid()
    ensures k !in m.values ==> m.Set(k, v).Values() == m.Values() + [v]
    ensures forall i :: 0 <= i < |m.keys| && m.keys[i] == k ==> m.Set(k, v).Values() == m.Values()[i := v]
  {
    var m' := m.Set(k, v);
    if k !in m.values {
      assert forall i :: 0 <= i < |m.keys| ==> m.keys[i] != k;
      assert m'.Values() == m.Values() + [v];
    } else {
      forall i | 0 <= i < |m.keys| && m.keys[i] == k
        ensures m'.Values() == m.Values()[i := v]
      {
        assert forall j :: 0 <= j < |m.keys| && j != i ==> m.keys[j] != k;
      }
    }
  }

  function EmptyMap<K(!new), V>(): (m: OrderedMap<K, V>)
    ensures m.Valid() && m.keys == [] && m.values == map[]
  {
    OrderedMap([], map[])
  }
}
