/** Small shared vocabulary: optional values, results, and finite sums and
    filters over sequences, with the algebra the ledger proofs need. */
module Common {

  datatype Option<T> = None | Some(value: T) {
    function GetOr(default: T): T {
      match this
      case Some(v) => v
      case None => default
    }
  }

  datatype Result<T, E> = Ok(value: T) | Err(error: E)

  /** Calendar day as an integer whose order is the calendar order
      (yyyymmdd, so 1900-01-01 is 19000101). */
  type Date = int

  /** Sum of f over the elements of s, in order. */
  function Sum<T>(s: seq<T>, f: T -> int): int
  {
    if s == [] then 0 else f(s[0]) + Sum(s[1..], f)
  }

  /** The elements of s that satisfy p, in their original order. */
  function Filter<T>(s: seq<T>, p: T -> bool): (r: seq<T>)
    ensures |r| <= |s|
    ensures forall t :: t in r ==> t in s && p(t)
    ensures forall t :: t in s && p(t) ==> t in r
  {
    if s == [] then [] else (if p(s[0]) then [s[0]] else []) + Filter(s[1..], p)
  }

  lemma {:induction false} SumAppend<T>(a: seq<T>, b: seq<T>, f: T -> int)
    ensures Sum(a + b, f) == Sum(a, f) + Sum(b, f)
  {
    if a == [] {
      assert a + b == b;
    } else {
      assert (a + b)[1..] == a[1..] + b;
      SumAppend(a[1..], b, f);
    }
  }

  lemma {:induction false} FilterAppend<T>(a: seq<T>, b: seq<T>, p: T -> bool)
    ensures Filter(a + b, p) == Filter(a, p) + Filter(b, p)
  {
    if a == [] {
      assert a + b == b;
    } else {
      assert (a + b)[1..] == a[1..] + b;
      FilterAppend(a[1..], b, p);
    }
  }

  /** Filtering with two predicates that agree on every element gives the same sequence. */
  lemma {:induction false} FilterSame<T>(s: seq<T>, p: T -> bool, q: T -> bool)
    requires forall t :: t in s ==> p(t) == q(t)
    ensures Filter(s, p) == Filter(s, q)
  {
    if s != [] {
      FilterSame(s[1..], p, q);
    }
  }

  lemma {:induction false} FilterAll<T>(s: seq<T>, p: T -> bool)
    requires forall t :: t in s ==> p(t)
    ensures Filter(s, p) == s
  {
    if s != [] {
      FilterAll(s[1..], p);
    }
  }

  lemma {:induction false} FilterNone<T>(s: seq<T>, p: T -> bool)
    requires forall t :: t in s ==> !p(t)
    ensures Filter(s, p) == []
  {
    if s != [] {
      FilterNone(s[1..], p);
    }
  }

  /** Filtering twice is filtering once by the conjunction. */
  lemma {:induction false} FilterFilter<T>(s: seq<T>, p: T -> bool, q: T -> bool, r: T -> bool)
    requires forall t :: t in s ==> r(t) == (p(t) && q(t))
    ensures Filter(Filter(s, p), q) == Filter(s, r)
  {
    if s != [] {
      FilterFilter(s[1..], p, q, r);
      FilterAppend(if p(s[0]) then [s[0]] else [], Filter(s[1..], p), q);
    }
  }

  /** A filter whose predicate is the disjoint union of two others sums to the
      sum of the two filters. */
  lemma {:induction false} SumSplit<T>(s: seq<T>, p: T -> bool, q: T -> bool, r: T -> bool, f: T -> int)
    requires forall t :: t in s ==> (p(t) <==> q(t) || r(t)) && !(q(t) && r(t))
    ensures Sum(Filter(s, p), f) == Sum(Filter(s, q), f) + Sum(Filter(s, r), f)
  {
    if s != [] {
      SumSplit(s[1..], p, q, r, f);
      var hp := if p(s[0]) then [s[0]] else [];
      var hq := if q(s[0]) then [s[0]] else [];
      var hr := if r(s[0]) then [s[0]] else [];
      SumAppend(hp, Filter(s[1..], p), f);
      SumAppend(hq, Filter(s[1..], q), f);
      SumAppend(hr, Filter(s[1..], r), f);
    }
  }

  /** Sums are linear: summing a pointwise difference is the difference of sums. */
  lemma {:induction false} SumDifference<T>(s: seq<T>, f: T -> int, g: T -> int, h: T -> int)
    requires forall t :: t in s ==> h(t) == f(t) - g(t)
    ensures Sum(s, h) == Sum(s, f) - Sum(s, g)
  {
    if s != [] {
      SumDifference(s[1..], f, g, h);
    }
  }

  /** Sums of pointwise-equal functions agree. */
  lemma {:induction false} SumSame<T>(s: seq<T>, f: T -> int, g: T -> int)
    requires forall t :: t in s ==> f(t) == g(t)
    ensures Sum(s, f) == Sum(s, g)
  {
    if s != [] {
      SumSame(s[1..], f, g);
    }
  }

  /** Summing f over the elements that satisfy p is summing, over all
      elements, f where p holds and 0 elsewhere. */
  lemma {:induction false} SumFilter<T>(s: seq<T>, p: T -> bool, f: T -> int, g: T -> int)
    requires forall t :: g(t) == if p(t) then f(t) else 0
    ensures Sum(Filter(s, p), f) == Sum(s, g)
  {
    if s != [] {
      var head := if p(s[0]) then [s[0]] else [];
      SumAppend(head, Filter(s[1..], p), f);
      SumFilter(s[1..], p, f, g);
    }
  }

  lemma {:induction false} SumSnoc<T>(s: seq<T>, x: T, f: T -> int)
    ensures Sum(s + [x], f) == Sum(s, f) + f(x)
  {
    SumAppend(s, [x], f);
  }

  /** Indices 0 <= i < n of s, in increasing order, whose element satisfies p. */
  function IndicesWhere<T>(s: seq<T>, p: T -> bool, n: nat): (r: seq<nat>)
    requires n <= |s|
    ensures forall i: nat :: i in r <==> i < n && p(s[i])
    ensures forall a, b :: 0 <= a < b < |r| ==> r[a] < r[b]
    ensures forall k :: 0 <= k < |r| ==> r[k] < n
  {
    if n == 0 then [] else IndicesWhere(s, p, n - 1) + (if p(s[n - 1]) then [n - 1] else [])
  }

  /** The map that sets keys[i] to vals[i] for each i in order, so a later
      key replaces an earlier equal one. */
  function Keyed<K, V>(keys: seq<K>, vals: seq<V>): map<K, V>
    requires |keys| == |vals|
    decreases |keys|
  {
    if keys == [] then map[]
    else
      var n := |keys| - 1;
      Keyed(keys[..n], vals[..n])[keys[n] := vals[n]]
  }

  lemma KeyedSnoc<K, V>(keys: seq<K>, vals: seq<V>, k: nat)
    requires |keys| == |vals| && k < |keys|
    ensures Keyed(keys[..k + 1], vals[..k + 1]) == Keyed(keys[..k], vals[..k])[keys[k] := vals[k]]
  {
    assert keys[..k + 1][..k] == keys[..k];
    assert vals[..k + 1][..k] == vals[..k];
  }

  /** The keys of the map are exactly the listed keys. */
  lemma {:induction false} KeyedKeys<K, V>(keys: seq<K>, vals: seq<V>)
    requires |keys| == |vals|
    ensures forall x :: x in Keyed(keys, vals) <==> x in keys
    decreases |keys|
  {
    if keys != [] {
      var n := |keys| - 1;
      KeyedKeys(keys[..n], vals[..n]);
      assert keys == keys[..n] + [keys[n]];
    }
  }

  /** When equal keys carry equal values, every key maps to its own value. */
  lemma {:induction false} KeyedLookup<K, V>(keys: seq<K>, vals: seq<V>, k: nat)
    requires |keys| == |vals| && k < |keys|
    requires forall i, j :: 0 <= i < |keys| && 0 <= j < |keys| && keys[i] == keys[j] ==> vals[i] == vals[j]
    ensures keys[k] in Keyed(keys, vals) && Keyed(keys, vals)[keys[k]] == vals[k]
    decreases |keys|
  {
    var n := |keys| - 1;
    if keys[k] != keys[n] {
      KeyedLookup(keys[..n], vals[..n], k);
    }
  }
}
